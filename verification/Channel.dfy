/** One file descriptor's interest, its slot in a poller, and the dispatch of its events. */
module Channel {
  import opened Sequences

  /** events_: the source only ever sets and clears the read mask and the write mask. */
  datatype Interest = Interest(reading: bool, writing: bool)
  {
    predicate IsNone() {
      !reading && !writing
    }
  }

  const NO_INTEREST := Interest(false, false)

  /** revents_, bit by bit. */
  datatype Revents = Revents(
    readable: bool, urgent: bool, writable: bool,
    hangup: bool, peerHangup: bool, error: bool, invalid: bool
  )

  datatype Callback = OnClose | OnError | OnRead | OnWrite

  predicate Triggers(r: Revents, c: Callback) {
    match c
    case OnClose => r.hangup && !r.readable
    case OnError => r.error || r.invalid
    case OnRead => r.readable || r.urgent || r.peerHangup
    case OnWrite => r.writable
  }

  function Rank(c: Callback): nat {
    match c
    case OnClose => 0
    case OnError => 1
    case OnRead => 2
    case OnWrite => 3
  }

  function OneIf(b: bool, c: Callback): seq<Callback> {
    if b then [c] else []
  }

  /** The callbacks of one dispatch: those triggered, each once, in the fixed order. */
  function Dispatch(r: Revents): seq<Callback> {
    InOrder(r.hangup && !r.readable, r.error || r.invalid, r.readable || r.urgent || r.peerHangup, r.writable)
  }

  function InOrder(close: bool, error: bool, read: bool, write: bool): seq<Callback> {
    OneIf(close, OnClose) + OneIf(error, OnError) + OneIf(read, OnRead) + OneIf(write, OnWrite)
  }

  lemma DispatchInOrder(r: Revents)
    ensures forall c :: c in Dispatch(r) <==> Triggers(r, c)
    ensures forall i, j | 0 <= i < j < |Dispatch(r)| :: Rank(Dispatch(r)[i]) < Rank(Dispatch(r)[j])
  {
  }

  class Channel {
    const fd: int
    var events: Interest
    // slot number in the poll poller; new, added or deleted mark in the epoll poller
    var index: int
    var eventHandling: bool
    // the callbacks called so far
    var fired: seq<Callback>

    constructor (fd: int)
      ensures this.fd == fd && events == NO_INTEREST && index == -1 && !eventHandling && fired == []
    {
      this.fd := fd;
      events, index, eventHandling, fired := NO_INTEREST, -1, false, [];
    }

    /** if (revents_ & mask) if (callback) callback(); */
    method CallIf(triggered: bool, c: Callback)
      modifies this`fired
      ensures fired == old(fired) + OneIf(triggered, c)
    {
      if triggered {
        fired := fired + [c];
      }
    }

    method HandleEventWithGuard(revents: Revents)
      modifies this`eventHandling, this`fired
      ensures fired == old(fired) + Dispatch(revents) && !eventHandling
    {
      eventHandling := true;
      CallIf(revents.hangup && !revents.readable, OnClose);
      CallIf(revents.error || revents.invalid, OnError);
      CallIf(revents.readable || revents.urgent || revents.peerHangup, OnRead);
      CallIf(revents.writable, OnWrite);
      AppendFour(old(fired), OneIf(revents.hangup && !revents.readable, OnClose),
                 OneIf(revents.error || revents.invalid, OnError),
                 OneIf(revents.readable || revents.urgent || revents.peerHangup, OnRead),
                 OneIf(revents.writable, OnWrite));
      eventHandling := false;
    }
  }
}
