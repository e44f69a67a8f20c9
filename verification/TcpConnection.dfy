/** The four states of a connection, and how one dispatch of its channel may close it. */
module ConnectionState {
  import opened Channel

  datatype ConnState = Disconnected | Connecting | Connected | Disconnecting

  /** What read(2) answers: bytes for the message callback, end of stream, or an error. */
  datatype ReadResult = Bytes | EndOfStream | ReadError

  /** The close callback is called. */
  predicate ClosedByHangup(r: Revents) {
    Triggers(r, OnClose)
  }

  /** The read callback finds the end of the stream, and closes. */
  predicate ClosedByRead(r: Revents, read: ReadResult) {
    Triggers(r, OnRead) && read == EndOfStream
  }

  /** A hangup without readable data, with urgent data or a peer hangup, and then the end of the stream. */
  predicate ClosesTwice(r: Revents, read: ReadResult) {
    r.hangup && !r.readable && (r.urgent || r.peerHangup) && read == EndOfStream
  }

  lemma ClosesTwiceIff(r: Revents, read: ReadResult)
    ensures ClosesTwice(r, read) <==> ClosedByHangup(r) && ClosedByRead(r, read)
  {
  }
}

/**
 The sending side of a connection: direct writes, the backlog in the output
 buffer, write interest, the high-water mark, and the graceful half-close.
 All calls are on the connection's loop thread; the kernel's answer to each
 write is part of the event.
 */
module TcpConnection {
  import opened Endian
  import opened Buffer
  import opened Channel
  import opened ConnectionState
  import opened Sequences

  /** What write(2) answers: some number of bytes, or -1 with an errno. */
  datatype WriteResult = Wrote(n: nat) | WouldBlock | BrokenPipe | OtherError

  /** A message taken over for sending, and how much of it the first write took. */
  datatype Sent = Sent(message: seq<byte>, direct: nat)

  /** What the connection did, in order. */
  datatype Effect =
    | WriteAttempt(offered: nat)
    | Drained(before: nat, after: nat)
    | HighWater(size: nat)
    | WriteComplete
    | ShutdownWrite(backlog: nat, closed: bool)
    | Up
    | Down

  datatype State = State(
    state: ConnState,
    // the channel's interest
    reading: bool,
    writing: bool,
    // outputBuffer_
    backlog: seq<byte>,
    mark: nat,
    // connectionEstablished has run
    established: bool,
    // socket_->shutdownWrite() has been called
    halfClosed: bool,
    // forceClose functors in the loop's queue, and forceCloseWithDelay timers
    queuedShutdowns: nat,
    delayedCloses: nat,
    // bytes the kernel took, messages taken over, and the effects so far
    taken: seq<byte>,
    sent: seq<Sent>,
    log: seq<Effect>
  )
  {
    predicate Closed() {
      established && !reading
    }

    predicate Open() {
      established && reading
    }
  }

  datatype Event =
    | Establish
    | Send(message: seq<byte>, result: WriteResult)
    | Writable(result: WriteResult)
    | Shutdown
    | ForceClose
    | RunShutdownInLoop
    | ForceCloseWithDelay
    | DelayExpires
    | Close

  function Initial(mark: nat): State {
    State(Connecting, false, false, [], mark, false, false, 0, 0, [], [], [])
  }

  predicate Answers(result: WriteResult, offered: nat) {
    result.Wrote? ==> result.n <= offered
  }

  /**
   When an event can occur.  User calls come after the UP callback hands out the
   connection.  A close may follow a close: one dispatch can call handleClose twice.
   */
  predicate Enabled(s: State, e: Event) {
    match e
    case Establish => !s.established
    case Send(m, result) => s.established && Answers(result, |m|)
    case Writable(result) => s.established && (s.writing ==> Answers(result, |s.backlog|))
    case Shutdown => s.established
    case ForceClose => s.established
    case RunShutdownInLoop => s.queuedShutdowns > 0
    case ForceCloseWithDelay => s.established
    case DelayExpires => s.delayedCloses > 0
    case Close => s.established
  }

  /** The assertions of connectionEstablished and handleClose. */
  predicate StepAsserts(s: State, e: Event) {
    match e
    case Establish => s.state == Connecting
    case Close => s.state in {Connected, Disconnecting}
    case _ => true
  }

  function Log(s: State, x: Effect): State {
    s.(log := s.log + [x])
  }

  function ShutdownInLoopStep(s: State): State {
    if !s.writing then Log(s.(halfClosed := true), ShutdownWrite(|s.backlog|, s.Closed())) else s
  }

  /** Lines 110-121: what the first write left goes to the backlog, from the message's front. */
  function KeepRemaining(s: State, m: seq<byte>, remaining: nat): State
    requires remaining <= |m|
  {
    if remaining == 0 then s
    else
      var size := |s.backlog| + remaining;
      var marked := if size >= s.mark && |s.backlog| < s.mark then Log(s, HighWater(size)) else s;
      marked.(backlog := s.backlog + m[..remaining], writing := true)
  }

  /** Lines 88-105: the direct write of a message. */
  function FirstWriteStep(s: State, m: seq<byte>, result: WriteResult): State
    requires Answers(result, |m|)
  {
    var tried := Log(s, WriteAttempt(|m|));
    match result
    case BrokenPipe => tried
    case Wrote(n) =>
      var wrote := tried.(taken := s.taken + m[..n], sent := s.sent + [Sent(m, n)]);
      if n == |m| then Log(wrote, WriteComplete) else wrote
    case _ => tried.(sent := s.sent + [Sent(m, 0)])
  }

  function SendInLoopStep(s: State, m: seq<byte>, result: WriteResult): State
    requires Answers(result, |m|)
  {
    if s.state == Disconnected then s
    else if !s.writing && s.backlog == [] then
      var tried := FirstWriteStep(s, m, result);
      if result.BrokenPipe? then tried
      else KeepRemaining(tried, m, if result.Wrote? then |m| - result.n else |m|)
    else
      KeepRemaining(s.(sent := s.sent + [Sent(m, 0)]), m, |m|)
  }

  function HandleWriteStep(s: State, result: WriteResult): State
    requires s.writing ==> Answers(result, |s.backlog|)
  {
    if !s.writing then s
    else
      var tried := Log(s, WriteAttempt(|s.backlog|));
      if result.Wrote? && result.n > 0 then
        var left := s.backlog[result.n..];
        var drained := Log(tried.(taken := s.taken + s.backlog[..result.n], backlog := left),
                           Drained(|s.backlog|, |left|));
        if left == [] then
          var done := Log(drained.(writing := false), WriteComplete);
          if s.state == Disconnecting then ShutdownInLoopStep(done) else done
        else drained
      else tried
  }

  function ForceCloseStep(s: State): State {
    if s.state == Connected || s.state == Disconnecting
    then s.(state := Disconnecting, queuedShutdowns := s.queuedShutdowns + 1)
    else s
  }

  function Exec(s: State, e: Event): State
    requires Enabled(s, e)
  {
    match e
    case Establish =>
      Log(s.(state := Connected, reading := true, established := true), Up)
    case Send(m, result) =>
      if s.state == Connected then SendInLoopStep(s, m, result) else s
    case Writable(result) =>
      HandleWriteStep(s, result)
    case Shutdown =>
      var disconnecting := s.(state := Disconnecting);
      if s.state == Connected then ShutdownInLoopStep(disconnecting) else disconnecting
    case ForceClose =>
      ForceCloseStep(s)
    case RunShutdownInLoop =>
      ShutdownInLoopStep(s.(queuedShutdowns := s.queuedShutdowns - 1))
    case ForceCloseWithDelay =>
      if s.state == Connected || s.state == Disconnecting
      then s.(state := Disconnecting, delayedCloses := s.delayedCloses + 1)
      else s
    case DelayExpires =>
      ForceCloseStep(s.(delayedCloses := s.delayedCloses - 1))
    case Close =>
      Log(s.(state := Disconnected, reading := false, writing := false), Down)
  }

  predicate Legal(s: State, es: seq<Event>)
    decreases |es|
  {
    es == [] || (Enabled(s, es[0]) && Legal(Exec(s, es[0]), es[1..]))
  }

  function Run(s: State, es: seq<Event>): State
    requires Legal(s, es)
    decreases |es|
  {
    if es == [] then s else Run(Exec(s, es[0]), es[1..])
  }

  /** Every assertion along the run holds. */
  predicate AllAssertsHold(s: State, es: seq<Event>)
    requires Legal(s, es)
    decreases |es|
  {
    es == [] || (StepAsserts(s, es[0]) && AllAssertsHold(Exec(s, es[0]), es[1..]))
  }

  // ---- interest, state and half-close ----

  predicate InterestInv(s: State) {
    && (!s.established ==> s == Initial(s.mark))
    && (s.Open() ==> s.state in {Connected, Disconnecting} && (s.writing <==> s.backlog != []))
    && (s.Closed() ==> s.state in {Disconnected, Disconnecting} && !s.writing)
    && (s.halfClosed ==> s.state != Connected && !s.writing)
    && (s.queuedShutdowns > 0 ==> s.state != Connected)
    && (s.Open() && s.state == Disconnecting && s.backlog == []
        ==> s.halfClosed || s.queuedShutdowns > 0 || s.delayedCloses > 0)
  }

  lemma StepKeepsInterestInv(s: State, e: Event)
    requires InterestInv(s) && Enabled(s, e)
    ensures InterestInv(Exec(s, e))
  {
  }

  // ---- the account of a run ----

  /**
   What a run should have come to, kept without looking at the connection: only the
   calls made on it, the kernel's answers, and how many bytes are left over.
   */
  datatype Account = Account(
    // up and not yet closed; sends are still taken; not torn down
    open: bool,
    connected: bool,
    alive: bool,
    left: nat,
    taken: nat,
    accepted: seq<Sent>,
    queued: nat,
    delayed: nat,
    // callbacks and half-closes, in order
    shown: seq<Effect>
  )

  const NEW_ACCOUNT := Account(false, false, false, 0, 0, [], 0, 0, [])

  function Show(a: Account, more: seq<Effect>): Account {
    a.(shown := a.shown + more)
  }

  /** So many more bytes wait: the high-water callback is due when that crosses the mark from below. */
  function Leave(a: Account, mark: nat, more: nat): Account {
    Show(a, if a.left < mark <= a.left + more then [HighWater(a.left + more)] else []).(left := a.left + more)
  }

  /** A send while connected: written directly if nothing waits, and the rest waits its turn. */
  function AccountSend(a: Account, mark: nat, m: seq<byte>, result: WriteResult): Account
    requires Answers(result, |m|)
  {
    if a.left > 0 then Leave(a.(accepted := a.accepted + [Sent(m, 0)]), mark, |m|)
    else
      match result
      case BrokenPipe => a
      case Wrote(n) =>
        var wrote := a.(taken := a.taken + n, accepted := a.accepted + [Sent(m, n)]);
        Leave(Show(wrote, if n == |m| then [WriteComplete] else []), mark, |m| - n)
      case _ => Leave(a.(accepted := a.accepted + [Sent(m, 0)]), mark, |m|)
  }

  /** The socket is writable: what is written leaves, and the last of it completes the write and a half-close. */
  function AccountWrite(a: Account, result: WriteResult): Account {
    if a.open && a.left > 0 && result.Wrote? && 0 < result.n <= a.left then
      var wrote := a.(taken := a.taken + result.n, left := a.left - result.n);
      if wrote.left > 0 then wrote
      else Show(wrote, [WriteComplete] + (if a.connected then [] else [ShutdownWrite(0, false)]))
    else a
  }

  function AccountStep(a: Account, mark: nat, e: Event): Account
    requires e.Send? ==> Answers(e.result, |e.message|)
  {
    match e
    case Establish => Show(a.(open := true, connected := true, alive := true), [Up])
    case Send(m, result) => if a.connected then AccountSend(a, mark, m, result) else a
    case Writable(result) => AccountWrite(a, result)
    // the state becomes disconnecting even after a close
    case Shutdown =>
      Show(a.(connected := false, alive := true),
           if a.connected && a.left == 0 then [ShutdownWrite(0, false)] else [])
    case ForceClose => a.(connected := false, queued := if a.alive then a.queued + 1 else a.queued)
    case RunShutdownInLoop =>
      Show(a.(queued := if a.queued > 0 then a.queued - 1 else 0),
           if a.open && a.left > 0 then [] else [ShutdownWrite(a.left, !a.open)])
    case ForceCloseWithDelay => a.(connected := false, delayed := if a.alive then a.delayed + 1 else a.delayed)
    case DelayExpires =>
      a.(connected := false, delayed := if a.delayed > 0 then a.delayed - 1 else 0,
         queued := if a.alive then a.queued + 1 else a.queued)
    case Close => Show(a.(open := false, connected := false, alive := false), [Down])
  }

  /** Sends only with answers the kernel can give. */
  predicate Answered(es: seq<Event>) {
    forall e <- es :: e.Send? ==> Answers(e.result, |e.message|)
  }

  function AccountOf(a: Account, mark: nat, es: seq<Event>): Account
    requires Answered(es)
    decreases |es|
  {
    if es == [] then a
    else
      assert es[0] in es;
      AccountOf(AccountStep(a, mark, es[0]), mark, es[1..])
  }

  /** The callbacks and half-closes among the effects. */
  function Shown(log: seq<Effect>): seq<Effect> {
    if log == [] then []
    else
      var x := log[|log| - 1];
      Shown(log[..|log| - 1]) + (if x.WriteAttempt? || x.Drained? then [] else [x])
  }

  lemma LogShows(s: State, x: Effect)
    ensures Shown(Log(s, x).log) == Shown(s.log) + (if x.WriteAttempt? || x.Drained? then [] else [x])
  {
    assert (s.log + [x])[..|s.log|] == s.log;
  }

  /** The connection is as the account says. */
  predicate Agrees(s: State, a: Account) {
    && a.open == s.Open() && a.connected == (s.state == Connected)
    && a.alive == (s.state == Connected || s.state == Disconnecting)
    && a.left == |s.backlog| && a.taken == |s.taken| && a.accepted == s.sent
    && a.queued == s.queuedShutdowns && a.delayed == s.delayedCloses
    && a.shown == Shown(s.log)
  }

  lemma ShowAgrees(s: State, a: Account, x: Effect)
    requires Agrees(s, a) && !x.WriteAttempt? && !x.Drained?
    ensures Agrees(Log(s, x), Show(a, [x]))
  {
    LogShows(s, x);
  }

  lemma BacklogAgrees(s: State, a: Account, more: seq<byte>)
    requires Agrees(s, a)
    ensures Agrees(s.(backlog := s.backlog + more, writing := true), a.(left := a.left + |more|))
  {
  }

  lemma CrossingAgrees(s: State, a: Account, m: seq<byte>)
    requires Agrees(s, a) && |s.backlog| < s.mark <= |s.backlog| + |m|
    ensures Agrees(KeepRemaining(s, m, |m|), Leave(a, s.mark, |m|))
  {
    var x := HighWater(|s.backlog| + |m|);
    ShowAgrees(s, a, x);
    BacklogAgrees(Log(s, x), Show(a, [x]), m);
    assert m[..|m|] == m;
    assert KeepRemaining(s, m, |m|) == Log(s, x).(backlog := s.backlog + m, writing := true);
    assert Leave(a, s.mark, |m|) == Show(a, [x]).(left := a.left + |m|);
  }

  lemma NotCrossingAgrees(s: State, a: Account, m: seq<byte>)
    requires Agrees(s, a) && m != [] && !(|s.backlog| < s.mark <= |s.backlog| + |m|)
    ensures Agrees(KeepRemaining(s, m, |m|), Leave(a, s.mark, |m|))
  {
    BacklogAgrees(s, a, m);
    assert m[..|m|] == m;
    assert KeepRemaining(s, m, |m|) == s.(backlog := s.backlog + m, writing := true);
    assert Show(a, []) == a;
    assert Leave(a, s.mark, |m|) == a.(left := a.left + |m|);
  }

  lemma KeepRemainingAgrees(s: State, a: Account, m: seq<byte>, remaining: nat)
    requires Agrees(s, a) && remaining <= |m|
    ensures Agrees(KeepRemaining(s, m, remaining), Leave(a, s.mark, remaining))
  {
    var kept := m[..remaining];
    assert KeepRemaining(s, m, remaining) == KeepRemaining(s, kept, |kept|);
    if remaining == 0 {
      assert Show(a, []) == a;
    } else if |s.backlog| < s.mark <= |s.backlog| + remaining {
      CrossingAgrees(s, a, kept);
    } else {
      NotCrossingAgrees(s, a, kept);
    }
  }

  lemma FirstWriteAgrees(s: State, a: Account, m: seq<byte>, result: WriteResult)
    requires Agrees(s, a) && Answers(result, |m|) && result.Wrote?
    ensures var n := result.n;
            var wrote := a.(taken := a.taken + n, accepted := a.accepted + [Sent(m, n)]);
            Agrees(FirstWriteStep(s, m, result), Show(wrote, if n == |m| then [WriteComplete] else []))
  {
    var tried := Log(s, WriteAttempt(|m|));
    LogShows(s, WriteAttempt(|m|));
    LogShows(tried.(taken := s.taken + m[..result.n], sent := s.sent + [Sent(m, result.n)]), WriteComplete);
  }

  lemma SendAgrees(s: State, a: Account, m: seq<byte>, result: WriteResult)
    requires InterestInv(s) && Agrees(s, a) && s.state == Connected && Answers(result, |m|)
    ensures Agrees(SendInLoopStep(s, m, result), AccountSend(a, s.mark, m, result))
  {
    var accepted := a.(accepted := a.accepted + [Sent(m, 0)]);
    if s.writing {
      KeepRemainingAgrees(s.(sent := s.sent + [Sent(m, 0)]), accepted, m, |m|);
    } else {
      LogShows(s, WriteAttempt(|m|));
      var tried := FirstWriteStep(s, m, result);
      match result {
        case BrokenPipe =>
        case Wrote(n) =>
          var wrote := a.(taken := a.taken + n, accepted := a.accepted + [Sent(m, n)]);
          FirstWriteAgrees(s, a, m, result);
          KeepRemainingAgrees(tried, Show(wrote, if n == |m| then [WriteComplete] else []), m, |m| - n);
        case _ => KeepRemainingAgrees(tried, accepted, m, |m|);
      }
    }
  }

  /** The state in which the front of the backlog has just been written. */
  function WrittenOff(s: State, n: nat): State
    requires n <= |s.backlog|
  {
    var moved := Log(s, WriteAttempt(|s.backlog|)).(taken := s.taken + s.backlog[..n], backlog := s.backlog[n..]);
    Log(moved, Drained(|s.backlog|, |s.backlog| - n))
  }

  lemma WrittenOffAgrees(s: State, a: Account, n: nat)
    requires Agrees(s, a) && n <= |s.backlog|
    ensures Agrees(WrittenOff(s, n), a.(taken := a.taken + n, left := a.left - n))
  {
    var tried := Log(s, WriteAttempt(|s.backlog|));
    LogShows(s, WriteAttempt(|s.backlog|));
    var moved := tried.(taken := s.taken + s.backlog[..n], backlog := s.backlog[n..]);
    LogShows(moved, Drained(|s.backlog|, |s.backlog| - n));
  }

  lemma CompletionAgrees(s: State, a: Account)
    requires Agrees(s, a)
    ensures Agrees(Log(s.(writing := false), WriteComplete), Show(a, [WriteComplete]))
  {
    LogShows(s.(writing := false), WriteComplete);
  }

  lemma HalfCloseAgrees(s: State, a: Account)
    requires Agrees(s, a) && s.Open() && !s.writing && s.backlog == []
    ensures Agrees(ShutdownInLoopStep(s), Show(a, [ShutdownWrite(0, false)]))
  {
    LogShows(s.(halfClosed := true), ShutdownWrite(0, false));
  }

  lemma WriteAgrees(s: State, a: Account, result: WriteResult)
    requires InterestInv(s) && Agrees(s, a) && s.established && (s.writing ==> Answers(result, |s.backlog|))
    ensures Agrees(HandleWriteStep(s, result), AccountWrite(a, result))
  {
    if s.writing && result.Wrote? && result.n > 0 {
      var n := result.n;
      WrittenOffAgrees(s, a, n);
      var wrote := a.(taken := a.taken + n, left := a.left - n);
      if n == |s.backlog| {
        CompletionAgrees(WrittenOff(s, n), wrote);
        var done := Log(WrittenOff(s, n).(writing := false), WriteComplete);
        HalfCloseAgrees(done, Show(wrote, [WriteComplete]));
      }
    } else {
      LogShows(s, WriteAttempt(|s.backlog|));
    }
  }

  lemma OthersAgree(s: State, a: Account, e: Event)
    requires InterestInv(s) && Agrees(s, a) && Enabled(s, e) && !e.Writable? && (e.Send? ==> s.state != Connected)
    ensures Agrees(Exec(s, e), AccountStep(a, s.mark, e))
  {
    match e {
      case Establish => LogShows(s.(state := Connected, reading := true, established := true), Up);
      case Shutdown =>
        LogShows(s.(state := Disconnecting, halfClosed := true), ShutdownWrite(|s.backlog|, s.Closed()));
      case RunShutdownInLoop =>
        LogShows(s.(queuedShutdowns := s.queuedShutdowns - 1, halfClosed := true),
                 ShutdownWrite(|s.backlog|, s.Closed()));
      case Close => LogShows(s.(state := Disconnected, reading := false, writing := false), Down);
      case _ =>
    }
  }

  lemma StepAgrees(s: State, a: Account, e: Event)
    requires InterestInv(s) && Agrees(s, a) && Enabled(s, e)
    ensures Agrees(Exec(s, e), AccountStep(a, s.mark, e)) && Exec(s, e).mark == s.mark
  {
    if e.Send? && s.state == Connected {
      SendAgrees(s, a, e.message, e.result);
    } else if e.Writable? {
      WriteAgrees(s, a, e.result);
    } else {
      OthersAgree(s, a, e);
    }
  }

  lemma {:induction false} RunAgrees(s: State, a: Account, es: seq<Event>)
    requires InterestInv(s) && Agrees(s, a) && Legal(s, es)
    ensures Answered(es) && Agrees(Run(s, es), AccountOf(a, s.mark, es))
    decreases |es|
  {
    if es != [] {
      StepKeepsInterestInv(s, es[0]);
      StepAgrees(s, a, es[0]);
      RunAgrees(Exec(s, es[0]), AccountStep(a, s.mark, es[0]), es[1..]);
    }
  }

  /**
   After every run the connection is what the calls and the kernel's answers account
   for: every message sent while connected was taken over, unless its direct write
   found the pipe broken; the kernel took as many bytes as its answers say; the rest
   waits; and the user saw exactly the callbacks due, at the sizes due.
   */
  lemma EverythingAccountedFor(mark: nat, es: seq<Event>)
    requires Legal(Initial(mark), es)
    ensures Answered(es) && Agrees(Run(Initial(mark), es), AccountOf(NEW_ACCOUNT, mark, es))
  {
    RunAgrees(Initial(mark), NEW_ACCOUNT, es);
  }

  // ---- the byte stream ----

  /** The bytes that a taken-over message puts on the wire, as line 117 copies them. */
  function Emitted(x: Sent): seq<byte>
    requires x.direct <= |x.message|
  {
    x.message[..x.direct] + x.message[..|x.message| - x.direct]
  }

  predicate WellSent(sent: seq<Sent>) {
    forall x <- sent :: x.direct <= |x.message|
  }

  function Stream(sent: seq<Sent>): seq<byte>
    requires WellSent(sent)
  {
    if sent == [] then [] else Stream(sent[..|sent| - 1]) + Emitted(sent[|sent| - 1])
  }

  function Messages(sent: seq<Sent>): seq<byte> {
    if sent == [] then [] else Messages(sent[..|sent| - 1]) + sent[|sent| - 1].message
  }

  predicate StreamInv(s: State) {
    WellSent(s.sent) && s.taken + s.backlog == Stream(s.sent)
  }

  lemma StreamSnoc(sent: seq<Sent>, x: Sent)
    requires WellSent(sent) && x.direct <= |x.message|
    ensures WellSent(sent + [x]) && Stream(sent + [x]) == Stream(sent) + Emitted(x)
  {
    assert (sent + [x])[..|sent|] == sent;
  }

  /** How much of the message the first write takes, if a first write is made. */
  function DirectlyWritten(s: State, result: WriteResult): nat {
    if !s.writing && s.backlog == [] && result.Wrote? then result.n else 0
  }

  predicate TakesOver(s: State, result: WriteResult) {
    s.state != Disconnected && !(!s.writing && s.backlog == [] && result.BrokenPipe?)
  }

  lemma SendEffect(s: State, m: seq<byte>, result: WriteResult)
    requires Answers(result, |m|)
    ensures var t, n := SendInLoopStep(s, m, result), DirectlyWritten(s, result);
            if TakesOver(s, result)
            then t.sent == s.sent + [Sent(m, n)] && t.taken == s.taken + m[..n] && t.backlog == s.backlog + m[..|m| - n]
            else t.sent == s.sent && t.taken == s.taken && t.backlog == s.backlog
    ensures DirectlyWritten(s, result) > 0 ==> s.backlog == []
  {
    assert m[..0] == [] && s.taken + [] == s.taken && s.backlog + [] == s.backlog;
  }

  lemma Delivered(taken: seq<byte>, backlog: seq<byte>, m: seq<byte>, n: nat)
    requires n <= |m| && (n > 0 ==> backlog == [])
    ensures taken + m[..n] + (backlog + m[..|m| - n]) == taken + backlog + Emitted(Sent(m, n))
  {
    if n == 0 {
      assert m[..0] == [] && taken + [] == taken;
      assert taken + (backlog + m) == taken + backlog + m;
    } else {
      assert [] + m[..|m| - n] == m[..|m| - n] && taken + [] == taken;
      assert taken + m[..n] + m[..|m| - n] == taken + (m[..n] + m[..|m| - n]);
    }
  }

  lemma SendKeepsStream(s: State, m: seq<byte>, result: WriteResult)
    requires StreamInv(s) && Answers(result, |m|)
    ensures StreamInv(SendInLoopStep(s, m, result))
  {
    SendEffect(s, m, result);
    if TakesOver(s, result) {
      var n := DirectlyWritten(s, result);
      StreamSnoc(s.sent, Sent(m, n));
      Delivered(s.taken, s.backlog, m, n);
    }
  }

  lemma WriteKeepsStream(s: State, result: WriteResult)
    requires StreamInv(s) && (s.writing ==> Answers(result, |s.backlog|))
    ensures StreamInv(HandleWriteStep(s, result))
  {
    if s.writing && result.Wrote? && result.n > 0 {
      assert s.backlog == s.backlog[..result.n] + s.backlog[result.n..];
      assert s.taken + s.backlog[..result.n] + s.backlog[result.n..] == s.taken + s.backlog;
    }
  }

  lemma SameStream(s: State, t: State)
    requires StreamInv(s) && t.taken == s.taken && t.backlog == s.backlog && t.sent == s.sent
    ensures StreamInv(t)
  {
  }

  /** Only sends and writes touch the stream. */
  lemma OthersKeepStream(s: State, e: Event)
    requires Enabled(s, e) && !e.Writable? && (e.Send? ==> s.state != Connected)
    ensures var t := Exec(s, e); t.taken == s.taken && t.backlog == s.backlog && t.sent == s.sent
  {
  }

  lemma StepKeepsStreamInv(s: State, e: Event)
    requires StreamInv(s) && Enabled(s, e)
    ensures StreamInv(Exec(s, e))
  {
    if e.Send? && s.state == Connected {
      SendKeepsStream(s, e.message, e.result);
    } else if e.Writable? {
      WriteKeepsStream(s, e.result);
    } else {
      OthersKeepStream(s, e);
      SameStream(s, Exec(s, e));
    }
  }

  /** The whole message went through the kernel and the buffer unharmed. */
  predicate Intact(x: Sent)
    requires x.direct <= |x.message|
  {
    x.direct == 0 || x.direct == |x.message| || x.message[x.direct..] == x.message[..|x.message| - x.direct]
  }

  lemma IntactIff(x: Sent)
    requires x.direct <= |x.message|
    ensures Emitted(x) == x.message <==> Intact(x)
    ensures |Emitted(x)| == |x.message|
  {
    var m, n := x.message, x.direct;
    assert m == m[..n] + m[n..];
    if Emitted(x) == m {
      assert Emitted(x)[n..] == m[..|m| - n];
    }
    if n == |m| {
      assert m[..0] == [] && m[..n] == m;
    }
  }

  lemma {:induction false} StreamIsMessagesIff(sent: seq<Sent>)
    requires WellSent(sent)
    ensures |Stream(sent)| == |Messages(sent)|
    ensures Stream(sent) == Messages(sent) <==> forall x <- sent :: Intact(x)
  {
    if sent != [] {
      var front, x := sent[..|sent| - 1], sent[|sent| - 1];
      StreamIsMessagesIff(front);
      IntactIff(x);
      assert sent == front + [x];
      var a, b := Stream(front), Messages(front);
      if Stream(sent) == Messages(sent) {
        assert a == (a + Emitted(x))[..|a|] && b == (b + x.message)[..|b|];
        assert Emitted(x) == (a + Emitted(x))[|a|..] && x.message == (b + x.message)[|b|..];
      }
    }
  }

  /**
   Over every run, what the kernel took followed by the backlog has as many bytes
   as the messages taken over, and is those messages exactly when every message
   whose first write was short has its unsent tail equal to its own front.
   */
  lemma {:induction false} OutputStream(s: State, es: seq<Event>)
    requires StreamInv(s) && Legal(s, es)
    ensures StreamInv(Run(s, es))
    ensures var t := Run(s, es);
            && |t.taken| + |t.backlog| == |Messages(t.sent)|
            && (t.taken + t.backlog == Messages(t.sent) <==> forall x <- t.sent :: Intact(x))
    decreases |es|
  {
    if es == [] {
      StreamIsMessagesIff(s.sent);
    } else {
      StepKeepsStreamInv(s, es[0]);
      OutputStream(Exec(s, es[0]), es[1..]);
    }
  }

  /** No first write is short: each takes the whole message or nothing. */
  predicate NoShortFirstWrite(es: seq<Event>) {
    forall e <- es :: e.Send? && e.result.Wrote? ==> e.result.n == 0 || e.result.n == |e.message|
  }

  predicate AllOrNothing(sent: seq<Sent>) {
    forall x <- sent :: x.direct == 0 || x.direct == |x.message|
  }

  predicate FromSend(x: Sent, m: seq<byte>, result: WriteResult) {
    x.message == m && (x.direct == 0 || (result.Wrote? && x.direct == result.n))
  }

  lemma {:induction false} WholeWritesStayWhole(s: State, es: seq<Event>)
    requires WellSent(s.sent) && AllOrNothing(s.sent) && Legal(s, es) && NoShortFirstWrite(es)
    ensures WellSent(Run(s, es).sent) && AllOrNothing(Run(s, es).sent)
    decreases |es|
  {
    if es != [] {
      var e := es[0];
      assert e in es;
      assert forall x <- Exec(s, e).sent :: x in s.sent || (e.Send? && FromSend(x, e.message, e.result));
      WholeWritesStayWhole(Exec(s, e), es[1..]);
    }
  }

  /**
   Without short first writes, what the kernel took followed by the backlog is the
   messages sent while connected and not refused by a broken pipe, in order, and the
   kernel's part is as long as its answers say.
   */
  lemma StreamConserved(mark: nat, es: seq<Event>)
    requires Legal(Initial(mark), es) && NoShortFirstWrite(es)
    ensures Answered(es)
    ensures var t, a := Run(Initial(mark), es), AccountOf(NEW_ACCOUNT, mark, es);
            t.taken + t.backlog == Messages(a.accepted) && |t.taken| == a.taken
  {
    OutputStream(Initial(mark), es);
    WholeWritesStayWhole(Initial(mark), es);
    EverythingAccountedFor(mark, es);
  }

  /** A short first write loses the message's tail: "ab", of which the kernel takes "a". */
  lemma ShortFirstWriteCorrupts(s: State)
    requires s == Exec(Initial(1), Establish)
    ensures Enabled(s, Send([97, 98], Wrote(1)))
    ensures var sent := Exec(s, Send([97, 98], Wrote(1)));
            Enabled(sent, Writable(Wrote(1))) && Exec(sent, Writable(Wrote(1))).taken == [97, 97]
  {
    var sent := Exec(s, Send([97, 98], Wrote(1)));
    assert sent.taken == [97] && sent.backlog == [97] && sent.writing;
  }

  // ---- graceful half-close ----

  predicate Shut(log: seq<Effect>) {
    exists x <- log :: x.ShutdownWrite?
  }

  /** After the write side is shut down, the socket is never written again. */
  predicate QuietAfterShutdown(log: seq<Effect>) {
    forall i, j | 0 <= i < j < |log| :: log[i].ShutdownWrite? ==> !log[j].WriteAttempt?
  }

  /** The write side is shut down only with nothing left to send, unless the connection had closed. */
  predicate ShutWhenDrained(log: seq<Effect>) {
    forall x <- log :: x.ShutdownWrite? ==> x.backlog == 0 || x.closed
  }

  predicate HalfCloseInv(s: State) {
    && InterestInv(s)
    && (s.halfClosed <==> Shut(s.log))
    && QuietAfterShutdown(s.log)
    && ShutWhenDrained(s.log)
  }

  /** A queued half-close that runs after the connection closed with a backlog. */
  predicate LosesBacklog(s: State, e: Event) {
    e.RunShutdownInLoop? && s.Closed() && s.backlog != []
  }

  /**
   What one step may append to the log: at most one write attempt, at its front and only
   while the write side is open; and a shutdown that is drained, or loses a closed
   connection's backlog.
   */
  ghost predicate Extends(s: State, t: State, loses: bool) {
    && |s.log| <= |t.log| && t.log[..|s.log|] == s.log
    && (forall i | |s.log| <= i < |t.log| :: t.log[i].WriteAttempt? ==> !s.halfClosed && i == |s.log|)
    && (forall i | |s.log| <= i < |t.log| :: t.log[i].ShutdownWrite? ==>
          (t.log[i].backlog > 0 <==> loses) && (loses ==> t.log[i].closed))
    && (t.halfClosed <==> s.halfClosed || exists i | |s.log| <= i < |t.log| :: t.log[i].ShutdownWrite?)
    && (loses ==> exists i | |s.log| <= i < |t.log| :: t.log[i].ShutdownWrite?)
  }

  lemma SendExtends(s: State, m: seq<byte>, result: WriteResult)
    requires InterestInv(s) && s.state == Connected && Answers(result, |m|)
    ensures Extends(s, SendInLoopStep(s, m, result), false)
  {
  }

  lemma WriteExtends(s: State, result: WriteResult)
    requires InterestInv(s) && s.established && (s.writing ==> Answers(result, |s.backlog|))
    ensures Extends(s, HandleWriteStep(s, result), false)
  {
    var t := HandleWriteStep(s, result);
    if t.halfClosed && !s.halfClosed {
      assert t.log[|t.log| - 1].ShutdownWrite?;
    }
  }

  lemma DisconnectingExtends(s: State)
    requires InterestInv(s) && s.state == Connected && s.established
    ensures Extends(s, ShutdownInLoopStep(s.(state := Disconnecting)), false)
  {
    var t := ShutdownInLoopStep(s.(state := Disconnecting));
    if !s.writing {
      assert t.log[|s.log|].ShutdownWrite?;
    }
  }

  lemma DequeuedExtends(s: State)
    requires InterestInv(s) && s.queuedShutdowns > 0
    ensures Extends(s, ShutdownInLoopStep(s.(queuedShutdowns := s.queuedShutdowns - 1)), s.Closed() && s.backlog != [])
  {
    var t := ShutdownInLoopStep(s.(queuedShutdowns := s.queuedShutdowns - 1));
    if !s.writing {
      assert t.log[|s.log|].ShutdownWrite?;
    }
  }

  lemma StepExtendsLog(s: State, e: Event)
    requires InterestInv(s) && Enabled(s, e)
    ensures Extends(s, Exec(s, e), LosesBacklog(s, e))
  {
    match e {
      case Send(m, result) => if s.state == Connected { SendExtends(s, m, result); }
      case Writable(result) => WriteExtends(s, result);
      case Shutdown => if s.state == Connected { DisconnectingExtends(s); }
      case RunShutdownInLoop => DequeuedExtends(s);
      case _ =>
    }
  }

  lemma ExtendsKeepsLogs(s: State, t: State, loses: bool)
    requires Extends(s, t, loses)
    requires (s.halfClosed <==> Shut(s.log)) && QuietAfterShutdown(s.log) && ShutWhenDrained(s.log)
    ensures (t.halfClosed <==> Shut(t.log)) && QuietAfterShutdown(t.log) && ShutWhenDrained(t.log)
  {
    var n := |s.log|;
    assert forall i | 0 <= i < n :: t.log[i] == t.log[..n][i];
    assert s.log == t.log[..n];
    assert forall x <- t.log :: x in s.log || exists i | n <= i < |t.log| :: t.log[i] == x;
    if Shut(s.log) {
      var x :| x in s.log && x.ShutdownWrite?;
      assert x in t.log;
    }
    forall i, j | 0 <= i < j < |t.log| && t.log[i].ShutdownWrite? ensures !t.log[j].WriteAttempt? {
      if j >= n && i < n {
        assert t.log[i] in s.log;
      }
    }
  }

  lemma StepKeepsHalfCloseInv(s: State, e: Event)
    requires HalfCloseInv(s) && Enabled(s, e)
    ensures HalfCloseInv(Exec(s, e))
  {
    StepKeepsInterestInv(s, e);
    StepExtendsLog(s, e);
    ExtendsKeepsLogs(s, Exec(s, e), LosesBacklog(s, e));
  }

  lemma {:induction false} RunKeepsHalfCloseInv(s: State, es: seq<Event>)
    requires HalfCloseInv(s) && Legal(s, es)
    ensures HalfCloseInv(Run(s, es))
    decreases |es|
  {
    if es != [] {
      StepKeepsHalfCloseInv(s, es[0]);
      RunKeepsHalfCloseInv(Exec(s, es[0]), es[1..]);
    }
  }

  /**
   Every run of a connection: write interest is on exactly while a backlog remains
   (until the connection closes); the write side is shut down only when drained, or
   after the connection closed, and never written afterwards; and a half-close asked for
   is done, or waits for the backlog, or still has its functor or timer to come.
   */
  lemma GracefulHalfClose(mark: nat, es: seq<Event>)
    requires Legal(Initial(mark), es)
    ensures var t := Run(Initial(mark), es);
            && (t.Open() ==> (t.writing <==> t.backlog != []))
            && (t.Closed() ==> !t.writing)
            && QuietAfterShutdown(t.log) && ShutWhenDrained(t.log)
            && (t.Open() && t.state == Disconnecting && t.backlog == []
                ==> Shut(t.log) || t.queuedShutdowns > 0 || t.delayedCloses > 0)
  {
    RunKeepsHalfCloseInv(Initial(mark), es);
  }

  predicate LosesBacklogOnce(s: State, es: seq<Event>)
    requires Legal(s, es)
    decreases |es|
  {
    es != [] && (LosesBacklog(s, es[0]) || LosesBacklogOnce(Exec(s, es[0]), es[1..]))
  }

  predicate AllDrained(log: seq<Effect>) {
    forall i | 0 <= i < |log| :: log[i].ShutdownWrite? ==> log[i].backlog == 0
  }

  lemma ExtendsDrains(s: State, t: State, loses: bool)
    requires Extends(s, t, loses)
    ensures AllDrained(t.log) <==> AllDrained(s.log) && !loses
  {
    assert forall i | 0 <= i < |s.log| :: t.log[i] == t.log[..|s.log|][i] == s.log[i];
  }

  lemma StepDrainsIff(s: State, e: Event)
    requires InterestInv(s) && Enabled(s, e)
    ensures AllDrained(Exec(s, e).log) <==> AllDrained(s.log) && !LosesBacklog(s, e)
  {
    StepExtendsLog(s, e);
    ExtendsDrains(s, Exec(s, e), LosesBacklog(s, e));
  }

  /**
   Over every run, the write side is shut down only with nothing left to send exactly
   if no queued half-close runs after the connection closed with a backlog.
   */
  lemma {:induction false} HalfCloseDrainsIff(s: State, es: seq<Event>)
    requires InterestInv(s) && AllDrained(s.log) && Legal(s, es)
    ensures AllDrained(Run(s, es).log) <==> !LosesBacklogOnce(s, es)
    decreases |es|
  {
    if es != [] {
      var t := Exec(s, es[0]);
      StepKeepsInterestInv(s, es[0]);
      StepDrainsIff(s, es[0]);
      if AllDrained(t.log) {
        HalfCloseDrainsIff(t, es[1..]);
      } else {
        StaysUndrained(t, es[1..]);
      }
    }
  }

  lemma {:induction false} StaysUndrained(s: State, es: seq<Event>)
    requires InterestInv(s) && !AllDrained(s.log) && Legal(s, es)
    ensures !AllDrained(Run(s, es).log)
    decreases |es|
  {
    if es != [] {
      StepKeepsInterestInv(s, es[0]);
      StepDrainsIff(s, es[0]);
      StaysUndrained(Exec(s, es[0]), es[1..]);
    }
  }

  /** The smallest case: forceClose() with a byte unsent, and the peer closes before its functor runs. */
  lemma HalfCloseAfterCloseLoses(s: State)
    requires s == Exec(Initial(1), Establish)
    ensures var a := Exec(s, Send([97], WouldBlock));
            var b := Exec(Exec(a, ForceClose), Close);
            && Enabled(b, RunShutdownInLoop) && LosesBacklog(b, RunShutdownInLoop)
            && ShutdownWrite(1, true) in Exec(b, RunShutdownInLoop).log
  {
    var a := Exec(s, Send([97], WouldBlock));
    var b := Exec(Exec(a, ForceClose), Close);
    var c := Exec(b, RunShutdownInLoop);
    assert a.backlog == [97] && b.queuedShutdowns == 1;
    assert c.log[|c.log| - 1] == ShutdownWrite(1, true);
  }

  /** The write that drains the backlog of a disconnecting connection shuts the write side down at once. */
  lemma DrainCompletesShutdown(s: State, n: nat)
    requires InterestInv(s) && s.Open() && s.state == Disconnecting && s.writing && n == |s.backlog|
    ensures var t := Exec(s, Writable(Wrote(n)));
            t.halfClosed && t.backlog == [] && !t.writing && t.log[|t.log| - 1] == ShutdownWrite(0, false)
  {
  }

  // ---- the high-water mark ----

  predicate Crossing(x: Effect, mark: nat) {
    x.Drained? && x.before >= mark > x.after
  }

  /** Between positions i and j the backlog was drained from the mark or above to below it. */
  predicate DrainedBetween(log: seq<Effect>, mark: nat, i: int, j: int) {
    exists k | i < k < j && 0 <= k < |log| :: Crossing(log[k], mark)
  }

  predicate MarkInv(s: State) {
    && (forall i, j | 0 <= i < j < |s.log| && s.log[i].HighWater? && s.log[j].HighWater? ::
          DrainedBetween(s.log, s.mark, i, j))
    && (|s.backlog| < s.mark ==>
          forall i | 0 <= i < |s.log| && s.log[i].HighWater? :: DrainedBetween(s.log, s.mark, i, |s.log|))
  }

  lemma DrainedBetweenGrows(log: seq<Effect>, mark: nat, more: seq<Effect>, i: int, j: int)
    requires DrainedBetween(log, mark, i, j)
    ensures DrainedBetween(log + more, mark, i, j)
    ensures DrainedBetween(log + more, mark, i, |log + more|)
  {
    var k :| i < k < j && 0 <= k < |log| && Crossing(log[k], mark);
    assert (log + more)[k] == log[k];
  }

  /** The log grows by one effect: the invariant needs the new backlog and the effect only. */
  lemma LogOneKeepsMarkInv(s: State, x: Effect, backlog: seq<byte>)
    requires MarkInv(s)
    requires x.HighWater? ==> |s.backlog| < s.mark <= |backlog|
    requires |backlog| < s.mark ==> |s.backlog| < s.mark || Crossing(x, s.mark)
    ensures MarkInv(s.(log := s.log + [x], backlog := backlog))
  {
    var t := s.(log := s.log + [x], backlog := backlog);
    var n := |s.log|;
    forall i, j | 0 <= i < j < |t.log| && t.log[i].HighWater? && t.log[j].HighWater?
      ensures DrainedBetween(t.log, t.mark, i, j)
    {
      DrainedBetweenGrows(s.log, s.mark, [x], i, j);
    }
    if |backlog| < s.mark {
      forall i | 0 <= i < |t.log| && t.log[i].HighWater? ensures DrainedBetween(t.log, t.mark, i, |t.log|) {
        if |s.backlog| < s.mark {
          DrainedBetweenGrows(s.log, s.mark, [x], i, n);
        } else {
          assert t.log[n] == x;
        }
      }
    }
  }

  lemma KeepRemainingKeepsMarkInv(s: State, m: seq<byte>, remaining: nat)
    requires MarkInv(s) && remaining <= |m|
    ensures MarkInv(KeepRemaining(s, m, remaining))
  {
    var size := |s.backlog| + remaining;
    if remaining > 0 && size >= s.mark && |s.backlog| < s.mark {
      LogOneKeepsMarkInv(s, HighWater(size), s.backlog + m[..remaining]);
    }
  }

  lemma FirstWriteKeepsMarkInv(s: State, m: seq<byte>, result: WriteResult)
    requires MarkInv(s) && Answers(result, |m|)
    ensures MarkInv(FirstWriteStep(s, m, result))
  {
    LogOneKeepsMarkInv(s, WriteAttempt(|m|), s.backlog);
    if result.Wrote? {
      var tried := Log(s, WriteAttempt(|m|));
      var wrote := tried.(taken := s.taken + m[..result.n], sent := s.sent + [Sent(m, result.n)]);
      LogOneKeepsMarkInv(wrote, WriteComplete, wrote.backlog);
    }
  }

  lemma SendKeepsMarkInv(s: State, m: seq<byte>, result: WriteResult)
    requires MarkInv(s) && Answers(result, |m|)
    ensures MarkInv(SendInLoopStep(s, m, result))
  {
    if s.state == Disconnected {
    } else if !s.writing && s.backlog == [] {
      FirstWriteKeepsMarkInv(s, m, result);
      KeepRemainingKeepsMarkInv(FirstWriteStep(s, m, result), m, if result.Wrote? then |m| - result.n else |m|);
    } else {
      KeepRemainingKeepsMarkInv(s.(sent := s.sent + [Sent(m, 0)]), m, |m|);
    }
  }

  lemma ShutdownKeepsMarkInv(s: State)
    requires MarkInv(s)
    ensures MarkInv(ShutdownInLoopStep(s))
  {
    LogOneKeepsMarkInv(s.(halfClosed := true), ShutdownWrite(|s.backlog|, s.Closed()), s.backlog);
  }

  lemma WriteKeepsMarkInv(s: State, result: WriteResult)
    requires MarkInv(s) && (s.writing ==> Answers(result, |s.backlog|))
    ensures MarkInv(HandleWriteStep(s, result))
  {
    if s.writing {
      LogOneKeepsMarkInv(s, WriteAttempt(|s.backlog|), s.backlog);
      if result.Wrote? && result.n > 0 {
        var left := s.backlog[result.n..];
        var took := Log(s, WriteAttempt(|s.backlog|)).(taken := s.taken + s.backlog[..result.n]);
        LogOneKeepsMarkInv(took, Drained(|s.backlog|, |left|), left);
        var drained := Log(took.(backlog := left), Drained(|s.backlog|, |left|));
        LogOneKeepsMarkInv(drained.(writing := false), WriteComplete, left);
        ShutdownKeepsMarkInv(Log(drained.(writing := false), WriteComplete));
      }
    }
  }

  lemma StepKeepsMarkInv(s: State, e: Event)
    requires MarkInv(s) && Enabled(s, e)
    ensures MarkInv(Exec(s, e))
  {
    match e {
      case Establish => LogOneKeepsMarkInv(s.(state := Connected, reading := true, established := true), Up, s.backlog);
      case Send(m, result) => SendKeepsMarkInv(s, m, result);
      case Writable(result) => WriteKeepsMarkInv(s, result);
      case Shutdown => ShutdownKeepsMarkInv(s.(state := Disconnecting));
      case RunShutdownInLoop => ShutdownKeepsMarkInv(s.(queuedShutdowns := s.queuedShutdowns - 1));
      case Close => LogOneKeepsMarkInv(s.(state := Disconnected, reading := false, writing := false), Down, s.backlog);
      case _ =>
    }
  }

  lemma {:induction false} RunKeepsMarkInv(s: State, es: seq<Event>)
    requires MarkInv(s) && Legal(s, es)
    ensures MarkInv(Run(s, es)) && Run(s, es).mark == s.mark
    decreases |es|
  {
    if es != [] {
      StepKeepsMarkInv(s, es[0]);
      RunKeepsMarkInv(Exec(s, es[0]), es[1..]);
    }
  }

  /** In every run, two high-water callbacks have a drain from the mark to below it between them. */
  lemma DrainBetweenHighWaters(mark: nat, es: seq<Event>, i: nat, j: nat)
    requires Legal(Initial(mark), es)
    requires i < j < |Run(Initial(mark), es).log|
    requires Run(Initial(mark), es).log[i].HighWater? && Run(Initial(mark), es).log[j].HighWater?
    ensures DrainedBetween(Run(Initial(mark), es).log, mark, i, j)
  {
    RunKeepsMarkInv(Initial(mark), es);
  }

  // ---- one dispatch of the channel's events ----

  /** A close, and what the DOWN callback does: nothing, or a call of shutdown(). */
  function CloseEvents(downShuts: bool): seq<Event> {
    if downShuts then [Close, Shutdown] else [Close]
  }

  /** The events that one callback of a dispatch gives rise to, for a silent message callback. */
  function EventsOf(c: Callback, read: ReadResult, write: WriteResult, downShuts: bool): seq<Event> {
    match c
    case OnClose => CloseEvents(downShuts)
    case OnError => []
    case OnRead => if read == EndOfStream then CloseEvents(downShuts) else []
    case OnWrite => [Writable(write)]
  }

  function EventsOfAll(cs: seq<Callback>, read: ReadResult, write: WriteResult, downShuts: bool): seq<Event> {
    if cs == [] then [] else EventsOf(cs[0], read, write, downShuts) + EventsOfAll(cs[1..], read, write, downShuts)
  }

  lemma {:induction false} EventsOfAllAppend(a: seq<Callback>, b: seq<Callback>, read: ReadResult, write: WriteResult,
                                             downShuts: bool)
    ensures EventsOfAll(a + b, read, write, downShuts)
         == EventsOfAll(a, read, write, downShuts) + EventsOfAll(b, read, write, downShuts)
  {
    if a == [] {
      assert a + b == b;
    } else {
      assert (a + b)[1..] == a[1..] + b;
      EventsOfAllAppend(a[1..], b, read, write, downShuts);
    }
  }

  function CloseIf(b: bool, downShuts: bool): seq<Event> {
    if b then CloseEvents(downShuts) else []
  }

  lemma EventsOfOne(b: bool, c: Callback, read: ReadResult, write: WriteResult, downShuts: bool)
    ensures EventsOfAll(OneIf(b, c), read, write, downShuts) == if b then EventsOf(c, read, write, downShuts) else []
  {
    if b {
      assert [c][1..] == [];
      assert EventsOf(c, read, write, downShuts) + [] == EventsOf(c, read, write, downShuts);
    }
  }

  lemma EventsOfFour(a: seq<Callback>, b: seq<Callback>, c: seq<Callback>, d: seq<Callback>,
                     read: ReadResult, write: WriteResult, downShuts: bool)
    requires EventsOfAll(b, read, write, downShuts) == []
    ensures EventsOfAll(a + b + c + d, read, write, downShuts)
         == EventsOfAll(a, read, write, downShuts) + EventsOfAll(c, read, write, downShuts)
            + EventsOfAll(d, read, write, downShuts)
  {
    EventsOfAllAppend(a + b + c, d, read, write, downShuts);
    EventsOfAllAppend(a + b, c, read, write, downShuts);
    EventsOfAllAppend(a, b, read, write, downShuts);
    assert EventsOfAll(a, read, write, downShuts) + [] == EventsOfAll(a, read, write, downShuts);
  }

  lemma EventsInOrder(close: bool, error: bool, readable: bool, writable: bool, read: ReadResult, write: WriteResult,
                      downShuts: bool)
    ensures EventsOfAll(InOrder(close, error, readable, writable), read, write, downShuts)
         == CloseIf(close, downShuts) + CloseIf(readable && read == EndOfStream, downShuts)
            + (if writable then [Writable(write)] else [])
  {
    EventsOfOne(close, OnClose, read, write, downShuts);
    EventsOfOne(error, OnError, read, write, downShuts);
    EventsOfOne(readable, OnRead, read, write, downShuts);
    EventsOfOne(writable, OnWrite, read, write, downShuts);
    EventsOfFour(OneIf(close, OnClose), OneIf(error, OnError), OneIf(readable, OnRead), OneIf(writable, OnWrite),
                 read, write, downShuts);
  }

  lemma EventsOfDispatch(r: Revents, read: ReadResult, write: WriteResult, downShuts: bool)
    ensures EventsOfAll(Dispatch(r), read, write, downShuts)
         == CloseIf(ClosedByHangup(r), downShuts) + CloseIf(ClosedByRead(r, read), downShuts)
            + (if r.writable then [Writable(write)] else [])
  {
    EventsInOrder(r.hangup && !r.readable, r.error || r.invalid, r.readable || r.urgent || r.peerHangup, r.writable,
                  read, write, downShuts);
  }

  /** A run that starts with e. */
  lemma RunCons(s: State, t: State, e: Event, rest: seq<Event>)
    requires Enabled(s, e) && t == Exec(s, e) && Legal(t, rest)
    ensures Legal(s, [e] + rest) && Run(s, [e] + rest) == Run(t, rest)
    ensures AllAssertsHold(s, [e] + rest) <==> StepAsserts(s, e) && AllAssertsHold(t, rest)
  {
    assert ([e] + rest)[1..] == rest;
  }

  /** The connection after handleClose and the DOWN callback. */
  function ClosedBy(s: State, downShuts: bool): State {
    Log(s.(state := Disconnected, reading := false, writing := false), Down)
      .(state := if downShuts then Disconnecting else Disconnected)
  }

  lemma ClosedBySteps(s: State)
    requires s.established
    ensures Exec(s, Close) == ClosedBy(s, false)
    ensures Exec(ClosedBy(s, false), Shutdown) == ClosedBy(s, true)
  {
  }

  lemma CloseThen(s: State, t: State, rest: seq<Event>)
    requires s.established && t == ClosedBy(s, false) && Legal(t, rest)
    ensures Legal(s, [Close] + rest) && Run(s, [Close] + rest) == Run(t, rest)
    ensures AllAssertsHold(s, [Close] + rest) <==> s.state in {Connected, Disconnecting} && AllAssertsHold(t, rest)
  {
    ClosedBySteps(s);
    RunCons(s, t, Close, rest);
  }

  lemma ShutdownThen(s: State, t: State, rest: seq<Event>)
    requires s.established && t == ClosedBy(s, true) && Legal(t, rest)
    ensures var u := ClosedBy(s, false);
            && Legal(u, [Shutdown] + rest) && Run(u, [Shutdown] + rest) == Run(t, rest)
            && (AllAssertsHold(u, [Shutdown] + rest) <==> AllAssertsHold(t, rest))
  {
    ClosedBySteps(s);
    RunCons(ClosedBy(s, false), t, Shutdown, rest);
  }

  lemma CloseCons(s: State, t: State, downShuts: bool, rest: seq<Event>)
    requires s.established && t == ClosedBy(s, downShuts) && Legal(t, rest)
    ensures Legal(s, CloseEvents(downShuts) + rest)
    ensures Run(s, CloseEvents(downShuts) + rest) == Run(t, rest)
    ensures AllAssertsHold(s, CloseEvents(downShuts) + rest)
       <==> s.state in {Connected, Disconnecting} && AllAssertsHold(t, rest)
  {
    if downShuts {
      ShutdownThen(s, t, rest);
      CloseThen(s, ClosedBy(s, false), [Shutdown] + rest);
      assert CloseEvents(true) + rest == [Close] + ([Shutdown] + rest);
    } else {
      CloseThen(s, t, rest);
    }
  }

  predicate IsLast(s: State, last: seq<Event>) {
    last == [] || (|last| == 1 && last[0].Writable? && (s.writing ==> Answers(last[0].result, |s.backlog|)))
  }

  lemma LastIsLegal(s: State, last: seq<Event>)
    requires s.established && IsLast(s, last)
    ensures Legal(s, last) && AllAssertsHold(s, last)
    ensures Downs(Run(s, last).log) == Downs(s.log)
  {
    if last != [] {
      assert last == [last[0]] + [];
      RunCons(s, Exec(s, last[0]), last[0], []);
      WriteKeepsDowns(s, last[0].result);
    }
  }

  /** The connection after a dispatch's closes. */
  function AfterCloses(s: State, hangup: bool, eof: bool, downShuts: bool): State {
    var once := if hangup then ClosedBy(s, downShuts) else s;
    if eof then ClosedBy(once, downShuts) else once
  }

  lemma ClosesRun(s: State, hangup: bool, eof: bool, last: seq<Event>, downShuts: bool)
    requires s.Open() && s.state in {Connected, Disconnecting} && IsLast(s, last)
    ensures var es := CloseIf(hangup, downShuts) + CloseIf(eof, downShuts) + last;
            var t := AfterCloses(s, hangup, eof, downShuts);
            && Legal(s, es) && t.established && IsLast(t, last) && Legal(t, last) && Run(s, es) == Run(t, last)
            && (AllAssertsHold(s, es) <==> !(hangup && eof) || downShuts)
  {
    var once, t := ClosedBy(s, downShuts), AfterCloses(s, hangup, eof, downShuts);
    LastIsLegal(t, last);
    if hangup && eof {
      CloseCons(once, t, downShuts, last);
      CloseCons(s, once, downShuts, CloseEvents(downShuts) + last);
      Associative(CloseEvents(downShuts), CloseEvents(downShuts), last);
    } else if hangup || eof {
      CloseCons(s, t, downShuts, last);
      assert CloseIf(hangup, downShuts) + CloseIf(eof, downShuts) + last == CloseEvents(downShuts) + last;
    } else {
      assert CloseIf(hangup, downShuts) + CloseIf(eof, downShuts) + last == last;
    }
  }

  /**
   In a dispatch on an open connection the assertions of handleClose hold exactly
   unless the dispatch closes twice and the first DOWN callback does not move the
   state away from disconnected by calling shutdown().
   */
  lemma DispatchAssertsIff(s: State, r: Revents, read: ReadResult, write: WriteResult, downShuts: bool)
    requires InterestInv(s) && s.Open() && Answers(write, |s.backlog|)
    ensures var es := EventsOfAll(Dispatch(r), read, write, downShuts);
            Legal(s, es) && (AllAssertsHold(s, es) <==> !ClosesTwice(r, read) || downShuts)
  {
    EventsOfDispatch(r, read, write, downShuts);
    ClosesTwiceIff(r, read);
    ClosesRun(s, ClosedByHangup(r), ClosedByRead(r, read), if r.writable then [Writable(write)] else [], downShuts);
  }

  /** How often the connection was reported down. */
  function Downs(log: seq<Effect>): nat {
    multiset(log)[Down]
  }

  lemma LogDowns(s: State, x: Effect)
    ensures Downs(Log(s, x).log) == Downs(s.log) + (if x == Down then 1 else 0)
  {
    assert (s.log + [x])[..|s.log|] == s.log;
  }

  lemma ShutdownKeepsDowns(s: State)
    ensures Downs(ShutdownInLoopStep(s).log) == Downs(s.log)
  {
    LogDowns(s.(halfClosed := true), ShutdownWrite(|s.backlog|, s.Closed()));
  }

  lemma WriteKeepsDowns(s: State, result: WriteResult)
    requires s.writing ==> Answers(result, |s.backlog|)
    ensures Downs(HandleWriteStep(s, result).log) == Downs(s.log)
  {
    LogDowns(s, WriteAttempt(|s.backlog|));
    if s.writing && result.Wrote? && result.n > 0 {
      var tried := Log(s, WriteAttempt(|s.backlog|));
      var n, left := result.n, s.backlog[result.n..];
      var moved := tried.(taken := s.taken + s.backlog[..n], backlog := left);
      var drained := Log(moved, Drained(|s.backlog|, |left|));
      LogDowns(moved, Drained(|s.backlog|, |left|));
      LogDowns(drained.(writing := false), WriteComplete);
      ShutdownKeepsDowns(Log(drained.(writing := false), WriteComplete));
    }
  }

  /**
   What a dispatch does, read off the mask and the kernel's answers: the connection is
   reported down once for a hangup without readable data and once for the end of the
   stream; and its backlog is written on a writable socket if it was not closed first.
   */
  lemma DispatchEffect(s: State, r: Revents, read: ReadResult, write: WriteResult, downShuts: bool)
    requires InterestInv(s) && s.Open() && Answers(write, |s.backlog|)
    ensures var es := EventsOfAll(Dispatch(r), read, write, downShuts);
            Legal(s, es)
            && var t, hangup := Run(s, es), r.hangup && !r.readable;
               var eof := (r.readable || r.urgent || r.peerHangup) && read == EndOfStream;
               && Downs(t.log) == Downs(s.log) + (if hangup then 1 else 0) + (if eof then 1 else 0)
               && t.Open() == !(hangup || eof)
               && (var n := if !hangup && !eof && r.writable && write.Wrote? then write.n else 0;
                   n <= |s.backlog| && t.taken == s.taken + s.backlog[..n] && t.backlog == s.backlog[n..])
  {
    EventsOfDispatch(r, read, write, downShuts);
    var hangup, eof := ClosedByHangup(r), ClosedByRead(r, read);
    var last := if r.writable then [Writable(write)] else [];
    ClosesRun(s, hangup, eof, last, downShuts);
    var closed := AfterCloses(s, hangup, eof, downShuts);
    ClosesCount(s, hangup, eof, downShuts);
    LastMoves(closed, r.writable, write);
  }

  lemma LastMoves(s: State, writable: bool, write: WriteResult)
    requires s.established && Answers(write, |s.backlog|) && (s.Open() && !s.writing ==> s.backlog == [])
    requires !s.Open() ==> !s.writing
    ensures var last := if writable then [Writable(write)] else [];
            && Legal(s, last) && Downs(Run(s, last).log) == Downs(s.log) && Run(s, last).Open() == s.Open()
            && var n := if s.Open() && writable && write.Wrote? then write.n else 0;
               && n <= |s.backlog| && Run(s, last).taken == s.taken + s.backlog[..n]
               && Run(s, last).backlog == s.backlog[n..]
  {
    assert s.backlog[..0] == [] && s.taken + [] == s.taken && s.backlog[0..] == s.backlog;
    if writable {
      var last := [Writable(write)];
      LastIsLegal(s, last);
      assert last == [last[0]] + [];
      RunCons(s, Exec(s, last[0]), last[0], []);
    }
  }

  lemma ClosesCount(s: State, hangup: bool, eof: bool, downShuts: bool)
    requires s.Open()
    ensures var t := AfterCloses(s, hangup, eof, downShuts);
            && Downs(t.log) == Downs(s.log) + (if hangup then 1 else 0) + (if eof then 1 else 0)
            && t.Open() == !(hangup || eof) && (hangup || eof ==> !t.writing)
            && t.taken == s.taken && t.backlog == s.backlog && (!hangup && !eof ==> t == s)
  {
    var once := if hangup then ClosedBy(s, downShuts) else s;
    LogDowns(s.(state := Disconnected, reading := false, writing := false), Down);
    LogDowns(once.(state := Disconnected, reading := false, writing := false), Down);
  }

  /**
   A dispatch that is not stopped by an assertion reports the connection down more than
   once exactly when it closes twice.
   */
  lemma DownTwiceIff(s: State, r: Revents, read: ReadResult, write: WriteResult, downShuts: bool)
    requires InterestInv(s) && s.Open() && Answers(write, |s.backlog|)
    ensures var es := EventsOfAll(Dispatch(r), read, write, downShuts);
            Legal(s, es) && (Downs(Run(s, es).log) > Downs(s.log) + 1 <==> ClosesTwice(r, read))
  {
    EventsOfDispatch(r, read, write, downShuts);
    ClosesTwiceIff(r, read);
    var hangup, eof := ClosedByHangup(r), ClosedByRead(r, read);
    var last := if r.writable then [Writable(write)] else [];
    ClosesRun(s, hangup, eof, last, downShuts);
    LastIsLegal(AfterCloses(s, hangup, eof, downShuts), last);
  }

  // ---- the object ----

  class TcpConnection {
    var state: ConnState
    // the channel's interest
    var reading: bool
    var writing: bool
    const outputBuffer: Buffer
    const highWaterMark: nat

    ghost var established: bool
    ghost var halfClosed: bool
    ghost var queuedShutdowns: nat
    ghost var delayedCloses: nat
    ghost var taken: seq<byte>
    ghost var sent: seq<Sent>
    ghost var log: seq<Effect>

    ghost predicate Valid()
      reads this, outputBuffer
    {
      outputBuffer.Valid()
    }

    ghost function View(): State
      requires Valid()
      reads this, outputBuffer
    {
      State(state, reading, writing, outputBuffer.Contents(), highWaterMark, established, halfClosed,
            queuedShutdowns, delayedCloses, taken, sent, log)
    }

    constructor (mark: nat)
      ensures Valid() && View() == Initial(mark) && fresh(outputBuffer)
    {
      outputBuffer := new Buffer();
      highWaterMark := mark;
      state, reading, writing := Connecting, false, false;
      established, halfClosed, queuedShutdowns, delayedCloses := false, false, 0, 0;
      taken, sent, log := [], [], [];
    }

    method ConnectionEstablished()
      requires Valid() && Enabled(View(), Establish) && StepAsserts(View(), Establish)
      modifies this
      ensures Valid() && View() == Exec(old(View()), Establish)
    {
      state := Connected;
      reading := true;
      established := true;
      log := log + [Up];
    }

    /** Appends to the backlog what the first write left, lines 110-121. */
    method KeepRest(message: seq<byte>, remaining: nat)
      requires Valid() && remaining <= |message|
      modifies this`log, this`writing, outputBuffer
      ensures Valid() && View() == KeepRemaining(old(View()), message, remaining)
    {
      if remaining > 0 {
        var oldLen := outputBuffer.ReadableBytes();
        if oldLen + remaining >= highWaterMark && oldLen < highWaterMark {
          log := log + [HighWater(oldLen + remaining)];
        }
        outputBuffer.Append(message[..remaining]);
        if !writing {
          writing := true;
        }
      }
    }

    /** Lines 88-105: the direct write; what it leaves, and whether the connection is broken. */
    method TryWrite(message: seq<byte>, result: WriteResult) returns (remaining: nat, error: bool)
      requires Valid() && Answers(result, |message|)
      modifies this`log, this`taken, this`sent
      ensures View() == FirstWriteStep(old(View()), message, result)
      ensures error == result.BrokenPipe? && remaining == if result.Wrote? then |message| - result.n else |message|
    {
      remaining, error := |message|, false;
      log := log + [WriteAttempt(|message|)];
      match result {
        case Wrote(n) =>
          remaining := |message| - n;
          taken, sent := taken + message[..n], sent + [Sent(message, n)];
          if remaining == 0 {
            log := log + [WriteComplete];
          }
        case BrokenPipe => error := true;
        case _ => sent := sent + [Sent(message, 0)];
      }
    }

    method SendInLoop(message: seq<byte>, result: WriteResult)
      requires Valid() && Answers(result, |message|)
      modifies this`log, this`writing, this`taken, this`sent, outputBuffer
      ensures Valid() && View() == SendInLoopStep(old(View()), message, result)
    {
      if state == Disconnected {
        return;
      }
      var remaining, error := |message|, false;
      if !writing && outputBuffer.ReadableBytes() == 0 {
        remaining, error := TryWrite(message, result);
      } else {
        sent := sent + [Sent(message, 0)];
      }
      if !error && remaining > 0 {
        KeepRest(message, remaining);
      }
    }

    method Send(message: seq<byte>, result: WriteResult)
      requires Valid() && Enabled(View(), Event.Send(message, result))
      modifies this`log, this`writing, this`taken, this`sent, outputBuffer
      ensures Valid() && View() == Exec(old(View()), Event.Send(message, result))
    {
      if state == Connected {
        SendInLoop(message, result);
      }
    }

    method ShutdownInLoop()
      requires Valid()
      modifies this`log, this`halfClosed
      ensures Valid() && View() == ShutdownInLoopStep(old(View()))
    {
      if !writing {
        log := log + [ShutdownWrite(outputBuffer.ReadableBytes(), View().Closed())];
        halfClosed := true;
      }
    }

    method HandleWrite(result: WriteResult)
      requires Valid() && Enabled(View(), Writable(result))
      modifies this`log, this`writing, this`taken, this`halfClosed, outputBuffer
      ensures Valid() && View() == Exec(old(View()), Writable(result))
    {
      if writing {
        log := log + [WriteAttempt(outputBuffer.ReadableBytes())];
        if result.Wrote? && result.n > 0 {
          ghost var before := outputBuffer.Contents();
          taken := taken + before[..result.n];
          outputBuffer.Retrieve(result.n);
          assert outputBuffer.Contents() == before[result.n..];
          log := log + [Drained(|before|, outputBuffer.ReadableBytes())];
          if outputBuffer.ReadableBytes() == 0 {
            writing := false;
            log := log + [WriteComplete];
            if state == Disconnecting {
              ShutdownInLoop();
            }
          }
        }
      }
    }

    method Shutdown()
      requires Valid() && established
      modifies this`state, this`log, this`halfClosed
      ensures Valid() && View() == Exec(old(View()), Event.Shutdown)
    {
      var oldState := state;
      state := Disconnecting;
      if oldState == Connected {
        ShutdownInLoop();
      }
    }

    method ForceClose()
      requires Valid() && established
      modifies this`state, this`queuedShutdowns
      ensures Valid() && View() == Exec(old(View()), Event.ForceClose)
    {
      var oldState := state;
      state := Disconnecting;
      if oldState == Connected || oldState == Disconnecting {
        queuedShutdowns := queuedShutdowns + 1;
      } else {
        state := oldState;
      }
    }

    method ForceCloseWithDelay()
      requires Valid() && established
      modifies this`state, this`delayedCloses
      ensures Valid() && View() == Exec(old(View()), Event.ForceCloseWithDelay)
    {
      var oldState := state;
      state := Disconnecting;
      if oldState == Connected || oldState == Disconnecting {
        delayedCloses := delayedCloses + 1;
      } else {
        state := oldState;
      }
    }

    method HandleClose()
      requires Valid() && established && StepAsserts(View(), Close)
      modifies this`state, this`reading, this`writing, this`log
      ensures Valid() && View() == Exec(old(View()), Close)
    {
      state := Disconnected;
      reading, writing := false, false;
      log := log + [Down];
    }
  }
}
