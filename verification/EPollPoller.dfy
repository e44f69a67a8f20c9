/**
 The epoll poller: a user-side record of which descriptors are in the kernel's
 interest set, kept in each channel's index, against a model of that set.
 */
module EPollPoller {
  import opened Channel

  const NEW: int := -1
  const ADDED: int := 1
  const DELETED: int := 2

  datatype CtlOp = CtlAdd | CtlMod | CtlDel

  /** A registered channel as the poller sees it. */
  datatype Entry = Entry(index: int, events: Interest)

  /** channels_ with each channel's index and events, and the kernel's interest set. */
  datatype State = State(entries: map<int, Entry>, kernel: map<int, Interest>)

  const EMPTY := State(map[], map[])

  datatype Op =
    // a channel's events are changed and update() is called: a new channel, or a known one
    | Add(fd: int, events: Interest)
    | Update(fd: int, events: Interest)
    | Remove(fd: int)

  /** epoll_ctl succeeds: ADD of an absent descriptor, MOD or DEL of a present one. */
  predicate CtlAllowed(kernel: map<int, Interest>, op: CtlOp, fd: int) {
    match op
    case CtlAdd => fd !in kernel
    case CtlMod => fd in kernel
    case CtlDel => fd in kernel
  }

  function CtlEffect(kernel: map<int, Interest>, op: CtlOp, fd: int, events: Interest): map<int, Interest>
    requires CtlAllowed(kernel, op, fd)
  {
    match op
    case CtlAdd => kernel[fd := events]
    case CtlMod => kernel[fd := events]
    case CtlDel => kernel - {fd}
  }

  /** The kernel has exactly the added channels, each with its own events. */
  predicate Mirrors(s: State) {
    && (forall fd <- s.entries :: s.entries[fd].index == ADDED || s.entries[fd].index == DELETED)
    && (forall fd <- s.entries ::
          s.entries[fd].index == ADDED ==> fd in s.kernel && s.kernel[fd] == s.entries[fd].events)
    && (forall fd <- s.kernel :: fd in s.entries && s.entries[fd].index == ADDED)
  }

  /** What updateChannel asks of the kernel. */
  function UpdateCtl(s: State, fd: int, events: Interest): CtlOp {
    if fd !in s.entries || s.entries[fd].index == DELETED then CtlAdd
    else if events.IsNone() then CtlDel
    else CtlMod
  }

  function UpdateStep(s: State, fd: int, events: Interest): State
    requires CtlAllowed(s.kernel, UpdateCtl(s, fd, events), fd)
  {
    var op := UpdateCtl(s, fd, events);
    State(s.entries[fd := Entry(if op == CtlDel then DELETED else ADDED, events)],
          CtlEffect(s.kernel, op, fd, events))
  }

  function RemoveStep(s: State, fd: int): State
    requires fd in s.entries && (s.entries[fd].index == ADDED ==> CtlAllowed(s.kernel, CtlDel, fd))
  {
    State(s.entries - {fd},
          if s.entries[fd].index == ADDED then CtlEffect(s.kernel, CtlDel, fd, NO_INTEREST) else s.kernel)
  }

  predicate Known(s: State, fd: int) {
    fd in s.entries && (s.entries[fd].index == ADDED || s.entries[fd].index == DELETED)
  }

  /** The source's assertions on the table, the index and the events, and that the kernel does not refuse. */
  predicate StepAsserts(s: State, op: Op) {
    match op
    case Add(fd, events) => fd !in s.entries && CtlAllowed(s.kernel, CtlAdd, fd)
    case Update(fd, events) => Known(s, fd) && CtlAllowed(s.kernel, UpdateCtl(s, fd, events), fd)
    case Remove(fd) =>
      && Known(s, fd) && s.entries[fd].events.IsNone()
      && (s.entries[fd].index == ADDED ==> CtlAllowed(s.kernel, CtlDel, fd))
  }

  function Exec(s: State, op: Op): State
    requires StepAsserts(s, op)
  {
    match op
    case Add(fd, events) => UpdateStep(s, fd, events)
    case Update(fd, events) => UpdateStep(s, fd, events)
    case Remove(fd) => RemoveStep(s, fd)
  }

  lemma StepKeepsMirror(s: State, op: Op)
    requires Mirrors(s) && StepAsserts(s, op)
    ensures Mirrors(Exec(s, op))
  {
  }

  // ---- what the users asked for ----

  /**
   The interest last asked for, whether there was one since registration, and how
   often in a row the descriptor has been asked to be left alone.
   */
  datatype Wish = Wish(events: Interest, everInterested: bool, mutes: nat)

  function WishAfter(wishes: map<int, Wish>, fd: int, events: Interest): Wish {
    if !events.IsNone() then Wish(events, true, 0)
    else if fd in wishes then Wish(events, wishes[fd].everInterested, wishes[fd].mutes + 1)
    else Wish(events, false, 1)
  }

  function WishesAfter(wishes: map<int, Wish>, op: Op): map<int, Wish> {
    match op
    case Add(fd, events) => wishes[fd := WishAfter(wishes, fd, events)]
    case Update(fd, events) => wishes[fd := WishAfter(wishes, fd, events)]
    case Remove(fd) => wishes - {fd}
  }

  function WishesBy(wishes: map<int, Wish>, ops: seq<Op>): map<int, Wish>
    decreases |ops|
  {
    if ops == [] then wishes else WishesBy(WishesAfter(wishes, ops[0]), ops[1..])
  }

  /** Each mute in a row undoes the one before; the first call of all registers in any case. */
  predicate Watched(w: Wish) {
    w.mutes % 2 == 0 <==> w.everInterested
  }

  /** The kernel and the channels against the wishes. */
  predicate Follows(s: State, wishes: map<int, Wish>) {
    && wishes.Keys == s.entries.Keys
    && (forall fd <- wishes :: wishes[fd].mutes == 0 <==> !wishes[fd].events.IsNone())
    && (forall fd <- wishes :: wishes[fd].mutes == 0 ==> wishes[fd].everInterested)
    && (forall fd <- wishes ::
          s.entries[fd] == Entry(if Watched(wishes[fd]) then ADDED else DELETED, wishes[fd].events))
  }

  /** An interest is watched, a first mute or one after another flips what was there. */
  lemma WatchedAfter(wishes: map<int, Wish>, fd: int, events: Interest)
    ensures Watched(WishAfter(wishes, fd, events))
       <==> !events.IsNone() || fd !in wishes || !Watched(wishes[fd])
  {
  }

  lemma UpdateFollows(s: State, fd: int, events: Interest, wishes: map<int, Wish>)
    requires Mirrors(s) && Follows(s, wishes) && CtlAllowed(s.kernel, UpdateCtl(s, fd, events), fd)
    ensures Follows(UpdateStep(s, fd, events), wishes[fd := WishAfter(wishes, fd, events)])
  {
    WatchedAfter(wishes, fd, events);
  }

  lemma StepFollows(s: State, op: Op, wishes: map<int, Wish>)
    requires Mirrors(s) && Follows(s, wishes) && StepAsserts(s, op)
    ensures Mirrors(Exec(s, op)) && Follows(Exec(s, op), WishesAfter(wishes, op))
  {
    StepKeepsMirror(s, op);
    match op {
      case Add(fd, events) => UpdateFollows(s, fd, events, wishes);
      case Update(fd, events) => UpdateFollows(s, fd, events, wishes);
      case Remove(fd) =>
    }
  }

  /** What the callers must keep to, in terms of their own calls. */
  predicate Kept(wishes: map<int, Wish>, op: Op) {
    match op
    case Add(fd, _) => fd !in wishes
    case Update(fd, _) => fd in wishes
    case Remove(fd) => fd in wishes && wishes[fd].events.IsNone()
  }

  /** The assertions hold, and the kernel refuses nothing, exactly when the callers keep to that. */
  lemma AssertsIffKept(s: State, op: Op, wishes: map<int, Wish>)
    requires Mirrors(s) && Follows(s, wishes)
    ensures StepAsserts(s, op) <==> Kept(wishes, op)
  {
  }

  // ---- whole runs ----

  predicate Legal(s: State, ops: seq<Op>)
    decreases |ops|
  {
    ops == [] || (StepAsserts(s, ops[0]) && Legal(Exec(s, ops[0]), ops[1..]))
  }

  function Run(s: State, ops: seq<Op>): State
    requires Legal(s, ops)
    decreases |ops|
  {
    if ops == [] then s else Run(Exec(s, ops[0]), ops[1..])
  }

  predicate KeptBy(wishes: map<int, Wish>, ops: seq<Op>)
    decreases |ops|
  {
    ops == [] || (Kept(wishes, ops[0]) && KeptBy(WishesAfter(wishes, ops[0]), ops[1..]))
  }

  lemma {:induction false} RunFollows(s: State, ops: seq<Op>, wishes: map<int, Wish>)
    requires Mirrors(s) && Follows(s, wishes)
    ensures Legal(s, ops) <==> KeptBy(wishes, ops)
    ensures Legal(s, ops) ==> Mirrors(Run(s, ops)) && Follows(Run(s, ops), WishesBy(wishes, ops))
    decreases |ops|
  {
    if ops != [] {
      AssertsIffKept(s, ops[0], wishes);
      if StepAsserts(s, ops[0]) {
        StepFollows(s, ops[0], wishes);
        RunFollows(Exec(s, ops[0]), ops[1..], WishesAfter(wishes, ops[0]));
      }
    }
  }

  /**
   Over every sequence of calls no assertion fails, and the kernel refuses nothing,
   exactly when new channels only are added, known ones only are updated, and removed
   ones want nothing.  Then the kernel watches exactly the registered descriptors whose
   mutes in a row leave them watched, each with exactly the events last asked for.
   */
  lemma KernelMirrorsUsers(ops: seq<Op>)
    ensures Legal(EMPTY, ops) <==> KeptBy(map[], ops)
    ensures Legal(EMPTY, ops) ==>
              var t, w := Run(EMPTY, ops), WishesBy(map[], ops);
              && Mirrors(t)
              && (forall fd :: fd in t.kernel <==> fd in w && Watched(w[fd]))
              && (forall fd <- t.kernel :: t.kernel[fd] == w[fd].events)
              && (forall fd <- w :: !w[fd].events.IsNone() ==> fd in t.kernel)
  {
    RunFollows(EMPTY, ops, map[]);
  }

  /**
   The intended meaning, watched when it wants something, holds of a registered
   descriptor exactly when it wants something or its mutes in a row are odd in number
   after an interest and even without one: a second mute registers it again.
   */
  lemma WatchedAsWantedIff(ops: seq<Op>, fd: int)
    requires KeptBy(map[], ops)
    ensures Legal(EMPTY, ops)
    ensures var t, w := Run(EMPTY, ops), WishesBy(map[], ops);
            fd in w ==>
              ((fd in t.kernel <==> !w[fd].events.IsNone())
               <==> !w[fd].events.IsNone() || (w[fd].mutes % 2 == 1 <==> w[fd].everInterested))
  {
    KernelMirrorsUsers(ops);
  }

  lemma OneMore(s: State, t: State, op: Op, ops: seq<Op>)
    requires StepAsserts(s, op) && t == Exec(s, op) && Legal(t, ops)
    ensures Legal(s, [op] + ops) && Run(s, [op] + ops) == Run(t, ops)
  {
    assert ([op] + ops)[1..] == ops;
  }

  /** The smallest case: a channel added and muted twice is watched, and wants nothing. */
  lemma MutedTwiceIsWatched(fd: int, events: Interest)
    requires !events.IsNone()
    ensures var ops := [Add(fd, events)] + ([Update(fd, NO_INTEREST)] + ([Update(fd, NO_INTEREST)] + []));
            Legal(EMPTY, ops) && Run(EMPTY, ops).kernel == map[fd := NO_INTEREST]
  {
    var a := Exec(EMPTY, Add(fd, events));
    var b := Exec(a, Update(fd, NO_INTEREST));
    var c := Exec(b, Update(fd, NO_INTEREST));
    assert b.kernel == map[] && c.kernel == map[fd := NO_INTEREST];
    OneMore(b, c, Update(fd, NO_INTEREST), []);
    OneMore(a, b, Update(fd, NO_INTEREST), [Update(fd, NO_INTEREST)] + []);
    OneMore(EMPTY, a, Add(fd, events), [Update(fd, NO_INTEREST)] + ([Update(fd, NO_INTEREST)] + []));
  }

  // ---- the object ----

  class EPollPoller {
    var channels: map<int, Channel>
    // the kernel's interest set of epollfd_
    var kernel: map<int, Interest>

    ghost function View(): State
      reads this, channels.Values
    {
      State(map fd | fd in channels :: Entry(channels[fd].index, channels[fd].events), kernel)
    }

    ghost predicate Registered()
      reads this, channels.Values
    {
      forall fd <- channels :: channels[fd].fd == fd
    }

    constructor ()
      ensures Registered() && Mirrors(View()) && View() == EMPTY
    {
      channels, kernel := map[], map[];
    }

    /** epoll_ctl, which must not be refused. */
    method Control(operation: CtlOp, channel: Channel)
      requires CtlAllowed(kernel, operation, channel.fd)
      modifies this`kernel
      ensures kernel == CtlEffect(old(kernel), operation, channel.fd, channel.events)
    {
      match operation {
        case CtlDel => kernel := kernel - {channel.fd};
        case _ => kernel := kernel[channel.fd := channel.events];
      }
    }

    /** A channel's enable and disable calls: new events, then updateChannel. */
    method SetInterest(channel: Channel, events: Interest)
      requires Registered() && Mirrors(View())
      requires channel.index == NEW ==> channel.fd !in channels && channel !in channels.Values
      requires channel.index != NEW ==> channel.fd in channels && channels[channel.fd] == channel
      modifies this, channel`events, channel`index
      ensures Registered() && Mirrors(View())
      ensures var op := if old(channel.index) == NEW then Add(channel.fd, events) else Update(channel.fd, events);
              StepAsserts(old(View()), op) && View() == Exec(old(View()), op)
      ensures channel.fd in channels && channels[channel.fd] == channel
    {
      ghost var s := View();
      ghost var op := if channel.index == NEW then Add(channel.fd, events) else Update(channel.fd, events);
      assert channel.index != NEW ==> channel.fd in s.entries;
      StepKeepsMirror(s, op);
      channel.events := events;
      assert forall g <- channels :: channels[g] != channel ==> channels[g].events == s.entries[g].events;
      UpdateChannel(channel, s);
    }

    /** The state s is the view but for the events of the channel, which have just changed. */
    ghost predicate ViewBut(s: State, channel: Channel)
      reads this, channels.Values
    {
      && Registered() && Mirrors(s) && kernel == s.kernel && channels.Keys == s.entries.Keys
      && (forall g <- channels :: channels[g].index == s.entries[g].index)
      && (forall g <- channels :: channels[g] != channel ==> channels[g].events == s.entries[g].events)
    }

    method UpdateChannel(channel: Channel, ghost s: State)
      requires ViewBut(s, channel)
      requires channel.index == NEW ==> channel.fd !in channels && channel !in channels.Values
      requires channel.index != NEW ==> channel.fd in channels && channels[channel.fd] == channel
      modifies this, channel`index
      ensures CtlAllowed(s.kernel, UpdateCtl(s, channel.fd, channel.events), channel.fd)
      ensures Registered() && View() == UpdateStep(s, channel.fd, channel.events)
      ensures channel.fd in channels && channels[channel.fd] == channel
    {
      assert channel.index != NEW ==> s.entries[channel.fd].index == channel.index;
      if channel.index == NEW || channel.index == DELETED {
        AddToKernel(channel, s);
      } else {
        assert channel.index == ADDED;
        ChangeInKernel(channel, s);
      }
    }

    /** Channels other than the given one are as they were: the entries differ in one place. */
    lemma OthersKept(channel: Channel, s: State)
      requires channel.fd in channels && channels[channel.fd] == channel
      requires channels.Keys == s.entries.Keys + {channel.fd}
      requires forall g <- channels :: g != channel.fd ==> Entry(channels[g].index, channels[g].events) == s.entries[g]
      ensures View().entries == s.entries[channel.fd := Entry(channel.index, channel.events)]
    {
    }

    /** Lines 78-88: a new channel enters the table, and new and deleted ones the kernel. */
    method AddToKernel(channel: Channel, ghost s: State)
      requires ViewBut(s, channel)
      requires channel.index == NEW || channel.index == DELETED
      requires channel.index == NEW ==> channel.fd !in channels && channel !in channels.Values
      requires channel.index == DELETED ==> channel.fd in channels && channels[channel.fd] == channel
      modifies this, channel`index
      ensures CtlAllowed(s.kernel, UpdateCtl(s, channel.fd, channel.events), channel.fd)
      ensures Registered() && View() == UpdateStep(s, channel.fd, channel.events)
      ensures channel.fd in channels && channels[channel.fd] == channel
    {
      assert forall g <- channels :: g != channel.fd ==> channels[g] != channel;
      assert channel.index == DELETED ==> s.entries[channel.fd].index == DELETED;
      if channel.index == NEW {
        channels := channels[channel.fd := channel];
      }
      channel.index := ADDED;
      Control(CtlAdd, channel);
      OthersKept(channel, s);
    }

    /** Lines 89-101: an added channel is changed in the kernel, or leaves it. */
    method ChangeInKernel(channel: Channel, ghost s: State)
      requires ViewBut(s, channel)
      requires channel.index == ADDED && channel.fd in channels && channels[channel.fd] == channel
      modifies this`kernel, channel`index
      ensures CtlAllowed(s.kernel, UpdateCtl(s, channel.fd, channel.events), channel.fd)
      ensures Registered() && View() == UpdateStep(s, channel.fd, channel.events)
    {
      assert s.entries[channel.fd].index == ADDED;
      assert forall g <- channels :: g != channel.fd ==> channels[g] != channel;
      if channel.events.IsNone() {
        Control(CtlDel, channel);
        channel.index := DELETED;
      } else {
        Control(CtlMod, channel);
      }
      OthersKept(channel, s);
    }

    method RemoveChannel(channel: Channel)
      requires Registered() && Mirrors(View())
      requires channel.fd in channels && channels[channel.fd] == channel && channel.events.IsNone()
      modifies this, channel`index
      ensures Registered() && Mirrors(View())
      ensures StepAsserts(old(View()), Remove(channel.fd))
      ensures View() == Exec(old(View()), Remove(channel.fd)) && channel.index == NEW
    {
      ghost var s := View();
      assert s.entries[channel.fd].events.IsNone();
      StepKeepsMirror(s, Remove(channel.fd));
      var index := channel.index;
      assert s.entries[channel.fd].index == index;
      assert forall g <- channels :: g != channel.fd ==> channels[g] != channel;
      channels := channels - {channel.fd};
      if index == ADDED {
        Control(CtlDel, channel);
      }
      channel.index := NEW;
      assert View().entries == RemoveStep(s, channel.fd).entries;
    }
  }
}
