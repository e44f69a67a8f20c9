/**
 The poll(2) poller: a dense array of slots, a map from descriptors to channels,
 and in each channel the index of its slot.  A slot whose channel was muted holds
 the descriptor negated and shifted by one, so that poll skips it.
 */
module PollPoller {
  import opened Channel

  datatype PollFd = PollFd(fd: int, events: Interest)

  function Encode(fd: int): int {
    -fd - 1
  }

  /** The descriptor a slot belongs to. */
  function Decode(slot: int): (fd: int)
    ensures fd >= 0 && (slot == fd || slot == Encode(fd))
  {
    if slot < 0 then -slot - 1 else slot
  }

  /** The slots, and the index that each registered descriptor's channel holds. */
  datatype Table = Table(slots: seq<PollFd>, indices: map<int, int>)

  const EMPTY_TABLE := Table([], map[])

  datatype Op =
    | Add(fd: int, events: Interest)
    | Update(fd: int, events: Interest)
    | Remove(fd: int)

  /** Registered channels and slots are in one-to-one correspondence. */
  predicate Bijection(t: Table) {
    && (forall fd <- t.indices ::
          fd >= 0 && 0 <= t.indices[fd] < |t.slots| && Decode(t.slots[t.indices[fd]].fd) == fd)
    && (forall i | 0 <= i < |t.slots| ::
          Decode(t.slots[i].fd) in t.indices && t.indices[Decode(t.slots[i].fd)] == i)
  }

  predicate Possible(op: Op) {
    op.fd >= 0
  }

  /**
   The source's assertions.  Add is updateChannel for a channel with a negative index,
   Update for one that has been in the table: removal does not reset the index.
   */
  predicate StepAsserts(t: Table, op: Op) {
    match op
    case Add(fd, _) => fd !in t.indices
    case Update(fd, _) => SlotFound(t, fd)
    case Remove(fd) =>
      && SlotFound(t, fd) && t.slots[t.indices[fd]] == PollFd(Encode(fd), NO_INTEREST)
      // the map knows the owner of the last slot, whose index is rewritten
      && Decode(t.slots[|t.slots| - 1].fd) in t.indices
  }

  /** The channel is in the table, and its index names a slot of its own. */
  predicate SlotFound(t: Table, fd: int) {
    && fd in t.indices && 0 <= t.indices[fd] < |t.slots|
    && (t.slots[t.indices[fd]].fd == fd || t.slots[t.indices[fd]].fd == Encode(fd))
  }

  function AddSlot(t: Table, fd: int, events: Interest): Table {
    Table(t.slots + [PollFd(fd, events)], t.indices[fd := |t.slots|])
  }

  /** A muted slot is encoded; a slot is never decoded again, whatever the new events. */
  function UpdateSlot(t: Table, fd: int, events: Interest): Table
    requires fd in t.indices && 0 <= t.indices[fd] < |t.slots|
  {
    var i := t.indices[fd];
    var slot := if events.IsNone() then Encode(fd) else t.slots[i].fd;
    t.(slots := t.slots[i := PollFd(slot, events)])
  }

  /** Swap-remove: the last slot takes the place of the removed one, and its channel learns so. */
  function RemoveSlot(t: Table, fd: int): Table
    requires fd in t.indices && 0 <= t.indices[fd] < |t.slots|
  {
    var i, last := t.indices[fd], |t.slots| - 1;
    if i == last then Table(t.slots[..last], t.indices - {fd})
    else Table(t.slots[i := t.slots[last]][..last], (t.indices - {fd})[Decode(t.slots[last].fd) := i])
  }

  function Exec(t: Table, op: Op): Table
    requires StepAsserts(t, op)
  {
    match op
    case Add(fd, events) => AddSlot(t, fd, events)
    case Update(fd, events) => UpdateSlot(t, fd, events)
    case Remove(fd) => RemoveSlot(t, fd)
  }

  /** The channel of the last slot is registered, at that index. */
  lemma LastSlot(t: Table, fd: int)
    requires Bijection(t) && fd in t.indices
    ensures var moved := Decode(t.slots[|t.slots| - 1].fd);
            && moved in t.indices && t.indices[moved] == |t.slots| - 1
            && (t.indices[fd] != |t.slots| - 1 ==> moved != fd)
  {
  }

  lemma RemoveKeepsBijection(t: Table, fd: int)
    requires Bijection(t) && fd in t.indices
    ensures Bijection(RemoveSlot(t, fd)) && RemoveSlot(t, fd).indices.Keys == t.indices.Keys - {fd}
  {
    var u, i, last := RemoveSlot(t, fd), t.indices[fd], |t.slots| - 1;
    var moved := Decode(t.slots[last].fd);
    assert t.indices[moved] == last;
    assert i != last ==> moved != fd;
  }

  lemma StepKeepsBijection(t: Table, op: Op)
    requires Bijection(t) && Possible(op) && StepAsserts(t, op)
    ensures Bijection(Exec(t, op))
  {
    if op.Remove? {
      RemoveKeepsBijection(t, op.fd);
    }
  }

  /** Every slot's entry is its owner's, before and after a removal. */
  lemma RemoveKeepsSlots(t: Table, fd: int)
    requires Bijection(t) && fd in t.indices
    ensures Bijection(RemoveSlot(t, fd))
    ensures var u := RemoveSlot(t, fd);
            forall g <- u.indices :: g in t.indices && u.slots[u.indices[g]] == t.slots[t.indices[g]]
  {
    RemoveKeepsBijection(t, fd);
  }

  // ---- what poll sees ----

  /** poll(2) watches a registered descriptor exactly when its slot is not encoded. */
  predicate Polled(t: Table, fd: int)
    requires Bijection(t)
  {
    fd in t.indices && t.slots[t.indices[fd]].fd == fd
  }

  /** The descriptors muted at some time since they were added. */
  function MutedAfter(muted: set<int>, op: Op): set<int> {
    match op
    case Add(fd, _) => muted - {fd}
    case Update(fd, events) => if events.IsNone() then muted + {fd} else muted
    case Remove(fd) => muted - {fd}
  }

  /** The events last asked for, by descriptor. */
  function WantedAfter(wanted: map<int, Interest>, op: Op): map<int, Interest> {
    match op
    case Add(fd, events) => wanted[fd := events]
    case Update(fd, events) => wanted[fd := events]
    case Remove(fd) => wanted - {fd}
  }

  predicate History(t: Table, muted: set<int>, wanted: map<int, Interest>)
    requires Bijection(t)
  {
    && wanted.Keys == t.indices.Keys
    && (forall fd <- t.indices :: t.slots[t.indices[fd]].events == wanted[fd])
    && (forall fd <- t.indices :: Polled(t, fd) <==> fd !in muted)
  }

  lemma UpdateKeepsHistory(t: Table, fd: int, events: Interest, muted: set<int>, wanted: map<int, Interest>)
    requires Bijection(t) && fd in t.indices && History(t, muted, wanted) && Bijection(UpdateSlot(t, fd, events))
    ensures History(UpdateSlot(t, fd, events), MutedAfter(muted, Update(fd, events)),
                    WantedAfter(wanted, Update(fd, events)))
  {
    forall g | g in t.indices && g != fd ensures t.indices[g] != t.indices[fd] {
      assert Decode(t.slots[t.indices[g]].fd) == g;
    }
  }

  lemma StepKeepsHistory(t: Table, op: Op, muted: set<int>, wanted: map<int, Interest>)
    requires Bijection(t) && Possible(op) && StepAsserts(t, op) && History(t, muted, wanted)
    ensures Bijection(Exec(t, op)) && History(Exec(t, op), MutedAfter(muted, op), WantedAfter(wanted, op))
  {
    StepKeepsBijection(t, op);
    match op {
      case Remove(fd) => RemoveKeepsSlots(t, fd);
      case Update(fd, events) => UpdateKeepsHistory(t, fd, events, muted, wanted);
      case Add(fd, events) =>
    }
  }

  /** What the callers must keep to, in terms of their own calls. */
  predicate Kept(muted: set<int>, wanted: map<int, Interest>, op: Op) {
    match op
    case Add(fd, _) => fd !in wanted
    case Update(fd, _) => fd in wanted
    case Remove(fd) => fd in wanted && wanted[fd].IsNone() && fd in muted
  }

  /** The assertions hold exactly when the callers keep to that. */
  lemma AssertsIffKept(t: Table, op: Op, muted: set<int>, wanted: map<int, Interest>)
    requires Bijection(t) && History(t, muted, wanted)
    ensures StepAsserts(t, op) <==> Kept(muted, wanted, op)
  {
    if op.Remove? && op.fd in t.indices {
      LastSlot(t, op.fd);
    }
  }

  // ---- whole runs ----

  predicate Legal(t: Table, ops: seq<Op>)
    decreases |ops|
  {
    ops == [] || (StepAsserts(t, ops[0]) && Legal(Exec(t, ops[0]), ops[1..]))
  }

  function Run(t: Table, ops: seq<Op>): Table
    requires Legal(t, ops)
    decreases |ops|
  {
    if ops == [] then t else Run(Exec(t, ops[0]), ops[1..])
  }

  function MutedBy(muted: set<int>, ops: seq<Op>): set<int>
    decreases |ops|
  {
    if ops == [] then muted else MutedBy(MutedAfter(muted, ops[0]), ops[1..])
  }

  function WantedBy(wanted: map<int, Interest>, ops: seq<Op>): map<int, Interest>
    decreases |ops|
  {
    if ops == [] then wanted else WantedBy(WantedAfter(wanted, ops[0]), ops[1..])
  }

  predicate KeptBy(muted: set<int>, wanted: map<int, Interest>, ops: seq<Op>)
    decreases |ops|
  {
    ops == []
    || (Kept(muted, wanted, ops[0]) && KeptBy(MutedAfter(muted, ops[0]), WantedAfter(wanted, ops[0]), ops[1..]))
  }

  lemma {:induction false} RunKeepsHistory(t: Table, ops: seq<Op>, muted: set<int>, wanted: map<int, Interest>)
    requires Bijection(t) && History(t, muted, wanted) && forall op <- ops :: Possible(op)
    ensures Legal(t, ops) <==> KeptBy(muted, wanted, ops)
    ensures Legal(t, ops) ==>
              Bijection(Run(t, ops)) && History(Run(t, ops), MutedBy(muted, ops), WantedBy(wanted, ops))
    decreases |ops|
  {
    if ops != [] {
      AssertsIffKept(t, ops[0], muted, wanted);
      if StepAsserts(t, ops[0]) {
        assert ops[0] in ops && forall op <- ops[1..] :: op in ops;
        StepKeepsHistory(t, ops[0], muted, wanted);
        RunKeepsHistory(Exec(t, ops[0]), ops[1..], MutedAfter(muted, ops[0]), WantedAfter(wanted, ops[0]));
      }
    }
  }

  /**
   Over every sequence of calls no assertion fails exactly when new channels only are
   added, registered ones only are updated, and removed ones were muted since they were
   added and want nothing.  Then slots and registered channels correspond one to one,
   each slot has the events last asked for, and poll watches exactly the descriptors never
   muted since they were added.
   */
  lemma TableStaysConsistent(ops: seq<Op>)
    requires forall op <- ops :: Possible(op)
    ensures Legal(EMPTY_TABLE, ops) <==> KeptBy({}, map[], ops)
    ensures Legal(EMPTY_TABLE, ops) ==>
              var t := Run(EMPTY_TABLE, ops);
              Bijection(t) && History(t, MutedBy({}, ops), WantedBy(map[], ops))
  {
    RunKeepsHistory(EMPTY_TABLE, ops, {}, map[]);
  }

  /**
   The intended meaning, watched when it wants something, holds of a registered
   descriptor exactly when it was muted since it was added if and only if it wants
   nothing now.  Enabling again after a mute breaks it, as does adding without interest.
   */
  lemma PolledAsWantedIff(ops: seq<Op>, fd: int)
    requires (forall op <- ops :: Possible(op)) && KeptBy({}, map[], ops)
    ensures Legal(EMPTY_TABLE, ops) && Bijection(Run(EMPTY_TABLE, ops))
    ensures var t, muted, wanted := Run(EMPTY_TABLE, ops), MutedBy({}, ops), WantedBy(map[], ops);
            fd in t.indices ==>
              fd in wanted && ((Polled(t, fd) <==> !wanted[fd].IsNone()) <==> (fd in muted <==> wanted[fd].IsNone()))
  {
    TableStaysConsistent(ops);
  }

  lemma OneMore(t: Table, u: Table, op: Op, ops: seq<Op>)
    requires StepAsserts(t, op) && u == Exec(t, op) && Legal(u, ops)
    ensures Legal(t, [op] + ops) && Run(t, [op] + ops) == Run(u, ops)
  {
    assert ([op] + ops)[1..] == ops;
  }

  /** The smallest case: a channel added, muted and enabled again is not polled. */
  lemma EnabledAgainIsNotPolled(fd: int, events: Interest)
    requires fd >= 0 && !events.IsNone()
    ensures var ops := [Add(fd, events)] + ([Update(fd, NO_INTEREST)] + ([Update(fd, events)] + []));
            && Legal(EMPTY_TABLE, ops)
            && var t := Run(EMPTY_TABLE, ops);
               Bijection(t) && fd in t.indices && !Polled(t, fd) && t.slots[t.indices[fd]].events == events
  {
    var a := Exec(EMPTY_TABLE, Add(fd, events));
    var b := Exec(a, Update(fd, NO_INTEREST));
    var c := Exec(b, Update(fd, events));
    assert c.slots == [PollFd(Encode(fd), events)] && c.indices == map[fd := 0];
    OneMore(b, c, Update(fd, events), []);
    OneMore(a, b, Update(fd, NO_INTEREST), [Update(fd, events)] + []);
    OneMore(EMPTY_TABLE, a, Add(fd, events), [Update(fd, NO_INTEREST)] + ([Update(fd, events)] + []));
  }

  /** A removed channel that is enabled again keeps its index, and fails the assertion on the table. */
  lemma EnabledAfterRemovalFails(t: Table, fd: int, events: Interest)
    requires StepAsserts(t, Remove(fd)) && Bijection(t)
    ensures !StepAsserts(Exec(t, Remove(fd)), Update(fd, events))
  {
    RemoveKeepsBijection(t, fd);
  }

  // ---- the object ----

  class PollPoller {
    var pollfds: seq<PollFd>
    var channels: map<int, Channel>

    /** Channels are registered under their own descriptor. */
    ghost predicate Valid()
      reads this, channels.Values
    {
      (forall fd <- channels :: channels[fd].fd == fd) && Bijection(View())
    }

    ghost function View(): Table
      reads this, channels.Values
    {
      Table(pollfds, map fd | fd in channels :: channels[fd].index)
    }

    constructor ()
      ensures Valid() && View() == EMPTY_TABLE
    {
      pollfds, channels := [], map[];
    }

    method UpdateChannel(channel: Channel)
      requires Valid() && channel.fd >= 0
      requires channel.index < 0 ==> channel.fd !in channels && channel !in channels.Values
      requires channel.index >= 0 ==> channel.fd in channels && channels[channel.fd] == channel
      modifies this, channel`index
      ensures Valid()
      ensures var op := if old(channel.index) < 0 then Add(channel.fd, channel.events)
                        else Update(channel.fd, channel.events);
              StepAsserts(old(View()), op) && View() == Exec(old(View()), op)
      ensures channel.fd in channels && channels[channel.fd] == channel
    {
      if channel.index < 0 {
        AddChannel(channel);
      } else {
        SetSlot(channel);
      }
    }

    method AddChannel(channel: Channel)
      requires Valid() && channel.fd >= 0 && channel.fd !in channels && channel !in channels.Values
      modifies this, channel`index
      ensures Valid() && View() == AddSlot(old(View()), channel.fd, channel.events)
      ensures channel.fd in channels && channels[channel.fd] == channel
    {
      ghost var t := View();
      StepKeepsBijection(t, Add(channel.fd, channel.events));
      pollfds := pollfds + [PollFd(channel.fd, channel.events)];
      channel.index := |pollfds| - 1;
      channels := channels[channel.fd := channel];
      assert View().indices == t.indices[channel.fd := |t.slots|];
    }

    method SetSlot(channel: Channel)
      requires Valid() && channel.fd in channels && channels[channel.fd] == channel
      modifies this`pollfds
      ensures StepAsserts(old(View()), Update(channel.fd, channel.events))
      ensures Valid() && View() == UpdateSlot(old(View()), channel.fd, channel.events)
    {
      ghost var t := View();
      assert SlotFound(t, channel.fd);
      StepKeepsBijection(t, Update(channel.fd, channel.events));
      var idx := channel.index;
      assert t.indices[channel.fd] == idx;
      pollfds := pollfds[idx := PollFd(pollfds[idx].fd, channel.events)];
      if channel.events.IsNone() {
        pollfds := pollfds[idx := PollFd(-channel.fd - 1, channel.events)];
      }
      assert pollfds == UpdateSlot(t, channel.fd, channel.events).slots;
      assert View().indices == t.indices;
    }

    method RemoveChannel(channel: Channel)
      requires Valid() && channel.fd in channels && channels[channel.fd] == channel
      requires StepAsserts(View(), Remove(channel.fd))
      modifies this, channels.Values
      ensures Valid()
      ensures View() == Exec(old(View()), Remove(channel.fd))
      ensures channels == old(channels) - {channel.fd}
    {
      RemoveKeepsBijection(View(), channel.fd);
      LastSlot(View(), channel.fd);
      SwapRemove(channel, View());
    }

    method SwapRemove(channel: Channel, ghost t: Table)
      requires t == View() && forall fd <- channels :: channels[fd].fd == fd
      requires channel.fd in channels && channels[channel.fd] == channel && 0 <= channel.index < |pollfds|
      requires Decode(pollfds[|pollfds| - 1].fd) in channels
      requires channel.index != |pollfds| - 1 ==> Decode(pollfds[|pollfds| - 1].fd) != channel.fd
      modifies this, channels.Values
      ensures View() == RemoveSlot(t, channel.fd)
      ensures channels == old(channels) - {channel.fd}
    {
      var idx := channel.index;
      assert t.indices[channel.fd] == idx;
      Erase(channel.fd);
      if idx != |pollfds| - 1 {
        var channelAtEnd := pollfds[|pollfds| - 1].fd;
        assert channelAtEnd < 0 ==> Decode(channelAtEnd) == -channelAtEnd - 1;
        pollfds := pollfds[idx := pollfds[|pollfds| - 1]][|pollfds| - 1 := pollfds[idx]];
        if channelAtEnd < 0 {
          channelAtEnd := -channelAtEnd - 1;
        }
        SetIndex(channelAtEnd, idx);
      }
      PopBack(t.slots, idx);
    }

    /** channels_.erase(fd). */
    method Erase(fd: int)
      requires fd in channels
      modifies this`channels
      ensures channels == old(channels) - {fd} && channels.Values <= old(channels.Values)
      ensures View().indices == old(View()).indices - {fd}
    {
      channels := channels - {fd};
    }

    /** channels_[fd]->setIndex(idx): no other channel's index changes. */
    method SetIndex(fd: int, idx: int)
      requires forall g <- channels :: channels[g].fd == g
      requires fd in channels
      modifies channels.Values
      ensures View().indices == old(View()).indices[fd := idx]
    {
      assert forall g <- channels :: g != fd ==> channels[g] != channels[fd];
      channels[fd].index := idx;
      assert forall g <- channels :: channels[g].index == if g == fd then idx else old(channels[g].index);
    }

    /** pollfds_.pop_back() after the swap of slot idx with the last one. */
    method PopBack(ghost slots: seq<PollFd>, ghost idx: int)
      requires 0 <= idx < |slots| == |pollfds|
      requires pollfds == slots[idx := slots[|slots| - 1]][|slots| - 1 := slots[idx]]
      modifies this`pollfds
      ensures pollfds == if idx == |slots| - 1 then slots[..idx] else slots[idx := slots[|slots| - 1]][..|slots| - 1]
    {
      pollfds := pollfds[..|pollfds| - 1];
    }
  }
}
