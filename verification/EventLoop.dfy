/**
 The reactor's cross-thread protocol: any number of threads push functors and
 request termination while one owner thread polls, handles events and runs
 batches of functors.  One step of the machine is one access to shared data:
 the queue under its mutex, the atomic quit flag, or the eventfd counter.
 */
module EventLoop {
  import opened Sequences

  type Functor = nat
  type ThreadId = nat

  // The thread that created the loop and runs it.
  const OWNER: ThreadId := 0

  // An eventfd counter saturates here: a further write fails and changes nothing.
  const EVENTFD_MAX: nat := 0xffff_ffff_ffff_fffe

  /** A queued functor, with the number of batches swapped out before it was queued. */
  datatype Queued = Queued(functor: Functor, round: nat)

  /** A functor that was called, and the number of the batch that called it. */
  datatype Called = Called(entry: Queued, batchNo: nat)

  /** Where the owner thread is. */
  datatype LoopPc =
    | CheckQuit
    | Polling
    | Handling(wakeupActive: bool)
    | BeforeSwap
    | Running
    | Stopped

  datatype State = State(
    pc: LoopPc,
    quit: bool,
    counter: nat,
    // threads between their push or quit store and the wakeup they owe for it
    owing: set<ThreadId>,
    pending: seq<Queued>,
    batch: seq<Queued>,
    called: seq<Called>,
    enqueued: seq<Queued>,
    round: nat
  )
  {
    predicate CallingPendingFunctors() {
      pc == BeforeSwap || pc == Running
    }

    // User code runs on the owner thread only inside event handlers and functors.
    predicate OwnerRunsUserCode() {
      pc.Handling? || pc == Running
    }

    predicate MayAct(t: ThreadId) {
      t !in owing && (t == OWNER ==> OwnerRunsUserCode())
    }

    predicate Covered() {
      counter > 0 || owing != {}
    }
  }

  datatype Step =
    | Push(t: ThreadId, functor: Functor)
    | StoreQuit(t: ThreadId)
    | Wake(t: ThreadId)
    | LoadQuit
    | PollReturn(wakeupActive: bool)
    | ReadEventfd
    | EndHandling
    | Swap
    | CallNext
    | EndBatch

  function Bump(counter: nat): nat {
    if counter < EVENTFD_MAX then counter + 1 else counter
  }

  predicate Enabled(s: State, e: Step) {
    match e
    case Push(t, _) => s.MayAct(t)
    case StoreQuit(t) => s.MayAct(t)
    case Wake(t) => t in s.owing
    case LoadQuit => s.pc == CheckQuit
    case PollReturn(active) => s.pc == Polling && (active ==> s.counter > 0)
    case ReadEventfd => s.pc == Handling(true) && OWNER !in s.owing
    case EndHandling => s.pc == Handling(false) && OWNER !in s.owing
    case Swap => s.pc == BeforeSwap
    case CallNext => s.pc == Running && s.batch != [] && OWNER !in s.owing
    case EndBatch => s.pc == Running && s.batch == [] && OWNER !in s.owing
  }

  function Exec(s: State, e: Step): State
    requires Enabled(s, e)
  {
    match e
    case Push(t, f) =>
      var q := Queued(f, s.round);
      s.(pending := s.pending + [q],
         enqueued := s.enqueued + [q],
         owing := if t != OWNER || s.CallingPendingFunctors() then s.owing + {t} else s.owing)
    case StoreQuit(t) =>
      s.(quit := true, owing := if t != OWNER then s.owing + {t} else s.owing)
    case Wake(t) =>
      s.(counter := Bump(s.counter), owing := s.owing - {t})
    case LoadQuit =>
      s.(pc := if s.quit then Stopped else Polling)
    case PollReturn(active) =>
      s.(pc := Handling(active))
    case ReadEventfd =>
      s.(counter := 0, pc := Handling(false))
    case EndHandling =>
      s.(pc := BeforeSwap)
    case Swap =>
      s.(pc := Running, batch := s.pending, pending := [], round := s.round + 1)
    case CallNext =>
      s.(called := s.called + [Called(s.batch[0], s.round)], batch := s.batch[1..])
    case EndBatch =>
      s.(pc := CheckQuit)
  }

  predicate Legal(s: State, es: seq<Step>)
    decreases |es|
  {
    es == [] || (Enabled(s, es[0]) && Legal(Exec(s, es[0]), es[1..]))
  }

  function Run(s: State, es: seq<Step>): State
    requires Legal(s, es)
    decreases |es|
  {
    if es == [] then s else Run(Exec(s, es[0]), es[1..])
  }

  /** The loop thread may be asleep in poll only if a wakeup is there or on its way. */
  predicate NoLostWakeup(s: State) {
    s.pc == Polling && (s.pending != [] || s.quit) ==> s.Covered()
  }

  predicate WakeupInv(s: State) {
    && (s.pc in {Running, CheckQuit, Polling} && s.pending != [] ==> s.Covered())
    && (s.pc == Polling && s.quit ==> s.Covered())
  }

  lemma StepKeepsWakeupInv(s: State, e: Step)
    requires WakeupInv(s) && Enabled(s, e)
    ensures WakeupInv(Exec(s, e))
  {
    match e {
      case Push(t, f) => assert t in s.owing + {t};
      case StoreQuit(t) => assert t in s.owing + {t};
      case _ =>
    }
  }

  lemma {:induction false} RunKeepsWakeupInv(s: State, es: seq<Step>)
    requires WakeupInv(s) && Legal(s, es)
    ensures WakeupInv(Run(s, es))
    decreases |es|
  {
    if es != [] {
      StepKeepsWakeupInv(s, es[0]);
      RunKeepsWakeupInv(Exec(s, es[0]), es[1..]);
    }
  }

  /** The owner is about to enter the loop; other threads may already be at work. */
  predicate AtLoopEntry(s: State) {
    s.pc == CheckQuit
  }

  /** No run from s ever reaches a state with a lost wakeup. */
  ghost predicate NeverLosesWakeup(s: State) {
    forall es | Legal(s, es) :: NoLostWakeup(Run(s, es))
  }

  /**
   No wakeup is ever lost, in any run from the entry of loop(), exactly when the
   owner enters with an empty queue, with a wakeup under way, or already told to
   quit.  (The owner's own queueInLoop before loop() does not write the eventfd.)
   */
  lemma NoLostWakeupIff(s: State)
    requires AtLoopEntry(s)
    ensures NeverLosesWakeup(s) <==> (s.pending == [] || s.Covered() || s.quit)
  {
    if s.pending == [] || s.Covered() {
      forall es | Legal(s, es) ensures NoLostWakeup(Run(s, es)) {
        RunKeepsWakeupInv(s, es);
      }
    } else if s.quit {
      forall es | Legal(s, es) ensures NoLostWakeup(Run(s, es)) {
        QuittingNeverPolls(s, es);
      }
    } else {
      SleepsOnFirstPoll(s);
    }
  }

  lemma SleepsOnFirstPoll(s: State)
    requires AtLoopEntry(s) && s.pending != [] && !s.Covered() && !s.quit
    ensures !NeverLosesWakeup(s)
  {
    var es := [LoadQuit];
    assert es[1..] == [];
    assert Legal(s, es);
    assert Run(s, es) == Exec(s, LoadQuit);
  }

  /** Entered with quit already set, the loop never reaches poll. */
  lemma {:induction false} QuittingNeverPolls(s: State, es: seq<Step>)
    requires s.quit && s.pc in {CheckQuit, Stopped} && Legal(s, es)
    ensures Run(s, es).quit && Run(s, es).pc in {CheckQuit, Stopped}
    decreases |es|
  {
    if es != [] {
      QuittingNeverPolls(Exec(s, es[0]), es[1..]);
    }
  }

  // ---- every functor is called exactly once, in order, in the next batch ----

  function Entries(called: seq<Called>): (r: seq<Queued>) {
    seq(|called|, i requires 0 <= i < |called| => called[i].entry)
  }

  lemma EntriesSnoc(called: seq<Called>, c: Called)
    ensures Entries(called + [c]) == Entries(called) + [c.entry]
  {
  }

  predicate FifoInv(s: State) {
    && Entries(s.called) + s.batch + s.pending == s.enqueued
    && (forall q <- s.pending :: q.round == s.round)
    && (forall q <- s.batch :: q.round + 1 == s.round)
    && (forall c <- s.called :: c.batchNo == c.entry.round + 1)
    && (s.pc != Running ==> s.batch == [])
  }

  lemma StepKeepsFifoInv(s: State, e: Step)
    requires FifoInv(s) && Enabled(s, e)
    ensures FifoInv(Exec(s, e))
  {
    match e {
      case Push(t, f) =>
        var q := Queued(f, s.round);
        assert Entries(s.called) + s.batch + (s.pending + [q]) == (Entries(s.called) + s.batch + s.pending) + [q];
      case CallNext =>
        EntriesSnoc(s.called, Called(s.batch[0], s.round));
        assert s.batch == [s.batch[0]] + s.batch[1..];
        assert Entries(s.called) + [s.batch[0]] + s.batch[1..] == Entries(s.called) + s.batch;
      case Swap =>
        assert Entries(s.called) + s.pending + [] == Entries(s.called) + [] + s.pending;
      case _ =>
    }
  }

  predicate Fresh(s: State) {
    s.pc == CheckQuit && s.pending == s.batch == s.enqueued == [] && s.called == [] && s.round == 0
  }

  /**
   In every reachable state the functors called, then the rest of the current
   batch, then the queue, are the functors enqueued, in order; and a functor
   queued after k swaps is called in batch k + 1, never in the running one.
   */
  lemma {:induction false} ExactlyOnceInOrder(s: State, es: seq<Step>)
    requires FifoInv(s) && Legal(s, es)
    ensures FifoInv(Run(s, es))
    decreases |es|
  {
    if es != [] {
      StepKeepsFifoInv(s, es[0]);
      ExactlyOnceInOrder(Exec(s, es[0]), es[1..]);
    }
  }

  // ---- the account of a run ----

  function Functors(q: seq<Queued>): (r: seq<Functor>) {
    seq(|q|, i requires 0 <= i < |q| => q[i].functor)
  }

  lemma FunctorsAppend(a: seq<Queued>, b: seq<Queued>)
    ensures Functors(a + b) == Functors(a) + Functors(b)
  {
  }

  /** What the steps alone come to: who pushed what, quits, wakeups owed and made, calls and batches. */
  datatype Account = Account(
    pushed: seq<Functor>,
    quit: bool,
    owing: set<ThreadId>,
    // writes to the eventfd since it was last read
    wakes: nat,
    // the owner is between the end of event handling and the end of the batch
    calling: bool,
    batches: nat,
    calls: nat
  )

  function AccountStep(a: Account, e: Step): Account {
    match e
    case Push(t, f) =>
      // another thread must wake the loop, and so must the owner if the batch has been taken or is about to be
      a.(pushed := a.pushed + [f], owing := if t == OWNER && !a.calling then a.owing else a.owing + {t})
    case StoreQuit(t) => a.(quit := true, owing := if t == OWNER then a.owing else a.owing + {t})
    case Wake(t) => a.(wakes := a.wakes + 1, owing := a.owing - {t})
    case ReadEventfd => a.(wakes := 0)
    case EndHandling => a.(calling := true)
    case Swap => a.(batches := a.batches + 1)
    case CallNext => a.(calls := a.calls + 1)
    case EndBatch => a.(calling := false)
    case _ => a
  }

  function AccountOf(a: Account, es: seq<Step>): Account
    decreases |es|
  {
    if es == [] then a else AccountOf(AccountStep(a, es[0]), es[1..])
  }

  predicate Agrees(s: State, a: Account) {
    && Functors(s.enqueued) == a.pushed && s.quit == a.quit && s.owing == a.owing
    && s.counter == Min(a.wakes, EVENTFD_MAX) && s.CallingPendingFunctors() == a.calling
    && s.round == a.batches && |s.called| == a.calls
  }

  lemma StepAgrees(s: State, a: Account, e: Step)
    requires Agrees(s, a) && Enabled(s, e)
    ensures Agrees(Exec(s, e), AccountStep(a, e))
  {
    if e.Push? {
      FunctorsAppend(s.enqueued, [Queued(e.functor, s.round)]);
    }
  }

  lemma {:induction false} RunAgrees(s: State, a: Account, es: seq<Step>)
    requires Agrees(s, a) && Legal(s, es)
    ensures Agrees(Run(s, es), AccountOf(a, es))
    decreases |es|
  {
    if es != [] {
      StepAgrees(s, a, es[0]);
      RunAgrees(Exec(s, es[0]), AccountStep(a, es[0]), es[1..]);
    }
  }

  /**
   From a fresh loop: the functors called are the first ones pushed, one for each call
   made, whoever pushed them; when all have been called, none is left anywhere; the
   flag is set by quit() alone, and wakeups are owed by exactly those who must wake.
   */
  lemma EveryPushAccountedFor(s: State, es: seq<Step>)
    requires Fresh(s) && s.counter <= EVENTFD_MAX && Legal(s, es)
    ensures var t, a := Run(s, es), AccountOf(Account([], s.quit, s.owing, s.counter, false, 0, 0), es);
            && Agrees(t, a) && a.calls <= |a.pushed|
            && Functors(Entries(t.called)) == a.pushed[..a.calls]
            && Functors(t.batch + t.pending) == a.pushed[a.calls..]
  {
    var a := Account([], s.quit, s.owing, s.counter, false, 0, 0);
    RunAgrees(s, a, es);
    ExactlyOnceInOrder(s, es);
    var t := Run(s, es);
    assert Entries(t.called) + (t.batch + t.pending) == t.enqueued;
    FunctorsAppend(Entries(t.called), t.batch + t.pending);
  }

  /** From s to t the batch has lost its first elements, one per call. */
  predicate Shrunk(s: State, t: State) {
    var calls := |t.called| - |s.called|;
    0 <= calls <= |s.batch| && t.batch == s.batch[calls..]
  }

  lemma ShrunkOn(s: State, t: State, u: State)
    requires Shrunk(s, t) && Shrunk(t, u)
    ensures Shrunk(s, u)
  {
  }

  lemma StepShrinks(s: State, e: Step)
    requires s.pc == Running && Enabled(s, e)
    ensures Exec(s, e).pc in {Running, CheckQuit} && Shrunk(s, Exec(s, e))
  {
  }

  /**
   A batch in progress only shrinks, one element per call: what the others push
   does not lengthen it.
   */
  lemma {:induction false} BatchOnlyShrinks(s: State, es: seq<Step>)
    requires s.pc == Running && Legal(s, es) && Run(s, es).round == s.round
    ensures Shrunk(s, Run(s, es))
    decreases |es|
  {
    if es != [] {
      var t := Exec(s, es[0]);
      RoundsGrow(t, es[1..]);
      StepShrinks(s, es[0]);
      if t.pc == Running {
        BatchOnlyShrinks(t, es[1..]);
      } else {
        IdleBatch(t, es[1..]);
      }
      ShrunkOn(s, t, Run(t, es[1..]));
    }
  }

  lemma {:induction false} RoundsGrow(s: State, es: seq<Step>)
    requires Legal(s, es)
    ensures s.round <= Run(s, es).round
    decreases |es|
  {
    if es != [] {
      RoundsGrow(Exec(s, es[0]), es[1..]);
    }
  }

  lemma {:induction false} IdleBatch(s: State, es: seq<Step>)
    requires s.pc != Running && Legal(s, es) && Run(s, es).round == s.round
    ensures Run(s, es).batch == s.batch && Run(s, es).called == s.called
    decreases |es|
  {
    if es != [] {
      var t := Exec(s, es[0]);
      RoundsGrow(t, es[1..]);
      IdleBatch(t, es[1..]);
    }
  }

  lemma {:induction false} RunAppend(s: State, es: seq<Step>, fs: seq<Step>)
    requires Legal(s, es) && Legal(Run(s, es), fs)
    ensures Legal(s, es + fs) && Run(s, es + fs) == Run(Run(s, es), fs)
    decreases |es|
  {
    if es == [] {
      assert es + fs == fs;
    } else {
      assert (es + fs)[1..] == es[1..] + fs;
      RunAppend(Exec(s, es[0]), es[1..], fs);
    }
  }

  lemma RunSnoc(s: State, es: seq<Step>, e: Step)
    requires Legal(s, es) && Enabled(Run(s, es), e)
    ensures Legal(s, es + [e]) && Run(s, es + [e]) == Exec(Run(s, es), e)
  {
    assert Legal(Run(s, es), [e]);
    RunAppend(s, es, [e]);
  }

  /** Some run of the machine leads from s to t. */
  ghost predicate Reaches(s: State, t: State) {
    exists es :: Legal(s, es) && Run(s, es) == t
  }

  lemma ReachesItself(s: State)
    ensures Reaches(s, s)
  {
    assert Legal(s, []) && Run(s, []) == s;
  }

  lemma ReachesNext(s: State, t: State, e: Step)
    requires Reaches(s, t) && Enabled(t, e)
    ensures Reaches(s, Exec(t, e))
  {
    var es :| Legal(s, es) && Run(s, es) == t;
    RunSnoc(s, es, e);
  }

  /** Calls of queueInLoop, by whom and of what, in the order of their pushes. */
  type Calls = seq<(ThreadId, Functor)>

  /** What the environment decides in one turn of the loop. */
  datatype Turn = Turn(
    // what other threads queue while the owner is in poll, before poll returns
    inPoll: Calls,
    // what the event handlers on the owner, and other threads meanwhile, queue before the swap
    beforeSwap: Calls,
    // who calls quit() between poll and the swap, if anyone
    quitBy: Option<ThreadId>,
    // poll has finite room for events, and may leave the wakeup channel for later
    wakeupReported: bool,
    // what a functor of the batch, and other threads meanwhile, queue while it runs
    effects: Functor -> Calls,
    // who calls quit() while a functor runs, if anyone
    quits: Functor -> Option<ThreadId>
  )

  function Sent(calls: Calls): seq<Functor> {
    seq(|calls|, i requires 0 <= i < |calls| => calls[i].1)
  }

  predicate OthersOnly(calls: Calls) {
    forall c <- calls :: c.0 != OWNER
  }

  /** What is queued while a batch of functors runs. */
  function Spawned(effects: Functor -> Calls, fs: seq<Functor>): seq<Functor> {
    if fs == [] then [] else Spawned(effects, fs[..|fs| - 1]) + Sent(effects(fs[|fs| - 1]))
  }

  lemma SpawnedNext(effects: Functor -> Calls, fs: seq<Functor>, i: nat)
    requires i < |fs|
    ensures Spawned(effects, fs[..i + 1]) == Spawned(effects, fs[..i]) + Sent(effects(fs[i]))
  {
    assert fs[..i + 1][..i] == fs[..i];
  }

  lemma TakeNext(before: seq<Queued>, q: seq<Queued>, i: nat)
    requires i < |q|
    ensures before + q[..i + 1] == before + q[..i] + [q[i]]
  {
    assert q[..i + 1] == q[..i] + [q[i]];
  }

  /** What a turn must call: the queue it found and all that arrived before its swap. */
  function Due(pending: seq<Functor>, turn: Turn): seq<Functor> {
    pending + Sent(turn.inPoll) + Sent(turn.beforeSwap)
  }

  predicate AnyQuits(quits: Functor -> Option<ThreadId>, fs: seq<Functor>) {
    exists f <- fs :: quits(f).Some?
  }

  lemma AnyQuitsNext(quits: Functor -> Option<ThreadId>, fs: seq<Functor>, i: nat)
    requires i < |fs|
    ensures AnyQuits(quits, fs[..i + 1]) <==> AnyQuits(quits, fs[..i]) || quits(fs[i]).Some?
  {
    assert fs[..i + 1] == fs[..i] + [fs[i]];
  }

  /** Someone calls quit() in the turn that finds this queue. */
  predicate QuitsIn(pending: seq<Functor>, turn: Turn) {
    turn.quitBy.Some? || AnyQuits(turn.quits, Due(pending, turn))
  }

  /** The queue after the first n turns of a script. */
  function Left(pending: seq<Functor>, script: seq<Turn>, n: nat): seq<Functor>
    requires n <= |script|
  {
    if n == 0 then pending
    else Spawned(script[n - 1].effects, Due(Left(pending, script, n - 1), script[n - 1]))
  }

  /** What the first n turns of a script call. */
  function Served(pending: seq<Functor>, script: seq<Turn>, n: nat): seq<Functor>
    requires n <= |script|
  {
    if n == 0 then [] else Served(pending, script, n - 1) + Due(Left(pending, script, n - 1), script[n - 1])
  }

  lemma ServedNext(before: seq<Functor>, pending: seq<Functor>, script: seq<Turn>, n: nat)
    requires n < |script|
    ensures var now := Left(pending, script, n);
            && before + Served(pending, script, n) + Due(now, script[n]) == before + Served(pending, script, n + 1)
            && Spawned(script[n].effects, Due(now, script[n])) == Left(pending, script, n + 1)
  {
    Associative(before, Served(pending, script, n), Due(Left(pending, script, n), script[n]));
  }

  /** Someone calls quit() in turn k of a script. */
  predicate TurnQuits(pending: seq<Functor>, script: seq<Turn>, k: nat)
    requires k < |script|
  {
    QuitsIn(Left(pending, script, k), script[k])
  }

  /** In which turns of a script someone quits. */
  function Quitting(pending: seq<Functor>, script: seq<Turn>): (qs: seq<bool>)
    ensures |qs| == |script| && forall k | 0 <= k < |script| :: qs[k] == TurnQuits(pending, script, k)
  {
    seq(|script|, k requires 0 <= k < |script| => TurnQuits(pending, script, k))
  }

  /** Where loop(), about to begin turn i, stops. */
  function StopsBehind(quitting: seq<bool>, i: nat): (n: nat)
    requires i <= |quitting|
    ensures i <= n <= |quitting|
    decreases |quitting| - i
  {
    if i == |quitting| || quitting[i] then Min(i + 1, |quitting|) else StopsBehind(quitting, i + 1)
  }

  /** That is behind the first turn in which someone quits, or at the end of the script. */
  lemma {:induction false} StopsBehindFirstQuit(quitting: seq<bool>, i: nat)
    requires i <= |quitting|
    ensures var n := StopsBehind(quitting, i);
            && (forall k | i <= k < n - 1 :: !quitting[k])
            && (n < |quitting| ==> i < n && quitting[n - 1])
    decreases |quitting| - i
  {
    if i < |quitting| && !quitting[i] {
      StopsBehindFirstQuit(quitting, i + 1);
    }
  }

  /**
   The loop object.  Each method's effect is stated outright, and every method is
   a run of the machine above, so the run theorems hold of any use of the object.
   */
  class EventLoop {
    var quit: bool
    var callingPendingFunctors: bool
    var eventHandling: bool
    var pendingFunctors: seq<Functor>
    // the kernel's counter behind wakeupFd_
    var wakeupCounter: nat

    // the state on entry of loop(), and the machine's bookkeeping
    ghost const start: State
    ghost var pc: LoopPc
    ghost var queue: seq<Queued>
    ghost var batch: seq<Queued>
    ghost var called: seq<Called>
    ghost var enqueued: seq<Queued>
    ghost var round: nat

    /** The machine state, between whole calls: nobody owes a wakeup. */
    ghost function View(): State
      reads this
    {
      State(pc, quit, wakeupCounter, {}, queue, batch, called, enqueued, round)
    }

    /** The functors called so far, in order. */
    ghost function CalledFunctors(): seq<Functor>
      reads this
    {
      Functors(Entries(called))
    }

    ghost predicate Valid()
      reads this
    {
      && callingPendingFunctors == View().CallingPendingFunctors()
      && (eventHandling ==> pc.Handling?)
      && pendingFunctors == Functors(queue)
      && Reaches(start, View())
      && Fresh(start)
    }

    /** The run theorems, read off the object: nothing lost, nothing twice, nothing late. */
    lemma ValidIsSafe()
      requires Valid()
      ensures NoLostWakeup(View())
      ensures Entries(called) + batch + queue == enqueued
      ensures forall c <- called :: c.batchNo == c.entry.round + 1
    {
      var es :| Legal(start, es) && Run(start, es) == View();
      RunKeepsWakeupInv(start, es);
      ExactlyOnceInOrder(start, es);
    }

    constructor ()
      ensures Valid() && Fresh(View()) && !quit && wakeupCounter == 0
    {
      quit, callingPendingFunctors, eventHandling := false, false, false;
      pendingFunctors, wakeupCounter := [], 0;
      pc, queue, batch, called, enqueued, round := CheckQuit, [], [], [], [], 0;
      start := State(CheckQuit, false, 0, {}, [], [], [], [], 0);
      new;
      ReachesItself(start);
    }

    method Wakeup()
      modifies this`wakeupCounter
      ensures wakeupCounter == Bump(old(wakeupCounter))
    {
      if wakeupCounter < EVENTFD_MAX {
        wakeupCounter := wakeupCounter + 1;
      }
    }

    method QueueInLoop(t: ThreadId, f: Functor)
      requires Valid() && View().MayAct(t)
      modifies this`pendingFunctors, this`queue, this`enqueued, this`wakeupCounter
      ensures Valid() && pendingFunctors == old(pendingFunctors) + [f]
      ensures wakeupCounter == if t != OWNER || callingPendingFunctors then Bump(old(wakeupCounter))
                               else old(wakeupCounter)
    {
      ghost var s := View();
      ghost var q := Queued(f, round);
      FunctorsAppend(queue, [q]);
      pendingFunctors, queue, enqueued := pendingFunctors + [f], queue + [q], enqueued + [q];
      ReachesNext(start, s, Push(t, f));
      if t != OWNER || callingPendingFunctors {
        Wakeup();
        ghost var pushed := Exec(s, Push(t, f));
        assert pushed.owing == {t};
        ReachesNext(start, pushed, Wake(t));
      }
    }

    method Quit(t: ThreadId)
      requires Valid() && View().MayAct(t)
      modifies this`quit, this`wakeupCounter
      ensures Valid() && quit
      ensures wakeupCounter == if t != OWNER then Bump(old(wakeupCounter)) else old(wakeupCounter)
    {
      ghost var s := View();
      quit := true;
      ReachesNext(start, s, StoreQuit(t));
      if t != OWNER {
        Wakeup();
        ghost var stored := Exec(s, StoreQuit(t));
        assert stored.owing == {t};
        ReachesNext(start, stored, Wake(t));
      }
    }

    method HandleRead()
      requires Valid() && pc == Handling(true)
      modifies this`pc, this`wakeupCounter
      ensures Valid() && pc == Handling(false) && wakeupCounter == 0
    {
      ReachesNext(start, View(), ReadEventfd);
      wakeupCounter := 0;
      pc := Handling(false);
    }

    /** Calls of queueInLoop, one after the other, from any threads. */
    method QueueAll(calls: Calls)
      requires Valid() && (View().OwnerRunsUserCode() || OthersOnly(calls))
      modifies this`pendingFunctors, this`queue, this`enqueued, this`wakeupCounter
      ensures Valid() && pendingFunctors == old(pendingFunctors) + Sent(calls)
      ensures calls != [] && (callingPendingFunctors || OthersOnly(calls)) ==> wakeupCounter > 0
      ensures wakeupCounter >= old(wakeupCounter)
    {
      var i := 0;
      while i < |calls|
        invariant 0 <= i <= |calls|
        invariant Valid() && pendingFunctors == old(pendingFunctors) + Sent(calls[..i])
        invariant i > 0 && (callingPendingFunctors || OthersOnly(calls)) ==> wakeupCounter > 0
        invariant wakeupCounter >= old(wakeupCounter)
      {
        QueueInLoop(calls[i].0, calls[i].1);
        assert Sent(calls[..i + 1]) == Sent(calls[..i]) + [calls[i].1];
        i := i + 1;
      }
      assert calls[..i] == calls;
    }

    /** On the owner thread the functor is called at once, elsewhere it is queued. */
    method RunInLoop(t: ThreadId, f: Functor, effects: Functor -> Calls) returns (calledHere: bool)
      requires Valid() && View().MayAct(t)
      modifies this`pendingFunctors, this`queue, this`enqueued, this`wakeupCounter
      ensures Valid() && calledHere == (t == OWNER)
      ensures pendingFunctors == old(pendingFunctors) + if calledHere then Sent(effects(f)) else [f]
      ensures !calledHere ==> wakeupCounter > 0
    {
      calledHere := t == OWNER;
      if calledHere {
        QueueAll(effects(f));
      } else {
        QueueInLoop(t, f);
      }
    }

    /**
     Swaps the queue out and calls its functors in order; while functor f runs, it and
     other threads queue effects(f), and quits(f) may call quit().  Everything queued before is called, nothing else
     is, and what is queued meanwhile waits, with a wakeup, for the next batch.
     */
    method DoPendingFunctors(effects: Functor -> Calls, quits: Functor -> Option<ThreadId>)
      requires Valid() && pc == Handling(false) && !eventHandling
      modifies this`pc, this`callingPendingFunctors, this`batch, this`called, this`round
      modifies this`pendingFunctors, this`queue, this`enqueued, this`wakeupCounter, this`quit
      ensures Valid() && pc == CheckQuit && quit == (old(quit) || AnyQuits(quits, old(pendingFunctors)))
      ensures Entries(called) == Entries(old(called)) + old(queue)
      ensures pendingFunctors == Spawned(effects, old(pendingFunctors))
      ensures pendingFunctors != [] ==> wakeupCounter > 0
    {
      BeginCalling();
      var functors := SwapOut();
      CallAll(functors, effects, quits);
      ReachesNext(start, View(), EndBatch);
      callingPendingFunctors, pc := false, CheckQuit;
    }

    /** Line 129. */
    method BeginCalling()
      requires Valid() && pc == Handling(false) && !eventHandling
      modifies this`pc, this`callingPendingFunctors
      ensures Valid() && pc == BeforeSwap && callingPendingFunctors
    {
      ReachesNext(start, View(), EndHandling);
      callingPendingFunctors, pc := true, BeforeSwap;
    }

    /** The critical section, lines 131-134. */
    method SwapOut() returns (functors: seq<Functor>)
      requires Valid() && pc == BeforeSwap && !eventHandling
      modifies this`pc, this`batch, this`round, this`pendingFunctors, this`queue
      ensures Valid() && pc == Running && callingPendingFunctors
      ensures functors == old(pendingFunctors) == Functors(batch) && pendingFunctors == [] && batch == old(queue)
    {
      ReachesNext(start, View(), Swap);
      functors := pendingFunctors;
      pendingFunctors, queue, batch, pc, round := [], [], queue, Running, round + 1;
    }

    /** A call of quit(), if there is one. */
    method QuitIf(caller: Option<ThreadId>)
      requires Valid() && View().OwnerRunsUserCode()
      modifies this`quit, this`wakeupCounter
      ensures Valid() && quit == (old(quit) || caller.Some?) && wakeupCounter >= old(wakeupCounter)
    {
      if caller.Some? {
        Quit(caller.value);
      }
    }

    /** A functor of the batch runs. */
    method CallOne(f: Functor, effects: Functor -> Calls, quits: Functor -> Option<ThreadId>)
      requires Valid() && pc == Running && batch != []
      modifies this`batch, this`called, this`pendingFunctors, this`queue, this`enqueued, this`wakeupCounter
      modifies this`quit
      ensures Valid() && batch == old(batch)[1..] && quit == (old(quit) || quits(f).Some?)
      ensures Entries(called) == Entries(old(called)) + [old(batch)[0]]
      ensures pendingFunctors == old(pendingFunctors) + Sent(effects(f))
      ensures wakeupCounter >= old(wakeupCounter) && (effects(f) != [] ==> wakeupCounter > 0)
    {
      CallFront();
      QueueAll(effects(f));
      QuitIf(quits(f));
    }

    /** In the loop over the functors, with i calls made. */
    ghost predicate AfterCalls(entries: seq<Queued>, before: seq<Queued>, functors: seq<Functor>,
                               effects: Functor -> Calls, quits: Functor -> Option<ThreadId>, quitBefore: bool, i: nat)
      requires i <= |functors| == |entries|
      reads this
    {
      && Valid() && pc == Running && batch == entries[i..]
      && quit == (quitBefore || AnyQuits(quits, functors[..i]))
      && Entries(called) == before + entries[..i]
      && pendingFunctors == Spawned(effects, functors[..i])
      && (pendingFunctors != [] ==> wakeupCounter > 0)
    }

    method CallOneMore(ghost entries: seq<Queued>, ghost before: seq<Queued>, functors: seq<Functor>,
                    effects: Functor -> Calls, quits: Functor -> Option<ThreadId>, ghost quitBefore: bool, i: nat)
      requires i < |functors| == |entries|
      requires AfterCalls(entries, before, functors, effects, quits, quitBefore, i)
      modifies this`batch, this`called, this`pendingFunctors, this`queue, this`enqueued, this`wakeupCounter
      modifies this`quit
      ensures AfterCalls(entries, before, functors, effects, quits, quitBefore, i + 1)
    {
      AnyQuitsNext(quits, functors, i);
      SpawnedNext(effects, functors, i);
      TakeNext(before, entries, i);
      CallOne(functors[i], effects, quits);
    }

    /** The for loop over the swapped-out functors, lines 136-138. */
    method CallAll(functors: seq<Functor>, effects: Functor -> Calls, quits: Functor -> Option<ThreadId>)
      requires Valid() && pc == Running && pendingFunctors == [] && functors == Functors(batch)
      modifies this`batch, this`called, this`pendingFunctors, this`queue, this`enqueued, this`wakeupCounter
      modifies this`quit
      ensures Valid() && batch == [] && quit == (old(quit) || AnyQuits(quits, functors))
      ensures Entries(called) == Entries(old(called)) + old(batch)
      ensures pendingFunctors == Spawned(effects, functors)
      ensures pendingFunctors != [] ==> wakeupCounter > 0
    {
      ghost var entries, before, quitBefore := batch, Entries(called), quit;
      assert entries[0..] == entries && before + entries[..0] == before;
      var i := 0;
      while i < |functors|
        invariant i <= |functors| && AfterCalls(entries, before, functors, effects, quits, quitBefore, i)
      {
        CallOneMore(entries, before, functors, effects, quits, quitBefore, i);
        i := i + 1;
      }
      assert functors[..i] == functors && entries[..i] == entries;
    }

    /** The bookkeeping of one call: the front of the batch becomes the latest call. */
    ghost method CallFront()
      requires Valid() && pc == Running && batch != []
      modifies this`called, this`batch
      ensures Valid() && batch == old(batch)[1..] && Entries(called) == Entries(old(called)) + [old(batch)[0]]
    {
      ReachesNext(start, View(), CallNext);
      EntriesSnoc(called, Called(batch[0], round));
      called, batch := called + [Called(batch[0], round)], batch[1..];
    }

    /** Poll returns, lines 66-71; the wakeup channel is handled if poll reports it. */
    method PollReturns(turn: Turn)
      requires Valid() && pc == Polling && !quit
      modifies this`pc, this`eventHandling, this`wakeupCounter
      ensures Valid() && pc == Handling(false) && eventHandling && !quit
    {
      var wakeupActive := turn.wakeupReported && wakeupCounter > 0;
      ReachesNext(start, View(), PollReturn(wakeupActive));
      pc := Handling(wakeupActive);
      eventHandling := true;
      if wakeupActive {
        HandleRead();
      }
    }

    /** The active channels are handled, lines 72-77, while other threads are at work. */
    method HandleEvents(turn: Turn)
      requires Valid() && pc == Handling(false) && eventHandling && !quit
      modifies this`eventHandling, this`quit
      modifies this`pendingFunctors, this`queue, this`enqueued, this`wakeupCounter
      ensures Valid() && pc == Handling(false) && !eventHandling && quit == turn.quitBy.Some?
      ensures pendingFunctors == old(pendingFunctors) + Sent(turn.beforeSwap)
    {
      QueueAll(turn.beforeSwap);
      QuitIf(turn.quitBy);
      eventHandling := false;
    }

    /**
     The body of the loop, lines 65-78, entered with quit_ read as false.  Whatever
     poll reported, everything queued before the swap, by the owner or by others, has
     been called at the end.
     */
    method OneTurn(turn: Turn)
      requires Valid() && pc == CheckQuit && !quit && OthersOnly(turn.inPoll)
      modifies this
      ensures Valid() && pc == CheckQuit && quit == QuitsIn(old(pendingFunctors), turn)
      ensures var due := Due(old(pendingFunctors), turn);
              && CalledFunctors() == old(CalledFunctors()) + due
              && pendingFunctors == Spawned(turn.effects, due)
    {
      ReachesNext(start, View(), LoadQuit);
      pc := Polling;
      QueueAll(turn.inPoll);
      PollReturns(turn);
      HandleEvents(turn);

      FunctorsAppend(Entries(called), queue);
      DoPendingFunctors(turn.effects, turn.quits);
    }

    /** Where a script is after n of its turns. */
    ghost predicate After(before: seq<Functor>, atEntry: seq<Functor>, script: seq<Turn>, n: nat)
      requires n <= |script|
      reads this
    {
      CalledFunctors() == before + Served(atEntry, script, n) && pendingFunctors == Left(atEntry, script, n)
    }

    /** One more turn of a script whose first n turns have run. */
    method NextTurn(ghost before: seq<Functor>, ghost atEntry: seq<Functor>, script: seq<Turn>, n: nat)
      requires n < |script| && OthersOnly(script[n].inPoll)
      requires Valid() && pc == CheckQuit && !quit && After(before, atEntry, script, n)
      modifies this
      ensures Valid() && pc == CheckQuit && quit == TurnQuits(atEntry, script, n)
      ensures After(before, atEntry, script, n + 1)
    {
      ServedNext(before, atEntry, script, n);
      OneTurn(script[n]);
    }

    /** At the loop's test with n turns behind it, of the `total` it will run. */
    ghost predicate AtTest(before: seq<Functor>, atEntry: seq<Functor>, script: seq<Turn>, n: nat, total: nat)
      requires n <= |script|
      reads this
    {
      && Valid() && pc == CheckQuit && After(before, atEntry, script, n)
      && total == if quit then n else StopsBehind(Quitting(atEntry, script), n)
    }

    /** From one test of the loop to the next. */
    method NextTest(ghost before: seq<Functor>, ghost atEntry: seq<Functor>, script: seq<Turn>, n: nat,
                    ghost total: nat)
      requires n < |script| && OthersOnly(script[n].inPoll)
      requires !quit && AtTest(before, atEntry, script, n, total)
      modifies this
      ensures AtTest(before, atEntry, script, n + 1, total)
    {
      NextTurn(before, atEntry, script, n);
    }

    /** The read of quit_ that ends the loop, line 64. */
    ghost method Leave()
      requires Valid() && pc == CheckQuit && quit
      modifies this`pc
      ensures Valid() && pc == Stopped
    {
      ReachesNext(start, View(), LoadQuit);
      pc := Stopped;
    }

    /** The while loop, lines 64-79. */
    method Turns(script: seq<Turn>) returns (turns: nat)
      requires Valid() && pc == CheckQuit && !quit
      requires forall k | 0 <= k < |script| :: OthersOnly(script[k].inPoll)
      modifies this
      ensures Valid() && pc == CheckQuit && turns <= |script| && (turns < |script| ==> quit)
      ensures turns == StopsBehind(Quitting(old(pendingFunctors), script), 0)
      ensures After(old(CalledFunctors()), old(pendingFunctors), script, turns)
    {
      ghost var before, atEntry := CalledFunctors(), pendingFunctors;
      ghost var total := StopsBehind(Quitting(atEntry, script), 0);
      turns := 0;
      while !quit && turns < |script|
        invariant turns <= |script| && AtTest(before, atEntry, script, turns, total)
        decreases |script| - turns
      {
        NextTest(before, atEntry, script, turns, total);
        turns := turns + 1;
      }
    }

    /**
     loop() under a script of environment decisions: turns run up to the first in which
     someone quits.  What was called is what each turn owed, turn after turn.
     */
    method Loop(script: seq<Turn>) returns (turns: nat)
      requires Valid() && pc == CheckQuit
      requires forall k | 0 <= k < |script| :: OthersOnly(script[k].inPoll)
      modifies this
      ensures Valid() && pc == if quit then Stopped else CheckQuit
      ensures turns == if old(quit) then 0 else StopsBehind(Quitting(old(pendingFunctors), script), 0)
      ensures turns <= |script| && (turns < |script| ==> quit)
      ensures After(old(CalledFunctors()), old(pendingFunctors), script, turns)
    {
      turns := 0;
      if !quit {
        turns := Turns(script);
      }
      if quit {
        Leave();
      }
    }
  }
}
