/**
 The bounded blocking queue: producers and consumers share one mutex and two
 condition variables.  A step is one stretch of code with the mutex held: from the
 lock, or from the return of a wait, to the unlock or to the next wait.
 */
module BoundedBlockingQueue {
  import opened Sequences

  type ThreadId = nat
  type Item = nat

  datatype State = State(
    maxSize: nat,
    queue: seq<Item>,
    // threads blocked in notEmpty_.wait, and those woken there that have yet to get the mutex
    waitingTakers: set<ThreadId>,
    wokenTakers: set<ThreadId>,
    // the same for notFull_, with the item each producer brings
    waitingPutters: map<ThreadId, Item>,
    wokenPutters: map<ThreadId, Item>,
    // everything inserted and everything returned, in order
    put: seq<Item>,
    taken: seq<Item>
  )

  function Initial(maxSize: nat): State {
    State(maxSize, [], {}, {}, map[], map[], [], [])
  }

  datatype Step =
    // a call gets the mutex; notify_one wakes the given waiter, if there is one
    | Put(t: ThreadId, x: Item, wake: Option<ThreadId>)
    | Take(t: ThreadId, wake: Option<ThreadId>)
    // a woken thread gets the mutex back and tests its condition again
    | ResumePut(t: ThreadId, wake: Option<ThreadId>)
    | ResumeTake(t: ThreadId, wake: Option<ThreadId>)
    // a wait returns without having been notified
    | SpuriousPut(t: ThreadId)
    | SpuriousTake(t: ThreadId)

  predicate Blocked(s: State, t: ThreadId) {
    t in s.waitingTakers || t in s.wokenTakers || t in s.waitingPutters || t in s.wokenPutters
  }

  /** notify_one wakes some waiter exactly when there is one. */
  predicate WakesTaker(s: State, wake: Option<ThreadId>) {
    if s.waitingTakers == {} then wake.None? else wake.Some? && wake.value in s.waitingTakers
  }

  predicate WakesPutter(s: State, wake: Option<ThreadId>) {
    if s.waitingPutters == map[] then wake.None? else wake.Some? && wake.value in s.waitingPutters
  }

  predicate Full(s: State) {
    |s.queue| == s.maxSize
  }

  predicate Possible(s: State, e: Step) {
    match e
    case Put(t, x, wake) => !Blocked(s, t) && (if Full(s) then wake.None? else WakesTaker(s, wake))
    case Take(t, wake) => !Blocked(s, t) && (if s.queue == [] then wake.None? else WakesPutter(s, wake))
    case ResumePut(t, wake) => t in s.wokenPutters && (if Full(s) then wake.None? else WakesTaker(s, wake))
    case ResumeTake(t, wake) => t in s.wokenTakers && (if s.queue == [] then wake.None? else WakesPutter(s, wake))
    case SpuriousPut(t) => t in s.waitingPutters
    case SpuriousTake(t) => t in s.waitingTakers
  }

  function NotifyTaker(s: State, wake: Option<ThreadId>): State {
    if wake.Some? then s.(waitingTakers := s.waitingTakers - {wake.value}, wokenTakers := s.wokenTakers + {wake.value})
    else s
  }

  function NotifyPutter(s: State, wake: Option<ThreadId>): State
    requires wake.Some? ==> wake.value in s.waitingPutters
  {
    if wake.Some? then
      s.(waitingPutters := s.waitingPutters - {wake.value},
         wokenPutters := s.wokenPutters[wake.value := s.waitingPutters[wake.value]])
    else s
  }

  /** put with the mutex held: waits while full, else inserts and notifies. */
  function PutLocked(s: State, t: ThreadId, x: Item, wake: Option<ThreadId>): State {
    if Full(s) then s.(waitingPutters := s.waitingPutters[t := x])
    else NotifyTaker(s.(queue := s.queue + [x], put := s.put + [x]), wake)
  }

  function TakeLocked(s: State, t: ThreadId, wake: Option<ThreadId>): State
    requires wake.Some? ==> wake.value in s.waitingPutters
  {
    if s.queue == [] then s.(waitingTakers := s.waitingTakers + {t})
    else NotifyPutter(s.(queue := s.queue[1..], taken := s.taken + [s.queue[0]]), wake)
  }

  function Exec(s: State, e: Step): State
    requires Possible(s, e)
  {
    match e
    case Put(t, x, wake) => PutLocked(s, t, x, wake)
    case Take(t, wake) => TakeLocked(s, t, wake)
    case ResumePut(t, wake) => PutLocked(s.(wokenPutters := s.wokenPutters - {t}), t, s.wokenPutters[t], wake)
    case ResumeTake(t, wake) => TakeLocked(s.(wokenTakers := s.wokenTakers - {t}), t, wake)
    case SpuriousPut(t) => NotifyPutter(s, Some(t))
    case SpuriousTake(t) => NotifyTaker(s, Some(t))
  }

  /** While a consumer sleeps, at least as many are awake as there are items; producers likewise. */
  predicate NoStuckWaiter(s: State) {
    && (s.waitingTakers != {} ==> |s.queue| <= |s.wokenTakers|)
    && (s.waitingPutters != map[] ==> s.maxSize - |s.queue| <= |s.wokenPutters|)
  }

  /** A waiter is not at the same time counted as woken. */
  predicate OneRole(s: State) {
    && (forall t <- s.waitingTakers :: t !in s.wokenTakers)
    && (forall t <- s.waitingPutters :: t !in s.wokenPutters)
  }

  predicate FifoInv(s: State) {
    |s.queue| <= s.maxSize && s.taken + s.queue == s.put
  }

  predicate WaitersInv(s: State) {
    OneRole(s) && NoStuckWaiter(s)
  }

  predicate Inv(s: State) {
    FifoInv(s) && WaitersInv(s)
  }

  lemma Grow<T>(s: set<T>, x: T)
    requires x !in s
    ensures |s + {x}| == |s| + 1
  {
  }

  lemma Shrink<T>(s: set<T>, x: T)
    requires x in s
    ensures |s - {x}| == |s| - 1
  {
  }

  lemma GrowMap<K, V>(m: map<K, V>, k: K, v: V)
    requires k !in m
    ensures |m[k := v]| == |m| + 1
  {
    assert m[k := v].Keys == m.Keys + {k};
    Grow(m.Keys, k);
    assert |m.Keys| == |m| && |m[k := v].Keys| == |m[k := v]|;
  }

  lemma ShrinkMap<K, V>(m: map<K, V>, k: K)
    requires k in m
    ensures |m - {k}| == |m| - 1
  {
    assert (m - {k}).Keys == m.Keys - {k};
    Shrink(m.Keys, k);
    assert |m.Keys| == |m| && |(m - {k}).Keys| == |m - {k}|;
  }

  lemma StepKeepsFifo(s: State, e: Step)
    requires FifoInv(s) && Possible(s, e)
    ensures FifoInv(Exec(s, e))
  {
    if s.queue != [] {
      assert s.taken + [s.queue[0]] + s.queue[1..] == s.taken + s.queue;
    }
    assert forall x :: s.taken + (s.queue + [x]) == s.put + [x];
  }

  /** The waiters' invariant, short of one woken taker or putter: the thread that holds the mutex. */
  predicate WaitersBut(s: State, takers: nat, putters: nat) {
    && OneRole(s)
    && (s.waitingTakers != {} ==> |s.queue| <= |s.wokenTakers| + takers)
    && (s.waitingPutters != map[] ==> s.maxSize - |s.queue| <= |s.wokenPutters| + putters)
  }

  lemma NotifyTakerWakes(s: State, wake: Option<ThreadId>)
    requires OneRole(s) && WakesTaker(s, wake)
    ensures var t := NotifyTaker(s, wake);
            && OneRole(t) && |t.wokenTakers| == |s.wokenTakers| + (if s.waitingTakers != {} then 1 else 0)
  {
    if wake.Some? {
      Grow(s.wokenTakers, wake.value);
    }
  }

  lemma NotifyPutterWakes(s: State, wake: Option<ThreadId>)
    requires OneRole(s) && WakesPutter(s, wake)
    ensures var t := NotifyPutter(s, wake);
            && OneRole(t) && |t.wokenPutters| == |s.wokenPutters| + (if s.waitingPutters != map[] then 1 else 0)
  {
    if wake.Some? {
      GrowMap(s.wokenPutters, wake.value, s.waitingPutters[wake.value]);
    }
  }

  lemma PutKeepsWaiters(s: State, t: ThreadId, x: Item, wake: Option<ThreadId>)
    requires WaitersBut(s, 0, 1) && t !in s.wokenPutters && |s.queue| <= s.maxSize
    requires if Full(s) then wake.None? else WakesTaker(s, wake)
    ensures WaitersInv(PutLocked(s, t, x, wake))
  {
    if !Full(s) {
      NotifyTakerWakes(s.(queue := s.queue + [x], put := s.put + [x]), wake);
    }
  }

  lemma TakeKeepsWaiters(s: State, t: ThreadId, wake: Option<ThreadId>)
    requires WaitersBut(s, 1, 0) && t !in s.wokenTakers
    requires if s.queue == [] then wake.None? else WakesPutter(s, wake)
    ensures WaitersInv(TakeLocked(s, t, wake))
  {
    if s.queue != [] {
      NotifyPutterWakes(s.(queue := s.queue[1..], taken := s.taken + [s.queue[0]]), wake);
    }
  }

  lemma StepKeepsWaiters(s: State, e: Step)
    requires Inv(s) && Possible(s, e)
    ensures WaitersInv(Exec(s, e))
  {
    match e {
      case Put(t, x, wake) => PutKeepsWaiters(s, t, x, wake);
      case Take(t, wake) => TakeKeepsWaiters(s, t, wake);
      case ResumePut(t, wake) =>
        ShrinkMap(s.wokenPutters, t);
        PutKeepsWaiters(s.(wokenPutters := s.wokenPutters - {t}), t, s.wokenPutters[t], wake);
      case ResumeTake(t, wake) =>
        Shrink(s.wokenTakers, t);
        TakeKeepsWaiters(s.(wokenTakers := s.wokenTakers - {t}), t, wake);
      case SpuriousPut(t) => NotifyPutterWakes(s, Some(t));
      case SpuriousTake(t) => NotifyTakerWakes(s, Some(t));
    }
  }

  lemma StepKeepsInv(s: State, e: Step)
    requires Inv(s) && Possible(s, e)
    ensures Inv(Exec(s, e))
  {
    StepKeepsFifo(s, e);
    StepKeepsWaiters(s, e);
  }

  predicate Legal(s: State, es: seq<Step>)
    decreases |es|
  {
    es == [] || (Possible(s, es[0]) && Legal(Exec(s, es[0]), es[1..]))
  }

  function Run(s: State, es: seq<Step>): State
    requires Legal(s, es)
    decreases |es|
  {
    if es == [] then s else Run(Exec(s, es[0]), es[1..])
  }

  lemma {:induction false} RunKeepsInv(s: State, es: seq<Step>)
    requires Inv(s) && Legal(s, es)
    ensures Inv(Run(s, es)) && Run(s, es).maxSize == s.maxSize
    decreases |es|
  {
    if es != [] {
      StepKeepsInv(s, es[0]);
      RunKeepsInv(Exec(s, es[0]), es[1..]);
    }
  }

  /**
   In every run, with any number of threads, overtaking calls and spurious wakeups:
   items leave in the order they were put, never more than maxSize are held, and a
   thread sleeps only while those already woken account for every item or free slot.
   */
  lemma NoWaiterIsStuck(maxSize: nat, es: seq<Step>)
    requires Legal(Initial(maxSize), es)
    ensures var t := Run(Initial(maxSize), es);
            && t.taken + t.queue == t.put && |t.queue| <= maxSize
            && (t.waitingTakers != {} && t.queue != [] ==> t.wokenTakers != {})
            && (t.waitingPutters != map[] && |t.queue| < maxSize ==> t.wokenPutters != map[])
            && (t.waitingTakers != {} ==> |t.queue| <= |t.wokenTakers|)
            && (t.waitingPutters != map[] ==> maxSize - |t.queue| <= |t.wokenPutters|)
  {
    RunKeepsInv(Initial(maxSize), es);
  }

  // ---- the account of a run ----

  /** An item and the thread whose call of put brought it. */
  datatype Brought = Brought(t: ThreadId, x: Item)

  /** What a run should have come to, kept from the calls and the number of items alone. */
  datatype Account = Account(
    size: nat,
    put: seq<Brought>,
    // the threads whose call of take has returned, in order
    takers: seq<ThreadId>,
    // calls that have not returned: put with its item, and take
    putting: map<ThreadId, Item>,
    taking: set<ThreadId>
  )

  const NEW_ACCOUNT := Account(0, [], [], map[], {})

  function AccountPut(a: Account, maxSize: nat, t: ThreadId, x: Item): Account {
    if a.size < maxSize then a.(size := a.size + 1, put := a.put + [Brought(t, x)], putting := a.putting - {t})
    else a.(putting := a.putting[t := x])
  }

  function AccountTake(a: Account, t: ThreadId): Account {
    if a.size > 0 then a.(size := a.size - 1, takers := a.takers + [t], taking := a.taking - {t})
    else a.(taking := a.taking + {t})
  }

  function AccountStep(a: Account, maxSize: nat, e: Step): Account {
    match e
    case Put(t, x, _) => AccountPut(a, maxSize, t, x)
    case Take(t, _) => AccountTake(a, t)
    case ResumePut(t, _) => if t in a.putting then AccountPut(a, maxSize, t, a.putting[t]) else a
    case ResumeTake(t, _) => AccountTake(a, t)
    case _ => a
  }

  function AccountOf(a: Account, maxSize: nat, es: seq<Step>): Account
    decreases |es|
  {
    if es == [] then a else AccountOf(AccountStep(a, maxSize, es[0]), maxSize, es[1..])
  }

  function ItemsOf(bs: seq<Brought>): seq<Item> {
    seq(|bs|, i requires 0 <= i < |bs| => bs[i].x)
  }

  /** The queue is as the account says. */
  predicate Agrees(s: State, a: Account) {
    && a.size == |s.queue| && ItemsOf(a.put) == s.put && |a.takers| == |s.taken|
    && a.putting == s.waitingPutters + s.wokenPutters && a.taking == s.waitingTakers + s.wokenTakers
  }

  lemma PutAgrees(s: State, a: Account, t: ThreadId, x: Item, wake: Option<ThreadId>)
    requires |s.queue| <= s.maxSize && t !in s.waitingPutters && t !in s.wokenPutters
    requires Agrees(s, a.(putting := a.putting - {t})) && (Full(s) ==> wake.None?)
    requires wake.Some? ==> wake.value in s.waitingTakers
    ensures Agrees(PutLocked(s, t, x, wake), AccountPut(a, s.maxSize, t, x))
  {
    var b := AccountPut(a, s.maxSize, t, x);
    if Full(s) {
      assert s.waitingPutters[t := x] + s.wokenPutters == (a.putting - {t})[t := x] == b.putting;
    } else {
      assert ItemsOf(a.put + [Brought(t, x)]) == ItemsOf(a.put) + [x];
      assert wake.Some? ==>
          s.waitingTakers - {wake.value} + (s.wokenTakers + {wake.value}) == s.waitingTakers + s.wokenTakers;
    }
  }

  lemma TakeAgrees(s: State, a: Account, t: ThreadId, wake: Option<ThreadId>)
    requires t !in s.waitingTakers && t !in s.wokenTakers && OneRole(s)
    requires Agrees(s, a.(taking := a.taking - {t})) && (wake.Some? ==> wake.value in s.waitingPutters)
    ensures Agrees(TakeLocked(s, t, wake), AccountTake(a, t))
  {
    var u := TakeLocked(s, t, wake);
    assert u.waitingPutters + u.wokenPutters == s.waitingPutters + s.wokenPutters;
  }

  lemma ResumePutAgrees(s: State, a: Account, t: ThreadId, wake: Option<ThreadId>)
    requires Inv(s) && Agrees(s, a) && Possible(s, ResumePut(t, wake))
    ensures t in a.putting && Agrees(Exec(s, ResumePut(t, wake)), AccountPut(a, s.maxSize, t, a.putting[t]))
  {
    var awake := s.(wokenPutters := s.wokenPutters - {t});
    assert a.putting - {t} == awake.waitingPutters + awake.wokenPutters;
    PutAgrees(awake, a, t, s.wokenPutters[t], wake);
  }

  lemma ResumeTakeAgrees(s: State, a: Account, t: ThreadId, wake: Option<ThreadId>)
    requires Inv(s) && Agrees(s, a) && Possible(s, ResumeTake(t, wake))
    ensures Agrees(Exec(s, ResumeTake(t, wake)), AccountTake(a, t))
  {
    var awake := s.(wokenTakers := s.wokenTakers - {t});
    assert a.taking - {t} == awake.waitingTakers + awake.wokenTakers;
    TakeAgrees(awake, a, t, wake);
  }

  lemma SpuriousAgrees(s: State, a: Account, e: Step)
    requires Agrees(s, a) && Possible(s, e) && OneRole(s) && (e.SpuriousPut? || e.SpuriousTake?)
    ensures Agrees(Exec(s, e), a)
  {
    var t := Exec(s, e);
    assert t.waitingPutters + t.wokenPutters == s.waitingPutters + s.wokenPutters;
    assert t.waitingTakers + t.wokenTakers == s.waitingTakers + s.wokenTakers;
  }

  lemma StepAgrees(s: State, a: Account, e: Step)
    requires Inv(s) && Agrees(s, a) && Possible(s, e)
    ensures Agrees(Exec(s, e), AccountStep(a, s.maxSize, e))
  {
    match e {
      case Put(t, x, wake) =>
        assert a.putting - {t} == a.putting;
        PutAgrees(s, a, t, x, wake);
      case Take(t, wake) =>
        assert a.taking - {t} == a.taking;
        TakeAgrees(s, a, t, wake);
      case ResumePut(t, wake) => ResumePutAgrees(s, a, t, wake);
      case ResumeTake(t, wake) => ResumeTakeAgrees(s, a, t, wake);
      case _ => SpuriousAgrees(s, a, e);
    }
  }

  // ---- each thread's calls ----

  /** The items of t's calls of put, in order. */
  function BroughtBy(es: seq<Step>, t: ThreadId): seq<Item> {
    if es == [] then [] else (if es[0].Put? && es[0].t == t then [es[0].x] else []) + BroughtBy(es[1..], t)
  }

  /** How often t has called take. */
  function TakesBy(es: seq<Step>, t: ThreadId): nat {
    if es == [] then 0 else (if es[0].Take? && es[0].t == t then 1 else 0) + TakesBy(es[1..], t)
  }

  /** The items of t that have been inserted, in order. */
  function InsertedBy(put: seq<Brought>, t: ThreadId): seq<Item> {
    if put == [] then []
    else InsertedBy(put[..|put| - 1], t) + (if put[|put| - 1].t == t then [put[|put| - 1].x] else [])
  }

  /** t's calls of put so far: those whose item is in, and the one that waits. */
  function PutsOf(a: Account, t: ThreadId): seq<Item> {
    InsertedBy(a.put, t) + (if t in a.putting then [a.putting[t]] else [])
  }

  function TakesOf(a: Account, t: ThreadId): nat {
    multiset(a.takers)[t] + (if t in a.taking then 1 else 0)
  }

  lemma InsertedSnoc(put: seq<Brought>, b: Brought, t: ThreadId)
    ensures InsertedBy(put + [b], t) == InsertedBy(put, t) + (if b.t == t then [b.x] else [])
  {
    assert (put + [b])[..|put|] == put;
  }

  function OneIf(b: bool, x: Item): seq<Item> {
    if b then [x] else []
  }

  lemma PutKeepsPuts(a: Account, maxSize: nat, p: ThreadId, x: Item, t: ThreadId)
    requires p in a.putting ==> a.putting[p] == x
    ensures PutsOf(AccountPut(a, maxSize, p, x), t) == PutsOf(a, t) + OneIf(p == t && p !in a.putting, x)
  {
    InsertedSnoc(a.put, Brought(p, x), t);
  }

  lemma TakeKeepsTakes(a: Account, p: ThreadId, t: ThreadId)
    ensures TakesOf(AccountTake(a, p), t) == TakesOf(a, t) + (if p == t && p !in a.taking then 1 else 0)
  {
  }

  lemma StepKeepsPuts(s: State, a: Account, e: Step, t: ThreadId)
    requires Agrees(s, a) && Possible(s, e)
    ensures PutsOf(AccountStep(a, s.maxSize, e), t) == PutsOf(a, t) + (if e.Put? && e.t == t then [e.x] else [])
  {
    match e {
      case Put(p, x, _) => PutKeepsPuts(a, s.maxSize, p, x, t);
      case ResumePut(p, _) => PutKeepsPuts(a, s.maxSize, p, a.putting[p], t);
      case _ =>
    }
  }

  lemma StepKeepsTakes(s: State, a: Account, e: Step, t: ThreadId)
    requires Agrees(s, a) && Possible(s, e)
    ensures TakesOf(AccountStep(a, s.maxSize, e), t) == TakesOf(a, t) + (if e.Take? && e.t == t then 1 else 0)
  {
    match e {
      case Take(p, _) => TakeKeepsTakes(a, p, t);
      case ResumeTake(p, _) => TakeKeepsTakes(a, p, t);
      case _ =>
    }
  }

  lemma {:induction false} RunAgrees(s: State, a: Account, es: seq<Step>)
    requires Inv(s) && Agrees(s, a) && Legal(s, es)
    ensures Agrees(Run(s, es), AccountOf(a, s.maxSize, es))
    decreases |es|
  {
    if es != [] {
      StepAgrees(s, a, es[0]);
      StepKeepsInv(s, es[0]);
      RunAgrees(Exec(s, es[0]), AccountStep(a, s.maxSize, es[0]), es[1..]);
    }
  }

  lemma {:induction false} RunKeepsPuts(s: State, a: Account, es: seq<Step>, t: ThreadId)
    requires Inv(s) && Agrees(s, a) && Legal(s, es)
    ensures PutsOf(AccountOf(a, s.maxSize, es), t) == PutsOf(a, t) + BroughtBy(es, t)
    decreases |es|
  {
    if es == [] {
      assert PutsOf(a, t) + [] == PutsOf(a, t);
    } else {
      var e, b := es[0], AccountStep(a, s.maxSize, es[0]);
      StepAgrees(s, a, e);
      StepKeepsInv(s, e);
      StepKeepsPuts(s, a, e, t);
      RunKeepsPuts(Exec(s, e), b, es[1..], t);
      Associative(PutsOf(a, t), if e.Put? && e.t == t then [e.x] else [], BroughtBy(es[1..], t));
    }
  }

  lemma {:induction false} RunKeepsTakes(s: State, a: Account, es: seq<Step>, t: ThreadId)
    requires Inv(s) && Agrees(s, a) && Legal(s, es)
    ensures TakesOf(AccountOf(a, s.maxSize, es), t) == TakesOf(a, t) + TakesBy(es, t)
    decreases |es|
  {
    if es != [] {
      StepAgrees(s, a, es[0]);
      StepKeepsInv(s, es[0]);
      StepKeepsTakes(s, a, es[0], t);
      RunKeepsTakes(Exec(s, es[0]), AccountStep(a, s.maxSize, es[0]), es[1..], t);
    }
  }

  /**
   No call is lost and none counts twice: for every thread, the items it brought are
   those of it that were inserted, in its order, and the one it still waits with; it
   called take once for every item it was given, and once more if it still waits.
   */
  lemma EveryCallAccountedFor(maxSize: nat, es: seq<Step>, t: ThreadId)
    requires Legal(Initial(maxSize), es)
    ensures var s, a := Run(Initial(maxSize), es), AccountOf(NEW_ACCOUNT, maxSize, es);
            && Agrees(s, a)
            && BroughtBy(es, t) == InsertedBy(a.put, t) + (if t in a.putting then [a.putting[t]] else [])
            && TakesBy(es, t) == multiset(a.takers)[t] + (if t in a.taking then 1 else 0)
  {
    RunAgrees(Initial(maxSize), NEW_ACCOUNT, es);
    RunKeepsPuts(Initial(maxSize), NEW_ACCOUNT, es, t);
    RunKeepsTakes(Initial(maxSize), NEW_ACCOUNT, es, t);
  }

  // ---- the object ----

  class BoundedBlockingQueue {
    const maxSize: nat
    var queue: seq<Item>
    // the condition variables' wait sets, as the kernel keeps them
    var waitingTakers: set<ThreadId>
    var wokenTakers: set<ThreadId>
    var waitingPutters: map<ThreadId, Item>
    var wokenPutters: map<ThreadId, Item>
    ghost var put: seq<Item>
    ghost var taken: seq<Item>

    ghost function View(): State
      reads this
    {
      State(maxSize, queue, waitingTakers, wokenTakers, waitingPutters, wokenPutters, put, taken)
    }

    constructor (maxSize: nat)
      ensures View() == Initial(maxSize)
    {
      this.maxSize := maxSize;
      queue, put, taken := [], [], [];
      waitingTakers, wokenTakers, waitingPutters, wokenPutters := {}, {}, map[], map[];
    }

    method NotEmptyNotifyOne(wake: Option<ThreadId>)
      requires WakesTaker(View(), wake)
      modifies this`waitingTakers, this`wokenTakers
      ensures View() == NotifyTaker(old(View()), wake)
    {
      if wake.Some? {
        waitingTakers, wokenTakers := waitingTakers - {wake.value}, wokenTakers + {wake.value};
      }
    }

    method NotFullNotifyOne(wake: Option<ThreadId>)
      requires WakesPutter(View(), wake)
      modifies this`waitingPutters, this`wokenPutters
      ensures View() == NotifyPutter(old(View()), wake)
    {
      if wake.Some? {
        wokenPutters := wokenPutters[wake.value := waitingPutters[wake.value]];
        waitingPutters := waitingPutters - {wake.value};
      }
    }

    /** put from the test of its while loop on: done, or asleep in notFull_.wait. */
    method PutFrom(t: ThreadId, x: Item, wake: Option<ThreadId>) returns (done: bool)
      requires |queue| <= maxSize && (if Full(View()) then wake.None? else WakesTaker(View(), wake))
      modifies this`queue, this`put, this`waitingPutters, this`waitingTakers, this`wokenTakers
      ensures View() == PutLocked(old(View()), t, x, wake)
      ensures done <==> |old(queue)| < maxSize
    {
      if |queue| == maxSize {
        waitingPutters := waitingPutters[t := x];
        done := false;
      } else {
        assert |queue| < maxSize;
        queue, put := queue + [x], put + [x];
        NotEmptyNotifyOne(wake);
        done := true;
      }
    }

    method Put(t: ThreadId, x: Item, wake: Option<ThreadId>) returns (done: bool)
      requires FifoInv(View()) && Possible(View(), Step.Put(t, x, wake))
      modifies this`queue, this`put, this`waitingPutters, this`waitingTakers, this`wokenTakers
      ensures View() == Exec(old(View()), Step.Put(t, x, wake)) && FifoInv(View())
      ensures done <==> |old(queue)| < maxSize
    {
      StepKeepsFifo(View(), Step.Put(t, x, wake));
      done := PutFrom(t, x, wake);
    }

    /** A woken producer gets the mutex back and goes round its loop. */
    method ResumePut(t: ThreadId, wake: Option<ThreadId>) returns (done: bool)
      requires FifoInv(View()) && Possible(View(), Step.ResumePut(t, wake))
      modifies this`queue, this`put, this`waitingPutters, this`wokenPutters, this`waitingTakers, this`wokenTakers
      ensures View() == Exec(old(View()), Step.ResumePut(t, wake)) && FifoInv(View())
      ensures done <==> |old(queue)| < maxSize
    {
      StepKeepsFifo(View(), Step.ResumePut(t, wake));
      var x := wokenPutters[t];
      wokenPutters := wokenPutters - {t};
      done := PutFrom(t, x, wake);
    }

    /** take from the test of its while loop on: an item, or asleep in notEmpty_.wait. */
    method TakeFrom(t: ThreadId, wake: Option<ThreadId>) returns (front: Option<Item>)
      requires if queue == [] then wake.None? else WakesPutter(View(), wake)
      modifies this`queue, this`taken, this`waitingTakers, this`waitingPutters, this`wokenPutters
      ensures View() == TakeLocked(old(View()), t, wake)
      ensures front == if old(queue) == [] then None else Some(old(queue)[0])
    {
      if queue == [] {
        waitingTakers := waitingTakers + {t};
        front := None;
      } else {
        front := Some(queue[0]);
        taken, queue := taken + [queue[0]], queue[1..];
        NotFullNotifyOne(wake);
      }
    }

    method Take(t: ThreadId, wake: Option<ThreadId>) returns (front: Option<Item>)
      requires FifoInv(View()) && Possible(View(), Step.Take(t, wake))
      modifies this`queue, this`taken, this`waitingTakers, this`waitingPutters, this`wokenPutters
      ensures View() == Exec(old(View()), Step.Take(t, wake)) && FifoInv(View())
      ensures front == if old(queue) == [] then None else Some(old(queue)[0])
    {
      StepKeepsFifo(View(), Step.Take(t, wake));
      front := TakeFrom(t, wake);
    }

    /** A woken consumer gets the mutex back and goes round its loop. */
    method ResumeTake(t: ThreadId, wake: Option<ThreadId>) returns (front: Option<Item>)
      requires FifoInv(View()) && Possible(View(), Step.ResumeTake(t, wake))
      modifies this`queue, this`taken, this`waitingTakers, this`wokenTakers, this`waitingPutters, this`wokenPutters
      ensures View() == Exec(old(View()), Step.ResumeTake(t, wake)) && FifoInv(View())
      ensures front == if old(queue) == [] then None else Some(old(queue)[0])
    {
      StepKeepsFifo(View(), Step.ResumeTake(t, wake));
      wokenTakers := wokenTakers - {t};
      front := TakeFrom(t, wake);
    }
  }
}
