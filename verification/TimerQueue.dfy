/**
 The timer queue: timers by id, an ordered set of (expiration, id) entries, and one
 one-shot timerfd armed for the earliest entry.  Callbacks run in the middle of a
 batch and may themselves add and cancel timers.  Times are microseconds.
 */
module TimerQueue {
  import opened Sequences

  type TimerId = nat

  // INT64_MAX, larger than any sequence number given out
  const MAX_ID: TimerId := 0x7fff_ffff_ffff_ffff

  // the shortest time a timerfd is armed for
  const MIN_DELAY: int := 100
  const MICROS_PER_SECOND: int := 1_000_000

  datatype Timer = Timer(expiration: int, repeat: bool, interval: int)

  datatype Entry = Entry(when: int, id: TimerId)

  predicate Less(a: Entry, b: Entry) {
    a.when < b.when || (a.when == b.when && a.id < b.id)
  }

  // ---- howMuchTimeFromNow ----

  datatype TimeSpec = TimeSpec(seconds: int, nanoseconds: int)

  /**
   The relative time as seconds and nanoseconds: in range, exact, and never zero,
   since a zero time would disarm the timerfd.
   */
  method HowMuchTimeFromNow(when: int, now: int) returns (ts: TimeSpec)
    ensures 0 <= ts.nanoseconds < 1_000_000_000 && 0 <= ts.seconds
    ensures ts.seconds * 1_000_000_000 + ts.nanoseconds == 1000 * Max(when - now, MIN_DELAY)
    ensures ts != TimeSpec(0, 0)
  {
    var microseconds := when - now;
    if microseconds < MIN_DELAY {
      microseconds := MIN_DELAY;
    }
    ts := TimeSpec(microseconds / MICROS_PER_SECOND, (microseconds % MICROS_PER_SECOND) * 1000);
    assert microseconds == MICROS_PER_SECOND * (microseconds / MICROS_PER_SECOND) + microseconds % MICROS_PER_SECOND;
  }

  // ---- the ordered set ----

  predicate Sorted(es: seq<Entry>) {
    forall i, j | 0 <= i < j < |es| :: Less(es[i], es[j])
  }

  function Insert(es: seq<Entry>, e: Entry): (r: seq<Entry>)
    requires Sorted(es)
    ensures Sorted(r) && forall x :: x in r <==> x in es || x == e
  {
    if es == [] then [e]
    else if e == es[0] then es
    else if Less(e, es[0]) then [e] + es
    else
      var rest := Insert(es[1..], e);
      assert forall x <- rest :: Less(es[0], x);
      [es[0]] + rest
  }

  function Remove(es: seq<Entry>, e: Entry): (r: seq<Entry>)
    requires Sorted(es)
    ensures Sorted(r) && forall x :: x in r <==> x in es && x != e
  {
    if es == [] then []
    else if e == es[0] then
      assert forall x <- es[1..] :: x != e;
      es[1..]
    else
      var rest := Remove(es[1..], e);
      assert forall x <- rest :: x in es[1..] && Less(es[0], x);
      [es[0]] + rest
  }

  /** lower_bound of (now, INT64_MAX): how many entries come before it. */
  function LowerBound(es: seq<Entry>, sentry: Entry): (k: nat)
    requires Sorted(es)
    ensures k <= |es|
    ensures forall i | 0 <= i < k :: Less(es[i], sentry)
    ensures forall i | k <= i < |es| :: !Less(es[i], sentry)
  {
    if es == [] || !Less(es[0], sentry) then 0
    else LowerBound(es[1..], sentry) + 1
  }

  predicate KnownIds(es: seq<Entry>) {
    forall e <- es :: e.id < MAX_ID
  }

  /** The entries before the bound are those due at now. */
  lemma LowerBoundSplits(es: seq<Entry>, now: int)
    requires Sorted(es) && KnownIds(es)
    ensures forall i | 0 <= i < |es| :: i < LowerBound(es, Entry(now, MAX_ID)) <==> es[i].when <= now
  {
    forall i | 0 <= i < |es| ensures i < LowerBound(es, Entry(now, MAX_ID)) <==> es[i].when <= now {
      assert es[i] in es;
    }
  }

  /** getExpired takes exactly the entries due at now, in ascending order. */
  lemma ExpiredAreTheDueOnes(es: seq<Entry>, now: int)
    requires Sorted(es) && KnownIds(es)
    ensures var k := LowerBound(es, Entry(now, MAX_ID));
            && Sorted(es[..k]) && Sorted(es[k..])
            && (forall e <- es :: e.when <= now <==> e in es[..k])
            && (forall e <- es :: e.when > now <==> e in es[k..])
            && (k == |es| || now < es[k].when)
  {
    LowerBoundSplits(es, now);
    var k := LowerBound(es, Entry(now, MAX_ID));
    SplitMembers(es, k, now);
  }

  lemma SplitMembers(es: seq<Entry>, k: nat, now: int)
    requires Sorted(es) && k <= |es| && forall i | 0 <= i < |es| :: i < k <==> es[i].when <= now
    ensures Sorted(es[..k]) && Sorted(es[k..])
    ensures forall e <- es :: e.when <= now <==> e in es[..k]
    ensures forall e <- es :: e.when > now <==> e in es[k..]
  {
    assert forall j | 0 <= j < k :: es[..k][j] == es[j];
    assert forall j | 0 <= j < |es| - k :: es[k..][j] == es[k + j];
    forall i | 0 <= i < |es| ensures i < k ==> es[i] in es[..k] ensures i >= k ==> es[i] in es[k..] {
      if i < k {
        assert es[..k][i] == es[i];
      } else {
        assert es[k..][i - k] == es[i];
      }
    }
  }

  // ---- the machine ----

  /** A callback run: whose, due when, run when, and whether the timer repeats. */
  datatype Firing = Firing(id: TimerId, due: int, at: int, repeat: bool)

  datatype State = State(
    timers: map<TimerId, Timer>,
    entries: seq<Entry>,
    // the deadline the timerfd is armed for
    timerfd: Option<int>,
    clock: int,
    lastReset: int,
    // inside handleRead: the entries of the batch not yet dealt with, the callback of
    // the first of them started or not
    firing: bool,
    batch: seq<Entry>,
    running: bool,
    // bookkeeping
    seen: set<TimerId>,
    fired: seq<Firing>
  )

  datatype Step =
    | Tick(clock: int)
    | Add(id: TimerId, timer: Timer)
    | Cancel(id: TimerId)
    | BeginFiring
    | RunCallback
    | FinishTimer
    | EndFiring

  function Initial(clock: int): State {
    State(map[], [], None, clock, clock, false, [], false, {}, [])
  }

  predicate WellMade(t: Timer) {
    t.expiration > 0 && (t.repeat ==> t.interval >= 0)
  }

  /** User code runs between the loop's events and inside callbacks. */
  predicate UserCode(s: State) {
    s.firing ==> s.running
  }

  predicate Possible(s: State, e: Step) {
    match e
    case Tick(t) => s.clock <= t
    case Add(id, timer) => UserCode(s) && id !in s.seen && id < MAX_ID && WellMade(timer)
    case Cancel(id) => UserCode(s) && id in s.seen
    case BeginFiring => !s.firing
    case RunCallback => s.firing && s.batch != [] && !s.running
    case FinishTimer => s.firing && s.batch != [] && s.running
    case EndFiring => s.firing && s.batch == []
  }

  /** The source's assertions, and the objects and iterators it dereferences. */
  predicate StepAsserts(s: State, e: Step)
    requires Sorted(s.entries) && Possible(s, e)
  {
    match e
    case BeginFiring =>
      var end := LowerBound(s.entries, Entry(s.clock, MAX_ID));
      end == |s.entries| || s.clock < s.entries[end].when
    case Add(_, _) => s.timers == map[] || s.entries != []
    case Cancel(id) => id in s.timers
    case RunCallback => s.batch[0].id in s.timers
    case FinishTimer => s.batch[0].id in s.timers
    case _ => true
  }

  function ResetTimerfd(s: State, when: int): State {
    s.(timerfd := Some(s.clock + Max(when - s.clock, MIN_DELAY)), lastReset := s.clock)
  }

  function AddStep(s: State, id: TimerId, timer: Timer): State
    requires Sorted(s.entries) && (s.timers == map[] || s.entries != [])
  {
    var earliestChanged := s.timers == map[] || timer.expiration < s.entries[0].when;
    var armed := if earliestChanged then ResetTimerfd(s, timer.expiration) else s;
    armed.(entries := Insert(s.entries, Entry(timer.expiration, id)),
           timers := s.timers[id := timer],
           seen := s.seen + {id})
  }

  function CancelStep(s: State, id: TimerId): State
    requires Sorted(s.entries) && id in s.timers
  {
    s.(entries := Remove(s.entries, Entry(s.timers[id].expiration, id)), timers := s.timers - {id})
  }

  /** handleRead up to the loop: readTimerfd and getExpired. */
  function BeginStep(s: State): (t: State)
    requires Sorted(s.entries)
    ensures Sorted(t.entries)
  {
    var k := LowerBound(s.entries, Entry(s.clock, MAX_ID));
    s.(timerfd := if s.timerfd.Some? && s.timerfd.value <= s.clock then None else s.timerfd,
       firing := true, batch := s.entries[..k], entries := s.entries[k..])
  }

  function FinishStep(s: State): State
    requires Sorted(s.entries) && s.batch != [] && s.batch[0].id in s.timers
  {
    var id, timer := s.batch[0].id, s.timers[s.batch[0].id];
    var next := s.(batch := s.batch[1..], running := false);
    if timer.repeat then
      var restarted := timer.(expiration := s.clock + timer.interval);
      next.(timers := s.timers[id := restarted], entries := Insert(s.entries, Entry(restarted.expiration, id)))
    else
      next.(timers := s.timers - {id})
  }

  function EndStep(s: State): State {
    var done := s.(firing := false);
    if s.entries != [] && s.entries[0].when > 0 then ResetTimerfd(done, s.entries[0].when) else done
  }

  function Exec(s: State, e: Step): State
    requires Sorted(s.entries) && Possible(s, e) && StepAsserts(s, e)
  {
    match e
    case Tick(t) => s.(clock := t)
    case Add(id, timer) => AddStep(s, id, timer)
    case Cancel(id) => CancelStep(s, id)
    case BeginFiring => BeginStep(s)
    case RunCallback =>
      var e := s.batch[0];
      s.(running := true, fired := s.fired + [Firing(e.id, e.when, s.clock, s.timers[e.id].repeat)])
    case FinishTimer => FinishStep(s)
    case EndFiring => EndStep(s)
  }

  // ---- the invariant ----

  /** The entry that stands for a timer. */
  function EntryOf(timers: map<TimerId, Timer>, id: TimerId): Entry
    requires id in timers
  {
    Entry(timers[id].expiration, id)
  }

  predicate StandsFor(timers: map<TimerId, Timer>, e: Entry) {
    e.id in timers && EntryOf(timers, e.id) == e
  }

  /**
   The two containers agree once the batch in progress is counted in: every entry
   and every batch element stands for a timer, and every timer has exactly one of them.
   */
  predicate ContainersAgree(s: State) {
    && Sorted(s.entries) && Sorted(s.batch)
    && (forall e <- s.entries :: StandsFor(s.timers, e))
    && (forall e <- s.batch :: StandsFor(s.timers, e))
    && (forall id <- s.timers :: EntryOf(s.timers, id) in s.entries <==> EntryOf(s.timers, id) !in s.batch)
  }

  predicate SanityInv(s: State) {
    && s.clock > 0 && s.lastReset <= s.clock
    && (forall id <- s.timers :: id in s.seen && id < MAX_ID && WellMade(s.timers[id]))
    && (!s.firing ==> s.batch == [])
    && (s.running ==> s.firing && s.batch != [])
    && (s.firing ==> forall e <- s.batch :: e.when <= s.clock)
  }

  /** Between events, with something to wait for, the timerfd is due in time. */
  predicate NeverLate(s: State) {
    !s.firing && s.entries != [] ==>
      s.timerfd.Some? && s.timerfd.value <= Max(s.entries[0].when, s.lastReset + MIN_DELAY)
  }

  /** A one-shot timer that has fired is gone, or is the one whose callback is running. */
  predicate FiredInv(s: State) {
    && (forall f <- s.fired :: f.id in s.seen && f.due <= f.at <= s.clock)
    && (forall f <- s.fired :: f.id in s.timers ==> s.timers[f.id].repeat == f.repeat)
    && (forall f <- s.fired | !f.repeat :: f.id !in s.timers || (s.running && s.batch != [] && s.batch[0].id == f.id))
    && (forall i, j | 0 <= i < j < |s.fired| && s.fired[i].id == s.fired[j].id :: s.fired[i].repeat)
  }

  predicate Inv(s: State) {
    ContainersAgree(s) && SanityInv(s) && NeverLate(s) && FiredInv(s)
  }

  /**
   What callbacks must keep to: no timer of the batch in progress is cancelled, and
   none is added while the batch has taken every entry.
   */
  predicate Disciplined(s: State, e: Step) {
    match e
    case Add(_, _) => s.firing ==> s.entries != []
    case Cancel(id) => id in s.timers && forall x <- s.batch :: x.id != id
    case _ => true
  }

  lemma DisciplineMeetsAsserts(s: State, e: Step)
    requires Inv(s) && Possible(s, e) && Disciplined(s, e)
    ensures StepAsserts(s, e)
  {
    match e {
      case Add(_, _) => if !s.firing { EntriesEmptyIff(s); }
      case BeginFiring =>
        assert KnownIds(s.entries);
        ExpiredAreTheDueOnes(s.entries, s.clock);
      case RunCallback => assert s.batch[0] in s.batch;
      case FinishTimer => assert s.batch[0] in s.batch;
      case _ =>
    }
  }

  lemma AddKeepsContainers(s: State, id: TimerId, timer: Timer)
    requires ContainersAgree(s) && SanityInv(s)
    requires Possible(s, Add(id, timer)) && StepAsserts(s, Add(id, timer))
    ensures ContainersAgree(AddStep(s, id, timer))
  {
    var t, e := AddStep(s, id, timer), Entry(timer.expiration, id);
    assert forall x <- s.entries :: x.id != id;
    assert forall x <- s.batch :: x.id != id;
    assert e in t.entries && e !in s.batch;
  }

  lemma AddIsInTime(s: State, id: TimerId, timer: Timer)
    requires Sorted(s.entries) && NeverLate(s) && Possible(s, Add(id, timer)) && StepAsserts(s, Add(id, timer))
    requires s.lastReset <= s.clock && (s.entries == [] <==> s.timers == map[])
    ensures NeverLate(AddStep(s, id, timer))
  {
    var t := AddStep(s, id, timer);
    assert t.entries[0] in t.entries;
    if s.entries != [] {
      assert s.entries[0] in t.entries;
    }
  }

  lemma EntriesEmptyIff(s: State)
    requires ContainersAgree(s) && SanityInv(s) && !s.firing
    ensures s.entries == [] <==> s.timers == map[]
  {
    if s.timers != map[] {
      var id :| id in s.timers;
      assert EntryOf(s.timers, id) in s.entries;
    }
    if s.entries != [] {
      assert s.entries[0] in s.entries;
    }
  }

  lemma AddKeepsInv(s: State, id: TimerId, timer: Timer)
    requires Inv(s) && Possible(s, Add(id, timer)) && StepAsserts(s, Add(id, timer))
    ensures Inv(AddStep(s, id, timer))
  {
    AddKeepsContainers(s, id, timer);
    assert forall f <- s.fired :: f.id != id;
    if !s.firing {
      EntriesEmptyIff(s);
      AddIsInTime(s, id, timer);
    }
  }

  lemma CancelKeepsContainers(s: State, id: TimerId)
    requires ContainersAgree(s) && id in s.timers && forall x <- s.batch :: x.id != id
    ensures ContainersAgree(CancelStep(s, id))
  {
  }

  lemma CancelKeepsInv(s: State, id: TimerId)
    requires Inv(s) && Possible(s, Cancel(id)) && Disciplined(s, Cancel(id))
    ensures Inv(CancelStep(s, id))
  {
    CancelKeepsContainers(s, id);
    var t := CancelStep(s, id);
    if t.entries != [] {
      assert t.entries[0] in s.entries;
    }
  }

  lemma BeginKeepsInv(s: State)
    requires Inv(s) && Possible(s, BeginFiring)
    ensures Inv(BeginStep(s))
  {
    var t, k := BeginStep(s), LowerBound(s.entries, Entry(s.clock, MAX_ID));
    assert KnownIds(s.entries);
    ExpiredAreTheDueOnes(s.entries, s.clock);
    assert forall e <- t.batch :: e in s.entries;
    assert forall e <- t.entries :: e in s.entries;
  }

  lemma RunKeepsInv(s: State)
    requires Inv(s) && Possible(s, RunCallback) && StepAsserts(s, RunCallback)
    ensures Inv(Exec(s, RunCallback))
  {
    var e := s.batch[0];
    assert e in s.batch && StandsFor(s.timers, e);
    var t := Exec(s, RunCallback);
    assert forall f <- t.fired :: f in s.fired || f == t.fired[|s.fired|];
    forall i, j | 0 <= i < j < |t.fired| && t.fired[i].id == t.fired[j].id ensures t.fired[i].repeat {
      if j == |s.fired| {
        assert t.fired[i] in s.fired;
      }
    }
  }

  /** The rest of the batch is about other timers. */
  lemma BatchIdsDiffer(s: State)
    requires ContainersAgree(s) && s.batch != []
    ensures forall e <- s.batch[1..] :: e in s.batch && e.id != s.batch[0].id && e != s.batch[0]
    ensures forall e <- s.entries :: e.id != s.batch[0].id
    ensures forall e <- s.batch :: e == s.batch[0] || e in s.batch[1..]
  {
    var b := s.batch[0];
    assert b in s.batch && StandsFor(s.timers, b);
    forall e <- s.batch[1..] ensures e in s.batch && e.id != b.id && e != b {
      assert StandsFor(s.timers, e);
    }
    forall e <- s.entries ensures e.id != b.id {
      assert StandsFor(s.timers, e);
    }
  }

  lemma FinishOneShotKeepsContainers(s: State)
    requires ContainersAgree(s) && SanityInv(s) && Possible(s, FinishTimer) && StepAsserts(s, FinishTimer)
    requires !s.timers[s.batch[0].id].repeat
    ensures ContainersAgree(FinishStep(s))
  {
    BatchIdsDiffer(s);
    var t := FinishStep(s);
    assert Sorted(t.batch);
    forall i <- t.timers ensures EntryOf(t.timers, i) in t.entries <==> EntryOf(t.timers, i) !in t.batch {
      assert EntryOf(t.timers, i) == EntryOf(s.timers, i);
    }
  }

  lemma FinishRepeatingStands(s: State)
    requires ContainersAgree(s) && SanityInv(s) && Possible(s, FinishTimer) && StepAsserts(s, FinishTimer)
    requires s.timers[s.batch[0].id].repeat
    ensures var t := FinishStep(s);
            && (forall e <- t.entries :: StandsFor(t.timers, e)) && (forall e <- t.batch :: StandsFor(t.timers, e))
  {
    BatchIdsDiffer(s);
    var t := FinishStep(s);
    forall e <- t.entries ensures StandsFor(t.timers, e) {
      if e in s.entries {
        assert StandsFor(s.timers, e);
      }
    }
  }

  lemma FinishRepeatingKeepsContainers(s: State)
    requires ContainersAgree(s) && SanityInv(s) && Possible(s, FinishTimer) && StepAsserts(s, FinishTimer)
    requires s.timers[s.batch[0].id].repeat
    ensures ContainersAgree(FinishStep(s))
  {
    BatchIdsDiffer(s);
    FinishRepeatingStands(s);
    var t, id := FinishStep(s), s.batch[0].id;
    assert Sorted(t.batch);
    forall i <- t.timers ensures EntryOf(t.timers, i) in t.entries <==> EntryOf(t.timers, i) !in t.batch {
      if i != id {
        assert EntryOf(t.timers, i) == EntryOf(s.timers, i);
      }
    }
  }

  lemma FinishKeepsFired(s: State)
    requires ContainersAgree(s) && SanityInv(s) && FiredInv(s)
    requires Possible(s, FinishTimer) && StepAsserts(s, FinishTimer)
    ensures FiredInv(FinishStep(s))
  {
  }

  lemma FinishKeepsSanity(s: State)
    requires ContainersAgree(s) && SanityInv(s) && Possible(s, FinishTimer) && StepAsserts(s, FinishTimer)
    ensures SanityInv(FinishStep(s))
  {
    BatchIdsDiffer(s);
  }

  lemma FinishKeepsInv(s: State)
    requires Inv(s) && Possible(s, FinishTimer) && StepAsserts(s, FinishTimer)
    ensures Inv(FinishStep(s))
  {
    if s.timers[s.batch[0].id].repeat {
      FinishRepeatingKeepsContainers(s);
    } else {
      FinishOneShotKeepsContainers(s);
    }
    FinishKeepsFired(s);
    FinishKeepsSanity(s);
  }

  lemma EndKeepsInv(s: State)
    requires Inv(s) && Possible(s, EndFiring)
    ensures Inv(EndStep(s))
  {
    if s.entries != [] {
      var e := s.entries[0];
      assert e in s.entries && StandsFor(s.timers, e) && WellMade(s.timers[e.id]);
    }
    var t := EndStep(s);
    assert ContainersAgree(t);
    assert SanityInv(t);
    assert NeverLate(t);
    assert FiredInv(t);
  }

  lemma StepKeepsInv(s: State, e: Step)
    requires Inv(s) && Possible(s, e) && Disciplined(s, e)
    ensures StepAsserts(s, e) && Inv(Exec(s, e))
  {
    DisciplineMeetsAsserts(s, e);
    match e {
      case Tick(_) =>
      case Add(id, timer) => AddKeepsInv(s, id, timer);
      case Cancel(id) => CancelKeepsInv(s, id);
      case BeginFiring => BeginKeepsInv(s);
      case RunCallback => RunKeepsInv(s);
      case FinishTimer => FinishKeepsInv(s);
      case EndFiring => EndKeepsInv(s);
    }
  }

  // ---- whole runs ----

  predicate Legal(s: State, es: seq<Step>)
    requires Sorted(s.entries)
    decreases |es|
  {
    es == [] || (Possible(s, es[0]) && StepAsserts(s, es[0])
                 && Sorted(Exec(s, es[0]).entries) && Legal(Exec(s, es[0]), es[1..]))
  }

  function Run(s: State, es: seq<Step>): State
    requires Sorted(s.entries) && Legal(s, es)
    decreases |es|
  {
    if es == [] then s else Run(Exec(s, es[0]), es[1..])
  }

  /** Steps that could occur, with callbacks that keep the discipline. */
  predicate DisciplinedRun(s: State, es: seq<Step>)
    requires Sorted(s.entries)
    decreases |es|
  {
    es == [] || (Possible(s, es[0]) && Disciplined(s, es[0])
                 && (StepAsserts(s, es[0]) && Sorted(Exec(s, es[0]).entries)
                     ==> DisciplinedRun(Exec(s, es[0]), es[1..])))
  }

  /**
   In every disciplined run, with callbacks adding and cancelling as they like
   otherwise: no assertion fails, the containers agree in and between batches, the
   timerfd is never late, and one-shot timers fire at most once, none early.
   */
  lemma {:induction false} TimersStayConsistent(s: State, es: seq<Step>)
    requires Inv(s) && DisciplinedRun(s, es)
    ensures Legal(s, es) && Inv(Run(s, es))
    decreases |es|
  {
    if es != [] {
      StepKeepsInv(s, es[0]);
      TimersStayConsistent(Exec(s, es[0]), es[1..]);
    }
  }

  /** Read off a state between events: entries are the timers' pairs, and the timerfd is in time. */
  lemma BetweenEvents(clock: int, es: seq<Step>)
    requires clock > 0 && DisciplinedRun(Initial(clock), es)
    ensures Legal(Initial(clock), es)
    ensures var t := Run(Initial(clock), es);
            !t.firing ==>
              && (forall e :: e in t.entries <==> StandsFor(t.timers, e))
              && (t.entries != [] ==>
                    t.timerfd.Some? && t.timerfd.value <= Max(t.entries[0].when, t.lastReset + MIN_DELAY))
  {
    TimersStayConsistent(Initial(clock), es);
  }

  /** A disciplined run that leads from s to `end`. */
  predicate Remains(s: State, es: seq<Step>, end: State) {
    Inv(s) && DisciplinedRun(s, es) && Legal(s, es) && Run(s, es) == end
  }

  lemma RemainsNext(s: State, es: seq<Step>, end: State)
    requires Remains(s, es, end) && es != []
    ensures Possible(s, es[0]) && Disciplined(s, es[0]) && StepAsserts(s, es[0])
    ensures Remains(Exec(s, es[0]), es[1..], end)
  {
    StepKeepsInv(s, es[0]);
  }

  // ---- what each step does ----

  /** The deadline the timerfd is armed for when the earliest entry is at `when`. */
  function Deadline(when: int, clock: int): int {
    Max(when, clock + MIN_DELAY)
  }

  /**
   Adding keeps every timer, enters the new one with its entry, and arms the timerfd
   for it exactly if it comes before every entry.
   */
  lemma AddEffect(s: State, id: TimerId, timer: Timer)
    requires ContainersAgree(s) && Possible(s, Add(id, timer)) && StepAsserts(s, Add(id, timer))
    ensures var t := Exec(s, Add(id, timer));
            && t.timers == s.timers[id := timer] && t.seen == s.seen + {id}
            && (forall x :: x in t.entries <==> x in s.entries || x == Entry(timer.expiration, id))
            && (if forall x <- s.entries :: timer.expiration < x.when
                then t.timerfd == Some(Deadline(timer.expiration, s.clock)) && t.lastReset == s.clock
                else t.timerfd == s.timerfd && t.lastReset == s.lastReset)
            && t.clock == s.clock && t.fired == s.fired
            && t.firing == s.firing && t.running == s.running && t.batch == s.batch
  {
    if s.entries != [] {
      assert s.entries[0] in s.entries;
    }
  }

  /** Cancelling takes away that timer and its entry, and nothing else. */
  lemma CancelEffect(s: State, id: TimerId)
    requires ContainersAgree(s) && Possible(s, Cancel(id)) && StepAsserts(s, Cancel(id))
    ensures var t := Exec(s, Cancel(id));
            && t.timers == s.timers - {id}
            && (forall x :: x in t.entries <==> x in s.entries && x.id != id)
            && t == s.(timers := t.timers, entries := t.entries)
  {
    var t := Exec(s, Cancel(id));
    forall x ensures x in t.entries <==> x in s.entries && x.id != id {
      if x in s.entries {
        assert StandsFor(s.timers, x);
      }
    }
  }

  /**
   When its callback returns, a one-shot timer goes; a repeating one is due again an
   interval after that moment.  The other timers and their entries stay.
   */
  lemma FinishEffect(s: State)
    requires ContainersAgree(s) && Possible(s, FinishTimer) && StepAsserts(s, FinishTimer)
    ensures var t, id := Exec(s, FinishTimer), s.batch[0].id;
            var timer := s.timers[id];
            var again := timer.(expiration := s.clock + timer.interval);
            && t.timers == (if timer.repeat then s.timers[id := again] else s.timers - {id})
            && (forall x :: x in t.entries <==> x in s.entries || (timer.repeat && x == Entry(again.expiration, id)))
            && t == s.(timers := t.timers, entries := t.entries, batch := s.batch[1..], running := false)
  {
    var t := Exec(s, FinishTimer);
    var id := s.batch[0].id;
    assert t.timers.Keys == if s.timers[id].repeat then s.timers.Keys else s.timers.Keys - {id};
  }

  /** A batch that ends arms the timerfd for the earliest entry left, and touches nothing else. */
  lemma EndEffect(s: State)
    requires Inv(s) && Possible(s, EndFiring)
    ensures var t := Exec(s, EndFiring);
            && t == s.(firing := false, timerfd := t.timerfd, lastReset := t.lastReset)
            && (s.entries == [] ==> t.timerfd == s.timerfd)
            && forall e <- s.entries | forall x <- s.entries :: e.when <= x.when ::
                 t.timerfd == Some(Deadline(e.when, s.clock))
  {
    if s.entries != [] {
      var e := s.entries[0];
      assert e in s.entries && StandsFor(s.timers, e) && WellMade(s.timers[e.id]);
    }
  }

  // ---- which timers there are ----

  /** What was asked of the queue: the timers added, and the ones cancelled. */
  datatype Requests = Requests(added: map<TimerId, Timer>, cancelled: set<TimerId>)

  function Request(r: Requests, e: Step): Requests {
    match e
    case Add(id, timer) => r.(added := r.added[id := timer])
    case Cancel(id) => r.(cancelled := r.cancelled + {id})
    case _ => r
  }

  function Requested(r: Requests, es: seq<Step>): Requests
    decreases |es|
  {
    if es == [] then r else Requested(Request(r, es[0]), es[1..])
  }

  predicate HasFired(s: State, id: TimerId) {
    exists f <- s.fired :: f.id == id
  }

  predicate Running(s: State, id: TimerId) {
    s.running && s.batch != [] && s.batch[0].id == id
  }

  /** A one-shot timer that has fired, its callback being over. */
  predicate Spent(s: State, r: Requests, id: TimerId)
    requires id in r.added
  {
    HasFired(s, id) && !r.added[id].repeat && !Running(s, id)
  }

  /** A timer is as it was added, but for the expiration of one that has fired. */
  predicate AsAdded(s: State, r: Requests, id: TimerId)
    requires id in s.timers
  {
    && id in r.added && s.timers[id].repeat == r.added[id].repeat && s.timers[id].interval == r.added[id].interval
    && (!HasFired(s, id) ==> s.timers[id] == r.added[id])
  }

  /** The timers are those added, not cancelled and not spent. */
  ghost predicate AsRequested(s: State, r: Requests) {
    && (forall id :: id in s.timers <==> id in r.added && id !in r.cancelled && !Spent(s, r, id))
    && (forall id <- s.timers :: AsAdded(s, r, id))
  }

  /** The bookkeeping around it: ids are not used twice, and a running callback is on record. */
  predicate OnRecord(s: State, r: Requests) {
    && (forall id <- r.added :: id in s.seen) && r.cancelled <= s.seen
    && (forall f <- s.fired :: f.id in r.added)
    && (s.running ==> s.batch != [] && HasFired(s, s.batch[0].id))
  }

  lemma AddIsAsRequested(s: State, r: Requests, id: TimerId, timer: Timer)
    requires Inv(s) && AsRequested(s, r) && OnRecord(s, r)
    requires Possible(s, Add(id, timer)) && StepAsserts(s, Add(id, timer))
    ensures var t, q := Exec(s, Add(id, timer)), Request(r, Add(id, timer)); AsRequested(t, q) && OnRecord(t, q)
  {
    AddEffect(s, id, timer);
    var t, q := Exec(s, Add(id, timer)), Request(r, Add(id, timer));
    assert forall i :: HasFired(t, i) == HasFired(s, i) && Running(t, i) == Running(s, i);
    assert !HasFired(s, id);
    forall i ensures i in t.timers <==> i in q.added && i !in q.cancelled && !Spent(t, q, i) {
      if i != id {
        assert i in r.added ==> Spent(t, q, i) == Spent(s, r, i);
      }
    }
    forall i <- t.timers ensures AsAdded(t, q, i) {
      if i != id {
        assert AsAdded(s, r, i);
      }
    }
  }

  lemma CancelIsAsRequested(s: State, r: Requests, id: TimerId)
    requires Inv(s) && AsRequested(s, r) && OnRecord(s, r)
    requires Possible(s, Cancel(id)) && StepAsserts(s, Cancel(id))
    ensures var t, q := Exec(s, Cancel(id)), Request(r, Cancel(id)); AsRequested(t, q) && OnRecord(t, q)
  {
    CancelEffect(s, id);
    var t, q := Exec(s, Cancel(id)), Request(r, Cancel(id));
    assert forall i :: HasFired(t, i) == HasFired(s, i) && Running(t, i) == Running(s, i);
    forall i ensures i in t.timers <==> i in q.added && i !in q.cancelled && !Spent(t, q, i) {
      assert i in r.added ==> Spent(t, q, i) == Spent(s, r, i);
    }
    forall i <- t.timers ensures AsAdded(t, q, i) {
      assert AsAdded(s, r, i);
    }
  }

  lemma RunCallbackIsAsRequested(s: State, r: Requests)
    requires Inv(s) && AsRequested(s, r) && OnRecord(s, r)
    requires Possible(s, RunCallback) && StepAsserts(s, RunCallback)
    ensures var t := Exec(s, RunCallback); AsRequested(t, r) && OnRecord(t, r)
  {
    var t, b := Exec(s, RunCallback), s.batch[0].id;
    assert t.fired[|s.fired|].id == b;
    forall i ensures HasFired(t, i) <==> HasFired(s, i) || i == b {
      FiredSnoc(s.fired, t.fired[|s.fired|], i);
    }
    forall i ensures i in t.timers <==> i in r.added && i !in r.cancelled && !Spent(t, r, i) {
      assert i in r.added && i != b ==> Spent(t, r, i) == Spent(s, r, i);
    }
    forall i <- t.timers ensures AsAdded(t, r, i) {
      assert AsAdded(s, r, i);
    }
  }

  lemma FiredSnoc(fired: seq<Firing>, f: Firing, id: TimerId)
    ensures (exists g <- fired + [f] :: g.id == id) <==> (exists g <- fired :: g.id == id) || f.id == id
  {
    assert f in fired + [f];
    assert forall g <- fired :: g in fired + [f];
  }

  lemma FinishIsAsRequested(s: State, r: Requests)
    requires Inv(s) && AsRequested(s, r) && OnRecord(s, r)
    requires Possible(s, FinishTimer) && StepAsserts(s, FinishTimer)
    ensures var t := Exec(s, FinishTimer); AsRequested(t, r) && OnRecord(t, r)
  {
    var t, b := Exec(s, FinishTimer), s.batch[0].id;
    assert AsAdded(s, r, b);
    forall i ensures i in t.timers <==> i in r.added && i !in r.cancelled && !Spent(t, r, i) {
      assert i in r.added && i != b ==> Spent(t, r, i) == Spent(s, r, i);
    }
    forall i <- t.timers ensures AsAdded(t, r, i) {
      assert AsAdded(s, r, i);
    }
  }

  lemma PlainIsAsRequested(s: State, r: Requests, e: Step)
    requires Inv(s) && AsRequested(s, r) && OnRecord(s, r) && (e.Tick? || e.BeginFiring? || e.EndFiring?)
    requires Possible(s, e) && StepAsserts(s, e)
    ensures AsRequested(Exec(s, e), r) && OnRecord(Exec(s, e), r)
  {
    var t := Exec(s, e);
    assert t.timers == s.timers && t.fired == s.fired && t.seen == s.seen;
    assert forall i :: HasFired(t, i) == HasFired(s, i) && Running(t, i) == Running(s, i);
    assert forall i <- r.added :: Spent(t, r, i) == Spent(s, r, i);
    forall i <- t.timers ensures AsAdded(t, r, i) {
      assert AsAdded(s, r, i);
    }
  }

  lemma StepIsAsRequested(s: State, r: Requests, e: Step)
    requires Inv(s) && AsRequested(s, r) && OnRecord(s, r) && Possible(s, e) && StepAsserts(s, e)
    ensures AsRequested(Exec(s, e), Request(r, e)) && OnRecord(Exec(s, e), Request(r, e))
  {
    match e {
      case Add(id, timer) => AddIsAsRequested(s, r, id, timer);
      case Cancel(id) => CancelIsAsRequested(s, r, id);
      case RunCallback => RunCallbackIsAsRequested(s, r);
      case FinishTimer => FinishIsAsRequested(s, r);
      case _ => PlainIsAsRequested(s, r, e);
    }
  }

  lemma {:induction false} RunIsAsRequested(s: State, r: Requests, es: seq<Step>)
    requires Inv(s) && AsRequested(s, r) && OnRecord(s, r) && DisciplinedRun(s, es)
    ensures Legal(s, es) && AsRequested(Run(s, es), Requested(r, es))
    decreases |es|
  {
    if es != [] {
      StepKeepsInv(s, es[0]);
      StepIsAsRequested(s, r, es[0]);
      RunIsAsRequested(Exec(s, es[0]), Request(r, es[0]), es[1..]);
    }
  }

  /**
   No timer is lost and none is left over: after any disciplined run, the timers are
   exactly those that were added, were not cancelled, and are not one-shots that have
   fired; and each of them has its entry, or its place in the batch in progress.
   */
  lemma TimersAreThoseAdded(clock: int, es: seq<Step>)
    requires clock > 0 && DisciplinedRun(Initial(clock), es)
    ensures Legal(Initial(clock), es)
    ensures var t, r := Run(Initial(clock), es), Requested(Requests(map[], {}), es);
            && (forall id :: id in t.timers <==> id in r.added && id !in r.cancelled && !Spent(t, r, id))
            && (forall id <- t.timers :: AsAdded(t, r, id))
            && (forall e :: StandsFor(t.timers, e) <==> e in t.entries || e in t.batch)
  {
    var r := Requests(map[], {});
    RunIsAsRequested(Initial(clock), r, es);
    TimersStayConsistent(Initial(clock), es);
  }

  // ---- the discipline is necessary ----

  /** A batch element whose timer is gone. */
  predicate BatchBroken(s: State) {
    s.firing && exists e <- s.batch :: e.id !in s.timers
  }

  /** Cancelling breaks the batch exactly when it hits a timer of the batch. */
  lemma CancelBreaksIff(s: State, id: TimerId)
    requires Inv(s) && s.firing && id in s.timers
    ensures BatchBroken(CancelStep(s, id)) <==> exists e <- s.batch :: e.id == id
  {
    forall e <- s.batch ensures e.id in CancelStep(s, id).timers <==> e.id != id {
      assert StandsFor(s.timers, e);
    }
  }

  /** A broken batch is never finished: some assertion fails, or an object is used after its end, first. */
  lemma {:induction false} BrokenBatchNeverEnds(s: State, es: seq<Step>)
    requires Sorted(s.entries) && Legal(s, es) && BatchBroken(s)
    requires forall e <- s.batch :: e.id in s.seen
    ensures BatchBroken(Run(s, es))
    decreases |es|
  {
    if es != [] {
      var t := Exec(s, es[0]);
      var e :| e in s.batch && e.id !in s.timers;
      if es[0].FinishTimer? {
        assert e != s.batch[0];
        assert e in s.batch[1..];
        assert forall x <- s.batch[1..] :: x in s.batch;
      }
      assert e in t.batch && e.id !in t.timers;
      BrokenBatchNeverEnds(t, es[1..]);
    }
  }

  /** A run that starts with e. */
  lemma RunCons(s: State, t: State, e: Step, rest: seq<Step>)
    requires Sorted(s.entries) && Possible(s, e) && StepAsserts(s, e) && t == Exec(s, e)
    requires Sorted(t.entries) && Legal(t, rest)
    ensures Legal(s, [e] + rest) && Run(s, [e] + rest) == Run(t, rest)
    ensures Disciplined(s, e) && DisciplinedRun(t, rest) ==> DisciplinedRun(s, [e] + rest)
  {
    assert ([e] + rest)[1..] == rest;
  }

  /** The first timer of a fresh queue. */
  lemma FirstTimer(clock: int, id: TimerId, timer: Timer)
    requires clock > 0 && id < MAX_ID && WellMade(timer)
    ensures var s := Initial(clock);
            && Possible(s, Add(id, timer)) && StepAsserts(s, Add(id, timer)) && Disciplined(s, Add(id, timer))
            && var t := Exec(s, Add(id, timer));
               && t.entries == [Entry(timer.expiration, id)] && t.timers == map[id := timer] && t.seen == {id}
               && t.clock == clock && !t.firing && !t.running
  {
    assert Insert([], Entry(timer.expiration, id)) == [Entry(timer.expiration, id)];
  }

  /** When it is due, the batch takes the only entry, and the callback begins. */
  lemma OnlyTimerFires(s: State, id: TimerId, timer: Timer)
    requires s.entries == [Entry(timer.expiration, id)] && s.timers == map[id := timer] && id < MAX_ID
    requires timer.expiration <= s.clock && !s.firing && !s.running
    ensures Possible(s, BeginFiring) && StepAsserts(s, BeginFiring)
    ensures var t := Exec(s, BeginFiring);
            && t.entries == [] && t.timers == s.timers && t.seen == s.seen
            && Possible(t, RunCallback) && StepAsserts(t, RunCallback)
            && var u := Exec(t, RunCallback);
               u.entries == [] && u.timers == s.timers && u.seen == s.seen && u.firing && u.running
  {
    var e := Entry(timer.expiration, id);
    assert Less(e, Entry(s.clock, MAX_ID));
    assert s.entries[1..] == [];
    assert LowerBound(s.entries, Entry(s.clock, MAX_ID)) == 1;
  }

  /** The run in which it happens: one timer is added, comes due and fires. */
  function OnlyTimerRun(id: TimerId, timer: Timer, now: int): seq<Step> {
    [Add(id, timer)] + ([Tick(now)] + ([BeginFiring] + ([RunCallback] + [])))
  }

  /** The smallest case: the callback of the only timer adds a timer, and an empty set is dereferenced. */
  lemma AddFromLastCallbackFails(clock: int, id: TimerId, timer: Timer, now: int, other: TimerId, late: Timer)
    requires clock > 0 && id < MAX_ID && WellMade(timer) && now >= clock && now >= timer.expiration
    requires other < MAX_ID && other != id && WellMade(late)
    ensures var es := OnlyTimerRun(id, timer, now);
            && DisciplinedRun(Initial(clock), es) && Legal(Initial(clock), es)
            && var t := Run(Initial(clock), es);
               Sorted(t.entries) && Possible(t, Add(other, late)) && !StepAsserts(t, Add(other, late))
  {
    var s := Initial(clock);
    FirstTimer(clock, id, timer);
    var a := Exec(s, Add(id, timer));
    var b := Exec(a, Tick(now));
    OnlyTimerFires(b, id, timer);
    var c := Exec(b, BeginFiring);
    var d := Exec(c, RunCallback);
    RunCons(c, d, RunCallback, []);
    RunCons(b, c, BeginFiring, [RunCallback] + []);
    RunCons(a, b, Tick(now), [BeginFiring] + ([RunCallback] + []));
    RunCons(s, a, Add(id, timer), [Tick(now)] + ([BeginFiring] + ([RunCallback] + [])));
    assert id in d.timers;
  }

  /** Adding from a callback is safe exactly while some entry is left outside the batch. */
  lemma AddInCallbackIff(s: State, id: TimerId, timer: Timer)
    requires Inv(s) && s.firing && Possible(s, Add(id, timer))
    ensures StepAsserts(s, Add(id, timer)) <==> s.entries != []
  {
    assert StandsFor(s.timers, s.batch[0]) by { assert s.batch[0] in s.batch; }
  }

  // ---- one batch with any callbacks ----

  predicate FiredFor(f: Firing, e: Entry) {
    f.id == e.id && f.due == e.when
  }

  /** Of a batch begun with the record `before`, exactly the elements dealt with have fired, in order. */
  predicate FiredInOrder(before: seq<Firing>, all: seq<Entry>, s: State) {
    && s.firing && |s.batch| <= |all| && s.batch == all[|all| - |s.batch|..]
    && var count := |all| - |s.batch| + (if s.running then 1 else 0);
       && count <= |all| && |s.fired| == |before| + count && s.fired[..|before|] == before
       && forall i | 0 <= i < count :: FiredFor(s.fired[|before| + i], all[i])
  }

  lemma CallbackFiresInOrder(before: seq<Firing>, all: seq<Entry>, s: State)
    requires FiredInOrder(before, all, s) && Sorted(s.entries)
    requires Possible(s, RunCallback) && StepAsserts(s, RunCallback)
    ensures FiredInOrder(before, all, Exec(s, RunCallback))
  {
    var t, k := Exec(s, RunCallback), |all| - |s.batch|;
    assert s.batch[0] == all[k];
    assert t.fired[..|before|] == s.fired[..|before|];
    forall i | 0 <= i < k + 1 ensures FiredFor(t.fired[|before| + i], all[i]) {
      if i < k {
        assert t.fired[|before| + i] == s.fired[|before| + i];
      }
    }
  }

  lemma FinishFiresInOrder(before: seq<Firing>, all: seq<Entry>, s: State)
    requires FiredInOrder(before, all, s) && Sorted(s.entries)
    requires Possible(s, FinishTimer) && StepAsserts(s, FinishTimer)
    ensures FiredInOrder(before, all, FinishStep(s))
  {
    assert s.batch[1..] == all[|all| - |s.batch| + 1..];
  }

  lemma SameFiresInOrder(before: seq<Firing>, all: seq<Entry>, s: State, t: State)
    requires FiredInOrder(before, all, s)
    requires t.firing == s.firing && t.batch == s.batch && t.running == s.running && t.fired == s.fired
    ensures FiredInOrder(before, all, t)
  {
  }

  lemma OthersKeepRecord(s: State, e: Step)
    requires Sorted(s.entries) && s.firing && Possible(s, e) && StepAsserts(s, e) && (e.Tick? || e.Add? || e.Cancel?)
    ensures var t := Exec(s, e);
            t.firing == s.firing && t.batch == s.batch && t.running == s.running && t.fired == s.fired
  {
  }

  lemma UserFiresInOrder(before: seq<Firing>, all: seq<Entry>, s: State, e: Step)
    requires FiredInOrder(before, all, s) && Sorted(s.entries) && (e.Tick? || e.Add? || e.Cancel?)
    requires Possible(s, e) && StepAsserts(s, e)
    ensures FiredInOrder(before, all, Exec(s, e))
  {
    OthersKeepRecord(s, e);
    SameFiresInOrder(before, all, s, Exec(s, e));
  }

  lemma StepFiresInOrder(before: seq<Firing>, all: seq<Entry>, s: State, e: Step)
    requires Inv(s) && FiredInOrder(before, all, s) && Possible(s, e) && Disciplined(s, e) && e != EndFiring
    ensures StepAsserts(s, e) && FiredInOrder(before, all, Exec(s, e))
  {
    DisciplineMeetsAsserts(s, e);
    match e {
      case RunCallback => CallbackFiresInOrder(before, all, s);
      case FinishTimer => FinishFiresInOrder(before, all, s);
      case BeginFiring =>
      case EndFiring =>
      case _ => UserFiresInOrder(before, all, s, e);
    }
  }

  lemma {:induction false} RunFiresInOrder(before: seq<Firing>, all: seq<Entry>, s: State, es: seq<Step>)
    requires Inv(s) && FiredInOrder(before, all, s) && DisciplinedRun(s, es) && forall e <- es :: e != EndFiring
    ensures Legal(s, es) && Inv(Run(s, es)) && FiredInOrder(before, all, Run(s, es))
    decreases |es|
  {
    if es != [] {
      assert es[0] in es && forall e <- es[1..] :: e in es;
      StepFiresInOrder(before, all, s, es[0]);
      StepKeepsInv(s, es[0]);
      RunFiresInOrder(before, all, Exec(s, es[0]), es[1..]);
    }
  }

  lemma BeginTakesTheDueOnes(s: State)
    requires Inv(s) && !s.firing
    ensures var t := BeginStep(s);
            && Sorted(t.batch) && (forall e <- s.entries :: e.when <= s.clock <==> e in t.batch)
            && FiredInOrder(s.fired, t.batch, t)
  {
    assert KnownIds(s.entries);
    ExpiredAreTheDueOnes(s.entries, s.clock);
    assert BeginStep(s).batch[0..] == BeginStep(s).batch && s.fired[..|s.fired|] == s.fired;
  }

  /** Since the record `before`, every element has fired exactly once, in order, and nothing else. */
  predicate AllFired(before: seq<Firing>, all: seq<Entry>, s: State) {
    && |s.fired| == |before| + |all| && s.fired[..|before|] == before
    && forall i | 0 <= i < |all| :: FiredFor(s.fired[|before| + i], all[i])
  }

  lemma EndedBatch(before: seq<Firing>, all: seq<Entry>, s: State)
    requires FiredInOrder(before, all, s) && Inv(s) && Possible(s, EndFiring)
    ensures AllFired(before, all, s)
  {
  }

  lemma RunFiresAll(before: seq<Firing>, begun: State, es: seq<Step>)
    requires Inv(begun) && FiredInOrder(before, begun.batch, begun)
    requires DisciplinedRun(begun, es) && forall e <- es :: e != EndFiring
    ensures Legal(begun, es) && Inv(Run(begun, es))
    ensures Possible(Run(begun, es), EndFiring) ==> AllFired(before, begun.batch, Run(begun, es))
  {
    RunFiresInOrder(before, begun.batch, begun, es);
    if Possible(Run(begun, es), EndFiring) {
      EndedBatch(before, begun.batch, Run(begun, es));
    }
  }

  /**
   A batch under any disciplined callbacks, which may add and cancel timers: it takes
   exactly the entries due when it begins, in order; and when it can end, each of them
   has fired exactly once, in that order, and nothing else has.
   */
  lemma BatchFiresOnceInOrder(s: State, begun: State, es: seq<Step>)
    requires Inv(s) && !s.firing && begun == BeginStep(s)
    requires Sorted(begun.entries) && DisciplinedRun(begun, es) && forall e <- es :: e != EndFiring
    ensures Sorted(begun.batch) && forall e <- s.entries :: e.when <= s.clock <==> e in begun.batch
    ensures Legal(begun, es) && Inv(Run(begun, es))
    ensures Possible(Run(begun, es), EndFiring) ==> AllFired(s.fired, begun.batch, Run(begun, es))
  {
    BeginKeepsInv(s);
    BeginTakesTheDueOnes(s);
    RunFiresAll(s.fired, begun, es);
  }

  /** One element of a batch: when its callback runs, and what happens until it returns. */
  datatype CallbackRun = CallbackRun(at: int, during: seq<Step>)

  predicate UserSteps(es: seq<Step>) {
    forall e <- es :: e.Tick? || e.Add? || e.Cancel?
  }

  function TurnSteps(c: CallbackRun): seq<Step> {
    [Tick(c.at)] + ([RunCallback] + (c.during + [FinishTimer]))
  }

  function BatchSteps(cs: seq<CallbackRun>): seq<Step> {
    if cs == [] then [] else TurnSteps(cs[0]) + BatchSteps(cs[1..])
  }

  lemma {:induction false} BatchStepsEndNothing(cs: seq<CallbackRun>)
    requires forall c <- cs :: UserSteps(c.during)
    ensures forall e <- BatchSteps(cs) :: e != EndFiring
  {
    if cs != [] {
      assert cs[0] in cs;
      BatchStepsEndNothing(cs[1..]);
    }
  }

  lemma {:induction false} RunAppend(s: State, es: seq<Step>, fs: seq<Step>)
    requires Inv(s) && DisciplinedRun(s, es + fs)
    ensures DisciplinedRun(s, es) && Legal(s, es) && Inv(Run(s, es)) && DisciplinedRun(Run(s, es), fs)
    ensures Legal(Run(s, es), fs) && Legal(s, es + fs) && Run(s, es + fs) == Run(Run(s, es), fs)
    decreases |es|
  {
    TimersStayConsistent(s, es + fs);
    if es == [] {
      assert es + fs == fs;
    } else {
      assert (es + fs)[1..] == es[1..] + fs && (es + fs)[0] == es[0];
      StepKeepsInv(s, es[0]);
      RunAppend(Exec(s, es[0]), es[1..], fs);
    }
  }

  /** A callback that has begun, and returns: the batch is one shorter. */
  lemma {:induction false} CallbackReturns(s: State, during: seq<Step>)
    requires Inv(s) && s.running && UserSteps(during) && DisciplinedRun(s, during + [FinishTimer])
    ensures Legal(s, during + [FinishTimer])
    ensures var t := Run(s, during + [FinishTimer]); Inv(t) && t.firing && !t.running && t.batch == s.batch[1..]
    decreases |during|
  {
    var es := during + [FinishTimer];
    TimersStayConsistent(s, es);
    StepKeepsInv(s, es[0]);
    var t := Exec(s, es[0]);
    if during == [] {
      assert es[1..] == [] && Run(t, []) == t;
    } else {
      assert es[0] in during && es[1..] == during[1..] + [FinishTimer];
      CallbackReturns(t, during[1..]);
    }
  }

  /** What one turn of the loop leaves, whatever its callback does. */
  lemma TurnShrinks(s: State, c: CallbackRun)
    requires Inv(s) && s.firing && !s.running && s.batch != [] && UserSteps(c.during)
    requires DisciplinedRun(s, TurnSteps(c))
    ensures Legal(s, TurnSteps(c))
    ensures var t := Run(s, TurnSteps(c)); Inv(t) && t.firing && !t.running && t.batch == s.batch[1..]
  {
    var rest := c.during + [FinishTimer];
    TimersStayConsistent(s, TurnSteps(c));
    RemainsNext(s, TurnSteps(c), Run(s, TurnSteps(c)));
    var ticked := Exec(s, Tick(c.at));
    assert TurnSteps(c)[1..] == [RunCallback] + rest;
    RemainsNext(ticked, [RunCallback] + rest, Run(s, TurnSteps(c)));
    assert ([RunCallback] + rest)[1..] == rest;
    CallbackReturns(Exec(ticked, RunCallback), c.during);
  }

  // ---- one batch with silent callbacks ----

  /** One turn of the firing loop with a silent callback; the clock is read twice. */
  function FireOne(s: State, ranAt: int, restartedAt: int): State
    requires Sorted(s.entries) && s.batch != [] && s.batch[0].id in s.timers
  {
    var e := s.batch[0];
    FinishStep(s.(clock := restartedAt, running := true,
                  fired := s.fired + [Firing(e.id, e.when, ranAt, s.timers[e.id].repeat)]))
  }

  lemma FireOneKeepsInv(s: State, ranAt: int, restartedAt: int)
    requires Inv(s) && s.firing && !s.running && s.batch != [] && s.clock <= ranAt <= restartedAt
    ensures s.batch[0].id in s.timers && Inv(FireOne(s, ranAt, restartedAt))
  {
    var ran := s.(clock := ranAt);
    StepKeepsInv(s, Tick(ranAt));
    StepKeepsInv(ran, RunCallback);
    var called := Exec(ran, RunCallback);
    StepKeepsInv(called, Tick(restartedAt));
    StepKeepsInv(called.(clock := restartedAt), FinishTimer);
    assert FireOne(s, ranAt, restartedAt) == FinishStep(called.(clock := restartedAt));
  }

  /** Its effect: called once, and then gone or back with a new expiration. */
  lemma FireOneEffect(s: State, ranAt: int, restartedAt: int)
    requires Sorted(s.entries) && s.batch != [] && s.batch[0].id in s.timers
    ensures var t, e := FireOne(s, ranAt, restartedAt), s.batch[0];
            var timer := s.timers[e.id];
            && t.batch == s.batch[1..]
            && t.fired == s.fired + [Firing(e.id, e.when, ranAt, timer.repeat)]
            && (if timer.repeat then
                  && t.timers == s.timers[e.id := timer.(expiration := restartedAt + timer.interval)]
                  && Entry(restartedAt + timer.interval, e.id) in t.entries
                else
                  t.timers == s.timers - {e.id} && t.entries == s.entries)
  {
  }

  /** The clock readings of a batch: when each callback ran, and when its timer was restarted. */
  datatype Clocks = Clocks(ranAt: int, restartedAt: int)

  predicate Monotone(now: int, clocks: seq<Clocks>)
    decreases |clocks|
  {
    clocks == [] || (now <= clocks[0].ranAt <= clocks[0].restartedAt && Monotone(clocks[0].restartedAt, clocks[1..]))
  }

  function FireAll(s: State, clocks: seq<Clocks>): State
    requires Inv(s) && s.firing && !s.running && |clocks| == |s.batch| && Monotone(s.clock, clocks)
    decreases |clocks|
  {
    if clocks == [] then s
    else
      FireOneKeepsInv(s, clocks[0].ranAt, clocks[0].restartedAt);
      FireAll(FireOne(s, clocks[0].ranAt, clocks[0].restartedAt), clocks[1..])
  }

  /** Callbacks that leave the queue alone take time only. */
  function Silent(clocks: seq<Clocks>): seq<CallbackRun> {
    seq(|clocks|, i requires 0 <= i < |clocks| => CallbackRun(clocks[i].ranAt, [Tick(clocks[i].restartedAt)]))
  }

  /** The step e is disciplined in s, meets its assertions, and leads to t. */
  predicate Leads(s: State, e: Step, t: State) {
    && Sorted(s.entries) && Possible(s, e) && StepAsserts(s, e) && Disciplined(s, e)
    && t == Exec(s, e) && Sorted(t.entries)
  }

  lemma LeadsCons(s: State, e: Step, t: State, rest: seq<Step>)
    requires Leads(s, e, t) && DisciplinedRun(t, rest) && Legal(t, rest)
    ensures DisciplinedRun(s, [e] + rest) && Legal(s, [e] + rest) && Run(s, [e] + rest) == Run(t, rest)
  {
    RunCons(s, t, e, rest);
  }

  lemma FireOneLeads(s: State, c: Clocks)
    requires Inv(s) && s.firing && !s.running && s.batch != [] && s.clock <= c.ranAt <= c.restartedAt
    requires s.batch[0].id in s.timers
    ensures var ran := s.(clock := c.ranAt);
            && Leads(s, Tick(c.ranAt), ran) && Possible(ran, RunCallback) && StepAsserts(ran, RunCallback)
            && Sorted(ran.entries)
            && var called := Exec(ran, RunCallback);
               var returned := called.(clock := c.restartedAt);
               && Leads(ran, RunCallback, called) && Leads(called, Tick(c.restartedAt), returned)
               && Leads(returned, FinishTimer, FireOne(s, c.ranAt, c.restartedAt))
  {
    var ran := s.(clock := c.ranAt);
    StepKeepsInv(s, Tick(c.ranAt));
    StepKeepsInv(ran, RunCallback);
    var called := Exec(ran, RunCallback);
    StepKeepsInv(called, Tick(c.restartedAt));
    StepKeepsInv(called.(clock := c.restartedAt), FinishTimer);
  }

  lemma FourSteps(a: Step, b: Step, c: Step, d: Step, rest: seq<Step>)
    ensures [a] + ([b] + ([c] + [d])) + rest == [a] + ([b] + ([c] + ([d] + rest)))
  {
  }

  lemma FireOneIsTurn(s: State, c: Clocks, rest: seq<Step>)
    requires Inv(s) && s.firing && !s.running && s.batch != [] && s.clock <= c.ranAt <= c.restartedAt
    requires s.batch[0].id in s.timers
    requires var t := FireOne(s, c.ranAt, c.restartedAt); Sorted(t.entries) && DisciplinedRun(t, rest) && Legal(t, rest)
    ensures var es := TurnSteps(CallbackRun(c.ranAt, [Tick(c.restartedAt)])) + rest;
            && DisciplinedRun(s, es) && Legal(s, es)
            && Run(s, es) == Run(FireOne(s, c.ranAt, c.restartedAt), rest)
  {
    FireOneLeads(s, c);
    var ran := s.(clock := c.ranAt);
    var called := Exec(ran, RunCallback);
    var returned := called.(clock := c.restartedAt);
    LeadsCons(returned, FinishTimer, FireOne(s, c.ranAt, c.restartedAt), rest);
    LeadsCons(called, Tick(c.restartedAt), returned, [FinishTimer] + rest);
    LeadsCons(ran, RunCallback, called, [Tick(c.restartedAt)] + ([FinishTimer] + rest));
    LeadsCons(s, Tick(c.ranAt), ran, [RunCallback] + ([Tick(c.restartedAt)] + ([FinishTimer] + rest)));
    FourSteps(Tick(c.ranAt), RunCallback, Tick(c.restartedAt), FinishTimer, rest);
  }

  /** A batch with silent callbacks is a disciplined run, and FireAll is where it leads. */
  lemma {:induction false} FireAllIsRun(s: State, clocks: seq<Clocks>)
    requires Inv(s) && s.firing && !s.running && |clocks| == |s.batch| && Monotone(s.clock, clocks)
    ensures DisciplinedRun(s, BatchSteps(Silent(clocks))) && Legal(s, BatchSteps(Silent(clocks)))
    ensures Run(s, BatchSteps(Silent(clocks))) == FireAll(s, clocks)
    decreases |clocks|
  {
    if clocks != [] {
      FireOneKeepsInv(s, clocks[0].ranAt, clocks[0].restartedAt);
      assert Silent(clocks)[1..] == Silent(clocks[1..]);
      FireAllIsRun(FireOne(s, clocks[0].ranAt, clocks[0].restartedAt), clocks[1..]);
      FireOneIsTurn(s, clocks[0], BatchSteps(Silent(clocks[1..])));
    }
  }

  /** What became of a timer of the batch. */
  predicate Dealt(before: map<TimerId, Timer>, after: map<TimerId, Timer>, id: TimerId, restartedAt: int)
    requires id in before
  {
    if before[id].repeat
    then id in after && after[id] == before[id].(expiration := restartedAt + before[id].interval)
    else id !in after
  }

  predicate FiredAs(f: Firing, e: Entry, ranAt: int) {
    f.id == e.id && f.due == e.when && f.at == ranAt
  }

  /** The callbacks of the batch ran once each, in order. */
  predicate BatchLogged(s: State, t: State, clocks: seq<Clocks>)
    requires |clocks| == |s.batch|
  {
    && |t.fired| == |s.fired| + |s.batch| && t.fired[..|s.fired|] == s.fired
    && forall i | 0 <= i < |s.batch| :: FiredAs(t.fired[|s.fired| + i], s.batch[i], clocks[i].ranAt)
  }

  /** The one-shot timers of the batch left, the repeating ones were restarted. */
  predicate BatchDealt(s: State, t: State, clocks: seq<Clocks>)
    requires |clocks| == |s.batch|
  {
    forall i | 0 <= i < |s.batch| ::
      s.batch[i].id in s.timers && Dealt(s.timers, t.timers, s.batch[i].id, clocks[i].restartedAt)
  }

  ghost predicate OthersKept(s: State, t: State) {
    forall id | forall e <- s.batch :: e.id != id ::
      (id in t.timers <==> id in s.timers) && (id in s.timers ==> t.timers[id] == s.timers[id])
  }

  lemma LoggedStep(s: State, t: State, clocks: seq<Clocks>)
    requires Sorted(s.entries) && s.batch != [] && s.batch[0].id in s.timers && |clocks| == |s.batch|
    requires BatchLogged(FireOne(s, clocks[0].ranAt, clocks[0].restartedAt), t, clocks[1..])
    ensures BatchLogged(s, t, clocks)
  {
    var u, n := FireOne(s, clocks[0].ranAt, clocks[0].restartedAt), |s.fired|;
    assert t.fired[n] == t.fired[..n + 1][n];
    assert t.fired[..n] == t.fired[..n + 1][..n];
    forall i | 0 <= i < |s.batch| ensures FiredAs(t.fired[n + i], s.batch[i], clocks[i].ranAt) {
      if i > 0 {
        assert s.batch[i] == u.batch[i - 1] && clocks[i] == clocks[1..][i - 1];
        assert FiredAs(t.fired[n + 1 + (i - 1)], u.batch[i - 1], clocks[1..][i - 1].ranAt);
      }
    }
  }

  /** What one turn does to the timers: only the front one is touched. */
  lemma FireOneTimers(s: State, c: Clocks)
    requires ContainersAgree(s) && s.batch != [] && s.batch[0].id in s.timers
    ensures var u, id := FireOne(s, c.ranAt, c.restartedAt), s.batch[0].id;
            && u.batch == s.batch[1..] && Dealt(s.timers, u.timers, id, c.restartedAt)
            && (forall e <- u.batch :: e.id != id)
            && forall i | i != id ::
                 (i in u.timers <==> i in s.timers) && (i in s.timers ==> u.timers[i] == s.timers[i])
  {
    BatchIdsDiffer(s);
    FireOneEffect(s, c.ranAt, c.restartedAt);
  }

  lemma DealtStep(s: State, u: State, t: State, clocks: seq<Clocks>)
    requires s.batch != [] && |clocks| == |s.batch| && u.batch == s.batch[1..] && s.batch[0].id in s.timers
    requires Dealt(s.timers, u.timers, s.batch[0].id, clocks[0].restartedAt)
    requires forall e <- u.batch :: e.id != s.batch[0].id
    requires forall i | i != s.batch[0].id ::
               (i in u.timers <==> i in s.timers) && (i in s.timers ==> u.timers[i] == s.timers[i])
    requires BatchDealt(u, t, clocks[1..]) && OthersKept(u, t)
    ensures BatchDealt(s, t, clocks)
  {
    forall i | 0 <= i < |s.batch|
      ensures s.batch[i].id in s.timers && Dealt(s.timers, t.timers, s.batch[i].id, clocks[i].restartedAt)
    {
      if i > 0 {
        assert s.batch[i] == u.batch[i - 1] && s.batch[i] in u.batch;
        assert clocks[i] == clocks[1..][i - 1];
      }
    }
  }

  lemma OthersStep(s: State, u: State, t: State)
    requires s.batch != [] && u.batch == s.batch[1..]
    requires forall i | i != s.batch[0].id ::
               (i in u.timers <==> i in s.timers) && (i in s.timers ==> u.timers[i] == s.timers[i])
    requires OthersKept(u, t)
    ensures OthersKept(s, t)
  {
    assert s.batch[0] in s.batch;
    assert forall e <- u.batch :: e in s.batch;
  }

  /**
   A whole batch: every due entry's callback runs once, in order; each one-shot
   timer leaves, each repeating one is restarted, and no other timer is touched.
   */
  lemma {:induction false} BatchEffect(s: State, clocks: seq<Clocks>)
    requires Inv(s) && s.firing && !s.running && |clocks| == |s.batch| && Monotone(s.clock, clocks)
    ensures var t := FireAll(s, clocks);
            && Inv(t) && t.firing && t.batch == []
            && BatchLogged(s, t, clocks) && BatchDealt(s, t, clocks) && OthersKept(s, t)
    decreases |clocks|
  {
    if clocks != [] {
      FireOneKeepsInv(s, clocks[0].ranAt, clocks[0].restartedAt);
      var u := FireOne(s, clocks[0].ranAt, clocks[0].restartedAt);
      FireOneTimers(s, clocks[0]);
      BatchEffect(u, clocks[1..]);
      LoggedStep(s, FireAll(s, clocks), clocks);
      DealtStep(s, u, FireAll(s, clocks), clocks);
      OthersStep(s, u, FireAll(s, clocks));
    }
  }

  class TimerQueue {
    var timers: map<TimerId, Timer>
    // a std::set: distinct entries in ascending order
    var timerEntries: seq<Entry>
    var timerfd: Option<int>
    var clock: int

    ghost var lastReset: int
    ghost var firing: bool
    // the local vector `expired`, from the entry in hand on
    var batch: seq<Entry>
    ghost var running: bool
    ghost var seen: set<TimerId>
    ghost var fired: seq<Firing>

    ghost function View(): State
      reads this
    {
      State(timers, timerEntries, timerfd, clock, lastReset, firing, batch, running, seen, fired)
    }

    constructor (now: int)
      requires now > 0
      ensures View() == Initial(now) && Inv(View())
    {
      timers, timerEntries, timerfd, clock := map[], [], None, now;
      lastReset, firing, batch, running, seen, fired := now, false, [], false, {}, [];
    }

    method ResetTimer(expiration: int)
      modifies this`timerfd, this`lastReset
      ensures View() == ResetTimerfd(old(View()), expiration)
    {
      var ts := HowMuchTimeFromNow(expiration, clock);
      timerfd := Some(clock + ts.seconds * MICROS_PER_SECOND + ts.nanoseconds / 1000);
      lastReset := clock;
    }

    method AddTimerInLoop(id: TimerId, timer: Timer)
      requires Inv(View()) && Possible(View(), Add(id, timer)) && StepAsserts(View(), Add(id, timer))
      modifies this`timers, this`timerEntries, this`timerfd, this`lastReset, this`seen
      ensures View() == Exec(old(View()), Add(id, timer)) && Inv(View())
    {
      AddKeepsInv(View(), id, timer);
      var earliestChanged := timers == map[] || timer.expiration < timerEntries[0].when;
      if earliestChanged {
        ResetTimer(timer.expiration);
      }
      timerEntries := Insert(timerEntries, Entry(timer.expiration, id));
      timers := timers[id := timer];
      seen := seen + {id};
    }

    method CancelInLoop(id: TimerId)
      requires Inv(View()) && Possible(View(), Cancel(id)) && Disciplined(View(), Cancel(id))
      modifies this`timers, this`timerEntries
      ensures View() == Exec(old(View()), Cancel(id)) && Inv(View())
      ensures id !in timers && forall e <- timerEntries :: e.id != id
    {
      CancelKeepsInv(View(), id);
      timerEntries := Remove(timerEntries, Entry(timers[id].expiration, id));
      timers := timers - {id};
    }

    /** Reading the timerfd takes an expiration that is due, and disarms it. */
    method ReadTimerfd()
      modifies this`timerfd
      ensures timerfd == if old(timerfd).Some? && old(timerfd).value <= clock then None else old(timerfd)
    {
      if timerfd.Some? && timerfd.value <= clock {
        timerfd := None;
      }
    }

    /** readTimerfd and getExpired. */
    method GetExpired() returns (expired: seq<Entry>)
      requires Sorted(timerEntries) && KnownIds(timerEntries) && !firing
      modifies this`timerfd, this`timerEntries, this`firing, this`batch
      ensures View() == BeginStep(old(View())) && expired == batch
      ensures Sorted(expired) && expired + timerEntries == old(timerEntries)
      ensures forall e <- old(timerEntries) :: e.when <= clock <==> e in expired
    {
      ghost var t := BeginStep(View());
      ExpiredAreTheDueOnes(timerEntries, clock);
      ReadTimerfd();
      var end := LowerBound(timerEntries, Entry(clock, MAX_ID));
      assert end == |timerEntries| || clock < timerEntries[end].when;
      expired := timerEntries[..end];
      timerEntries := timerEntries[end..];
      firing, batch := true, expired;
      assert View() == t;
    }

    /** Line 143: the callback of the front of the batch begins. */
    ghost method RunCallback()
      requires batch != [] && batch[0].id in timers && !running
      modifies this`fired, this`running
      ensures running
      ensures fired == old(fired) + [Firing(batch[0].id, batch[0].when, clock, timers[batch[0].id].repeat)]
    {
      fired := fired + [Firing(batch[0].id, batch[0].when, clock, timers[batch[0].id].repeat)];
      running := true;
    }

    /** Lines 145-150: the callback has returned, and the timer is restarted or erased. */
    method FinishTimer()
      requires Sorted(timerEntries) && batch != [] && batch[0].id in timers
      modifies this`timers, this`timerEntries, this`batch, this`running
      ensures View() == FinishStep(old(View()))
    {
      var id := batch[0].id;
      var timer := timers[id];
      if timer.repeat {
        timer := timer.(expiration := clock + timer.interval);
        timers := timers[id := timer];
        timerEntries := Insert(timerEntries, Entry(timer.expiration, id));
      } else {
        timers := timers - {id};
      }
      batch, running := batch[1..], false;
    }

    /** Lines 154-160: the timerfd is armed for the new earliest entry. */
    method Rearm()
      requires firing && batch == [] && Sorted(timerEntries)
      modifies this`timerfd, this`lastReset, this`firing
      ensures View() == EndStep(old(View()))
    {
      firing := false;
      var nextExpireTime := 0;
      if timerEntries != [] {
        nextExpireTime := timerEntries[0].when;
      }
      if nextExpireTime > 0 {
        ResetTimer(nextExpireTime);
      }
    }

    /** One step of any disciplined run, callbacks that add and cancel timers included. */
    method Perform(e: Step)
      requires Inv(View()) && Possible(View(), e) && Disciplined(View(), e)
      modifies this
      ensures Inv(View()) && StepAsserts(old(View()), e) && View() == Exec(old(View()), e)
    {
      StepKeepsInv(View(), e);
      match e {
        case Tick(now) => clock := now;
        case Add(id, timer) => AddTimerInLoop(id, timer);
        case Cancel(id) => CancelInLoop(id);
        case BeginFiring =>
          assert KnownIds(timerEntries);
          var expired := GetExpired();
        case RunCallback => RunCallback();
        case FinishTimer => FinishTimer();
        case EndFiring => Rearm();
      }
    }

    /** Any disciplined run of events, batches and callbacks. */
    method PerformAll(es: seq<Step>)
      requires Inv(View()) && DisciplinedRun(View(), es)
      modifies this
      ensures Inv(View()) && Legal(old(View()), es) && View() == Run(old(View()), es)
    {
      TimersStayConsistent(View(), es);
      ghost var end := Run(View(), es);
      var i := 0;
      assert es[0..] == es;
      while i < |es|
        invariant 0 <= i <= |es|
        invariant Remains(View(), es[i..], end)
      {
        assert es[i..][1..] == es[i + 1..];
        RemainsNext(View(), es[i..], end);
        Perform(es[i]);
        i := i + 1;
      }
    }

    /** One turn of the loop over the expired entries, with whatever its callback does. */
    method FireTimer(c: CallbackRun, rest: seq<Step>)
      requires Inv(View()) && firing && !running && batch != [] && UserSteps(c.during)
      requires DisciplinedRun(View(), TurnSteps(c) + rest)
      modifies this
      ensures firing && !running && |batch| == |old(batch)| - 1
      ensures Legal(old(View()), TurnSteps(c) + rest)
      ensures Remains(View(), rest, Run(old(View()), TurnSteps(c) + rest))
    {
      RunAppend(View(), TurnSteps(c), rest);
      TurnShrinks(View(), c);
      PerformAll(TurnSteps(c));
    }

    /** The loop over the expired entries, lines 140-151. */
    method FireBatch(callbacks: seq<CallbackRun>)
      requires Inv(View()) && firing && !running && |batch| == |callbacks|
      requires DisciplinedRun(View(), BatchSteps(callbacks)) && forall c <- callbacks :: UserSteps(c.during)
      modifies this
      ensures Legal(old(View()), BatchSteps(callbacks)) && View() == Run(old(View()), BatchSteps(callbacks))
      ensures firing && !running && batch == []
    {
      TimersStayConsistent(View(), BatchSteps(callbacks));
      ghost var end := Run(View(), BatchSteps(callbacks));
      var i := 0;
      assert callbacks[0..] == callbacks;
      while i < |callbacks|
        invariant 0 <= i <= |callbacks|
        invariant firing && !running && |batch| == |callbacks| - i
        invariant Remains(View(), BatchSteps(callbacks[i..]), end)
      {
        assert callbacks[i..][1..] == callbacks[i + 1..];
        FireTimer(callbacks[i], BatchSteps(callbacks[i + 1..]));
        i := i + 1;
      }
    }

    /**
     The whole of handleRead, with disciplined callbacks that may add and cancel timers:
     every entry that is due fires exactly once, in order, and the timerfd is rearmed.
     */
    method HandleRead(callbacks: seq<CallbackRun>)
      requires Inv(View()) && !firing && forall c <- callbacks :: UserSteps(c.during)
      requires |callbacks| == |BeginStep(View()).batch|
      requires DisciplinedRun(BeginStep(View()), BatchSteps(callbacks))
      modifies this
      ensures Inv(View()) && !firing && AllFired(old(fired), BeginStep(old(View())).batch, View())
      ensures Legal(BeginStep(old(View())), BatchSteps(callbacks))
      ensures View() == EndStep(Run(BeginStep(old(View())), BatchSteps(callbacks)))
    {
      ghost var s, begun := View(), BeginStep(View());
      BatchStepsEndNothing(callbacks);
      BatchFiresOnceInOrder(s, begun, BatchSteps(callbacks));
      BeginKeepsInv(s);
      assert KnownIds(timerEntries);
      var expired := GetExpired();
      FireBatch(callbacks);
      EndKeepsInv(View());
      Rearm();
    }
  }
}
