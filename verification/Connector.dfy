/**
 The active side of connecting: one socket at a time, deferred destruction of its
 channel, and retries with growing delays.  An iteration of the loop handles events
 and timers first and the queued functors after them; a timer fires in any iteration
 in which its time has come, also the one that scheduled it.
 */
module Connector {
  import opened Sequences
  import opened Channel
  import TQ = TimerQueue

  const MAX_RETRY_DELAY_MS: nat := 30_000
  const INIT_RETRY_DELAY_MS: nat := 500

  type Fd = nat

  datatype States = Disconnected | Connecting | Connected

  datatype Phase = Events | Functors

  datatype State = State(
    state: States,
    connect: bool,
    // channel_ and, while it is registered with the poller, its socket in use
    channel: Option<Fd>,
    watching: bool,
    retryDelayMs: nat,
    phase: Phase,
    // channel_ is in the loop's active list of this iteration, and has yet to be handled
    active: bool,
    turnDue: bool,
    // milliseconds
    clock: nat,
    // resetChannel functors: queued for the next batch, and in the current one
    queuedResets: nat,
    batchResets: nat,
    // when the last of them was queued
    resetQueuedAt: nat,
    // retry timers, by when they are due
    timers: seq<nat>,
    // stop() calls whose stopInLoop has not run yet
    stopsPending: nat,
    // the account of sockets, which are numbered as they are created
    created: nat,
    closed: seq<Fd>,
    handedOver: seq<Fd>,
    // how many retries since the last fresh start, and the delay of each
    delays: seq<nat>
  )
  {
    function PendingResets(): nat {
      queuedResets + batchResets
    }
  }

  const INITIAL := State(Disconnected, false, None, false, INIT_RETRY_DELAY_MS, Functors, false, false,
                         0, 0, 0, 0, [], 0, 0, [], [], [])

  /** What connect(2) answers: under way or done, worth retrying, or hopeless. */
  datatype ConnectResult = UnderWay | Retryable | Hopeless

  /** What the socket says once writable or in error. */
  datatype SocketStatus = Fine | SocketError | SelfConnected

  datatype Step =
    | Tick(clock: nat)
    | Start(result: ConnectResult)
    | Restart(result: ConnectResult)
    | StopFlag
    | StopInLoop
    | TimerFires(k: nat, result: ConnectResult)
    | Dispatch(revents: Revents, status: SocketStatus)
    | EndEvents
    | RunReset
    // the functors are done, and the next poll reports the channel or not
    | PollReturns(active: bool)

  /** When a step can occur.  Poll reports only a watched channel, and each active channel is handled once. */
  predicate Possible(s: State, e: Step) {
    match e
    case Tick(now) => s.clock <= now
    case Start(_) => true
    case Restart(_) => true
    case StopFlag => true
    case StopInLoop => s.stopsPending > 0
    case TimerFires(k, _) => s.phase == Events && k < |s.timers| && s.timers[k] <= s.clock
    case Dispatch(_, _) => s.phase == Events && s.turnDue
    case EndEvents => s.phase == Events
    case RunReset => s.phase == Functors && s.batchResets > 0
    case PollReturns(active) => s.phase == Functors && s.batchResets == 0 && (active ==> s.watching)
  }

  // ---- the steps ----

  /** retry: closes the socket and, unless stopped, schedules another attempt. */
  function Retry(s: State, fd: Fd): State {
    var closed := s.(closed := s.closed + [fd], state := Disconnected);
    if s.connect then
      closed.(timers := s.timers + [s.clock + s.retryDelayMs], delays := s.delays + [s.retryDelayMs],
              retryDelayMs := Min(s.retryDelayMs * 2, MAX_RETRY_DELAY_MS))
    else closed
  }

  /** What becomes of a new socket when connect(2) answers. */
  function Answered(s: State, fd: Fd, result: ConnectResult): State {
    match result
    case UnderWay =>
      s.(state := Connecting, channel := Some(fd), watching := true, active := false, turnDue := false)
    case Retryable => Retry(s, fd)
    case Hopeless => s.(closed := s.closed + [fd])
  }

  /** connect: a new socket, which ends up held by a channel or closed. */
  function Connect(s: State, result: ConnectResult): State {
    Answered(s.(created := s.created + 1), s.created, result)
  }

  function StartInLoop(s: State, result: ConnectResult): State {
    if s.connect then Connect(s, result) else s
  }

  /** restart, up to startInLoop. */
  function Renewed(s: State): State {
    s.(state := Disconnected, retryDelayMs := INIT_RETRY_DELAY_MS, delays := [], connect := true)
  }

  /** A retry timer leaves the timer queue when it fires. */
  function WithoutTimer(s: State, k: nat): State
    requires k < |s.timers|
  {
    s.(timers := s.timers[..k] + s.timers[k + 1..])
  }

  function RemoveAndReset(s: State): State {
    s.(watching := false, queuedResets := s.queuedResets + 1, resetQueuedAt := s.clock)
  }

  /** stopInLoop: the attempt's socket is closed by way of retry, which schedules nothing after stop(). */
  function StopStep(s: State): State
    requires s.stopsPending > 0 && (s.state == Connecting ==> s.channel.Some?)
  {
    var done := s.(stopsPending := s.stopsPending - 1);
    if s.state == Connecting then HandleError(done) else done
  }

  function HandleError(s: State): State
    requires s.channel.Some?
  {
    Retry(RemoveAndReset(s), s.channel.value)
  }

  function HandleWrite(s: State, status: SocketStatus): State
    requires s.channel.Some?
  {
    if s.state == Connecting then
      var fd, removed := s.channel.value, RemoveAndReset(s);
      if status != Fine then Retry(removed, fd)
      else
        var connected := removed.(state := Connected);
        if s.connect then connected.(handedOver := s.handedOver + [fd])
        else connected.(closed := s.closed + [fd])
    else s
  }

  function AfterError(s: State, r: Revents): State
    requires s.channel.Some?
  {
    if Triggers(r, OnError) then HandleError(s) else s
  }

  /** The channel's callbacks: the error callback runs before the write callback. */
  function DispatchStep(s: State, r: Revents, status: SocketStatus): State
    requires s.channel.Some?
  {
    if Triggers(r, OnWrite) then HandleWrite(AfterError(s, r), status) else AfterError(s, r)
  }

  /** startInLoop asserts its state, and connecting() that there is no channel. */
  predicate StartAsserts(s: State, result: ConnectResult) {
    s.state == Disconnected && (s.connect && result == UnderWay ==> s.channel.None?)
  }

  /**
   EventLoop::removeChannel, while events are handled: a channel other than the one
   being handled must not be in the active list, which keeps the channels already handled.
   */
  predicate RemovalAsserts(s: State) {
    s.phase == Events ==> !s.active
  }

  predicate StopAsserts(s: State) {
    s.state == Connecting ==> s.channel.Some? && RemovalAsserts(s)
  }

  /** The source's assertions, and the channel it dereferences. */
  predicate StepAsserts(s: State, e: Step)
    requires Possible(s, e)
  {
    match e
    case Start(result) => StartAsserts(s.(connect := true), result)
    case Restart(result) => StartAsserts(Renewed(s), result)
    case TimerFires(_, result) => StartAsserts(s, result)
    case StopInLoop => StopAsserts(s)
    case Dispatch(r, _) =>
      && s.channel.Some?
      && (Triggers(r, OnError) ==> s.state == Connecting)
      && (Triggers(r, OnWrite) ==> AfterError(s, r).state in {Connecting, Disconnected})
    case _ => true
  }

  function Exec(s: State, e: Step): State
    requires Possible(s, e) && StepAsserts(s, e)
  {
    match e
    case Tick(now) => s.(clock := now)
    case Start(result) => StartInLoop(s.(connect := true), result)
    case Restart(result) => StartInLoop(Renewed(s), result)
    case StopFlag => s.(connect := false, stopsPending := s.stopsPending + 1)
    case StopInLoop => StopStep(s)
    case TimerFires(k, result) => StartInLoop(WithoutTimer(s, k), result)
    case Dispatch(r, status) => DispatchStep(s.(turnDue := false), r, status)
    case EndEvents =>
      s.(phase := Functors, active := false, turnDue := false, batchResets := s.queuedResets, queuedResets := 0)
    case RunReset => s.(channel := None, batchResets := s.batchResets - 1)
    case PollReturns(active) => s.(phase := Events, active := active, turnDue := active)
  }

  // ---- disciplines ----

  /** Nothing of an earlier attempt is left: no socket, no reset to run, no timer. */
  predicate Quiet(s: State) {
    !s.watching && s.PendingResets() == 0 && s.timers == []
  }

  /** start() and restart() are called only when nothing of an earlier attempt is left. */
  predicate CalledWhenQuiet(s: State, e: Step) {
    match e
    case Start(_) => s.state == Disconnected && Quiet(s)
    case Restart(_) => Quiet(s)
    case _ => true
  }

  /** A retry gets under way only after the previous channel was reset. */
  predicate Timely(s: State, e: Step) {
    e.TimerFires? && s.connect && e.result == UnderWay ==> s.PendingResets() == 0
  }

  /** stop() reaches a connecting channel only when it is not among the iteration's active ones. */
  predicate StopsAside(s: State, e: Step) {
    e.StopInLoop? && s.state == Connecting ==> !s.active
  }

  /** A deferred reset that has not run yet was queued less than the shortest delay ago. */
  predicate Prompt(s: State) {
    s.PendingResets() > 0 ==> s.clock < s.resetQueuedAt + INIT_RETRY_DELAY_MS
  }

  lemma RetryForgetsState(s: State, fd: Fd)
    ensures Retry(RemoveAndReset(s.(state := Disconnected)), fd) == Retry(RemoveAndReset(s), fd)
  {
  }

  // ---- the invariant ----

  /** Where a socket is: in the channel, among the closed, among those handed over. */
  function Places(s: State, fd: Fd): nat {
    multiset(s.closed)[fd] + multiset(s.handedOver)[fd]
    + (if s.watching && s.channel == Some(fd) then 1 else 0)
  }

  /** Every socket created is in exactly one place. */
  ghost predicate SocketsLinear(s: State) {
    forall fd: Fd :: Places(s, fd) == if fd < s.created then 1 else 0
  }

  predicate ChannelInv(s: State) {
    && (s.watching <==> s.state == Connecting)
    && (s.watching ==> s.PendingResets() == 0)
    && s.PendingResets() <= 1
    && (s.channel.Some? <==> s.watching || s.PendingResets() == 1)
    && (s.phase == Events ==> s.batchResets == 0)
    && (s.turnDue ==> s.watching && s.active)
    && (s.active ==> s.phase == Events)
  }

  predicate TimerInv(s: State) {
    && |s.timers| <= 1
    && (s.timers != [] ==> s.state == Disconnected)
    && s.retryDelayMs >= INIT_RETRY_DELAY_MS
    && (s.PendingResets() > 0 ==> s.resetQueuedAt <= s.clock)
    && (s.PendingResets() > 0 && s.timers != [] ==> s.timers[0] >= s.resetQueuedAt + INIT_RETRY_DELAY_MS)
  }

  function Pow2(k: nat): nat {
    if k == 0 then 1 else 2 * Pow2(k - 1)
  }

  /** The delay before retry k, counted from zero. */
  function DelayAt(k: nat): nat {
    Min(INIT_RETRY_DELAY_MS * Pow2(k), MAX_RETRY_DELAY_MS)
  }

  predicate DelayInv(s: State) {
    && s.retryDelayMs == DelayAt(|s.delays|)
    && forall k | 0 <= k < |s.delays| :: s.delays[k] == DelayAt(k)
  }

  ghost predicate Inv(s: State) {
    SocketsLinear(s) && ChannelInv(s) && TimerInv(s) && DelayInv(s)
  }

  /**
   With the discipline on start() and restart(), a step's assertions hold exactly when it
   is timely and, if it is a stop, aside.
   */
  lemma AssertsIff(s: State, e: Step)
    requires ChannelInv(s) && TimerInv(s) && Possible(s, e) && CalledWhenQuiet(s, e)
    ensures StepAsserts(s, e) <==> Timely(s, e) && StopsAside(s, e)
  {
  }

  lemma HandleErrorKeepsChannel(s: State)
    requires ChannelInv(s) && TimerInv(s) && s.watching && !s.turnDue
    ensures var t := HandleError(s);
            ChannelInv(t) && TimerInv(t) && t.channel.Some? && t.state == Disconnected && !t.turnDue
  {
  }

  lemma HandleWriteKeepsChannel(s: State, status: SocketStatus)
    requires ChannelInv(s) && TimerInv(s) && s.channel.Some? && !s.turnDue
    ensures ChannelInv(HandleWrite(s, status)) && TimerInv(HandleWrite(s, status))
  {
  }

  lemma DispatchKeepsChannel(s: State, r: Revents, status: SocketStatus)
    requires ChannelInv(s) && TimerInv(s) && s.watching && !s.turnDue
    ensures ChannelInv(DispatchStep(s, r, status)) && TimerInv(DispatchStep(s, r, status))
  {
    if Triggers(r, OnError) {
      HandleErrorKeepsChannel(s);
    }
    HandleWriteKeepsChannel(AfterError(s, r), status);
  }

  lemma StartKeepsChannel(s: State, result: ConnectResult)
    requires ChannelInv(s) && TimerInv(s) && s.timers == [] && StartAsserts(s, result)
    ensures ChannelInv(StartInLoop(s, result)) && TimerInv(StartInLoop(s, result))
  {
  }

  lemma StepKeepsChannel(s: State, e: Step)
    requires ChannelInv(s) && TimerInv(s) && Possible(s, e) && CalledWhenQuiet(s, e) && StepAsserts(s, e)
    ensures ChannelInv(Exec(s, e)) && TimerInv(Exec(s, e))
  {
    match e {
      case Start(result) => StartKeepsChannel(s.(connect := true), result);
      case Restart(result) => StartKeepsChannel(Renewed(s), result);
      case TimerFires(k, result) => StartKeepsChannel(WithoutTimer(s, k), result);
      case Dispatch(r, status) => DispatchKeepsChannel(s.(turnDue := false), r, status);
      case _ =>
    }
  }

  lemma CloseCounts(closed: seq<Fd>, fd: Fd)
    ensures forall f: Fd :: multiset(closed + [fd])[f] == multiset(closed)[f] + (if f == fd then 1 else 0)
  {
  }

  lemma RetryPlaces(s: State, fd: Fd)
    ensures forall f: Fd :: Places(Retry(s, fd), f) == Places(s, f) + (if f == fd then 1 else 0)
    ensures Retry(s, fd).created == s.created
  {
    CloseCounts(s.closed, fd);
  }

  /** Taking a watched channel away leaves its socket for the caller to place. */
  lemma RemovePlaces(s: State)
    requires s.watching && s.channel.Some?
    ensures forall f: Fd ::
              Places(RemoveAndReset(s), f) == Places(s, f) - (if Some(f) == s.channel then 1 else 0)
    ensures RemoveAndReset(s).created == s.created
  {
  }

  /** A new socket that has found its place keeps the account. */
  lemma PlacedKeepsLinear(s: State, t: State)
    requires SocketsLinear(s) && t.created == s.created + 1
    requires forall f: Fd :: Places(t, f) == Places(s, f) + (if f == s.created then 1 else 0)
    ensures SocketsLinear(t)
  {
  }

  lemma ConnectKeepsLinear(s: State, result: ConnectResult)
    requires SocketsLinear(s) && !s.watching
    ensures SocketsLinear(Connect(s, result))
  {
    var fd, made := s.created, s.(created := s.created + 1);
    assert forall f: Fd :: Places(made, f) == Places(s, f);
    match result {
      case UnderWay =>
      case Retryable => RetryPlaces(made, fd);
      case Hopeless => CloseCounts(s.closed, fd);
    }
    PlacedKeepsLinear(s, Connect(s, result));
  }

  lemma HandleErrorKeepsLinear(s: State)
    requires SocketsLinear(s) && s.watching && s.channel.Some?
    ensures SocketsLinear(HandleError(s))
  {
    RemovePlaces(s);
    RetryPlaces(RemoveAndReset(s), s.channel.value);
  }

  lemma HandleWriteKeepsLinear(s: State, status: SocketStatus)
    requires SocketsLinear(s) && s.channel.Some? && (s.watching <==> s.state == Connecting)
    ensures SocketsLinear(HandleWrite(s, status))
  {
    if s.state == Connecting {
      var fd, removed := s.channel.value, RemoveAndReset(s);
      RemovePlaces(s);
      RetryPlaces(removed, fd);
      CloseCounts(s.closed, fd);
      CloseCounts(s.handedOver, fd);
      var t := HandleWrite(s, status);
      assert forall f: Fd :: Places(t, f) == Places(removed, f) + (if f == fd then 1 else 0);
      assert forall f: Fd :: Places(t, f) == Places(s, f);
    }
  }

  lemma PlacesUnchanged(s: State, t: State)
    requires SocketsLinear(s) && t.created == s.created && t.closed == s.closed && t.handedOver == s.handedOver
    requires t.watching == s.watching && (s.watching ==> t.channel == s.channel)
    ensures SocketsLinear(t)
  {
    assert forall f: Fd :: Places(t, f) == Places(s, f);
  }

  lemma StepKeepsLinear(s: State, e: Step)
    requires SocketsLinear(s) && ChannelInv(s) && TimerInv(s)
    requires Possible(s, e) && CalledWhenQuiet(s, e) && StepAsserts(s, e)
    ensures SocketsLinear(Exec(s, e))
  {
    match e {
      case Start(result) =>
        PlacesUnchanged(s, s.(connect := true));
        ConnectKeepsLinear(s.(connect := true), result);
      case Restart(result) =>
        PlacesUnchanged(s, Renewed(s));
        ConnectKeepsLinear(Renewed(s), result);
      case TimerFires(k, result) =>
        PlacesUnchanged(s, WithoutTimer(s, k));
        ConnectKeepsLinear(WithoutTimer(s, k), result);
      case StopInLoop =>
        var done := s.(stopsPending := s.stopsPending - 1);
        PlacesUnchanged(s, done);
        if s.state == Connecting {
          HandleErrorKeepsLinear(done);
        }
      case Dispatch(r, status) =>
        var turn := s.(turnDue := false);
        PlacesUnchanged(s, turn);
        if Triggers(r, OnError) { HandleErrorKeepsLinear(turn); }
        HandleWriteKeepsLinear(AfterError(turn, r), status);
      case _ => PlacesUnchanged(s, Exec(s, e));
    }
  }

  // ---- delays ----

  lemma {:induction false} NextDelay(k: nat)
    ensures Min(DelayAt(k) * 2, MAX_RETRY_DELAY_MS) == DelayAt(k + 1)
  {
    assert Pow2(k + 1) == 2 * Pow2(k);
  }

  lemma RetryKeepsDelays(s: State, fd: Fd)
    requires DelayInv(s)
    ensures DelayInv(Retry(s, fd))
  {
    NextDelay(|s.delays|);
  }

  lemma ConnectKeepsDelays(s: State, result: ConnectResult)
    requires DelayInv(s)
    ensures DelayInv(Connect(s, result))
  {
    RetryKeepsDelays(s.(created := s.created + 1), s.created);
  }

  lemma HandleWriteKeepsDelays(s: State, status: SocketStatus)
    requires DelayInv(s) && s.channel.Some?
    ensures DelayInv(HandleWrite(s, status))
  {
    RetryKeepsDelays(RemoveAndReset(s), s.channel.value);
  }

  lemma DispatchKeepsDelays(s: State, r: Revents, status: SocketStatus)
    requires DelayInv(s) && s.channel.Some?
    ensures DelayInv(DispatchStep(s, r, status))
  {
    if Triggers(r, OnError) {
      RetryKeepsDelays(RemoveAndReset(s), s.channel.value);
    }
    HandleWriteKeepsDelays(AfterError(s, r), status);
  }

  lemma StepKeepsDelays(s: State, e: Step)
    requires DelayInv(s) && Possible(s, e) && StepAsserts(s, e)
    ensures DelayInv(Exec(s, e))
  {
    match e {
      case Start(result) => ConnectKeepsDelays(s.(connect := true), result);
      case Restart(result) =>
        assert DelayAt(0) == INIT_RETRY_DELAY_MS by { assert Pow2(0) == 1; }
        ConnectKeepsDelays(Renewed(s), result);
      case TimerFires(k, result) => ConnectKeepsDelays(WithoutTimer(s, k), result);
      case StopInLoop =>
        if s.state == Connecting {
          RetryKeepsDelays(RemoveAndReset(s.(stopsPending := s.stopsPending - 1)), s.channel.value);
        }
      case Dispatch(r, status) =>
        DispatchKeepsDelays(s.(turnDue := false), r, status);
      case _ =>
    }
  }

  // ---- whole runs ----

  predicate Legal(s: State, es: seq<Step>)
    decreases |es|
  {
    es == [] || (Possible(s, es[0]) && StepAsserts(s, es[0]) && Legal(Exec(s, es[0]), es[1..]))
  }

  function Run(s: State, es: seq<Step>): State
    requires Legal(s, es)
    decreases |es|
  {
    if es == [] then s else Run(Exec(s, es[0]), es[1..])
  }

  /** Steps that could occur if no assertion stopped them, with start() and restart() called when quiet. */
  predicate Schedulable(s: State, es: seq<Step>)
    decreases |es|
  {
    es == [] || (Possible(s, es[0]) && CalledWhenQuiet(s, es[0])
                 && (StepAsserts(s, es[0]) ==> Schedulable(Exec(s, es[0]), es[1..])))
  }

  /** Every retry along the way is timely. */
  predicate TimelyRun(s: State, es: seq<Step>)
    requires Schedulable(s, es)
    decreases |es|
  {
    es == [] || (Timely(s, es[0]) && (StepAsserts(s, es[0]) ==> TimelyRun(Exec(s, es[0]), es[1..])))
  }

  /** Every stop along the way is aside. */
  predicate StopsAsideRun(s: State, es: seq<Step>)
    requires Schedulable(s, es)
    decreases |es|
  {
    es == [] || (StopsAside(s, es[0]) && (StepAsserts(s, es[0]) ==> StopsAsideRun(Exec(s, es[0]), es[1..])))
  }

  /** Every deferred reset along the way is prompt. */
  predicate PromptRun(s: State, es: seq<Step>)
    requires Schedulable(s, es)
    decreases |es|
  {
    Prompt(s) && (es == [] || (StepAsserts(s, es[0]) ==> PromptRun(Exec(s, es[0]), es[1..])))
  }

  lemma StepKeepsInv(s: State, e: Step)
    requires Inv(s) && Possible(s, e) && CalledWhenQuiet(s, e) && StepAsserts(s, e)
    ensures Inv(Exec(s, e))
  {
    StepKeepsChannel(s, e);
    StepKeepsLinear(s, e);
    StepKeepsDelays(s, e);
  }

  /**
   A run is free of failed assertions exactly when its retries are timely and its stops
   aside, and then it keeps the invariant.
   */
  lemma {:induction false} LegalIff(s: State, es: seq<Step>)
    requires Inv(s) && Schedulable(s, es)
    ensures Legal(s, es) <==> TimelyRun(s, es) && StopsAsideRun(s, es)
    ensures Legal(s, es) ==> Inv(Run(s, es))
    decreases |es|
  {
    if es != [] {
      AssertsIff(s, es[0]);
      if StepAsserts(s, es[0]) {
        StepKeepsInv(s, es[0]);
        LegalIff(Exec(s, es[0]), es[1..]);
      }
    }
  }

  /** Resets that run within the shortest retry delay make every retry timely. */
  lemma {:induction false} PromptIsTimely(s: State, es: seq<Step>)
    requires Inv(s) && Schedulable(s, es) && PromptRun(s, es)
    ensures TimelyRun(s, es)
    decreases |es|
  {
    if es != [] {
      assert Timely(s, es[0]);
      if StepAsserts(s, es[0]) {
        StepKeepsInv(s, es[0]);
        PromptIsTimely(Exec(s, es[0]), es[1..]);
      }
    }
  }

  /**
   For every mask of events, every answer of the kernel and every interleaving with
   stop(): no assertion fails exactly when each retry that gets under way finds the
   previous channel reset, as it does when every reset runs within 500 ms of being queued,
   and no stop() reaches a connecting channel that is active in the iteration.  Then every
   socket is held, closed once or handed over once; at most one retry is waiting; and the
   k-th retry waits min(500 * 2^k, 30000) milliseconds.
   */
  lemma SocketsAreLinear(es: seq<Step>)
    requires Schedulable(INITIAL, es)
    ensures Legal(INITIAL, es) <==> TimelyRun(INITIAL, es) && StopsAsideRun(INITIAL, es)
    ensures PromptRun(INITIAL, es) ==> TimelyRun(INITIAL, es)
    ensures Legal(INITIAL, es) ==>
              var t := Run(INITIAL, es);
              && SocketsLinear(t) && (t.watching <==> t.state == Connecting) && |t.timers| <= 1
              && (forall k | 0 <= k < |t.delays| ::
                    t.delays[k] == Min(INIT_RETRY_DELAY_MS * Pow2(k), MAX_RETRY_DELAY_MS))
  {
    InitialInv();
    LegalIff(INITIAL, es);
    if PromptRun(INITIAL, es) {
      PromptIsTimely(INITIAL, es);
    }
  }

  lemma InitialInv()
    ensures Inv(INITIAL)
  {
    assert Pow2(0) == 1;
  }

  /** A failure later in a run is a failure of the run. */
  lemma FailureBehind(s: State, t: State, e: Step, rest: seq<Step>)
    requires Possible(s, e) && CalledWhenQuiet(s, e) && StepAsserts(s, e) && t == Exec(s, e)
    requires Schedulable(t, rest) && !Legal(t, rest)
    ensures Schedulable(s, [e] + rest) && !Legal(s, [e] + rest)
    ensures Timely(s, e) && TimelyRun(t, rest) ==> TimelyRun(s, [e] + rest)
    ensures StopsAside(s, e) && StopsAsideRun(t, rest) ==> StopsAsideRun(s, [e] + rest)
    ensures Prompt(s) && PromptRun(t, rest) ==> PromptRun(s, [e] + rest)
  {
    assert ([e] + rest)[1..] == rest;
  }

  lemma FailureAtOnce(s: State, e: Step)
    requires Possible(s, e) && CalledWhenQuiet(s, e) && !StepAsserts(s, e)
    ensures Schedulable(s, [e]) && !Legal(s, [e])
    ensures (Timely(s, e) ==> TimelyRun(s, [e])) && (StopsAside(s, e) ==> StopsAsideRun(s, [e]))
    ensures Prompt(s) ==> PromptRun(s, [e])
  {
  }

  const ERROR_EVENT := Revents(false, false, false, false, false, true, false)

  /** A failed attempt is closed, with a reset and a retry to come. */
  lemma ErrorStep(s: State, status: SocketStatus)
    requires s.phase == Events && s.turnDue && s.connect && s.state == Connecting && s.channel.Some? && s.timers == []
    ensures var t := Exec(s, Dispatch(ERROR_EVENT, status));
            && t.phase == Events && t.clock == s.clock && t.connect && t.channel.Some?
            && t.queuedResets > 0 && t.timers == [s.clock + s.retryDelayMs]
  {
    assert Triggers(ERROR_EVENT, OnError) && !Triggers(ERROR_EVENT, OnWrite);
  }

  lemma RetryTooEarly(s: State, now: nat)
    requires s.phase == Events && s.connect && s.channel.Some? && s.timers != []
    requires now >= s.clock && now >= s.timers[0]
    ensures var es := [Tick(now)] + [TimerFires(0, UnderWay)]; Schedulable(s, es) && !Legal(s, es)
  {
    var t := Exec(s, Tick(now));
    FailureAtOnce(t, TimerFires(0, UnderWay));
    FailureBehind(s, t, Tick(now), [TimerFires(0, UnderWay)]);
  }

  /**
   A retry that is not timely, from any attempt under way: the attempt fails, the
   handlers that follow in the same iteration take as long as the retry delay, and the
   retry fires before the functors run.
   */
  lemma SlowIterationFails(s: State, status: SocketStatus)
    requires Inv(s) && s.phase == Events && s.turnDue && s.connect
    ensures var es := [Dispatch(ERROR_EVENT, status)] + ([Tick(s.clock + s.retryDelayMs)] + [TimerFires(0, UnderWay)]);
            Schedulable(s, es) && !Legal(s, es)
  {
    ErrorStep(s, status);
    var t, now := Exec(s, Dispatch(ERROR_EVENT, status)), s.clock + s.retryDelayMs;
    RetryTooEarly(t, now);
    FailureBehind(s, t, Dispatch(ERROR_EVENT, status), [Tick(now)] + [TimerFires(0, UnderWay)]);
  }

  /**
   A stop() that is not aside, with every retry timely and every reset prompt: from any
   attempt whose channel is in the active list, some handler of the iteration calls stop().
   */
  lemma StopOfActiveFails(s: State)
    requires Inv(s) && s.phase == Events && s.active && s.watching
    ensures var es := [StopFlag] + [StopInLoop];
            Schedulable(s, es) && TimelyRun(s, es) && PromptRun(s, es) && !Legal(s, es)
  {
    var t := Exec(s, StopFlag);
    FailureAtOnce(t, StopInLoop);
    FailureBehind(s, t, StopFlag, [StopInLoop]);
  }

  /** Such attempts exist: one started from a quiet state, as INITIAL is, and reported by the next poll. */
  lemma AttemptUnderWay(s: State, t: State)
    requires Inv(s) && s.state == Disconnected && Quiet(s) && s.phase == Functors && t == Exec(s, Start(UnderWay))
    ensures Possible(t, PollReturns(true)) && StepAsserts(t, PollReturns(true))
    ensures var u := Exec(t, PollReturns(true));
            Inv(u) && u.phase == Events && u.watching && u.connect && u.active && u.turnDue
  {
    StepKeepsInv(s, Start(UnderWay));
    StepKeepsInv(t, PollReturns(true));
  }

  // ---- when start() and restart() may be called ----

  /** No continuation with timely retries and stops aside fails an assertion. */
  ghost predicate SafeFrom(s: State) {
    forall es | Schedulable(s, es) && TimelyRun(s, es) && StopsAsideRun(s, es) :: Legal(s, es)
  }

  /** Whatever connect(2) answers, neither the call nor what follows fails an assertion. */
  ghost predicate SafeToStart(s: State) {
    forall result :: StepAsserts(s, Start(result)) && SafeFrom(Exec(s, Start(result)))
  }

  ghost predicate SafeToRestart(s: State) {
    forall result :: StepAsserts(s, Restart(result)) && SafeFrom(Exec(s, Restart(result)))
  }

  lemma InvIsSafe(s: State)
    requires Inv(s)
    ensures SafeFrom(s)
  {
    forall es | Schedulable(s, es) && TimelyRun(s, es) && StopsAsideRun(s, es) ensures Legal(s, es) {
      LegalIff(s, es);
    }
  }

  lemma TimerFiresInto(s: State, now: nat)
    requires s.state == Connecting && s.phase == Events && s.timers != [] && now >= s.clock && now >= s.timers[0]
    ensures var es := [Tick(now)] + [TimerFires(0, Hopeless)];
            Schedulable(s, es) && TimelyRun(s, es) && StopsAsideRun(s, es) && !Legal(s, es)
  {
    var t := Exec(s, Tick(now));
    FailureAtOnce(t, TimerFires(0, Hopeless));
    FailureBehind(s, t, Tick(now), [TimerFires(0, Hopeless)]);
  }

  /** An attempt under way while a retry timer is left: the timer fires into it. */
  lemma LeftoverTimerFails(s: State)
    requires s.state == Connecting && s.timers != [] && s.PendingResets() == 0
    ensures !SafeFrom(s)
  {
    var now := Max(s.clock, s.timers[0]);
    var es := [Tick(now)] + [TimerFires(0, Hopeless)];
    if s.phase == Events {
      TimerFiresInto(s, now);
    } else {
      var t, polled := Exec(s, PollReturns(false)), [PollReturns(false)] + es;
      TimerFiresInto(t, now);
      FailureBehind(s, t, PollReturns(false), es);
      assert Schedulable(s, polled) && TimelyRun(s, polled) && StopsAsideRun(s, polled) && !Legal(s, polled);
    }
  }

  /**
   start() is safe, for every answer of the kernel and every continuation with timely
   retries and stops aside, exactly while disconnected with no reset to run and no retry
   timer left.
   */
  lemma StartIsSafeIff(s: State)
    requires Inv(s)
    ensures SafeToStart(s) <==> s.state == Disconnected && Quiet(s)
  {
    if s.state == Disconnected && Quiet(s) {
      forall result ensures StepAsserts(s, Start(result)) && SafeFrom(Exec(s, Start(result))) {
        AssertsIff(s, Start(result));
        StepKeepsInv(s, Start(result));
        InvIsSafe(Exec(s, Start(result)));
      }
    } else if StepAsserts(s, Start(UnderWay)) {
      LeftoverTimerFails(Exec(s, Start(UnderWay)));
    }
  }

  /** restart() is safe exactly when no attempt, no reset and no retry timer is left. */
  lemma RestartIsSafeIff(s: State)
    requires Inv(s)
    ensures SafeToRestart(s) <==> Quiet(s)
  {
    if Quiet(s) {
      forall result ensures StepAsserts(s, Restart(result)) && SafeFrom(Exec(s, Restart(result))) {
        AssertsIff(s, Restart(result));
        StepKeepsInv(s, Restart(result));
        InvIsSafe(Exec(s, Restart(result)));
      }
    } else if StepAsserts(s, Restart(UnderWay)) {
      LeftoverTimerFails(Exec(s, Restart(UnderWay)));
    }
  }

  /**
   The retry's own callback, run by a firing batch of the timer queue q: what it asks of
   the timer queue meets the assertions there exactly unless connect(2) is refused at once
   while it is still wanted, so that it schedules the next retry, and the batch took every
   entry.
   */
  lemma RetryCallbackIff(s: State, k: nat, result: ConnectResult, q: TQ.State, id: TQ.TimerId, timer: TQ.Timer)
    requires Inv(s) && Possible(s, TimerFires(k, result)) && StepAsserts(s, TimerFires(k, result))
    requires TQ.Inv(q) && q.firing && TQ.Possible(q, TQ.Add(id, timer))
    ensures var schedules := |Exec(s, TimerFires(k, result)).timers| > |s.timers| - 1;
            (schedules ==> TQ.StepAsserts(q, TQ.Add(id, timer)))
            <==> !(s.connect && result == Retryable) || q.entries != []
  {
    TQ.AddInCallbackIff(q, id, timer);
  }

  /** The destructor's assertion holds exactly when no attempt is under way and no reset is to run. */
  lemma DestructionIsSafeIff(s: State)
    requires Inv(s)
    ensures s.channel.None? <==> s.state != Connecting && s.PendingResets() == 0
  {
  }

  /** Error and writable in one dispatch: the socket is closed once and the write callback does nothing. */
  lemma ErrorThenWrite(s: State, r: Revents, status: SocketStatus)
    requires ChannelInv(s) && TimerInv(s) && Possible(s, Dispatch(r, status))
    requires Triggers(r, OnError) && Triggers(r, OnWrite)
    ensures StepAsserts(s, Dispatch(r, status))
    ensures var t := Exec(s, Dispatch(r, status));
            t.closed == s.closed + [s.channel.value] && t.handedOver == s.handedOver && t.state == Disconnected
  {
  }

  // ---- what a dispatch does with the socket ----

  predicate HasError(r: Revents) {
    r.error || r.invalid
  }

  /** The dispatch finds the connection made, and made to someone else. */
  predicate Succeeds(r: Revents, status: SocketStatus) {
    r.writable && !HasError(r) && status == Fine
  }

  /** The dispatch finds the attempt failed. */
  predicate Fails(r: Revents, status: SocketStatus) {
    HasError(r) || (r.writable && status != Fine)
  }

  /**
   A dispatch hands its socket over exactly if the attempt has succeeded and is still
   wanted.  A success no longer wanted, and a failure, close it; a failure still wanted
   is retried after the delay.  Other events leave the attempt as it is.
   */
  lemma DispatchEffect(s: State, r: Revents, status: SocketStatus)
    requires ChannelInv(s) && Possible(s, Dispatch(r, status))
    ensures s.state == Connecting && s.channel.Some? && StepAsserts(s, Dispatch(r, status))
    ensures var t, fd := Exec(s, Dispatch(r, status)), s.channel.value;
            && t.handedOver == (if Succeeds(r, status) && s.connect then s.handedOver + [fd] else s.handedOver)
            && t.closed == (if Fails(r, status) || (Succeeds(r, status) && !s.connect) then s.closed + [fd]
                            else s.closed)
            && t.state == (if Fails(r, status) then Disconnected else if Succeeds(r, status) then Connected
                           else Connecting)
            && (Fails(r, status) && s.connect ==>
                  && t.timers == s.timers + [s.clock + s.retryDelayMs] && t.delays == s.delays + [s.retryDelayMs]
                  && t.retryDelayMs == Min(2 * s.retryDelayMs, MAX_RETRY_DELAY_MS))
            && (!Fails(r, status) || !s.connect ==>
                  t.timers == s.timers && t.delays == s.delays && t.retryDelayMs == s.retryDelayMs)
            && (if Fails(r, status) || Succeeds(r, status)
                then !t.watching && t.queuedResets == s.queuedResets + 1 && t.resetQueuedAt == s.clock
                else t == s.(turnDue := false))
            && t.connect == s.connect && t.channel == s.channel && t.created == s.created
  {
  }

  /**
   A reset queued while events are handled runs before the loop polls again, and leaves
   no channel; the loop cannot poll before it has.
   */
  lemma ResetRunsThisIteration(s: State, active: bool)
    requires ChannelInv(s) && s.phase == Events && s.queuedResets > 0
    ensures var t := Exec(s, EndEvents);
            && !Possible(t, PollReturns(active)) && Possible(t, RunReset) && StepAsserts(t, RunReset)
            && var u := Exec(t, RunReset);
               u.PendingResets() == 0 && u.channel == None && !u.watching && Possible(u, PollReturns(false))
  {
    assert s.PendingResets() <= 1;
  }

  // ---- the account of a run ----

  /**
   What a run should have come to, kept from the calls, the kernel's answers and the
   events alone: whether a connection is wanted, the socket of the attempt under way,
   and what became of the others.
   */
  datatype Account = Account(
    wanted: bool,
    clock: nat,
    made: nat,
    attempt: Option<Fd>,
    closed: seq<Fd>,
    handed: seq<Fd>,
    // retries since the last fresh start, and when the waiting one is due
    retries: nat,
    waiting: seq<nat>,
    stops: nat,
    // the attempt is among the events of this iteration
    reported: bool
  )

  const NEW_ACCOUNT := Account(false, 0, 0, None, [], [], 0, [], 0, false)

  function Discard(a: Account, fd: Fd): Account {
    a.(closed := a.closed + [fd], attempt := None)
  }

  /** An attempt failed: the next one waits its turn, if one is still wanted. */
  function TryLater(a: Account, fd: Fd): Account {
    var over := Discard(a, fd);
    if a.wanted then over.(waiting := a.waiting + [a.clock + DelayAt(a.retries)], retries := a.retries + 1) else over
  }

  function AttemptNow(a: Account, result: ConnectResult): Account {
    var fd, next := a.made, a.(made := a.made + 1);
    match result
    case UnderWay => next.(attempt := Some(fd), reported := false)
    case Retryable => TryLater(next, fd)
    case Hopeless => Discard(next, fd)
  }

  function AccountStep(a: Account, e: Step): Account {
    match e
    case Tick(now) => a.(clock := now)
    case Start(result) => AttemptNow(a.(wanted := true), result)
    case Restart(result) => AttemptNow(a.(wanted := true, retries := 0), result)
    case StopFlag => a.(wanted := false, stops := a.stops + 1)
    case StopInLoop =>
      var run := a.(stops := if a.stops > 0 then a.stops - 1 else 0);
      if a.attempt.Some? then TryLater(run, a.attempt.value) else run
    case TimerFires(k, result) =>
      var fired := a.(waiting := []);
      if a.wanted then AttemptNow(fired, result) else fired
    case Dispatch(r, status) =>
      var seen := a.(reported := false);
      if a.attempt.None? then seen
      else if Fails(r, status) then TryLater(seen, a.attempt.value)
      else if Succeeds(r, status) && a.wanted then
        seen.(handed := a.handed + [a.attempt.value], attempt := None)
      else if Succeeds(r, status) then Discard(seen, a.attempt.value)
      else seen
    case EndEvents => a.(reported := false)
    case RunReset => a
    case PollReturns(active) => a.(reported := active)
  }

  function AccountOf(a: Account, es: seq<Step>): Account
    decreases |es|
  {
    if es == [] then a else AccountOf(AccountStep(a, es[0]), es[1..])
  }

  /** The connector is as the account says. */
  predicate Agrees(s: State, a: Account) {
    && a.wanted == s.connect && a.clock == s.clock && a.made == s.created
    && a.attempt == (if s.watching then s.channel else None)
    && a.closed == s.closed && a.handed == s.handedOver
    && a.retries == |s.delays| && a.waiting == s.timers && a.stops == s.stopsPending
    && a.reported == s.turnDue
  }

  lemma RetryAgrees(s: State, a: Account, fd: Fd)
    requires DelayInv(s) && !s.watching && Agrees(s, a.(attempt := None))
    ensures Agrees(Retry(s, fd), TryLater(a, fd))
  {
  }

  lemma ConnectAgrees(s: State, a: Account, result: ConnectResult)
    requires DelayInv(s) && !s.watching && Agrees(s, a)
    ensures Agrees(Connect(s, result), AttemptNow(a, result))
  {
    RetryAgrees(s.(created := s.created + 1), a.(made := a.made + 1), s.created);
  }

  lemma StopAgrees(s: State, a: Account)
    requires Inv(s) && Agrees(s, a) && Possible(s, StopInLoop) && StepAsserts(s, StopInLoop)
    ensures Agrees(Exec(s, StopInLoop), AccountStep(a, StopInLoop))
  {
    var done, run := s.(stopsPending := s.stopsPending - 1), a.(stops := a.stops - 1);
    if s.state == Connecting {
      RetryAgrees(RemoveAndReset(done), run, s.channel.value);
    }
  }

  lemma DispatchAgrees(s: State, a: Account, r: Revents, status: SocketStatus)
    requires Inv(s) && Agrees(s, a) && Possible(s, Dispatch(r, status))
    ensures StepAsserts(s, Dispatch(r, status))
    ensures Agrees(Exec(s, Dispatch(r, status)), AccountStep(a, Dispatch(r, status)))
  {
    DispatchEffect(s, r, status);
  }

  lemma StepAgrees(s: State, a: Account, e: Step)
    requires Inv(s) && Agrees(s, a) && Possible(s, e) && CalledWhenQuiet(s, e) && StepAsserts(s, e)
    ensures Agrees(Exec(s, e), AccountStep(a, e))
  {
    match e {
      case Start(result) => ConnectAgrees(s.(connect := true), a.(wanted := true), result);
      case Restart(result) =>
        assert DelayAt(0) == INIT_RETRY_DELAY_MS by { assert Pow2(0) == 1; }
        ConnectAgrees(Renewed(s), a.(wanted := true, retries := 0), result);
      case StopInLoop => StopAgrees(s, a);
      case TimerFires(k, result) =>
        if s.connect { ConnectAgrees(WithoutTimer(s, k), a.(waiting := []), result); }
      case Dispatch(r, status) => DispatchAgrees(s, a, r, status);
      case _ =>
    }
  }

  lemma {:induction false} RunAgrees(s: State, a: Account, es: seq<Step>)
    requires Inv(s) && Agrees(s, a) && Schedulable(s, es) && Legal(s, es)
    ensures Agrees(Run(s, es), AccountOf(a, es))
    decreases |es|
  {
    if es != [] {
      StepAgrees(s, a, es[0]);
      StepKeepsInv(s, es[0]);
      RunAgrees(Exec(s, es[0]), AccountStep(a, es[0]), es[1..]);
    }
  }

  /**
   After every run free of failed assertions, the sockets are where the events put
   them: handed over are exactly those whose attempt succeeded while wanted, in order;
   closed are exactly the others that are not under way; and the retry that waits is
   due when its delay after the last failure is over.
   */
  lemma EverySocketAccountedFor(es: seq<Step>)
    requires Schedulable(INITIAL, es) && Legal(INITIAL, es)
    ensures Agrees(Run(INITIAL, es), AccountOf(NEW_ACCOUNT, es))
  {
    InitialInv();
    RunAgrees(INITIAL, NEW_ACCOUNT, es);
  }

  // ---- the object ----

  class Connector {
    var connect: bool
    var state: States
    var channel: Option<Fd>
    var watching: bool
    var retryDelayMs: nat

    // the loop around the connector, and the sockets' account
    ghost var phase: Phase
    ghost var active: bool
    ghost var turnDue: bool
    var clock: nat
    ghost var queuedResets: nat
    ghost var batchResets: nat
    ghost var resetQueuedAt: nat
    var timers: seq<nat>
    ghost var stopsPending: nat
    var created: nat
    ghost var closed: seq<Fd>
    ghost var handedOver: seq<Fd>
    ghost var delays: seq<nat>

    ghost function View(): State
      reads this
    {
      State(state, connect, channel, watching, retryDelayMs, phase, active, turnDue, clock, queuedResets,
            batchResets, resetQueuedAt, timers, stopsPending, created, closed, handedOver, delays)
    }

    constructor ()
      ensures View() == INITIAL
    {
      connect, state, channel, watching, retryDelayMs := false, Disconnected, None, false, INIT_RETRY_DELAY_MS;
      active, turnDue := false, false;
      phase, clock, queuedResets, batchResets, resetQueuedAt, timers, stopsPending := Functors, 0, 0, 0, 0, [], 0;
      created, closed, handedOver, delays := 0, [], [], [];
    }

    /** sockets::close. */
    method Close(sockfd: Fd)
      modifies this`closed
      ensures View() == old(View()).(closed := old(closed) + [sockfd])
    {
      closed := closed + [sockfd];
    }

    /** runAfter, and the longer delay for the next time. */
    method ScheduleRetry()
      modifies this`timers, this`delays, this`retryDelayMs
      ensures View() == old(View()).(timers := old(timers) + [clock + old(retryDelayMs)],
                                     delays := old(delays) + [old(retryDelayMs)],
                                     retryDelayMs := Min(old(retryDelayMs) * 2, MAX_RETRY_DELAY_MS))
    {
      timers, delays := timers + [clock + retryDelayMs], delays + [retryDelayMs];
      retryDelayMs := Min(retryDelayMs * 2, MAX_RETRY_DELAY_MS);
    }

    method CloseAndRetry(sockfd: Fd)
      modifies this`closed, this`state, this`timers, this`delays, this`retryDelayMs
      ensures View() == Retry(old(View()), sockfd)
    {
      Close(sockfd);
      state := Disconnected;
      if connect {
        ScheduleRetry();
      }
    }

    method RemoveAndResetChannel() returns (sockfd: Fd)
      requires channel.Some?
      modifies this`watching, this`queuedResets, this`resetQueuedAt
      ensures View() == RemoveAndReset(old(View())) && Some(sockfd) == channel
    {
      watching := false;
      sockfd := channel.value;
      queuedResets, resetQueuedAt := queuedResets + 1, clock;
    }

    /** connecting(): the socket is watched by a new channel. */
    method BeginConnecting(sockfd: Fd)
      requires channel.None?
      modifies this`state, this`channel, this`watching, this`active, this`turnDue
      ensures View() == old(View()).(state := Connecting, channel := Some(sockfd), watching := true,
                                     active := false, turnDue := false)
    {
      state := Connecting;
      channel := Some(sockfd);
      watching := true;
      active, turnDue := false, false;
    }

    /** The switch on the answer of connect(2). */
    method HandleAnswer(sockfd: Fd, result: ConnectResult)
      requires result == UnderWay ==> channel.None?
      modifies this`closed, this`state, this`timers, this`delays, this`retryDelayMs
      modifies this`channel, this`watching, this`active, this`turnDue
      ensures View() == Answered(old(View()), sockfd, result)
    {
      match result {
        case UnderWay => BeginConnecting(sockfd);
        case Retryable => CloseAndRetry(sockfd);
        case Hopeless => Close(sockfd);
      }
    }

    method TryConnect(result: ConnectResult)
      requires result == UnderWay ==> channel.None?
      modifies this`created, this`closed, this`state, this`timers, this`delays, this`retryDelayMs
      modifies this`channel, this`watching, this`active, this`turnDue
      ensures View() == Connect(old(View()), result)
    {
      var sockfd := created;
      created := created + 1;
      HandleAnswer(sockfd, result);
    }

    method StartInLoopNow(result: ConnectResult)
      requires StartAsserts(View(), result)
      modifies this`created, this`closed, this`state, this`timers, this`delays, this`retryDelayMs
      modifies this`channel, this`watching, this`active, this`turnDue
      ensures View() == StartInLoop(old(View()), result)
    {
      if connect {
        TryConnect(result);
      }
    }

    method StartNow(result: ConnectResult)
      requires StepAsserts(View(), Start(result))
      modifies this
      ensures View() == Exec(old(View()), Start(result))
    {
      connect := true;
      StartInLoopNow(result);
    }

    method RestartNow(result: ConnectResult)
      requires StepAsserts(View(), Restart(result))
      modifies this
      ensures View() == Exec(old(View()), Restart(result))
    {
      ghost var s := View();
      state := Disconnected;
      retryDelayMs := INIT_RETRY_DELAY_MS;
      delays := [];
      connect := true;
      StartInLoopNow(result);
      assert View() == StartInLoop(Renewed(s), result);
    }

    /** The timer queue runs a retry that is due. */
    method FireTimer(k: nat, result: ConnectResult)
      requires Possible(View(), TimerFires(k, result)) && StepAsserts(View(), TimerFires(k, result))
      modifies this
      ensures View() == Exec(old(View()), TimerFires(k, result))
    {
      timers := timers[..k] + timers[k + 1..];
      StartInLoopNow(result);
    }

    /** Lines 46-48: state, channel and socket of the attempt are given up. */
    method Abandon()
      requires channel.Some?
      modifies this`watching, this`queuedResets, this`resetQueuedAt
      modifies this`closed, this`state, this`timers, this`delays, this`retryDelayMs
      ensures View() == HandleError(old(View()))
    {
      RetryForgetsState(View(), channel.value);
      state := Disconnected;
      var sockfd := RemoveAndResetChannel();
      CloseAndRetry(sockfd);
    }

    method StopInLoopNow()
      requires stopsPending > 0 && StopAsserts(View())
      modifies this`watching, this`queuedResets, this`resetQueuedAt, this`stopsPending
      modifies this`closed, this`state, this`timers, this`delays, this`retryDelayMs
      ensures View() == StopStep(old(View()))
    {
      stopsPending := stopsPending - 1;
      if state == Connecting {
        Abandon();
      }
    }

    method HandleErrorEvent()
      requires state == Connecting && channel.Some?
      modifies this`watching, this`queuedResets, this`resetQueuedAt
      modifies this`closed, this`state, this`timers, this`delays, this`retryDelayMs
      ensures View() == HandleError(old(View()))
    {
      var sockfd := RemoveAndResetChannel();
      CloseAndRetry(sockfd);
    }

    method HandleWriteEvent(status: SocketStatus)
      requires state in {Connecting, Disconnected} && channel.Some?
      modifies this`watching, this`queuedResets, this`resetQueuedAt, this`handedOver
      modifies this`closed, this`state, this`timers, this`delays, this`retryDelayMs
      ensures View() == HandleWrite(old(View()), status)
    {
      if state == Connecting {
        var sockfd := RemoveAndResetChannel();
        if status == SocketError {
          CloseAndRetry(sockfd);
        } else if status == SelfConnected {
          CloseAndRetry(sockfd);
        } else {
          state := Connected;
          if connect {
            handedOver := handedOver + [sockfd];
          } else {
            closed := closed + [sockfd];
          }
        }
      }
    }

    /** The channel's dispatch: the error callback, then the write callback. */
    method HandleEvent(revents: Revents, status: SocketStatus)
      requires Possible(View(), Dispatch(revents, status)) && StepAsserts(View(), Dispatch(revents, status))
      modifies this
      ensures View() == Exec(old(View()), Dispatch(revents, status))
    {
      turnDue := false;
      if revents.error || revents.invalid {
        HandleErrorEvent();
      }
      if revents.writable {
        HandleWriteEvent(status);
      }
    }

    /** The deferred functor that destroys the channel. */
    method ResetChannel()
      requires Possible(View(), RunReset)
      modifies this`channel, this`batchResets
      ensures View() == Exec(old(View()), RunReset)
    {
      channel := None;
      batchResets := batchResets - 1;
    }
  }
}
