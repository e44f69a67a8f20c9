/**
 The life of accepted connections across the base loop, which owns the
 connection table, and the I/O loops, which own the connections.  Each loop runs
 the functors in its queue first in, first out; a step is one functor, one
 accepted socket, or one event on a connection's channel.
 */
module TcpServer {
  import opened Sequences
  import opened Channel
  import opened ConnectionState
  import opened LogStream

  type ConnId = nat
  type LoopId = nat

  // The loop that accepts and owns the table; with an empty thread pool it also does the I/O.
  const BASE: LoopId := 0

  datatype Functor =
    | Establish(conn: ConnId)
    | RemoveInLoop(conn: ConnId)
    | Destroy(conn: ConnId)

  /** What happens to a connection, in the order it should happen. */
  datatype Milestone = Accepted | WentUp | WentDown | Erased | Destroyed

  const LIFE: seq<Milestone> := [Accepted, WentUp, WentDown, Erased, Destroyed]

  datatype Conn = Conn(
    name: string,
    loop: LoopId,
    state: ConnState,
    // the channel has interest: events may arrive
    watching: bool,
    // the channel is in its poller's table
    registered: bool,
    history: seq<Milestone>
  )
  {
    function Stage(): nat {
      |history|
    }
  }

  datatype State = State(
    server: string,
    hostport: string,
    conns: seq<Conn>,
    table: map<string, ConnId>,
    queues: seq<seq<Functor>>
  )

  // ---- connection names ----

  // snprintf into char[32] keeps 31 characters
  const NAME_ROOM: nat := 31

  function Clip(s: string): string {
    if |s| <= NAME_ROOM then s else s[..NAME_ROOM]
  }

  function FullName(server: string, hostport: string, digits: string): string {
    server + Clip(":" + hostport + "#" + digits)
  }

  /** The name of the connection numbered i from zero; nextConnId_ starts at one. */
  function NameOf(server: string, hostport: string, i: ConnId): string {
    FullName(server, hostport, Decimal(i + 1))
  }

  /** The names that newConnection gives to the first n connections differ. */
  predicate NamesDistinct(server: string, hostport: string, n: nat) {
    forall i, j | 0 <= i < j < n :: NameOf(server, hostport, i) != NameOf(server, hostport, j)
  }

  predicate Distinct(conns: seq<Conn>) {
    forall i, j | 0 <= i < j < |conns| :: conns[i].name != conns[j].name
  }

  // ---- the machine ----

  /** What one dispatch of a connection's channel finds: the event mask, and what read(2) answers. */
  datatype Kind = Kind(revents: Revents, read: ReadResult)

  // readable, and the peer has closed
  const END_OF_STREAM := Kind(Revents(true, false, false, false, false, false, false), EndOfStream)

  /** How often the dispatch calls handleClose. */
  function Closes(k: Kind): nat {
    (if ClosedByHangup(k.revents) then 1 else 0) + (if ClosedByRead(k.revents, k.read) then 1 else 0)
  }

  predicate TwiceClosing(k: Kind) {
    ClosesTwice(k.revents, k.read)
  }

  function Initial(server: string, hostport: string, loops: nat): State
    requires loops > 0
  {
    State(server, hostport, [], map[], seq(loops, _ => []))
  }

  datatype Step =
    | Accept(io: LoopId)
    | RunFunctor(loop: LoopId)
    // a dispatch, and whether the DOWN callback it may cause calls shutdown()
    | Dispatch(conn: ConnId, kind: Kind, downShuts: bool)
    | UserShutdown(conn: ConnId)

  /** A step can occur: the queue is not empty, the channel has interest, the user has the connection. */
  predicate Possible(s: State, e: Step) {
    match e
    case Accept(io) => io < |s.queues|
    case RunFunctor(l) => l < |s.queues| && s.queues[l] != []
    case Dispatch(c, _, _) => c < |s.conns| && s.conns[c].watching
    case UserShutdown(c) => c < |s.conns| && s.conns[c].Stage() >= 2
  }

  /** The assertions that the source makes in the code that a functor runs. */
  predicate FunctorAsserts(s: State, f: Functor) {
    && f.conn < |s.conns|
    && match f
       case Establish(c) => s.conns[c].state == Connecting
       case RemoveInLoop(c) => s.conns[c].name in s.table
       case Destroy(c) => s.conns[c].registered && (s.conns[c].state == Connected || !s.conns[c].watching)
  }

  /** handleClose asserts the state, and runs the removal if the connection lives on the base loop. */
  predicate HandleCloseAsserts(s: State, c: ConnId, downShuts: bool)
    requires c < |s.conns|
  {
    && s.conns[c].state in {Connected, Disconnecting}
    && (s.conns[c].loop == BASE ==> FunctorAsserts(CloseStep(s, c, downShuts), RemoveInLoop(c)))
  }

  predicate StepAsserts(s: State, e: Step)
    requires Possible(s, e)
  {
    match e
    case Accept(io) =>
      io == BASE ==> FunctorAsserts(AcceptStep(s, io, NextName(s)), Establish(|s.conns|))
    case RunFunctor(l) =>
      FunctorAsserts(s, s.queues[l][0])
    case Dispatch(c, k, downShuts) =>
      && (Closes(k) >= 1 ==> HandleCloseAsserts(s, c, downShuts))
      && (Closes(k) == 2 ==> HandleCloseAsserts(HandleCloseStep(s, c, downShuts), c, downShuts))
    case UserShutdown(_) => true
  }

  function Advance(s: State, c: ConnId, conn: Conn, m: Milestone): State
    requires c < |s.conns|
  {
    s.(conns := s.conns[c := conn.(history := conn.history + [m])])
  }

  function Enqueue(s: State, l: LoopId, f: Functor): State {
    if l < |s.queues| then s.(queues := s.queues[l := s.queues[l] + [f]]) else s
  }

  /** newConnection, lines 46-65: a connection object, entered in the table under its name. */
  function AcceptStep(s: State, io: LoopId, name: string): State {
    s.(conns := s.conns + [Conn(name, io, Connecting, false, false, [Accepted])], table := s.table[name := |s.conns|])
  }

  function NextName(s: State): string {
    NameOf(s.server, s.hostport, |s.conns|)
  }

  /** The body of handleClose up to the close callback; the DOWN callback may call shutdown(). */
  function CloseStep(s: State, c: ConnId, downShuts: bool): State
    requires c < |s.conns|
  {
    var after := if downShuts then Disconnecting else Disconnected;
    Advance(s, c, s.conns[c].(state := after, watching := false), WentDown)
  }

  /** removeConnectionInLoop up to the erase: the connection's entry and no other goes. */
  function EraseStep(s: State, c: ConnId): State
    requires c < |s.conns|
  {
    Advance(s.(table := s.table - {s.conns[c].name}), c, s.conns[c], Erased)
  }

  function Call(s: State, f: Functor): State
    requires f.conn < |s.conns|
  {
    var conn := s.conns[f.conn];
    match f
    case Establish(c) =>
      Advance(s, c, conn.(state := Connected, watching := true, registered := true), WentUp)
    case RemoveInLoop(c) =>
      Enqueue(EraseStep(s, c), conn.loop, Destroy(c))
    case Destroy(c) =>
      var down := if conn.state == Connected
                  then Advance(s, c, conn.(state := Disconnected, watching := false), WentDown)
                  else s;
      Advance(down, c, down.conns[c].(registered := false), Destroyed)
  }

  /** runInLoop from the loop `from`: at once on the same loop, queued otherwise. */
  function RunInLoop(s: State, from: LoopId, to: LoopId, f: Functor): State
    requires f.conn < |s.conns|
  {
    if from == to then Call(s, f) else Enqueue(s, to, f)
  }

  function HandleCloseStep(s: State, c: ConnId, downShuts: bool): (t: State)
    requires c < |s.conns|
    ensures |t.conns| == |s.conns|
  {
    RunInLoop(CloseStep(s, c, downShuts), s.conns[c].loop, BASE, RemoveInLoop(c))
  }

  function Exec(s: State, e: Step): State
    requires Possible(s, e)
  {
    match e
    case Accept(io) =>
      RunInLoop(AcceptStep(s, io, NextName(s)), BASE, io, Establish(|s.conns|))
    case RunFunctor(l) =>
      var f := s.queues[l][0];
      var popped := s.(queues := s.queues[l := s.queues[l][1..]]);
      if f.conn < |s.conns| then Call(popped, f) else popped
    case Dispatch(c, k, downShuts) =>
      var once := if Closes(k) >= 1 then HandleCloseStep(s, c, downShuts) else s;
      if Closes(k) == 2 then HandleCloseStep(once, c, downShuts) else once
    case UserShutdown(c) =>
      s.(conns := s.conns[c := s.conns[c].(state := Disconnecting)])
  }

  predicate Legal(s: State, es: seq<Step>)
    decreases |es|
  {
    es == [] || (Possible(s, es[0]) && Legal(Exec(s, es[0]), es[1..]))
  }

  function Run(s: State, es: seq<Step>): State
    requires Legal(s, es)
    decreases |es|
  {
    if es == [] then s else Run(Exec(s, es[0]), es[1..])
  }

  /** Every assertion along the run holds. */
  predicate AllAssertsHold(s: State, es: seq<Step>)
    requires Legal(s, es)
    decreases |es|
  {
    es == [] || (StepAsserts(s, es[0]) && AllAssertsHold(Exec(s, es[0]), es[1..]))
  }

  // ---- the invariant ----

  /** The functor that the connection's next milestone waits for, and where it is queued. */
  predicate Expected(s: State, l: LoopId, f: Functor) {
    && f.conn < |s.conns|
    && var conn := s.conns[f.conn];
       match f
       case Establish(_) => conn.Stage() == 1 && l == conn.loop
       case RemoveInLoop(_) => conn.Stage() == 3 && l == BASE
       case Destroy(_) => conn.Stage() == 4 && l == conn.loop
  }

  predicate ConnInv(conn: Conn) {
    && 1 <= conn.Stage() <= 5
    && conn.history == LIFE[..conn.Stage()]
    && (conn.Stage() == 1 ==> conn.state == Connecting)
    && (conn.Stage() == 2 ==> conn.state in {Connected, Disconnecting})
    && (conn.Stage() >= 3 ==> conn.state in {Disconnected, Disconnecting})
    && (conn.watching <==> conn.Stage() == 2)
    && (conn.registered <==> 2 <= conn.Stage() <= 4)
  }

  ghost predicate QueuesInv(s: State) {
    forall l, f | 0 <= l < |s.queues| :: multiset(s.queues[l])[f] == if Expected(s, l, f) then 1 else 0
  }

  predicate TableInv(s: State) {
    && (forall c | 0 <= c < |s.conns| :: s.conns[c].Stage() <= 3 <==>
          s.conns[c].name in s.table && s.table[s.conns[c].name] == c)
    && (forall n <- s.table :: s.table[n] < |s.conns| && n == s.conns[s.table[n]].name)
  }

  ghost predicate Inv(s: State) {
    && |s.queues| > 0
    && (forall c | 0 <= c < |s.conns| :: ConnInv(s.conns[c]) && s.conns[c].loop < |s.queues|)
    && QueuesInv(s)
    && TableInv(s)
  }

  lemma InitialInv(server: string, hostport: string, loops: nat)
    requires loops > 0
    ensures Inv(Initial(server, hostport, loops))
  {
  }

  // ---- how queues and milestones move together ----

  lemma EnqueueCounts(s: State, to: LoopId, f: Functor)
    requires to < |s.queues|
    ensures var t := Enqueue(s, to, f);
            && |t.queues| == |s.queues|
            && forall l, g | 0 <= l < |s.queues| ::
                 multiset(t.queues[l])[g] == multiset(s.queues[l])[g] + (if l == to && g == f then 1 else 0)
  {
  }

  function Pop(s: State, l: LoopId): State
    requires l < |s.queues| && s.queues[l] != []
  {
    s.(queues := s.queues[l := s.queues[l][1..]])
  }

  lemma PopCounts(s: State, from: LoopId)
    requires from < |s.queues| && s.queues[from] != []
    ensures var t, f := Pop(s, from), s.queues[from][0];
            && |t.queues| == |s.queues|
            && forall l, g | 0 <= l < |s.queues| ::
                 multiset(s.queues[l])[g] == multiset(t.queues[l])[g] + (if l == from && g == f then 1 else 0)
  {
    MultisetPop(s.queues[from]);
  }

  /** The front functor of a queue is the one its connection waits for. */
  lemma FrontIsExpected(s: State, l: LoopId)
    requires Inv(s) && l < |s.queues| && s.queues[l] != []
    ensures Expected(s, l, s.queues[l][0])
  {
    var f := s.queues[l][0];
    assert f in multiset(s.queues[l]);
    assert multiset(s.queues[l])[f] > 0;
  }

  /** The invariant with one functor taken out of its queue, about to be called. */
  ghost predicate InvWithout(s: State, from: LoopId, f: Functor) {
    && |s.queues| > 0
    && (forall c | 0 <= c < |s.conns| :: ConnInv(s.conns[c]) && s.conns[c].loop < |s.queues|)
    && Expected(s, from, f)
    && (forall l, g | 0 <= l < |s.queues| ::
          multiset(s.queues[l])[g] == if Expected(s, l, g) && !(l == from && g == f) then 1 else 0)
    && TableInv(s)
  }

  lemma PopKeeps(s: State, l: LoopId)
    requires Inv(s) && l < |s.queues| && s.queues[l] != []
    ensures InvWithout(Pop(s, l), l, s.queues[l][0])
  {
    FrontIsExpected(s, l);
    PopCounts(s, l);
    assert forall k, g :: Expected(Pop(s, l), k, g) <==> Expected(s, k, g);
  }

  lemma CallEstablishKeeps(s: State, from: LoopId, c: ConnId)
    requires InvWithout(s, from, Establish(c))
    ensures Inv(Call(s, Establish(c))) && FunctorAsserts(s, Establish(c))
  {
    assert LIFE[..2] == LIFE[..1] + [WentUp];
    var t := Call(s, Establish(c));
    assert forall l, g: Functor | 0 <= l < |s.queues| && g.conn != c :: Expected(t, l, g) <==> Expected(s, l, g);
  }

  lemma EnqueueKeeps(s: State, to: LoopId, f: Functor)
    requires InvWithout(s, to, f) && to < |s.queues|
    ensures Inv(Enqueue(s, to, f))
  {
    EnqueueCounts(s, to, f);
    var t := Enqueue(s, to, f);
    assert forall l, g :: Expected(t, l, g) <==> Expected(s, l, g);
  }

  lemma EraseKeeps(s: State, from: LoopId, c: ConnId)
    requires InvWithout(s, from, RemoveInLoop(c)) && Distinct(s.conns)
    ensures InvWithout(EraseStep(s, c), s.conns[c].loop, Destroy(c))
  {
    assert LIFE[..4] == LIFE[..3] + [Erased];
    var t := EraseStep(s, c);
    assert forall l, g: Functor | g.conn != c :: Expected(t, l, g) <==> Expected(s, l, g);
    assert forall d | 0 <= d < |s.conns| && d != c :: s.conns[d].name != s.conns[c].name;
  }

  lemma CallRemoveKeeps(s: State, from: LoopId, c: ConnId)
    requires InvWithout(s, from, RemoveInLoop(c)) && Distinct(s.conns)
    ensures Inv(Call(s, RemoveInLoop(c))) && FunctorAsserts(s, RemoveInLoop(c))
  {
    EraseKeeps(s, from, c);
    EnqueueKeeps(EraseStep(s, c), s.conns[c].loop, Destroy(c));
    assert Call(s, RemoveInLoop(c)) == Enqueue(EraseStep(s, c), s.conns[c].loop, Destroy(c));
  }

  lemma CallDestroyKeeps(s: State, from: LoopId, c: ConnId)
    requires InvWithout(s, from, Destroy(c))
    ensures Inv(Call(s, Destroy(c))) && FunctorAsserts(s, Destroy(c))
  {
    assert LIFE[..5] == LIFE[..4] + [Destroyed];
    var t := Call(s, Destroy(c));
    assert forall l, g: Functor | 0 <= l < |s.queues| && g.conn != c :: Expected(t, l, g) <==> Expected(s, l, g);
  }

  lemma CallKeeps(s: State, from: LoopId, f: Functor)
    requires InvWithout(s, from, f)
    requires Distinct(s.conns)
    ensures Inv(Call(s, f)) && FunctorAsserts(s, f)
  {
    match f {
      case Establish(c) => CallEstablishKeeps(s, from, c);
      case RemoveInLoop(c) => CallRemoveKeeps(s, from, c);
      case Destroy(c) => CallDestroyKeeps(s, from, c);
    }
  }

  lemma AcceptKeeps(s: State, io: LoopId, name: string)
    requires Inv(s) && io < |s.queues|
    requires Distinct(AcceptStep(s, io, name).conns)
    ensures InvWithout(AcceptStep(s, io, name), io, Establish(|s.conns|))
  {
    var t, c := AcceptStep(s, io, name), |s.conns|;
    assert LIFE[..1] == [Accepted];
    assert forall l, g: Functor | g.conn != c :: Expected(t, l, g) <==> Expected(s, l, g);
    assert forall d | 0 <= d < c :: t.conns[d].name != t.conns[c].name;
  }

  lemma CloseKeeps(s: State, c: ConnId, downShuts: bool)
    requires Inv(s) && c < |s.conns| && s.conns[c].watching
    ensures InvWithout(CloseStep(s, c, downShuts), BASE, RemoveInLoop(c))
    ensures s.conns[c].state in {Connected, Disconnecting}
  {
    var t := CloseStep(s, c, downShuts);
    assert LIFE[..3] == LIFE[..2] + [WentDown];
    assert forall l, g: Functor | g.conn != c :: Expected(t, l, g) <==> Expected(s, l, g);
  }

  lemma AcceptStepKeepsInv(s: State, io: LoopId, name: string)
    requires Inv(s) && io < |s.queues|
    requires Distinct(AcceptStep(s, io, name).conns)
    ensures var added, f := AcceptStep(s, io, name), Establish(|s.conns|);
            Inv(RunInLoop(added, BASE, io, f)) && FunctorAsserts(added, f)
  {
    var added, f := AcceptStep(s, io, name), Establish(|s.conns|);
    AcceptKeeps(s, io, name);
    CallKeeps(added, io, f);
    if io != BASE {
      EnqueueKeeps(added, io, f);
    }
  }

  lemma HandleCloseKeepsInv(s: State, c: ConnId, downShuts: bool)
    requires Inv(s) && c < |s.conns| && s.conns[c].watching && Distinct(s.conns)
    ensures Inv(HandleCloseStep(s, c, downShuts)) && HandleCloseAsserts(s, c, downShuts)
  {
    var t := CloseStep(s, c, downShuts);
    CloseKeeps(s, c, downShuts);
    CallKeeps(t, BASE, RemoveInLoop(c));
    if s.conns[c].loop != BASE {
      EnqueueKeeps(t, BASE, RemoveInLoop(c));
    }
  }

  lemma UserShutdownKeepsInv(s: State, c: ConnId)
    requires Inv(s) && Possible(s, UserShutdown(c))
    ensures Inv(Exec(s, UserShutdown(c)))
  {
    var t := Exec(s, UserShutdown(c));
    assert forall l, g :: Expected(t, l, g) <==> Expected(s, l, g);
  }

  lemma CallKeepsNames(s: State, f: Functor)
    requires f.conn < |s.conns|
    ensures |Call(s, f).conns| == |s.conns| && Call(s, f).server == s.server && Call(s, f).hostport == s.hostport
    ensures forall c | 0 <= c < |s.conns| ::
              Call(s, f).conns[c].name == s.conns[c].name && Call(s, f).conns[c].loop == s.conns[c].loop
  {
  }

  lemma HandleCloseKeepsNames(s: State, c: ConnId, downShuts: bool)
    requires c < |s.conns|
    ensures var t := HandleCloseStep(s, c, downShuts);
            && t.server == s.server && t.hostport == s.hostport && |t.conns| == |s.conns|
            && forall d | 0 <= d < |s.conns| :: t.conns[d].name == s.conns[d].name && t.conns[d].loop == s.conns[d].loop
  {
    CallKeepsNames(CloseStep(s, c, downShuts), RemoveInLoop(c));
  }

  /** Connections keep their names, and the next one is named by its number. */
  lemma StepKeepsNames(s: State, e: Step)
    requires Possible(s, e)
    ensures var t := Exec(s, e);
            && |t.conns| == |s.conns| + (if e.Accept? then 1 else 0)
            && (forall c | 0 <= c < |s.conns| :: t.conns[c].name == s.conns[c].name)
            && (e.Accept? ==> t.conns[|s.conns|].name == NextName(s))
            && t.server == s.server && t.hostport == s.hostport
  {
    match e {
      case Accept(io) => CallKeepsNames(AcceptStep(s, io, NextName(s)), Establish(|s.conns|));
      case RunFunctor(l) =>
        if s.queues[l][0].conn < |s.conns| { CallKeepsNames(Pop(s, l), s.queues[l][0]); }
      case Dispatch(c, k, downShuts) =>
        HandleCloseKeepsNames(s, c, downShuts);
        HandleCloseKeepsNames(HandleCloseStep(s, c, downShuts), c, downShuts);
      case UserShutdown(c) =>
    }
  }

  /** The step is not a dispatch that closes its connection twice. */
  predicate SingleClose(e: Step) {
    e.Dispatch? ==> !TwiceClosing(e.kind)
  }

  lemma StepKeepsInv(s: State, e: Step)
    requires Inv(s) && Possible(s, e) && SingleClose(e) && Distinct(Exec(s, e).conns)
    ensures Inv(Exec(s, e)) && StepAsserts(s, e)
  {
    StepKeepsNames(s, e);
    assert Distinct(s.conns) by {
      assert forall i, j | 0 <= i < j < |s.conns| :: Exec(s, e).conns[i].name != Exec(s, e).conns[j].name;
    }
    match e {
      case Accept(io) =>
        var added := AcceptStep(s, io, NextName(s));
        assert forall c | 0 <= c < |added.conns| :: added.conns[c].name == Exec(s, e).conns[c].name;
        AcceptStepKeepsInv(s, io, NextName(s));
      case RunFunctor(l) =>
        PopKeeps(s, l);
        CallKeeps(Pop(s, l), l, s.queues[l][0]);
      case Dispatch(c, k, downShuts) =>
        ClosesTwiceIff(k.revents, k.read);
        HandleCloseKeepsInv(s, c, downShuts);
      case UserShutdown(c) => UserShutdownKeepsInv(s, c);
    }
  }

  // ---- what each step does ----

  /** The mask bits of a hangup that the channel treats as a close. */
  predicate HangsUp(k: Kind) {
    k.revents.hangup && !k.revents.readable
  }

  /** The mask bits that lead to a read, and the read finds the end of the stream. */
  predicate ReadsEnd(k: Kind) {
    (k.revents.readable || k.revents.urgent || k.revents.peerHangup) && k.read == EndOfStream
  }

  predicate OthersUntouched(s: State, t: State, c: ConnId) {
    |t.conns| == |s.conns| && forall d | 0 <= d < |s.conns| && d != c :: t.conns[d] == s.conns[d]
  }

  /** A closing dispatch on the base loop erases the connection at once; elsewhere it asks the base loop to. */
  predicate RemovalUnderWay(s: State, t: State, c: ConnId)
    requires c < |s.conns| && |s.queues| > 0
  {
    var conn := s.conns[c];
    if conn.loop == BASE then
      && t.table == s.table - {conn.name}
      && t.queues == s.queues[BASE := s.queues[BASE] + [Destroy(c)]]
    else
      t.table == s.table && t.queues == s.queues[BASE := s.queues[BASE] + [RemoveInLoop(c)]]
  }

  /**
   A dispatch takes its connection down exactly on a hangup without readable data, or on
   data, urgent data or a peer hangup at the end of the stream.  It then also has the
   connection removed; otherwise it changes nothing.
   */
  lemma DispatchDownIff(s: State, c: ConnId, k: Kind, downShuts: bool)
    requires Inv(s) && Possible(s, Dispatch(c, k, downShuts))
    ensures var t := Exec(s, Dispatch(c, k, downShuts));
            && (WentDown in t.conns[c].history <==> HangsUp(k) || ReadsEnd(k))
            && (!HangsUp(k) && !ReadsEnd(k) ==> t == s)
            && (HangsUp(k) != ReadsEnd(k) ==>
                  && t.conns[c].history
                     == s.conns[c].history + [WentDown] + (if s.conns[c].loop == BASE then [Erased] else [])
                  && !t.conns[c].watching && t.conns[c].state == (if downShuts then Disconnecting else Disconnected)
                  && OthersUntouched(s, t, c) && RemovalUnderWay(s, t, c))
  {
    assert s.conns[c].history == LIFE[..2];
    assert WentDown !in s.conns[c].history;
    var once := HandleCloseStep(s, c, downShuts);
    assert WentDown in once.conns[c].history;
    assert WentDown in HandleCloseStep(once, c, downShuts).conns[c].history;
  }

  function MilestoneOf(f: Functor): Milestone {
    match f
    case Establish(_) => WentUp
    case RemoveInLoop(_) => Erased
    case Destroy(_) => Destroyed
  }

  /** A loop that runs a functor takes it off the front of its queue, and its connection one milestone on. */
  lemma FunctorEffect(s: State, l: LoopId)
    requires Inv(s) && Possible(s, RunFunctor(l))
    ensures var t, f := Exec(s, RunFunctor(l)), s.queues[l][0];
            && f.conn < |s.conns| && OthersUntouched(s, t, f.conn)
            && t.conns[f.conn].history == s.conns[f.conn].history + [MilestoneOf(f)]
            && t.table == (if f.RemoveInLoop? then s.table - {s.conns[f.conn].name} else s.table)
            && var popped := s.queues[l := s.queues[l][1..]];
               t.queues == if f.RemoveInLoop? then
                             var loop := s.conns[f.conn].loop;
                             popped[loop := popped[loop] + [Destroy(f.conn)]]
                           else popped
  {
    FrontIsExpected(s, l);
  }

  /** An accepted connection is entered in the table under the next name, and up at once on the base loop. */
  lemma AcceptEffect(s: State, io: LoopId)
    requires Inv(s) && Possible(s, Accept(io))
    ensures var t, c := Exec(s, Accept(io)), |s.conns|;
            && |t.conns| == c + 1 && t.conns[..c] == s.conns && t.conns[c].loop == io
            && t.conns[c].name == NameOf(s.server, s.hostport, c)
            && t.table == s.table[t.conns[c].name := c]
            && t.conns[c].history == (if io == BASE then [Accepted, WentUp] else [Accepted])
            && t.queues == if io == BASE then s.queues else s.queues[io := s.queues[io] + [Establish(c)]]
  {
  }

  /** shutdown() by the user changes the state and nothing else. */
  lemma ShutdownEffect(s: State, c: ConnId)
    requires Possible(s, UserShutdown(c))
    ensures var t := Exec(s, UserShutdown(c));
            && t.conns[c] == s.conns[c].(state := Disconnecting) && OthersUntouched(s, t, c)
            && t.table == s.table && t.queues == s.queues
  {
  }

  // ---- whole runs ----

  predicate Numbered(s: State) {
    forall c | 0 <= c < |s.conns| :: s.conns[c].name == NameOf(s.server, s.hostport, c)
  }

  lemma NumberedGrows(s: State, t: State)
    requires Numbered(s) && t.server == s.server && t.hostport == s.hostport
    requires |s.conns| <= |t.conns| <= |s.conns| + 1
    requires forall c | 0 <= c < |s.conns| :: t.conns[c].name == s.conns[c].name
    requires |t.conns| > |s.conns| ==> t.conns[|s.conns|].name == NextName(s)
    ensures Numbered(t)
  {
    forall c | 0 <= c < |t.conns| ensures t.conns[c].name == NameOf(t.server, t.hostport, c) {
      if c < |s.conns| {
        assert t.conns[c].name == s.conns[c].name;
      } else {
        assert c == |s.conns|;
      }
    }
  }

  lemma StepKeepsNumbered(s: State, e: Step)
    requires Numbered(s) && Possible(s, e)
    ensures Numbered(Exec(s, e))
  {
    StepKeepsNames(s, e);
    var t := Exec(s, e);
    NumberedGrows(s, t);
  }

  lemma {:induction false} RunKeepsNumbered(s: State, es: seq<Step>)
    requires Numbered(s) && Legal(s, es)
    ensures Numbered(Run(s, es)) && |s.conns| <= |Run(s, es).conns|
    ensures Run(s, es).server == s.server && Run(s, es).hostport == s.hostport
    decreases |es|
  {
    if es != [] {
      StepKeepsNumbered(s, es[0]);
      StepKeepsNames(s, es[0]);
      RunKeepsNumbered(Exec(s, es[0]), es[1..]);
    }
  }

  lemma StepKeepsAll(s: State, e: Step, n: nat)
    requires Inv(s) && Numbered(s) && Possible(s, e) && SingleClose(e)
    requires |Exec(s, e).conns| <= n && NamesDistinct(s.server, s.hostport, n)
    ensures var t := Exec(s, e); Inv(t) && Numbered(t) && t.server == s.server && t.hostport == s.hostport
    ensures StepAsserts(s, e)
  {
    var t := Exec(s, e);
    StepKeepsNames(s, e);
    StepKeepsNumbered(s, e);
    DistinctFromNames(t, n);
    StepKeepsInv(s, e);
  }

  lemma {:induction false} RunKeepsInv(s: State, es: seq<Step>, n: nat)
    requires Inv(s) && Numbered(s) && Legal(s, es) && forall e <- es :: SingleClose(e)
    requires |Run(s, es).conns| <= n && NamesDistinct(s.server, s.hostport, n)
    ensures Inv(Run(s, es)) && AllAssertsHold(s, es)
    decreases |es|
  {
    if es != [] {
      var t := Exec(s, es[0]);
      StepKeepsNumbered(s, es[0]);
      RunKeepsNumbered(t, es[1..]);
      assert SingleClose(es[0]);
      StepKeepsAll(s, es[0], n);
      RunKeepsInv(t, es[1..], n);
    }
  }

  lemma DistinctFromNames(s: State, n: nat)
    requires Numbered(s) && |s.conns| <= n && NamesDistinct(s.server, s.hostport, n)
    ensures Distinct(s.conns)
  {
    forall i, j | 0 <= i < j < |s.conns| ensures s.conns[i].name != s.conns[j].name {
      assert NameOf(s.server, s.hostport, i) != NameOf(s.server, s.hostport, j);
    }
  }

  /**
   In every run with distinct names and no dispatch that closes twice: no assertion fails (among them, that each
   erase removes exactly one entry), and every connection's history is a prefix of
   accepted, up, down, erased, destroyed, each once and in that order; it is in the
   table until erased, and the functor it waits for is queued exactly once.
   */
  lemma LifecycleInOrder(server: string, hostport: string, loops: nat, es: seq<Step>)
    requires loops > 0 && Legal(Initial(server, hostport, loops), es) && forall e <- es :: SingleClose(e)
    requires NamesDistinct(server, hostport, |Run(Initial(server, hostport, loops), es).conns|)
    ensures AllAssertsHold(Initial(server, hostport, loops), es)
    ensures var t := Run(Initial(server, hostport, loops), es);
            && QueuesInv(t)
            && forall c | 0 <= c < |t.conns| ::
                 && 1 <= t.conns[c].Stage() <= 5 && t.conns[c].history == LIFE[..t.conns[c].Stage()]
                 && (t.conns[c].Stage() <= 3 <==> t.conns[c].name in t.table && t.table[t.conns[c].name] == c)
  {
    InitialInv(server, hostport, loops);
    RunKeepsInv(Initial(server, hostport, loops), es, |Run(Initial(server, hostport, loops), es).conns|);
  }

  // ---- when names collide, or a dispatch closes twice ----

  /** Every connection is open, on the base loop. */
  predicate AllOpen(s: State) {
    forall c | 0 <= c < |s.conns| :: s.conns[c].watching && s.conns[c].state == Connected && s.conns[c].loop == BASE
  }

  lemma AcceptOpens(s: State)
    requires |s.queues| > 0 && AllOpen(s)
    ensures var t := Exec(s, Accept(BASE)); |t.conns| == |s.conns| + 1 && AllOpen(t) && |t.queues| == |s.queues|
  {
  }

  /** A run that starts with e. */
  lemma RunCons(s: State, t: State, e: Step, rest: seq<Step>)
    requires Possible(s, e) && t == Exec(s, e) && Legal(t, rest)
    ensures Legal(s, [e] + rest) && Run(s, [e] + rest) == Run(t, rest)
    ensures AllAssertsHold(s, [e] + rest) <==> StepAsserts(s, e) && AllAssertsHold(t, rest)
  {
    assert ([e] + rest)[1..] == rest;
  }

  lemma OneStep(s: State, e: Step)
    requires Possible(s, e)
    ensures Legal(s, [e]) && Run(s, [e]) == Exec(s, e)
    ensures AllAssertsHold(s, [e]) <==> StepAsserts(s, e)
  {
    var u := Exec(s, e);
    assert [e][1..] == [];
    assert Legal(u, []) && Run(u, []) == u && AllAssertsHold(u, []);
  }

  /** An ordinary close on the base loop: the entry under the connection's name is gone. */
  lemma CloseErases(s: State, c: ConnId)
    requires AllOpen(s) && c < |s.conns|
    ensures var t := Exec(s, Dispatch(c, END_OF_STREAM, false));
            && |t.conns| == |s.conns| && s.conns[c].name !in t.table
            && forall d | 0 <= d < |s.conns| && d != c :: t.conns[d] == s.conns[d]
  {
  }

  /** Two open connections under one name: the second one to close finds nothing to erase. */
  lemma SecondEraseFails(s: State, i: ConnId, j: ConnId)
    requires |s.queues| > 0 && AllOpen(s) && i < j < |s.conns| && s.conns[i].name == s.conns[j].name
    ensures var es := [Dispatch(i, END_OF_STREAM, false)] + [Dispatch(j, END_OF_STREAM, false)];
            Legal(s, es) && !AllAssertsHold(s, es) && |Run(s, es).conns| == |s.conns|
  {
    var first, second := Dispatch(i, END_OF_STREAM, false), Dispatch(j, END_OF_STREAM, false);
    var t := Exec(s, first);
    CloseErases(s, i);
    assert t.conns[j] == s.conns[j];
    assert CloseStep(t, j, false).table == t.table && CloseStep(t, j, false).conns[j].name == s.conns[j].name;
    assert !StepAsserts(t, second);
    StepKeepsNames(t, second);
    OneStep(t, second);
    RunCons(s, t, first, [second]);
  }

  /** A dispatch that closes twice fails handleClose's assertion the second time. */
  lemma SecondCloseFails(s: State, c: ConnId, k: Kind)
    requires AllOpen(s) && c < |s.conns| && TwiceClosing(k)
    ensures Possible(s, Dispatch(c, k, false)) && !StepAsserts(s, Dispatch(c, k, false))
  {
    ClosesTwiceIff(k.revents, k.read);
    assert HandleCloseStep(s, c, false).conns[c].state == Disconnected;
  }

  /** Every dispatch of the run is of one of these kinds. */
  predicate Within(kinds: set<Kind>, es: seq<Step>) {
    forall e <- es :: e.Dispatch? ==> e.kind in kinds
  }

  lemma WithinCons(kinds: set<Kind>, e: Step, es: seq<Step>)
    requires Within(kinds, es) && (e.Dispatch? ==> e.kind in kinds)
    ensures Within(kinds, [e] + es)
  {
  }

  /** No run that accepts at most n connections, with dispatches of these kinds only, fails an assertion. */
  ghost predicate SafeUpTo(server: string, hostport: string, loops: nat, n: nat, kinds: set<Kind>)
    requires loops > 0
  {
    var s := Initial(server, hostport, loops);
    forall es | Legal(s, es) && Within(kinds, es) && |Run(s, es).conns| <= n :: AllAssertsHold(s, es)
  }

  /** Opening connections up to the second of the two, and then closing both. */
  lemma {:induction false} CollidingRun(s: State, i: ConnId, j: ConnId, kinds: set<Kind>) returns (es: seq<Step>)
    requires |s.queues| > 0 && Numbered(s) && AllOpen(s) && |s.conns| <= j + 1 && END_OF_STREAM in kinds
    requires i < j && NameOf(s.server, s.hostport, i) == NameOf(s.server, s.hostport, j)
    ensures Legal(s, es) && |Run(s, es).conns| == j + 1 && !AllAssertsHold(s, es) && Within(kinds, es)
    decreases j + 1 - |s.conns|
  {
    if |s.conns| == j + 1 {
      es := [Dispatch(i, END_OF_STREAM, false)] + [Dispatch(j, END_OF_STREAM, false)];
      SecondEraseFails(s, i, j);
    } else {
      var t := Exec(s, Accept(BASE));
      AcceptOpens(s);
      StepKeepsNumbered(s, Accept(BASE));
      StepKeepsNames(s, Accept(BASE));
      var rest := CollidingRun(t, i, j, kinds);
      RunCons(s, t, Accept(BASE), rest);
      WithinCons(kinds, Accept(BASE), rest);
      es := [Accept(BASE)] + rest;
    }
  }

  /** Two equal names among the first connections: some run fails an assertion. */
  lemma CollisionFails(server: string, hostport: string, loops: nat, i: ConnId, j: ConnId, kinds: set<Kind>)
    requires loops > 0 && i < j && NameOf(server, hostport, i) == NameOf(server, hostport, j) && END_OF_STREAM in kinds
    ensures !SafeUpTo(server, hostport, loops, j + 1, kinds)
  {
    var es := CollidingRun(Initial(server, hostport, loops), i, j, kinds);
  }

  /** One connection and one dispatch that closes it twice, whatever the names. */
  lemma DoubleCloseFails(server: string, hostport: string, loops: nat, n: nat, kinds: set<Kind>, k: Kind)
    requires loops > 0 && n > 0 && k in kinds && TwiceClosing(k)
    ensures !SafeUpTo(server, hostport, loops, n, kinds)
  {
    var s := Initial(server, hostport, loops);
    var t := Exec(s, Accept(BASE));
    var last := Dispatch(0, k, false);
    AcceptOpens(s);
    SecondCloseFails(t, 0, k);
    StepKeepsNames(t, last);
    OneStep(t, last);
    RunCons(s, t, Accept(BASE), [last]);
    WithinCons(kinds, Accept(BASE), [last]);
    assert Legal(s, [Accept(BASE)] + [last]);
  }

  /**
   No run that accepts at most n connections fails an assertion, exactly when n names
   are distinct and no dispatch that can occur closes its connection twice.
   */
  lemma SafeIffNamesDistinct(server: string, hostport: string, loops: nat, n: nat, kinds: set<Kind>)
    requires loops > 0 && END_OF_STREAM in kinds
    ensures SafeUpTo(server, hostport, loops, n, kinds)
       <==> NamesDistinct(server, hostport, n) && (n == 0 || forall k <- kinds :: !TwiceClosing(k))
  {
    if !NamesDistinct(server, hostport, n) {
      var i, j :| 0 <= i < j < n && NameOf(server, hostport, i) == NameOf(server, hostport, j);
      var es := CollidingRun(Initial(server, hostport, loops), i, j, kinds);
    } else if k :| k in kinds && TwiceClosing(k) {
      if n > 0 {
        DoubleCloseFails(server, hostport, loops, n, kinds, k);
      } else {
        NoConnections(server, hostport, loops, kinds);
      }
    } else {
      DistinctIsSafe(server, hostport, loops, n, kinds);
    }
  }

  lemma DistinctIsSafe(server: string, hostport: string, loops: nat, n: nat, kinds: set<Kind>)
    requires loops > 0 && NamesDistinct(server, hostport, n) && forall k <- kinds :: !TwiceClosing(k)
    ensures SafeUpTo(server, hostport, loops, n, kinds)
  {
    var s := Initial(server, hostport, loops);
    forall es | Legal(s, es) && Within(kinds, es) && |Run(s, es).conns| <= n ensures AllAssertsHold(s, es) {
      LifecycleInOrder(server, hostport, loops, es);
    }
  }

  lemma FirstIsAccept(s: State, e: Step)
    requires Inv(s) && s.conns == [] && Possible(s, e)
    ensures e.Accept?
  {
    if e.RunFunctor? {
      FrontIsExpected(s, e.loop);
    }
  }

  lemma RunWithoutConnections(s: State, es: seq<Step>)
    requires Inv(s) && Numbered(s) && s.conns == [] && Legal(s, es)
    ensures Run(s, es).conns == [] ==> es == []
  {
    if es != [] {
      FirstIsAccept(s, es[0]);
      StepKeepsNames(s, es[0]);
      StepKeepsNumbered(s, es[0]);
      RunKeepsNumbered(Exec(s, es[0]), es[1..]);
    }
  }

  /** Without a connection nothing happens. */
  lemma NoConnections(server: string, hostport: string, loops: nat, kinds: set<Kind>)
    requires loops > 0
    ensures SafeUpTo(server, hostport, loops, 0, kinds)
  {
    var s := Initial(server, hostport, loops);
    InitialInv(server, hostport, loops);
    forall es | Legal(s, es) && |Run(s, es).conns| <= 0 ensures AllAssertsHold(s, es) {
      RunWithoutConnections(s, es);
    }
  }

  // ---- when names are distinct ----

  /** Room left for the decimal number after ":hostport#". */
  function DigitRoom(hostport: string): int {
    NAME_ROOM - |hostport| - 2
  }

  lemma FullNameParts(server: string, hostport: string, digits: string)
    ensures var prefix := ":" + hostport + "#";
            FullName(server, hostport, digits)
            == if DigitRoom(hostport) <= 0 then server + prefix[..NAME_ROOM]
               else if |digits| <= DigitRoom(hostport) then server + (prefix + digits)
               else server + (prefix + digits[..DigitRoom(hostport)])
  {
  }

  lemma {:induction false} MoreDigits(i: nat, j: nat)
    requires i <= j
    ensures |Numeral(10, i)| <= |Numeral(10, j)|
    decreases j
  {
    if i >= 10 {
      MoreDigits(i / 10, j / 10);
    }
  }

  lemma DecimalsDiffer(i: nat, j: nat)
    requires i != j
    ensures Decimal(i) != Decimal(j)
  {
    DecimalRoundTrip(i);
    DecimalRoundTrip(j);
  }

  lemma SamePrefix(p: string, a: string, b: string)
    requires a != b
    ensures p + a != p + b
  {
    assert (p + a)[|p|..] == a && (p + b)[|p|..] == b;
  }

  lemma FittingNamesDiffer(server: string, hostport: string, a: string, b: string)
    requires a != b && |a| <= DigitRoom(hostport) && |b| <= DigitRoom(hostport)
    ensures FullName(server, hostport, a) != FullName(server, hostport, b)
  {
    var prefix := ":" + hostport + "#";
    FullNameParts(server, hostport, a);
    FullNameParts(server, hostport, b);
    assert a == "" || b == "" || DigitRoom(hostport) > 0;
    SamePrefix(prefix, a, b);
    SamePrefix(server, prefix + a, prefix + b);
  }

  lemma NumberedNamesDiffer(server: string, hostport: string, i: ConnId, j: ConnId)
    requires i < j && |Decimal(j + 1)| <= DigitRoom(hostport)
    ensures NameOf(server, hostport, i) != NameOf(server, hostport, j)
  {
    MoreDigits(i + 1, j + 1);
    DecimalsDiffer(i + 1, j + 1);
    FittingNamesDiffer(server, hostport, Decimal(i + 1), Decimal(j + 1));
  }

  /** Digits that agree as far as there is room for them give one name. */
  lemma ClippedDigitsCollide(server: string, hostport: string, digits: string, last: string)
    requires |digits| >= DigitRoom(hostport)
    ensures FullName(server, hostport, digits) == FullName(server, hostport, digits + last)
  {
    FullNameParts(server, hostport, digits);
    FullNameParts(server, hostport, digits + last);
    var room := DigitRoom(hostport);
    if room > 0 {
      assert (digits + last)[..room] == digits[..room];
      assert |digits| == room ==> digits[..room] == digits;
      assert |digits + last| == room ==> (digits + last)[..room] == digits + last;
    }
  }

  /** When the last number does not fit, it collides with the number without its last digit. */
  lemma NumberTooLongCollides(server: string, hostport: string, n: nat)
    requires n > 1 && |Decimal(n)| > DigitRoom(hostport)
    ensures !NamesDistinct(server, hostport, n)
  {
    if DigitRoom(hostport) <= 0 {
      FullNameParts(server, hostport, Decimal(1));
      FullNameParts(server, hostport, Decimal(n));
      assert NameOf(server, hostport, 0) == NameOf(server, hostport, n - 1);
    } else {
      assert n < 10 ==> |Decimal(n)| == 1;
      var m := n / 10;
      assert Decimal(n) == Decimal(m) + [DigitChar(n % 10)];
      ClippedDigitsCollide(server, hostport, Decimal(m), [DigitChar(n % 10)]);
      assert NameOf(server, hostport, m - 1) == NameOf(server, hostport, n - 1);
    }
  }

  /**
   The first n connections have distinct names exactly when the n-th number still
   fits into the 31 characters kept after the server's name.
   */
  lemma NamesDistinctIff(server: string, hostport: string, n: nat)
    ensures NamesDistinct(server, hostport, n) <==> n <= 1 || |hostport| + 2 + |Decimal(n)| <= NAME_ROOM
  {
    if n > 1 {
      if |Decimal(n)| <= DigitRoom(hostport) {
        forall i, j | 0 <= i < j < n ensures NameOf(server, hostport, i) != NameOf(server, hostport, j) {
          MoreDigits(j + 1, n);
          NumberedNamesDiffer(server, hostport, i, j);
        }
      } else {
        NumberTooLongCollides(server, hostport, n);
      }
    }
  }

  /**
   Every IPv4 endpoint (at most 21 characters), with dispatches that close at most once:
   safe for the first 99,999,999 connections.
   */
  lemma SafeForIpv4(server: string, hostport: string, loops: nat, kinds: set<Kind>)
    requires loops > 0 && |hostport| <= 21 && forall k <- kinds :: !TwiceClosing(k)
    ensures SafeUpTo(server, hostport, loops, 99_999_999, kinds)
  {
    assert Pow(10, 2) == 100 && Pow(10, 4) == 10_000;
    assert Pow(10, 6) == 1_000_000;
    assert Pow(10, 8) == 100_000_000;
    NumeralLength(10, 99_999_999, 8);
    NamesDistinctIff(server, hostport, 99_999_999);
    DistinctIsSafe(server, hostport, loops, 99_999_999, kinds);
  }

  // ---- the object ----

  /** The server with its loops' queues, and the connections by number. */
  class TcpServer {
    const name: string
    const hostport: string
    var nextConnId: nat
    var connections: map<string, ConnId>
    var conns: seq<Conn>
    var queues: seq<seq<Functor>>

    predicate Valid()
      reads this
    {
      nextConnId == |conns| + 1 && |queues| > 0
    }

    function View(): State
      reads this
    {
      State(name, hostport, conns, connections, queues)
    }

    constructor (name: string, hostport: string, loops: nat)
      requires loops > 0
      ensures Valid() && View() == Initial(name, hostport, loops)
    {
      this.name, this.hostport := name, hostport;
      nextConnId, connections, conns, queues := 1, map[], [], seq(loops, _ => []);
    }

    method QueueInLoop(to: LoopId, f: Functor)
      requires Valid() && to < |queues|
      modifies this`queues
      ensures Valid() && View() == Enqueue(old(View()), to, f)
    {
      queues := queues[to := queues[to] + [f]];
    }

    method ConnectionEstablished(c: ConnId)
      requires Valid() && FunctorAsserts(View(), Establish(c))
      modifies this`conns
      ensures Valid() && View() == Call(old(View()), Establish(c))
    {
      var conn := conns[c];
      conn := conn.(state := Connected);
      conn := conn.(registered := true, watching := true);
      conns := conns[c := conn.(history := conn.history + [WentUp])];
    }

    method RemoveConnectionInLoop(c: ConnId)
      requires Valid() && FunctorAsserts(View(), RemoveInLoop(c)) && conns[c].loop < |queues|
      modifies this`connections, this`conns, this`queues
      ensures Valid() && View() == Call(old(View()), RemoveInLoop(c))
      ensures |connections| == |old(connections)| - 1
    {
      var conn := conns[c];
      assert connections.Keys == (connections - {conn.name}).Keys + {conn.name};
      connections := connections - {conn.name};
      conns := conns[c := conn.(history := conn.history + [Erased])];
      QueueInLoop(conn.loop, Destroy(c));
    }

    method ConnectionDestroyed(c: ConnId)
      requires Valid() && FunctorAsserts(View(), Destroy(c))
      modifies this`conns
      ensures Valid() && View() == Call(old(View()), Destroy(c))
    {
      if conns[c].state == Connected {
        var conn := conns[c].(state := Disconnected, watching := false);
        conns := conns[c := conn.(history := conn.history + [WentDown])];
      }
      assert !conns[c].watching;
      conns := conns[c := conns[c].(registered := false, history := conns[c].history + [Destroyed])];
    }

    method CallFunctor(f: Functor)
      requires Valid() && FunctorAsserts(View(), f) && conns[f.conn].loop < |queues|
      modifies this`connections, this`conns, this`queues
      ensures Valid() && View() == Call(old(View()), f)
    {
      match f {
        case Establish(c) => ConnectionEstablished(c);
        case RemoveInLoop(c) => RemoveConnectionInLoop(c);
        case Destroy(c) => ConnectionDestroyed(c);
      }
    }

    method RunOrQueue(from: LoopId, to: LoopId, f: Functor)
      requires Valid() && to < |queues| && f.conn < |conns| && conns[f.conn].loop < |queues|
      requires from == to ==> FunctorAsserts(View(), f)
      modifies this`connections, this`conns, this`queues
      ensures Valid() && View() == RunInLoop(old(View()), from, to, f)
    {
      if from == to {
        CallFunctor(f);
      } else {
        QueueInLoop(to, f);
      }
    }

    method NewConnection(io: LoopId)
      requires Valid() && io < |queues|
      modifies this
      ensures Valid() && View() == Exec(old(View()), Accept(io))
    {
      var connName := name + Clip(":" + hostport + "#" + Decimal(nextConnId));
      var c := |conns|;
      nextConnId := nextConnId + 1;
      connections := connections[connName := c];
      conns := conns + [Conn(connName, io, Connecting, false, false, [Accepted])];
      assert View() == AcceptStep(old(View()), io, NextName(old(View())));
      RunOrQueue(BASE, io, Establish(c));
    }

    /** handleClose on the connection's loop, down to the server's removeConnection. */
    method HandleClose(c: ConnId, downShuts: bool)
      requires Valid() && c < |conns| && conns[c].loop < |queues| && HandleCloseAsserts(View(), c, downShuts)
      modifies this`connections, this`conns, this`queues
      ensures Valid() && View() == HandleCloseStep(old(View()), c, downShuts)
    {
      var conn := conns[c].(state := Disconnected, watching := false);
      conns := conns[c := conn.(history := conn.history + [WentDown])];
      if downShuts {
        conns := conns[c := conns[c].(state := Disconnecting)];
      }
      assert View() == CloseStep(old(View()), c, downShuts);
      RunOrQueue(conn.loop, BASE, RemoveInLoop(c));
    }

    /** The channel's dispatch: the close callback, and the read callback if it finds the end of the stream. */
    method HandleEvent(c: ConnId, k: Kind, downShuts: bool)
      requires Valid() && Possible(View(), Dispatch(c, k, downShuts)) && StepAsserts(View(), Dispatch(c, k, downShuts))
      requires conns[c].loop < |queues|
      modifies this`connections, this`conns, this`queues
      ensures Valid() && View() == Exec(old(View()), Dispatch(c, k, downShuts))
    {
      HandleCloseKeepsNames(View(), c, downShuts);
      if ClosedByHangup(k.revents) {
        HandleClose(c, downShuts);
      }
      if ClosedByRead(k.revents, k.read) {
        HandleClose(c, downShuts);
      }
    }

    /** A loop calls the functor at the front of its queue. */
    method RunFront(l: LoopId)
      requires Valid() && Possible(View(), RunFunctor(l)) && StepAsserts(View(), RunFunctor(l))
      requires conns[queues[l][0].conn].loop < |queues|
      modifies this`connections, this`conns, this`queues
      ensures Valid() && View() == Exec(old(View()), RunFunctor(l))
    {
      var f := queues[l][0];
      queues := queues[l := queues[l][1..]];
      assert View() == Pop(old(View()), l);
      CallFunctor(f);
    }
  }
}
