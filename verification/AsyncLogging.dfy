/**
 The double-buffered asynchronous logger: any number of producers append lines
 under a mutex, one writer swaps the full buffers out and writes them to a file.
 Buffers are held by unique_ptr, so each is a value owned by exactly one place,
 and a moved-from pointer is None.
 */
module AsyncLogging {
  import opened Sequences

  // kLargeBuffer
  const BUFFER_SIZE: nat := 4_000_000
  // the writer keeps KEPT buffers of a batch larger than MAX_BATCH
  const MAX_BATCH: nat := 25
  const KEPT: nat := 2

  /** A fixed buffer: its bytes, and the lines they were appended as. */
  datatype LogBuffer = LogBuffer(data: string, lines: seq<string>)

  const EMPTY_BUFFER := LogBuffer("", [])

  /** FixedBuffer::append: only with strictly more room than the line needs. */
  function AppendTo(b: LogBuffer, line: string): LogBuffer {
    if BUFFER_SIZE - |b.data| > |line| then LogBuffer(b.data + line, b.lines + [line]) else b
  }

  /** What the writer puts into the file. */
  datatype Record =
    | Chunk(buffer: LogBuffer)
    // "Dropped log messages ..., n larger buffers"
    | Notice(dropped: nat)

  /** What became of a whole buffer. */
  datatype Fate =
    | Written(buffer: LogBuffer)
    | Dropped(buffer: LogBuffer)

  datatype WriterPc =
    | Top          // lines 44-49
    | Waiting      // in wait_for, the mutex released
    | Collected    // after the critical section
    | Writing      // in the loop over buffersToWrite
    | Recycling    // lines 78-98

  datatype State = State(
    // shared, under the mutex
    currentBuffer: Option<LogBuffer>,
    nextBuffer: Option<LogBuffer>,
    buffers: seq<LogBuffer>,
    // the writer's locals
    pc: WriterPc,
    newBuffer1: Option<LogBuffer>,
    newBuffer2: Option<LogBuffer>,
    buffersToWrite: seq<LogBuffer>,
    written: nat,
    // the file, and the accounts
    file: seq<Record>,
    accepted: seq<string>,
    fates: seq<Fate>,
    trimmed: seq<LogBuffer>
  )

  const INITIAL := State(Some(EMPTY_BUFFER), Some(EMPTY_BUFFER), [],
                         Top, Some(EMPTY_BUFFER), Some(EMPTY_BUFFER), [], 0,
                         [], [], [], [])

  datatype Step =
    | Append(line: string)
    | Wait
    | Collect
    | Trim
    | WriteNext
    | EndWriting
    | Recycle

  /** A line is accepted when an empty buffer can take it. */
  predicate Acceptable(line: string) {
    |line| < BUFFER_SIZE
  }

  predicate Possible(s: State, e: Step) {
    match e
    case Append(_) => true
    case Wait => s.pc == Top && s.buffers == []
    // straight on when there are buffers, or after a wakeup of any kind
    case Collect => (s.pc == Top && s.buffers != []) || s.pc == Waiting
    case Trim => s.pc == Collected
    case WriteNext => s.pc == Writing && s.written < |s.buffersToWrite|
    case EndWriting => s.pc == Writing && s.written == |s.buffersToWrite|
    case Recycle => s.pc == Recycling
  }

  predicate EmptyAndThere(b: Option<LogBuffer>) {
    b.Some? && b.value.data == ""
  }

  /** The source's assertions and pointer dereferences at each step. */
  predicate StepAsserts(s: State, e: Step) {
    match e
    case Append(line) =>
      s.currentBuffer.Some?
    case Wait =>
      EmptyAndThere(s.newBuffer1) && EmptyAndThere(s.newBuffer2) && s.buffersToWrite == []
    case Collect =>
      && s.currentBuffer.Some?
      && (s.pc == Top ==> EmptyAndThere(s.newBuffer1) && EmptyAndThere(s.newBuffer2) && s.buffersToWrite == [])
    case Trim =>
      s.buffersToWrite != []
    case Recycle =>
      && (s.newBuffer1.None? ==> s.buffersToWrite != [])
      && (s.newBuffer2.None? ==> |s.buffersToWrite| > (if s.newBuffer1.None? then 1 else 0))
    case _ => true
  }

  function OrEmpty(b: Option<LogBuffer>): LogBuffer {
    if b.Some? then b.value else EMPTY_BUFFER
  }

  function AppendStep(s: State, line: string): State
    requires s.currentBuffer.Some?
  {
    var counted := s.(accepted := if Acceptable(line) then s.accepted + [line] else s.accepted);
    if BUFFER_SIZE - |s.currentBuffer.value.data| > |line| then
      counted.(currentBuffer := Some(AppendTo(s.currentBuffer.value, line)))
    else
      counted.(buffers := s.buffers + [s.currentBuffer.value],
               currentBuffer := Some(AppendTo(OrEmpty(s.nextBuffer), line)),
               nextBuffer := None)
  }

  /** The critical section, lines 54-59. */
  function CollectStep(s: State): State
    requires s.currentBuffer.Some?
  {
    var swapped := s.(pc := Collected,
                      buffersToWrite := s.buffers + [s.currentBuffer.value],
                      buffers := s.buffersToWrite,
                      currentBuffer := s.newBuffer1,
                      newBuffer1 := None);
    if s.nextBuffer.None? then swapped.(nextBuffer := s.newBuffer2, newBuffer2 := None) else swapped
  }

  function TrimStep(s: State): State {
    if |s.buffersToWrite| > MAX_BATCH then
      s.(pc := Writing, written := 0,
         file := s.file + [Notice(|s.buffersToWrite| - KEPT)],
         trimmed := s.buffersToWrite[KEPT..],
         buffersToWrite := s.buffersToWrite[..KEPT])
    else
      s.(pc := Writing, written := 0)
  }

  function Reset(b: LogBuffer): LogBuffer {
    EMPTY_BUFFER
  }

  /** Takes a buffer back from the end of buffersToWrite when the pointer was moved from. */
  function Refill(b: Option<LogBuffer>, from: seq<LogBuffer>): (r: (Option<LogBuffer>, seq<LogBuffer>))
    requires b.None? ==> from != []
  {
    if b.None? then (Some(Reset(from[|from| - 1])), from[..|from| - 1]) else (b, from)
  }

  function RecycleStep(s: State): State
    requires StepAsserts(s, Recycle)
  {
    var (one, rest) := Refill(s.newBuffer1, s.buffersToWrite);
    var (two, _) := Refill(s.newBuffer2, rest);
    s.(pc := Top, newBuffer1 := one, newBuffer2 := two, buffersToWrite := [], written := 0)
  }

  function Exec(s: State, e: Step): State
    requires Possible(s, e) && StepAsserts(s, e)
  {
    match e
    case Append(line) => AppendStep(s, line)
    case Wait => s.(pc := Waiting)
    case Collect => CollectStep(s)
    case Trim => TrimStep(s)
    case WriteNext =>
      var b := s.buffersToWrite[s.written];
      s.(file := s.file + [Chunk(b)], fates := s.fates + [Written(b)], written := s.written + 1)
    case EndWriting =>
      s.(pc := Recycling, fates := s.fates + AllDropped(s.trimmed), trimmed := [], written := 0,
         buffersToWrite := if |s.buffersToWrite| > 2 then s.buffersToWrite[..2] else s.buffersToWrite)
    case Recycle => RecycleStep(s)
  }

  function AllDropped(bs: seq<LogBuffer>): seq<Fate> {
    seq(|bs|, i requires 0 <= i < |bs| => Dropped(bs[i]))
  }

  // ---- the accounts ----

  function Lines(bs: seq<LogBuffer>): seq<string> {
    if bs == [] then [] else Lines(bs[..|bs| - 1]) + bs[|bs| - 1].lines
  }

  /** The buffers whose fate is decided, oldest first. */
  function Decided(fates: seq<Fate>): seq<LogBuffer> {
    seq(|fates|, i requires 0 <= i < |fates| => fates[i].buffer)
  }

  function Unwritten(s: State): seq<LogBuffer>
    requires s.written <= |s.buffersToWrite|
  {
    if s.pc == Recycling then [] else s.buffersToWrite[s.written..]
  }

  function Join(decided: seq<LogBuffer>, unwritten: seq<LogBuffer>, trimmed: seq<LogBuffer>,
                queued: seq<LogBuffer>): seq<LogBuffer> {
    decided + unwritten + trimmed + queued
  }

  /** Every buffer that holds accepted lines, oldest first, up to the current one. */
  function Front(s: State): seq<LogBuffer>
    requires s.written <= |s.buffersToWrite|
  {
    Join(Decided(s.fates), Unwritten(s), s.trimmed, s.buffers)
  }

  function Pipeline(s: State): seq<LogBuffer>
    requires s.written <= |s.buffersToWrite| && s.currentBuffer.Some?
  {
    Front(s) + [s.currentBuffer.value]
  }

  predicate Sound(b: LogBuffer) {
    b.data == Flatten(b.lines) && |b.data| < BUFFER_SIZE
  }

  /** Which pointers are set where: the ownership half of the invariant. */
  predicate OwnershipInv(s: State) {
    && s.currentBuffer.Some?
    && (s.nextBuffer.None? ==> s.buffers != [])
    && (s.nextBuffer.Some? ==> s.nextBuffer.value == EMPTY_BUFFER)
    && (s.newBuffer1.Some? ==> s.newBuffer1.value == EMPTY_BUFFER)
    && (s.newBuffer2.Some? ==> s.newBuffer2.value == EMPTY_BUFFER)
    && s.written <= |s.buffersToWrite|
    && match s.pc
       case Top => s.newBuffer1.Some? && s.newBuffer2.Some? && s.buffersToWrite == [] && s.trimmed == []
       case Waiting => s.newBuffer1.Some? && s.newBuffer2.Some? && s.buffersToWrite == [] && s.trimmed == []
       case _ =>
         && s.newBuffer1.None? && s.buffersToWrite != []
         && (s.newBuffer2.None? ==> |s.buffersToWrite| >= 2)
         && (s.pc != Writing ==> s.trimmed == [])
         && (s.pc == Collected ==> s.written == 0)
  }

  lemma StepKeepsOwnership(s: State, e: Step)
    requires OwnershipInv(s) && Possible(s, e)
    ensures StepAsserts(s, e) && OwnershipInv(Exec(s, e))
  {
  }

  // ---- conservation and order ----

  predicate AllSound(bs: seq<LogBuffer>) {
    forall b <- bs :: Sound(b)
  }

  /** Everything accepted is in the pipeline, in order, and no line is split over buffers. */
  predicate ConservationInv(s: State)
    requires OwnershipInv(s)
  {
    && AllSound(Pipeline(s))
    && Lines(Pipeline(s)) == s.accepted
  }

  lemma {:induction false} LinesAppend(a: seq<LogBuffer>, b: seq<LogBuffer>)
    ensures Lines(a + b) == Lines(a) + Lines(b)
    decreases |b|
  {
    if b == [] {
      assert a + b == a;
    } else {
      assert (a + b)[..|a + b| - 1] == a + b[..|b| - 1];
      LinesAppend(a, b[..|b| - 1]);
    }
  }

  lemma LinesSnoc(a: seq<LogBuffer>, b: LogBuffer)
    ensures Lines(a + [b]) == Lines(a) + b.lines
  {
    assert (a + [b])[..|a|] == a;
  }

  lemma DecidedAppend(a: seq<Fate>, b: seq<Fate>)
    ensures Decided(a + b) == Decided(a) + Decided(b)
  {
  }

  lemma AllSoundAppend(a: seq<LogBuffer>, b: seq<LogBuffer>)
    ensures AllSound(a + b) <==> AllSound(a) && AllSound(b)
  {
    assert forall x <- a :: x in a + b;
    assert forall x <- b :: x in a + b;
  }

  lemma AllSoundOne(b: LogBuffer)
    ensures AllSound([b]) <==> Sound(b)
  {
    assert b in [b];
  }

  lemma AppendToSound(b: LogBuffer, line: string)
    requires Sound(b) && BUFFER_SIZE - |b.data| > |line|
    ensures Sound(AppendTo(b, line))
  {
    FlattenSnoc(b.lines, line);
  }

  /** One more accepted line, in the current buffer or in a fresh one. */
  lemma AppendInPlace(front: seq<LogBuffer>, current: LogBuffer, line: string)
    requires AllSound(front + [current]) && BUFFER_SIZE - |current.data| > |line|
    ensures AllSound(front + [AppendTo(current, line)])
    ensures Lines(front + [AppendTo(current, line)]) == Lines(front + [current]) + [line]
  {
    AllSoundAppend(front, [current]);
    AllSoundOne(current);
    AppendToSound(current, line);
    AllSoundAppend(front, [AppendTo(current, line)]);
    AllSoundOne(AppendTo(current, line));
    LinesSnoc(front, current);
    LinesSnoc(front, AppendTo(current, line));
    assert Lines(front) + (current.lines + [line]) == Lines(front) + current.lines + [line];
  }

  lemma AppendToFresh(front: seq<LogBuffer>, line: string)
    requires AllSound(front)
    ensures AllSound(front + [AppendTo(EMPTY_BUFFER, line)])
    ensures Lines(front + [AppendTo(EMPTY_BUFFER, line)]) == Lines(front) + (if Acceptable(line) then [line] else [])
  {
    var first := AppendTo(EMPTY_BUFFER, line);
    if Acceptable(line) {
      AppendToSound(EMPTY_BUFFER, line);
    }
    assert Sound(first);
    AllSoundAppend(front, [first]);
    AllSoundOne(first);
    LinesSnoc(front, first);
  }

  lemma AppendInPlaceConserves(s: State, line: string)
    requires OwnershipInv(s) && ConservationInv(s) && BUFFER_SIZE - |s.currentBuffer.value.data| > |line|
    requires OwnershipInv(AppendStep(s, line))
    ensures ConservationInv(AppendStep(s, line))
  {
    assert Front(AppendStep(s, line)) == Front(s);
    AppendInPlace(Front(s), s.currentBuffer.value, line);
  }

  lemma AppendToFreshConserves(s: State, line: string)
    requires OwnershipInv(s) && ConservationInv(s) && BUFFER_SIZE - |s.currentBuffer.value.data| <= |line|
    requires OwnershipInv(AppendStep(s, line))
    ensures ConservationInv(AppendStep(s, line))
  {
    var t := AppendStep(s, line);
    JoinQueue(Decided(s.fates), Unwritten(s), s.trimmed, s.buffers, s.currentBuffer.value);
    assert Front(t) == Pipeline(s);
    AppendToFresh(Front(t), line);
  }

  lemma AppendConserves(s: State, line: string)
    requires OwnershipInv(s) && ConservationInv(s)
    ensures OwnershipInv(AppendStep(s, line)) && ConservationInv(AppendStep(s, line))
  {
    StepKeepsOwnership(s, Append(line));
    if BUFFER_SIZE - |s.currentBuffer.value.data| > |line| {
      AppendInPlaceConserves(s, line);
    } else {
      AppendToFreshConserves(s, line);
    }
  }

  lemma JoinQueue(d: seq<LogBuffer>, u: seq<LogBuffer>, t: seq<LogBuffer>, q: seq<LogBuffer>, x: LogBuffer)
    ensures Join(d, u, t, q + [x]) == Join(d, u, t, q) + [x]
  {
  }

  lemma JoinCollect(d: seq<LogBuffer>, q: seq<LogBuffer>, x: LogBuffer)
    ensures Join(d, q + [x], [], []) == Join(d, [], [], q) + [x]
  {
  }

  lemma JoinTrim(d: seq<LogBuffer>, u: seq<LogBuffer>, t: seq<LogBuffer>, q: seq<LogBuffer>)
    ensures Join(d, u, t, q) == Join(d, u + t, [], q)
  {
    assert d + u + t == d + (u + t) + [];
  }

  lemma JoinWrite(d: seq<LogBuffer>, x: LogBuffer, u: seq<LogBuffer>, t: seq<LogBuffer>, q: seq<LogBuffer>)
    ensures Join(d + [x], u, t, q) == Join(d, [x] + u, t, q)
  {
    assert d + [x] + u == d + ([x] + u);
  }

  lemma JoinEnd(d: seq<LogBuffer>, t: seq<LogBuffer>, q: seq<LogBuffer>)
    ensures Join(d + t, [], [], q) == Join(d, [], t, q)
  {
    assert d + t + [] + [] == d + [] + t;
  }

  lemma CollectMovesFront(s: State)
    requires OwnershipInv(s) && Possible(s, Collect)
    ensures Front(CollectStep(s)) == Front(s) + [s.currentBuffer.value]
  {
    assert Unwritten(s) == [] && s.trimmed == [];
    assert Unwritten(CollectStep(s)) == s.buffers + [s.currentBuffer.value];
    JoinCollect(Decided(s.fates), s.buffers, s.currentBuffer.value);
  }

  lemma TrimKeepsFront(s: State)
    requires OwnershipInv(s) && Possible(s, Trim)
    ensures Front(TrimStep(s)) == Front(s)
  {
    var t := TrimStep(s);
    assert Unwritten(t) + t.trimmed == s.buffersToWrite == Unwritten(s);
    JoinTrim(Decided(s.fates), Unwritten(t), t.trimmed, s.buffers);
  }

  lemma WriteKeepsFront(s: State)
    requires OwnershipInv(s) && Possible(s, WriteNext)
    ensures Front(Exec(s, WriteNext)) == Front(s)
  {
    var t, b := Exec(s, WriteNext), s.buffersToWrite[s.written];
    DecidedAppend(s.fates, [Written(b)]);
    assert Decided([Written(b)]) == [b];
    assert Unwritten(s) == [b] + Unwritten(t);
    JoinWrite(Decided(s.fates), b, Unwritten(t), s.trimmed, s.buffers);
  }

  lemma EndKeepsFront(s: State)
    requires OwnershipInv(s) && Possible(s, EndWriting)
    ensures Front(Exec(s, EndWriting)) == Front(s)
  {
    DecidedAppend(s.fates, AllDropped(s.trimmed));
    assert Decided(AllDropped(s.trimmed)) == s.trimmed;
    assert Unwritten(s) == [];
    JoinEnd(Decided(s.fates), s.trimmed, s.buffers);
  }

  lemma RecycleKeepsFront(s: State)
    requires OwnershipInv(s) && Possible(s, Recycle)
    ensures StepAsserts(s, Recycle) && Front(RecycleStep(s)) == Front(s)
  {
    StepKeepsOwnership(s, Recycle);
    assert Unwritten(RecycleStep(s)) == [];
  }

  /** The writer moves buffers along the pipeline without reordering or losing any. */
  lemma WriterKeepsFront(s: State, e: Step)
    requires OwnershipInv(s) && Possible(s, e) && StepAsserts(s, e) && !e.Append?
    ensures OwnershipInv(Exec(s, e))
    ensures Front(Exec(s, e)) == if e == Collect then Front(s) + [s.currentBuffer.value] else Front(s)
  {
    StepKeepsOwnership(s, e);
    match e {
      case Collect => CollectMovesFront(s);
      case Trim => TrimKeepsFront(s);
      case WriteNext => WriteKeepsFront(s);
      case EndWriting => EndKeepsFront(s);
      case Recycle => RecycleKeepsFront(s);
      case Wait => assert Unwritten(Exec(s, Wait)) == Unwritten(s);
    }
  }

  lemma WriterKeepsPipeline(s: State, e: Step)
    requires OwnershipInv(s) && Possible(s, e) && StepAsserts(s, e) && !e.Append?
    ensures var t := Exec(s, e);
            && OwnershipInv(t) && t.accepted == s.accepted
            && Pipeline(t) == if e == Collect then Pipeline(s) + [EMPTY_BUFFER] else Pipeline(s)
  {
    StepKeepsOwnership(s, e);
    WriterKeepsFront(s, e);
  }

  lemma StepConserves(s: State, e: Step)
    requires OwnershipInv(s) && ConservationInv(s) && Possible(s, e)
    ensures StepAsserts(s, e) && OwnershipInv(Exec(s, e)) && ConservationInv(Exec(s, e))
  {
    StepKeepsOwnership(s, e);
    if e.Append? {
      AppendConserves(s, e.line);
    } else {
      WriterKeepsPipeline(s, e);
      LinesSnoc(Pipeline(s), EMPTY_BUFFER);
      AllSoundAppend(Pipeline(s), [EMPTY_BUFFER]);
      AllSoundOne(EMPTY_BUFFER);
    }
  }

  // ---- the file against the accounts ----

  function WrittenBuffers(fates: seq<Fate>): seq<LogBuffer> {
    if fates == [] then []
    else WrittenBuffers(fates[..|fates| - 1])
         + (if fates[|fates| - 1].Written? then [fates[|fates| - 1].buffer] else [])
  }

  function DroppedCount(fates: seq<Fate>): nat {
    if fates == [] then 0 else DroppedCount(fates[..|fates| - 1]) + (if fates[|fates| - 1].Dropped? then 1 else 0)
  }

  function Chunks(file: seq<Record>): seq<LogBuffer> {
    if file == [] then []
    else Chunks(file[..|file| - 1]) + (if file[|file| - 1].Chunk? then [file[|file| - 1].buffer] else [])
  }

  function Announced(file: seq<Record>): nat {
    if file == [] then 0
    else Announced(file[..|file| - 1]) + (if file[|file| - 1].Notice? then file[|file| - 1].dropped else 0)
  }

  predicate NoticesLarge(file: seq<Record>) {
    forall i | 0 <= i < |file| :: file[i].Notice? ==> file[i].dropped > MAX_BATCH - KEPT
  }

  /** The file against the fates, with some drops announced but not yet accounted for. */
  predicate FileAgrees(file: seq<Record>, fates: seq<Fate>, outstanding: nat) {
    && Chunks(file) == WrittenBuffers(fates)
    && Announced(file) == DroppedCount(fates) + outstanding
    && NoticesLarge(file)
  }

  predicate FileInv(s: State) {
    FileAgrees(s.file, s.fates, |s.trimmed|)
  }

  lemma {:induction false} AllDroppedAccounts(fates: seq<Fate>, bs: seq<LogBuffer>)
    ensures WrittenBuffers(fates + AllDropped(bs)) == WrittenBuffers(fates)
    ensures DroppedCount(fates + AllDropped(bs)) == DroppedCount(fates) + |bs|
    decreases |bs|
  {
    var all := fates + AllDropped(bs);
    if bs == [] {
      assert all == fates;
    } else {
      assert all[..|all| - 1] == fates + AllDropped(bs[..|bs| - 1]);
      AllDroppedAccounts(fates, bs[..|bs| - 1]);
    }
  }

  lemma NoticeAccounts(file: seq<Record>, fates: seq<Fate>, n: nat)
    requires FileAgrees(file, fates, 0) && n > MAX_BATCH - KEPT
    ensures FileAgrees(file + [Notice(n)], fates, n)
  {
    assert (file + [Notice(n)])[..|file|] == file;
  }

  lemma ChunkAccounts(file: seq<Record>, fates: seq<Fate>, outstanding: nat, b: LogBuffer)
    requires FileAgrees(file, fates, outstanding)
    ensures FileAgrees(file + [Chunk(b)], fates + [Written(b)], outstanding)
  {
    assert (file + [Chunk(b)])[..|file|] == file;
    assert (fates + [Written(b)])[..|fates|] == fates;
  }

  lemma DropAccounts(file: seq<Record>, fates: seq<Fate>, bs: seq<LogBuffer>)
    requires FileAgrees(file, fates, |bs|)
    ensures FileAgrees(file, fates + AllDropped(bs), 0)
  {
    AllDroppedAccounts(fates, bs);
  }

  lemma TrimKeepsFileInv(s: State)
    requires FileInv(s) && s.trimmed == []
    ensures FileInv(TrimStep(s))
  {
    if |s.buffersToWrite| > MAX_BATCH {
      NoticeAccounts(s.file, s.fates, |s.buffersToWrite| - KEPT);
    }
  }

  lemma WriteKeepsFileInv(s: State)
    requires FileInv(s) && Possible(s, WriteNext)
    ensures FileInv(Exec(s, WriteNext))
  {
    ChunkAccounts(s.file, s.fates, |s.trimmed|, s.buffersToWrite[s.written]);
  }

  lemma EndKeepsFileInv(s: State)
    requires FileInv(s) && Possible(s, EndWriting)
    ensures FileInv(Exec(s, EndWriting))
  {
    DropAccounts(s.file, s.fates, s.trimmed);
  }

  lemma SameFileInv(s: State, t: State)
    requires FileInv(s) && t.file == s.file && t.fates == s.fates && t.trimmed == s.trimmed
    ensures FileInv(t)
  {
  }

  lemma StepKeepsFileInv(s: State, e: Step)
    requires OwnershipInv(s) && FileInv(s) && Possible(s, e) && StepAsserts(s, e)
    ensures FileInv(Exec(s, e))
  {
    match e {
      case Trim => TrimKeepsFileInv(s);
      case WriteNext => WriteKeepsFileInv(s);
      case EndWriting => EndKeepsFileInv(s);
      case _ => SameFileInv(s, Exec(s, e));
    }
  }

  lemma StepKeepsAll(s: State, e: Step)
    requires OwnershipInv(s) && ConservationInv(s) && FileInv(s) && Possible(s, e)
    ensures StepAsserts(s, e)
    ensures var t := Exec(s, e); OwnershipInv(t) && ConservationInv(t) && FileInv(t)
  {
    StepConserves(s, e);
    StepKeepsFileInv(s, e);
  }

  // ---- whole runs ----

  predicate Legal(s: State, es: seq<Step>)
    decreases |es|
  {
    es == [] || (Possible(s, es[0]) && StepAsserts(s, es[0]) && Legal(Exec(s, es[0]), es[1..]))
  }

  function Run(s: State, es: seq<Step>): State
    requires Legal(s, es)
    decreases |es|
  {
    if es == [] then s else Run(Exec(s, es[0]), es[1..])
  }

  /** Steps that could occur one after the other if no assertion stopped them. */
  predicate Schedulable(s: State, es: seq<Step>)
    decreases |es|
  {
    es == [] || (Possible(s, es[0]) && (StepAsserts(s, es[0]) ==> Schedulable(Exec(s, es[0]), es[1..])))
  }

  /**
   In every interleaving of producers and writer: no assertion fails and no moved-from
   pointer is used; decided, unwritten, trimmed, queued and current buffers hold
   exactly the accepted lines, in append order, whole; the file's chunks are the
   written ones, and its notices count the dropped ones.
   */
  lemma {:induction false} LogConserved(s: State, es: seq<Step>)
    requires OwnershipInv(s) && ConservationInv(s) && FileInv(s) && Schedulable(s, es)
    ensures Legal(s, es)
    ensures var t := Run(s, es); OwnershipInv(t) && ConservationInv(t) && FileInv(t)
    decreases |es|
  {
    if es != [] {
      StepKeepsAll(s, es[0]);
      LogConserved(Exec(s, es[0]), es[1..]);
    }
  }

  lemma InitialInv()
    ensures OwnershipInv(INITIAL) && ConservationInv(INITIAL) && FileInv(INITIAL)
  {
    assert Pipeline(INITIAL) == [EMPTY_BUFFER] == [] + [EMPTY_BUFFER];
    LinesSnoc([], EMPTY_BUFFER);
  }

  function Text(bs: seq<LogBuffer>): string {
    if bs == [] then "" else Text(bs[..|bs| - 1]) + bs[|bs| - 1].data
  }

  lemma {:induction false} TextIsLines(bs: seq<LogBuffer>)
    requires AllSound(bs)
    ensures Text(bs) == Flatten(Lines(bs))
  {
    if bs != [] {
      var front, last := bs[..|bs| - 1], bs[|bs| - 1];
      TextIsLines(front);
      assert Sound(last);
      FlattenAppend(Lines(front), last.lines);
    }
  }

  lemma {:induction false} NoneDropped(fates: seq<Fate>)
    requires DroppedCount(fates) == 0
    ensures Decided(fates) == WrittenBuffers(fates)
  {
    if fates != [] {
      var front := fates[..|fates| - 1];
      NoneDropped(front);
      assert fates == front + [fates[|fates| - 1]];
      DecidedAppend(front, [fates[|fates| - 1]]);
    }
  }

  lemma {:induction false} AnnouncedPositive(file: seq<Record>)
    requires forall r <- file :: r.Notice? ==> r.dropped > 0
    ensures Announced(file) == 0 <==> forall r <- file :: r.Chunk?
  {
    if file != [] {
      var front := file[..|file| - 1];
      AnnouncedPositive(front);
      assert file == front + [file[|file| - 1]];
      assert file[|file| - 1] in file;
    }
  }

  /**
   While no notice has been written, the file's bytes are those of a prefix of the
   accepted lines: nothing lost, reordered or split, whatever the interleaving.
   */
  lemma FileIsPrefixUnlessNotified(es: seq<Step>)
    requires Schedulable(INITIAL, es)
    ensures Legal(INITIAL, es)
    ensures var t := Run(INITIAL, es);
            (forall r <- t.file :: r.Chunk?) ==>
              && Lines(Chunks(t.file)) <= t.accepted
              && Text(Chunks(t.file)) == Flatten(Lines(Chunks(t.file)))
  {
    InitialInv();
    LogConserved(INITIAL, es);
    var t := Run(INITIAL, es);
    if forall r <- t.file :: r.Chunk? {
      PrefixUnlessNotified(t);
    }
  }

  lemma PrefixUnlessNotified(t: State)
    requires OwnershipInv(t) && ConservationInv(t) && FileInv(t)
    requires forall r <- t.file :: r.Chunk?
    ensures Lines(Chunks(t.file)) <= t.accepted
    ensures Text(Chunks(t.file)) == Flatten(Lines(Chunks(t.file)))
  {
    assert forall r <- t.file :: r.Notice? ==> r.dropped > 0;
    AnnouncedPositive(t.file);
    NoneDropped(t.fates);
    var done := Chunks(t.file);
    var rest := Unwritten(t) + t.trimmed + t.buffers + [t.currentBuffer.value];
    AppendFour(done, Unwritten(t), t.trimmed, t.buffers, [t.currentBuffer.value]);
    assert Pipeline(t) == done + rest;
    LinesAppend(done, rest);
    AllSoundAppend(done, rest);
    TextIsLines(done);
  }

  // ---- the account of a run ----

  /** What the appends alone come to, and how many lines the writer's last look at them covers. */
  datatype Account = Account(accepted: seq<string>, due: nat)

  const NEW_ACCOUNT := Account([], 0)

  function AccountStep(a: Account, e: Step): Account {
    match e
    case Append(line) => if |line| < 4_000_000 then a.(accepted := a.accepted + [line]) else a
    case Collect => a.(due := |a.accepted|)
    case _ => a
  }

  function AccountOf(a: Account, es: seq<Step>): Account
    decreases |es|
  {
    if es == [] then a else AccountOf(AccountStep(a, es[0]), es[1..])
  }

  /** The buffers the writer has looked at, oldest first. */
  function Seen(s: State): seq<LogBuffer>
    requires s.written <= |s.buffersToWrite|
  {
    Join(Decided(s.fates), Unwritten(s), s.trimmed, [])
  }

  predicate Agrees(s: State, a: Account)
    requires OwnershipInv(s)
  {
    s.accepted == a.accepted && a.due <= |a.accepted| && Lines(Seen(s)) == a.accepted[..a.due]
  }

  lemma SeenIsFrontOf(s: State)
    requires OwnershipInv(s)
    ensures Front(s) == Seen(s) + s.buffers
  {
  }

  lemma AppendAgrees(s: State, a: Account, line: string)
    requires OwnershipInv(s) && Agrees(s, a) && OwnershipInv(AppendStep(s, line))
    ensures Agrees(AppendStep(s, line), AccountStep(a, Append(line)))
  {
    var b := AccountStep(a, Append(line));
    assert b.accepted[..a.due] == a.accepted[..a.due];
  }

  lemma CollectAgrees(s: State, a: Account)
    requires OwnershipInv(s) && ConservationInv(s) && Agrees(s, a) && Possible(s, Collect)
    ensures OwnershipInv(CollectStep(s)) && Agrees(CollectStep(s), AccountStep(a, Collect))
  {
    StepKeepsOwnership(s, Collect);
    CollectMovesFront(s);
    SeenIsFrontOf(CollectStep(s));
    assert Seen(CollectStep(s)) == Pipeline(s);
    assert a.accepted[..|a.accepted|] == a.accepted;
  }

  lemma WriterAgrees(s: State, a: Account, e: Step)
    requires OwnershipInv(s) && Agrees(s, a) && Possible(s, e) && StepAsserts(s, e) && !e.Append? && !e.Collect?
    ensures OwnershipInv(Exec(s, e)) && Agrees(Exec(s, e), a)
  {
    var t := Exec(s, e);
    WriterKeepsFront(s, e);
    SeenIsFrontOf(s);
    SeenIsFrontOf(t);
    assert t.buffers == s.buffers && t.accepted == s.accepted;
    assert Seen(s) == Front(s)[..|Front(s)| - |s.buffers|];
    assert Seen(t) == Front(t)[..|Front(t)| - |t.buffers|];
  }

  lemma {:induction false} RunAgrees(s: State, a: Account, es: seq<Step>)
    requires OwnershipInv(s) && ConservationInv(s) && FileInv(s) && Agrees(s, a) && Schedulable(s, es)
    ensures Legal(s, es) && OwnershipInv(Run(s, es)) && Agrees(Run(s, es), AccountOf(a, es))
    decreases |es|
  {
    if es != [] {
      var e := es[0];
      StepKeepsAll(s, e);
      match e {
        case Append(line) => AppendAgrees(s, a, line);
        case Collect => CollectAgrees(s, a);
        case _ => WriterAgrees(s, a, e);
      }
      RunAgrees(Exec(s, e), AccountStep(a, e), es[1..]);
    }
  }

  /**
   Accepted are exactly the lines appended that are shorter than a buffer, in append
   order; and once the writer has been through a batch, every line accepted before it
   took the batch, and no other, is in a buffer that was written or dropped.
   */
  lemma EveryLineAccountedFor(es: seq<Step>)
    requires Schedulable(INITIAL, es)
    ensures Legal(INITIAL, es)
    ensures var t, a := Run(INITIAL, es), AccountOf(NEW_ACCOUNT, es);
            && t.accepted == a.accepted && a.due <= |a.accepted|
            && (t.pc in {Top, Waiting, Recycling} ==> Lines(Decided(t.fates)) == a.accepted[..a.due])
  {
    InitialInv();
    RunAgrees(INITIAL, NEW_ACCOUNT, es);
    var t := Run(INITIAL, es);
    if t.pc in {Top, Waiting, Recycling} {
      assert Unwritten(t) == [] && t.trimmed == [];
      assert Seen(t) == Decided(t.fates);
    }
  }

  /**
   A batch is cut exactly when it has more than 25 buffers: the first two stay to be
   written, the rest is set aside to be dropped, and the file says how many those are.
   */
  lemma TrimIff(s: State)
    requires OwnershipInv(s) && Possible(s, Trim)
    ensures var t, n := Exec(s, Trim), |s.buffersToWrite|;
            if n > 25 then
              && t.buffersToWrite + t.trimmed == s.buffersToWrite && |t.buffersToWrite| == 2
              && t.file == s.file + [Notice(n - 2)]
            else t.buffersToWrite == s.buffersToWrite && t.trimmed == [] && t.file == s.file
  {
  }

  /** The current buffer is given up exactly when the line does not fit in it with a byte to spare. */
  lemma RotatesIff(s: State, line: string)
    requires OwnershipInv(s) && ConservationInv(s)
    ensures var t := Exec(s, Append(line));
            if |s.currentBuffer.value.data| + |line| < 4_000_000
            then t.buffers == s.buffers && t.nextBuffer == s.nextBuffer
                 && t.currentBuffer == Some(LogBuffer(s.currentBuffer.value.data + line,
                                                      s.currentBuffer.value.lines + [line]))
            else t.buffers == s.buffers + [s.currentBuffer.value] && t.nextBuffer == None
                 && t.currentBuffer == Some(if |line| < 4_000_000 then LogBuffer(line, [line]) else EMPTY_BUFFER)
  {
    assert "" + line == line && [] + [line] == [line];
  }

  /** The loop over buffersToWrite, lines 73-76: WriteNext to the end. */
  function WriteRest(s: State): State
    requires s.pc == Writing && s.written <= |s.buffersToWrite|
    decreases |s.buffersToWrite| - s.written
  {
    if s.written == |s.buffersToWrite| then s else WriteRest(Exec(s, WriteNext))
  }

  function AllChunks(bs: seq<LogBuffer>): seq<Record> {
    seq(|bs|, i requires 0 <= i < |bs| => Chunk(bs[i]))
  }

  function AllWritten(bs: seq<LogBuffer>): seq<Fate> {
    seq(|bs|, i requires 0 <= i < |bs| => Written(bs[i]))
  }

  lemma {:induction false} WriteRestIs(s: State)
    requires s.pc == Writing && s.written <= |s.buffersToWrite|
    ensures var rest := s.buffersToWrite[s.written..];
            WriteRest(s) == s.(file := s.file + AllChunks(rest), fates := s.fates + AllWritten(rest),
                               written := |s.buffersToWrite|)
    decreases |s.buffersToWrite| - s.written
  {
    var rest := s.buffersToWrite[s.written..];
    if s.written == |s.buffersToWrite| {
      assert s.file + AllChunks(rest) == s.file && s.fates + AllWritten(rest) == s.fates;
    } else {
      var t := Exec(s, WriteNext);
      WriteRestIs(t);
      assert rest == [rest[0]] + rest[1..] && t.buffersToWrite[t.written..] == rest[1..];
      assert s.file + [Chunk(rest[0])] + AllChunks(rest[1..]) == s.file + AllChunks(rest);
      assert s.fates + [Written(rest[0])] + AllWritten(rest[1..]) == s.fates + AllWritten(rest);
    }
  }

  // ---- reachable states ----

  /** Some interleaving leads from the start to s. */
  ghost predicate Reached(s: State) {
    exists es :: Legal(INITIAL, es) && Run(INITIAL, es) == s
  }

  lemma {:induction false} LegalIsSchedulable(s: State, es: seq<Step>)
    requires Legal(s, es)
    ensures Schedulable(s, es)
    decreases |es|
  {
    if es != [] {
      LegalIsSchedulable(Exec(s, es[0]), es[1..]);
    }
  }

  lemma ReachedIsSafe(s: State)
    requires Reached(s)
    ensures OwnershipInv(s) && ConservationInv(s) && FileInv(s)
  {
    var es :| Legal(INITIAL, es) && Run(INITIAL, es) == s;
    InitialInv();
    LegalIsSchedulable(INITIAL, es);
    LogConserved(INITIAL, es);
  }

  lemma ReachedOwns(s: State)
    requires Reached(s)
    ensures OwnershipInv(s)
  {
    ReachedIsSafe(s);
  }

  lemma ReachedFirst()
    ensures Reached(INITIAL)
  {
    assert Legal(INITIAL, []) && Run(INITIAL, []) == INITIAL;
  }

  lemma {:induction false} RunSnoc(s: State, es: seq<Step>, e: Step)
    requires Legal(s, es) && Possible(Run(s, es), e) && StepAsserts(Run(s, es), e)
    ensures Legal(s, es + [e]) && Run(s, es + [e]) == Exec(Run(s, es), e)
    decreases |es|
  {
    if es == [] {
      assert [] + [e] == [e] && [e][1..] == [];
    } else {
      assert (es + [e])[1..] == es[1..] + [e];
      RunSnoc(Exec(s, es[0]), es[1..], e);
    }
  }

  /** Where a step is possible its assertions hold, and it leads to a reachable state. */
  lemma ReachedNext(s: State, e: Step)
    requires Reached(s) && Possible(s, e)
    ensures StepAsserts(s, e) && Reached(Exec(s, e))
  {
    var es :| Legal(INITIAL, es) && Run(INITIAL, es) == s;
    ReachedIsSafe(s);
    StepKeepsOwnership(s, e);
    RunSnoc(INITIAL, es, e);
  }

  lemma {:induction false} WriteRestIsReached(s: State)
    requires Reached(s) && s.pc == Writing && s.written <= |s.buffersToWrite|
    ensures Reached(WriteRest(s)) && Possible(WriteRest(s), EndWriting)
    decreases |s.buffersToWrite| - s.written
  {
    if s.written < |s.buffersToWrite| {
      ReachedNext(s, WriteNext);
      WriteRestIsReached(Exec(s, WriteNext));
    }
  }

  /** What a batch puts into the file: all of it, or a notice and the two buffers kept. */
  function BatchRecords(batch: seq<LogBuffer>): seq<Record> {
    if |batch| > MAX_BATCH then [Notice(|batch| - KEPT)] + AllChunks(batch[..KEPT]) else AllChunks(batch)
  }

  /** The lines that append accepts. */
  function Accepted(lines: seq<string>): seq<string> {
    if lines == [] then []
    else Accepted(lines[..|lines| - 1])
         + (if Acceptable(lines[|lines| - 1]) then [lines[|lines| - 1]] else [])
  }

  lemma AcceptedNext(before: seq<string>, lines: seq<string>, i: nat)
    requires i < |lines|
    ensures before + Accepted(lines[..i + 1])
         == before + Accepted(lines[..i]) + (if Acceptable(lines[i]) then [lines[i]] else [])
  {
    assert lines[..i + 1][..i] == lines[..i];
  }

  // ---- the object ----

  /** The logger, with the writer thread's locals as fields so that its steps can interleave. */
  class AsyncLogging {
    var currentBuffer: Option<LogBuffer>
    var nextBuffer: Option<LogBuffer>
    var buffers: seq<LogBuffer>

    var newBuffer1: Option<LogBuffer>
    var newBuffer2: Option<LogBuffer>
    var buffersToWrite: seq<LogBuffer>
    var file: seq<Record>

    ghost var pc: WriterPc
    ghost var written: nat
    ghost var accepted: seq<string>
    ghost var fates: seq<Fate>
    ghost var trimmed: seq<LogBuffer>

    ghost function View(): State
      reads this
    {
      State(currentBuffer, nextBuffer, buffers, pc, newBuffer1, newBuffer2, buffersToWrite, written,
            file, accepted, fates, trimmed)
    }

    ghost predicate Valid()
      reads this
    {
      Reached(View())
    }

    /** The accounts, read off the object. */
    lemma ValidIsSafe()
      requires Valid()
      ensures OwnershipInv(View()) && ConservationInv(View()) && FileInv(View())
    {
      ReachedIsSafe(View());
    }

    constructor ()
      ensures Valid() && View() == INITIAL
    {
      currentBuffer, nextBuffer, buffers := Some(EMPTY_BUFFER), Some(EMPTY_BUFFER), [];
      newBuffer1, newBuffer2, buffersToWrite, file := Some(EMPTY_BUFFER), Some(EMPTY_BUFFER), [], [];
      pc, written, accepted, fates, trimmed := Top, 0, [], [], [];
      ReachedFirst();
    }

    method Append(line: string)
      requires Valid()
      modifies this`currentBuffer, this`nextBuffer, this`buffers, this`accepted
      ensures StepAsserts(old(View()), Step.Append(line))
      ensures Valid() && View() == Exec(old(View()), Step.Append(line))
    {
      ReachedNext(View(), Step.Append(line));
      if Acceptable(line) {
        accepted := accepted + [line];
      }
      if BUFFER_SIZE - |currentBuffer.value.data| > |line| {
        currentBuffer := Some(AppendTo(currentBuffer.value, line));
      } else {
        buffers := buffers + [currentBuffer.value];
        if nextBuffer.Some? {
          currentBuffer := nextBuffer;
          nextBuffer := None;
        } else {
          currentBuffer := Some(EMPTY_BUFFER);
        }
        currentBuffer := Some(AppendTo(currentBuffer.value, line));
      }
    }

    /** What an append means to a caller. */
    method AppendLine(line: string)
      requires Valid()
      modifies this`currentBuffer, this`nextBuffer, this`buffers, this`accepted
      ensures Valid() && accepted == old(accepted) + (if Acceptable(line) then [line] else [])
    {
      Append(line);
    }

    method AppendAll(lines: seq<string>)
      requires Valid()
      modifies this`currentBuffer, this`nextBuffer, this`buffers, this`accepted
      ensures Valid() && accepted == old(accepted) + Accepted(lines)
    {
      var i := 0;
      while i < |lines|
        invariant 0 <= i <= |lines|
        invariant Valid() && accepted == old(accepted) + Accepted(lines[..i])
      {
        AcceptedNext(old(accepted), lines, i);
        AppendLine(lines[i]);
        i := i + 1;
      }
      assert lines[..i] == lines;
    }

    /** wait_for gives up the mutex; any thread may append before CollectBuffers. */
    ghost method WaitForBuffers()
      requires Valid() && Possible(View(), Wait)
      modifies this`pc
      ensures StepAsserts(old(View()), Wait) && Valid() && View() == Exec(old(View()), Wait)
    {
      ReachedNext(View(), Wait);
      pc := Waiting;
    }

    /** Lines 54-56: everything filled changes places with what the writer has. */
    method SwapBuffers()
      requires currentBuffer.Some?
      modifies this`currentBuffer, this`buffers, this`newBuffer1, this`buffersToWrite
      ensures buffersToWrite == old(buffers) + [old(currentBuffer).value] && buffers == old(buffersToWrite)
      ensures currentBuffer == old(newBuffer1) && newBuffer1 == None
    {
      buffers := buffers + [currentBuffer.value];
      currentBuffer, newBuffer1 := newBuffer1, None;
      buffersToWrite, buffers := buffers, buffersToWrite;
    }

    method CollectBuffers()
      requires Valid() && Possible(View(), Collect)
      modifies this`currentBuffer, this`nextBuffer, this`buffers, this`newBuffer1, this`newBuffer2
      modifies this`buffersToWrite, this`pc
      ensures StepAsserts(old(View()), Collect) && Valid() && View() == Exec(old(View()), Collect)
    {
      ghost var s := View();
      ReachedNext(s, Collect);
      SwapBuffers();
      if nextBuffer.None? {
        nextBuffer, newBuffer2 := newBuffer2, None;
      }
      pc := Collected;
      assert View() == CollectStep(s);
    }

    /** Lines 65-70: the notice, and the erase of all but the first two buffers. */
    method DropBacklog()
      requires |buffersToWrite| > MAX_BATCH
      modifies this`file, this`buffersToWrite, this`trimmed
      ensures file == old(file) + [Notice(|old(buffersToWrite)| - KEPT)]
      ensures trimmed == old(buffersToWrite)[KEPT..] && buffersToWrite == old(buffersToWrite)[..KEPT]
    {
      file := file + [Notice(|buffersToWrite| - KEPT)];
      trimmed := buffersToWrite[KEPT..];
      buffersToWrite := buffersToWrite[..KEPT];
    }

    method TrimBacklog()
      requires Valid() && pc == Collected
      modifies this`file, this`buffersToWrite, this`trimmed, this`written, this`pc
      ensures StepAsserts(old(View()), Trim) && Valid() && View() == Exec(old(View()), Trim)
    {
      ghost var s, t := View(), TrimStep(View());
      ReachedNext(s, Trim);
      if |buffersToWrite| > MAX_BATCH {
        DropBacklog();
        assert trimmed == t.trimmed && file == t.file;
      }
      written, pc := 0, Writing;
      assert View() == t;
    }

    /** Lines 73-81: the whole batch goes to the file in order, and two buffers are kept for reuse. */
    method WriteBuffers()
      requires Valid() && pc == Writing && written == 0
      modifies this`file, this`fates, this`written, this`trimmed, this`buffersToWrite, this`pc
      ensures Possible(WriteRest(old(View())), EndWriting)
      ensures Valid() && View() == Exec(WriteRest(old(View())), EndWriting)
      ensures file == old(file) + AllChunks(old(buffersToWrite))
    {
      WriteRestIsReached(View());
      ReachedNext(WriteRest(View()), EndWriting);
      WriteRestIs(View());
      assert buffersToWrite[0..] == buffersToWrite;
      WriteEach();
      if |buffersToWrite| > 2 {
        buffersToWrite := buffersToWrite[..2];
      }
      fates, trimmed, written, pc := fates + AllDropped(trimmed), [], 0, Recycling;
    }

    method WriteEach()
      modifies this`file, this`fates, this`written
      ensures file == old(file) + AllChunks(buffersToWrite) && fates == old(fates) + AllWritten(buffersToWrite)
      ensures written == |buffersToWrite|
    {
      var i := 0;
      while i < |buffersToWrite|
        invariant 0 <= i <= |buffersToWrite|
        invariant file == old(file) + AllChunks(buffersToWrite[..i])
        invariant fates == old(fates) + AllWritten(buffersToWrite[..i])
      {
        file, fates := file + [Chunk(buffersToWrite[i])], fates + [Written(buffersToWrite[i])];
        i := i + 1;
      }
      assert buffersToWrite[..i] == buffersToWrite;
      written := i;
    }

    method RecycleBuffers()
      requires Valid() && pc == Recycling
      modifies this`newBuffer1, this`newBuffer2, this`buffersToWrite, this`written, this`pc
      ensures StepAsserts(old(View()), Recycle) && Valid() && View() == Exec(old(View()), Recycle)
    {
      ghost var s := View();
      ReachedNext(s, Recycle);
      if newBuffer1.None? {
        newBuffer1 := Some(Reset(buffersToWrite[|buffersToWrite| - 1]));
        buffersToWrite := buffersToWrite[..|buffersToWrite| - 1];
      }
      if newBuffer2.None? {
        newBuffer2 := Some(Reset(buffersToWrite[|buffersToWrite| - 1]));
        buffersToWrite := buffersToWrite[..|buffersToWrite| - 1];
      }
      buffersToWrite, written, pc := [], 0, Top;
      assert View() == RecycleStep(s);
    }

    /** Lines 45-60: what producers append during the wait, if there is one, is collected too. */
    method NextBatch(meanwhile: seq<string>) returns (batch: seq<LogBuffer>)
      requires Valid() && pc == Top
      modifies this
      ensures Valid() && pc == Collected && buffersToWrite == batch && file == old(file)
      ensures currentBuffer == Some(EMPTY_BUFFER) && buffers == []
      ensures accepted == old(accepted) + (if old(buffers) == [] then Accepted(meanwhile) else [])
      ensures old(buffers) != [] ==> old(currentBuffer).Some? && batch == old(buffers) + [old(currentBuffer).value]
    {
      if buffers == [] {
        WaitForBuffers();
        AppendAll(meanwhile);
      }
      ReachedOwns(View());
      CollectBuffers();
      batch := buffersToWrite;
    }

    /** Lines 62-97: the batch goes to the file. */
    method PutBatch()
      requires Valid() && pc == Collected
      modifies this`file, this`buffersToWrite, this`trimmed, this`written, this`pc, this`fates
      modifies this`newBuffer1, this`newBuffer2
      ensures Valid() && pc == Top && file == old(file) + BatchRecords(old(buffersToWrite))
    {
      TrimBacklog();
      assert file + AllChunks(buffersToWrite) == old(file) + BatchRecords(old(buffersToWrite));
      WriteBuffers();
      RecycleBuffers();
    }

    /**
     One turn of the writer's loop, with what producers append while it waits.  Every
     assertion of the turn holds, and everything collected is put into the file or
     announced as dropped.
     */
    method WriterTurn(meanwhile: seq<string>) returns (batch: seq<LogBuffer>)
      requires Valid() && pc == Top
      modifies this
      ensures Valid() && pc == Top && currentBuffer == Some(EMPTY_BUFFER) && buffers == []
      ensures accepted == old(accepted) + (if old(buffers) == [] then Accepted(meanwhile) else [])
      ensures file == old(file) + BatchRecords(batch)
      ensures old(buffers) != [] ==> old(currentBuffer).Some? && batch == old(buffers) + [old(currentBuffer).value]
    {
      batch := NextBatch(meanwhile);
      PutBatch();
    }
  }
}
