/**
 The growable byte buffer: one vector of bytes and two indices into it, with
 room kept in front of the readable bytes for a header to be prepended.
 */
module Buffer {
  import opened Sequences
  import opened Endian

  const CHEAP_PREPEND: nat := 8
  const INITIAL_SIZE: nat := 1024
  // size of the stack block that readFd scatters into after the free space
  const EXTRA_BLOCK: nat := 65536

  const CR: byte := 13
  const LF: byte := 10

  predicate CRLFAt(s: seq<byte>, i: nat) {
    i + 2 <= |s| && s[i] == CR && s[i + 1] == LF
  }

  function FindCRLFFrom(s: seq<byte>, i: nat): (r: Option<nat>)
    ensures r.Some? ==> i <= r.value && CRLFAt(s, r.value)
    ensures forall k | i <= k && (r.Some? ==> k < r.value) :: !CRLFAt(s, k)
    decreases |s| - i
  {
    if |s| < i + 2 then None else if CRLFAt(s, i) then Some(i) else FindCRLFFrom(s, i + 1)
  }

  /** Position of the first CR LF pair. */
  function FindCRLF(s: seq<byte>): (r: Option<nat>)
    ensures r.Some? ==> CRLFAt(s, r.value)
    ensures forall k: nat | r.Some? ==> k < r.value :: !CRLFAt(s, k)
  {
    FindCRLFFrom(s, 0)
  }

  // ---- what the buffer means: a byte queue with guaranteed headroom ----

  /**
   A client's view: the readable bytes, and how many bytes may be prepended
   without tripping the assertion in prepend, whatever the buffer did inside.
   */
  datatype Queue = Queue(bytes: seq<byte>, headroom: nat)

  datatype Op =
    | Append(data: seq<byte>)
    | Retrieve(len: nat)
    | RetrieveAll
    | Prepend(data: seq<byte>)
    | Shrink(reserve: nat)
    | ReadFd(delivered: seq<byte>)
    | AppendInt(width: nat, x: int)
    | ReadInt(width: nat)
    | PrependInt(width: nat, x: int)

  predicate IntWidth(width: nat) {
    width in {1, 2, 4, 8}
  }

  function DropFront(s: seq<byte>, len: nat): seq<byte> {
    if len < |s| then s[len..] else []
  }

  predicate Allowed(q: Queue, op: Op) {
    match op
    case Prepend(data) => |data| <= q.headroom
    case AppendInt(width, x) => IntWidth(width) && Fits(width, x)
    case ReadInt(width) => IntWidth(width) && width <= |q.bytes|
    case PrependInt(width, x) => IntWidth(width) && Fits(width, x) && width <= q.headroom
    case _ => true
  }

  function Apply(q: Queue, op: Op): Queue
    requires Allowed(q, op)
  {
    match op
    case Append(data) => Queue(q.bytes + data, Min(q.headroom, CHEAP_PREPEND))
    case Retrieve(len) => Queue(DropFront(q.bytes, len), if len < |q.bytes| then q.headroom + len else CHEAP_PREPEND)
    case RetrieveAll => Queue([], CHEAP_PREPEND)
    case Prepend(data) => Queue(data + q.bytes, q.headroom - |data|)
    case Shrink(_) => Queue(q.bytes, CHEAP_PREPEND)
    case ReadFd(delivered) => Queue(q.bytes + delivered, Min(q.headroom, CHEAP_PREPEND))
    case AppendInt(width, x) => Queue(q.bytes + ToNetwork(width, x), Min(q.headroom, CHEAP_PREPEND))
    case ReadInt(width) =>
      Queue(DropFront(q.bytes, width), if width < |q.bytes| then q.headroom + width else CHEAP_PREPEND)
    case PrependInt(width, x) => Queue(ToNetwork(width, x) + q.bytes, q.headroom - width)
  }

  predicate AllAllowed(q: Queue, ops: seq<Op>)
    decreases |ops|
  {
    ops == [] || (Allowed(q, ops[0]) && AllAllowed(Apply(q, ops[0]), ops[1..]))
  }

  function ApplyAll(q: Queue, ops: seq<Op>): Queue
    requires AllAllowed(q, ops)
    decreases |ops|
  {
    if ops == [] then q else ApplyAll(Apply(q, ops[0]), ops[1..])
  }

  class Buffer {
    var buffer: seq<byte>
    var readerIndex: nat
    var writerIndex: nat

    predicate Valid()
      reads this
    {
      readerIndex <= writerIndex <= |buffer| && CHEAP_PREPEND <= writerIndex
    }

    /** The readable bytes. */
    function Contents(): (s: seq<byte>)
      requires Valid()
      reads this
      ensures |s| == writerIndex - readerIndex
    {
      buffer[readerIndex..writerIndex]
    }

    /** The buffer behaves as the queue q: same bytes, at least its headroom. */
    ghost predicate Implements(q: Queue)
      reads this
    {
      Valid() && Contents() == q.bytes && q.headroom <= readerIndex
    }

    constructor ()
      ensures Implements(Queue([], CHEAP_PREPEND))
      ensures |buffer| == CHEAP_PREPEND + INITIAL_SIZE && readerIndex == writerIndex == CHEAP_PREPEND
    {
      buffer := seq(CHEAP_PREPEND + INITIAL_SIZE, _ => 0);
      readerIndex, writerIndex := CHEAP_PREPEND, CHEAP_PREPEND;
    }

    function ReadableBytes(): nat
      requires Valid()
      reads this
    {
      writerIndex - readerIndex
    }

    function WritableBytes(): nat
      requires Valid()
      reads this
    {
      |buffer| - writerIndex
    }

    method RetrieveAll()
      requires Valid()
      modifies this`readerIndex, this`writerIndex
      ensures Valid() && Contents() == [] && readerIndex == CHEAP_PREPEND
    {
      readerIndex, writerIndex := CHEAP_PREPEND, CHEAP_PREPEND;
    }

    method Retrieve(len: nat)
      requires Valid()
      modifies this`readerIndex, this`writerIndex
      ensures Valid() && Contents() == DropFront(old(Contents()), len)
      ensures readerIndex == if len < old(ReadableBytes()) then old(readerIndex) + len else CHEAP_PREPEND
    {
      if len < ReadableBytes() {
        readerIndex := readerIndex + len;
      } else {
        RetrieveAll();
      }
    }

    method RetrieveAsString(len: nat) returns (s: seq<byte>)
      requires Valid() && len <= ReadableBytes()
      modifies this`readerIndex, this`writerIndex
      ensures Valid() && s + Contents() == old(Contents()) && |s| == len
    {
      s := buffer[readerIndex..readerIndex + len];
      Retrieve(len);
    }

    /**
     Grows the vector, or moves the readable bytes down to the front.  In the
     second case readerIndex is beyond the reserved front, which the source
     asserts: that is a consequence of being short of writable bytes.
     */
    method MakeSpace(len: nat)
      requires Valid() && WritableBytes() < len
      modifies this
      ensures Valid() && Contents() == old(Contents()) && WritableBytes() >= len
      ensures readerIndex == old(readerIndex) || (readerIndex == CHEAP_PREPEND < old(readerIndex))
    {
      if WritableBytes() + readerIndex < len + CHEAP_PREPEND {
        buffer := buffer + seq(writerIndex + len - |buffer|, _ => 0);
      } else {
        assert CHEAP_PREPEND < readerIndex;
        var readable := ReadableBytes();
        OverParts(buffer, CHEAP_PREPEND, buffer[readerIndex..writerIndex]);
        buffer := Over(buffer, CHEAP_PREPEND, buffer[readerIndex..writerIndex]);
        readerIndex := CHEAP_PREPEND;
        writerIndex := readerIndex + readable;
      }
    }

    method EnsureWritableBytes(len: nat)
      requires Valid()
      modifies this
      ensures Valid() && Contents() == old(Contents()) && WritableBytes() >= len
      ensures readerIndex == old(readerIndex) || (readerIndex == CHEAP_PREPEND < old(readerIndex))
      ensures len <= old(WritableBytes()) ==> WritableBytes() == old(WritableBytes())
    {
      if WritableBytes() < len {
        MakeSpace(len);
      }
    }

    /** The copy into free space, without the check for room. */
    method WriteBehind(data: seq<byte>)
      requires Valid() && |data| <= WritableBytes()
      modifies this`buffer, this`writerIndex
      ensures Valid() && Contents() == old(Contents()) + data
      ensures WritableBytes() == old(WritableBytes()) - |data|
    {
      OverParts(buffer, writerIndex, data);
      buffer := Over(buffer, writerIndex, data);
      assert buffer[readerIndex..writerIndex] == buffer[..writerIndex][readerIndex..];
      writerIndex := writerIndex + |data|;
    }

    method Append(data: seq<byte>)
      requires Valid()
      modifies this
      ensures Valid() && Contents() == old(Contents()) + data
      ensures readerIndex == old(readerIndex) || (readerIndex == CHEAP_PREPEND < old(readerIndex))
      ensures |data| <= old(WritableBytes()) ==> WritableBytes() == old(WritableBytes()) - |data|
    {
      EnsureWritableBytes(|data|);
      WriteBehind(data);
    }

    method Prepend(data: seq<byte>)
      requires Valid() && |data| <= readerIndex
      modifies this
      ensures Valid() && Contents() == data + old(Contents())
      ensures readerIndex == old(readerIndex) - |data|
    {
      ghost var readable := Contents();
      readerIndex := readerIndex - |data|;
      OverParts(buffer, readerIndex, data);
      buffer := Over(buffer, readerIndex, data);
      assert buffer[readerIndex + |data|..writerIndex] == readable by {
        assert buffer[readerIndex + |data|..writerIndex] == buffer[readerIndex + |data|..][..|readable|];
      }
      assert buffer[readerIndex..writerIndex] == data + readable;
    }

    /** Copies the readable bytes into a fresh buffer and swaps with it. */
    method Shrink(reserve: nat)
      requires Valid()
      modifies this
      ensures Valid() && Contents() == old(Contents()) && readerIndex == CHEAP_PREPEND
      ensures WritableBytes() >= reserve
    {
      var other := new Buffer();
      other.EnsureWritableBytes(ReadableBytes() + reserve);
      other.Append(Contents());
      buffer, readerIndex, writerIndex := other.buffer, other.readerIndex, other.writerIndex;
    }

    /**
     Scatter read: the kernel fills the free space first and a stack block after
     it, and what landed in the block is appended.  None is a failed read.
     */
    method ReadFd(delivered: Option<seq<byte>>) returns (n: int)
      requires Valid()
      requires delivered.Some? ==> |delivered.value| <= WritableBytes() + EXTRA_BLOCK
      modifies this
      ensures Valid()
      ensures n == if delivered.Some? then |delivered.value| else -1
      ensures Contents() == old(Contents()) + (if delivered.Some? then delivered.value else [])
      ensures readerIndex == old(readerIndex) || (readerIndex == CHEAP_PREPEND < old(readerIndex))
    {
      var writable := WritableBytes();
      match delivered {
        case None => n := -1;
        case Some(data) =>
          n := |data|;
          var direct := data[..Min(n, writable)];
          var extrabuf := data[|direct|..];
          assert data == direct + extrabuf;
          WriteBehind(direct);
          if n > writable {
            assert writerIndex == |buffer|;
            Append(extrabuf);
          }
      }
    }

    method AppendInt(width: nat, x: int)
      requires Valid() && IntWidth(width) && Fits(width, x)
      modifies this
      ensures Valid() && Contents() == old(Contents()) + ToNetwork(width, x)
      ensures readerIndex == old(readerIndex) || (readerIndex == CHEAP_PREPEND < old(readerIndex))
    {
      Append(ToNetwork(width, x));
    }

    method PrependInt(width: nat, x: int)
      requires Valid() && IntWidth(width) && Fits(width, x) && width <= readerIndex
      modifies this
      ensures Valid() && Contents() == ToNetwork(width, x) + old(Contents())
      ensures readerIndex == old(readerIndex) - width
    {
      Prepend(ToNetwork(width, x));
    }

    function PeekInt(width: nat): (x: int)
      requires Valid() && IntWidth(width) && width <= ReadableBytes()
      reads this
      ensures x == FromNetwork(Contents()[..width])
    {
      assert buffer[readerIndex..readerIndex + width] == Contents()[..width];
      FromNetwork(buffer[readerIndex..readerIndex + width])
    }

    /** The integer read is the one whose encoding stood at the front. */
    method ReadInt(width: nat) returns (x: int)
      requires Valid() && IntWidth(width) && width <= ReadableBytes()
      modifies this`readerIndex, this`writerIndex
      ensures Valid() && Fits(width, x) && ToNetwork(width, x) + Contents() == old(Contents())
      ensures readerIndex == if width < old(ReadableBytes()) then old(readerIndex) + width else CHEAP_PREPEND
    {
      x := PeekInt(width);
      ToFromNetwork(Contents()[..width]);
      Retrieve(width);
    }

    /** How many bytes one scatter read can take. */
    function Room(): nat
      requires Valid()
      reads this
    {
      WritableBytes() + EXTRA_BLOCK
    }

    /**
     Bytes of any number wait on the socket, and are read by as many calls of readFd as
     the kernel cuts them into: each takes some of them, at most what there is room for.
     */
    method ReadArrival(data: seq<byte>)
      requires Valid()
      modifies this
      ensures Valid() && Contents() == old(Contents()) + data
      ensures readerIndex == old(readerIndex) || (readerIndex == CHEAP_PREPEND < old(readerIndex))
    {
      var taken := 0;
      while taken < |data|
        invariant 0 <= taken <= |data|
        invariant Valid() && Contents() == old(Contents()) + data[..taken]
        invariant readerIndex == old(readerIndex) || (readerIndex == CHEAP_PREPEND < old(readerIndex))
      {
        var most := Min(|data| - taken, Room());
        var n: nat :| 1 <= n <= most;
        var got := ReadFd(Some(data[taken..taken + n]));
        assert data[..taken + n] == data[..taken] + data[taken..taken + n];
        taken := taken + n;
      }
      assert data[..taken] == data;
    }

    method Perform(op: Op, ghost q: Queue)
      requires Implements(q) && Allowed(q, op)
      modifies this
      ensures Implements(Apply(q, op))
    {
      match op {
        case Append(data) => Append(data);
        case Retrieve(len) => Retrieve(len);
        case RetrieveAll => RetrieveAll();
        case Prepend(data) => Prepend(data);
        case Shrink(reserve) => Shrink(reserve);
        case ReadFd(delivered) => ReadArrival(delivered);
        case AppendInt(width, x) => AppendInt(width, x);
        case ReadInt(width) => var x := ReadInt(width);
        case PrependInt(width, x) => PrependInt(width, x);
      }
    }

    /**
     Any sequence of calls that the plain queue allows, with arrivals cut into reads by
     the kernel: every assertion in the buffer holds along the way, and the readable
     bytes are the queue's.
     */
    method PerformAll(ops: seq<Op>, ghost q: Queue)
      requires Implements(q) && AllAllowed(q, ops)
      modifies this
      ensures Implements(ApplyAll(q, ops))
    {
      ghost var current := q;
      var i := 0;
      while i < |ops|
        invariant 0 <= i <= |ops|
        invariant Implements(current) && AllAllowed(current, ops[i..])
        invariant ApplyAll(current, ops[i..]) == ApplyAll(q, ops)
      {
        assert ops[i..][1..] == ops[i + 1..];
        Perform(ops[i], current);
        current := Apply(current, ops[i]);
        i := i + 1;
      }
    }
  }

  // ---- integers of mixed widths through the queue ----

  /** An integer and the width it is written with. */
  datatype Item = Item(width: nat, x: int)

  predicate Writable(items: seq<Item>) {
    forall it <- items :: IntWidth(it.width) && Fits(it.width, it.x)
  }

  function AppendOps(items: seq<Item>): seq<Op> {
    seq(|items|, i requires 0 <= i < |items| => AppendInt(items[i].width, items[i].x))
  }

  /** What readInt of the given widths returns, one after the other. */
  function ReadInts(bytes: seq<byte>, items: seq<Item>): Option<seq<int>>
    decreases |items|
  {
    if items == [] then Some([])
    else if !IntWidth(items[0].width) || |bytes| < items[0].width then None
    else
      match ReadInts(DropFront(bytes, items[0].width), items[1..])
      case None => None
      case Some(rest) => Some([FromNetwork(bytes[..items[0].width])] + rest)
  }

  function Wire(items: seq<Item>): seq<byte>
    requires Writable(items)
  {
    if items == [] then [] else ToNetwork(items[0].width, items[0].x) + Wire(items[1..])
  }

  function Values(items: seq<Item>): seq<int> {
    if items == [] then [] else [items[0].x] + Values(items[1..])
  }

  lemma {:induction false} AppendOpsWrite(q: Queue, items: seq<Item>)
    requires Writable(items)
    ensures AllAllowed(q, AppendOps(items)) && ApplyAll(q, AppendOps(items)).bytes == q.bytes + Wire(items)
    decreases |items|
  {
    if items != [] {
      var q' := Apply(q, AppendInt(items[0].width, items[0].x));
      assert AppendOps(items)[1..] == AppendOps(items[1..]);
      AppendOpsWrite(q', items[1..]);
      assert q.bytes + (ToNetwork(items[0].width, items[0].x) + Wire(items[1..])) == q'.bytes + Wire(items[1..]);
    }
  }

  lemma {:induction false} WireReadsBack(items: seq<Item>, rest: seq<byte>)
    requires Writable(items)
    ensures ReadInts(Wire(items) + rest, items) == Some(Values(items))
  {
    if items != [] {
      var head, tail := ToNetwork(items[0].width, items[0].x), Wire(items[1..]) + rest;
      assert Wire(items) + rest == head + tail;
      assert (head + tail)[..items[0].width] == head && DropFront(head + tail, items[0].width) == tail;
      FromToNetwork(items[0].width, items[0].x);
      WireReadsBack(items[1..], rest);
    }
  }

  /**
   Integers appended to an empty queue in any mix of widths, followed by any other
   bytes, are read back equal and in order.
   */
  lemma AppendedIntsReadBack(q: Queue, items: seq<Item>, rest: seq<byte>)
    requires q.bytes == [] && Writable(items)
    ensures AllAllowed(q, AppendOps(items))
    ensures ReadInts(ApplyAll(q, AppendOps(items)).bytes + rest, items)
         == Some(Values(items))
  {
    AppendOpsWrite(q, items);
    assert [] + Wire(items) == Wire(items);
    WireReadsBack(items, rest);
  }
}
