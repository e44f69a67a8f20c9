/** The length-prefixed message codec of the chat example. */
module LengthHeaderCodec {
  import opened Sequences
  import opened Endian
  import opened Buffer

  const HEADER_LEN: nat := 4
  const MAX_MESSAGE: nat := 65536

  type Message = seq<byte>

  /** What onMessage makes of a byte stream. */
  datatype Decoded = Decoded(messages: seq<Message>, rest: seq<byte>, invalid: bool)

  predicate BadLength(len: int) {
    len > MAX_MESSAGE || len < 0
  }

  function HeaderOf(stream: seq<byte>): int
    requires HEADER_LEN <= |stream|
  {
    FromNetwork(stream[..HEADER_LEN])
  }

  function Decode(stream: seq<byte>): (d: Decoded)
    decreases |stream|
  {
    if |stream| < HEADER_LEN then Decoded([], stream, false)
    else
      var len := HeaderOf(stream);
      if BadLength(len) then Decoded([], stream, true)
      else if |stream| < HEADER_LEN + len then Decoded([], stream, false)
      else
        var tail := Decode(stream[HEADER_LEN + len..]);
        tail.(messages := [stream[HEADER_LEN..HEADER_LEN + len]] + tail.messages)
  }

  /** Dropping the header and then the message, as the loop does. */
  lemma DropTwice(stream: seq<byte>, len: nat)
    requires HEADER_LEN + len <= |stream|
    ensures |DropFront(stream, HEADER_LEN)| >= len
    ensures DropFront(stream, HEADER_LEN)[..len] == stream[HEADER_LEN..HEADER_LEN + len]
    ensures DropFront(DropFront(stream, HEADER_LEN), len) == stream[HEADER_LEN + len..]
  {
  }

  /** One turn of the decoding loop. */
  lemma DecodeFront(stream: seq<byte>, len: nat, before: seq<Message>)
    requires HEADER_LEN + len <= |stream| && len == HeaderOf(stream) && !BadLength(len)
    ensures |DropFront(stream, HEADER_LEN)| >= len
    ensures var m, d := DropFront(stream, HEADER_LEN)[..len], Decode(DropFront(DropFront(stream, HEADER_LEN), len));
            && before + Decode(stream).messages == before + [m] + d.messages
            && Decode(stream).rest == d.rest && Decode(stream).invalid == d.invalid
  {
    DropTwice(stream, len);
    Associative(before, [stream[HEADER_LEN..HEADER_LEN + len]], Decode(stream[HEADER_LEN + len..]).messages);
  }

  /** The frame that send builds for a message. */
  function Encode(m: Message): (frame: seq<byte>)
    ensures |frame| == HEADER_LEN + |m|
  {
    ToNetwork(HEADER_LEN, ToInt32(|m|)) + m
  }

  function EncodeAll(ms: seq<Message>): seq<byte> {
    if ms == [] then [] else Encode(ms[0]) + EncodeAll(ms[1..])
  }

  /** Feeding a stream in pieces: onMessage after each arrival. */
  function Feed(pieces: seq<seq<byte>>, buffered: seq<byte>): (d: Decoded)
    decreases |pieces|
  {
    if pieces == [] then Decoded([], buffered, false)
    else
      var first := Decode(buffered + pieces[0]);
      var later := Feed(pieces[1..], first.rest);
      Decoded(first.messages + later.messages, later.rest, first.invalid || later.invalid)
  }

  // ---- delivery does not depend on how the stream is cut ----

  /** A complete frame in front is decoded first, whatever is behind it. */
  lemma FrontFrame(a: seq<byte>, b: seq<byte>, len: nat)
    requires HEADER_LEN + len <= |a| && len == HeaderOf(a) && !BadLength(len)
    ensures var m, tail := a[HEADER_LEN..HEADER_LEN + len], a[HEADER_LEN + len..] + b;
            Decode(a + b) == Decode(tail).(messages := [m] + Decode(tail).messages)
  {
    var tail := a[HEADER_LEN + len..] + b;
    assert (a + b)[..HEADER_LEN] == a[..HEADER_LEN];
    assert (a + b)[HEADER_LEN + len..] == tail;
    assert (a + b)[HEADER_LEN..HEADER_LEN + len] == a[HEADER_LEN..HEADER_LEN + len];
  }

  lemma BadHeaderStays(a: seq<byte>, b: seq<byte>)
    requires HEADER_LEN <= |a| && BadLength(HeaderOf(a))
    ensures Decode(a) == Decoded([], a, true) && Decode(a + b) == Decoded([], a + b, true)
  {
    assert (a + b)[..HEADER_LEN] == a[..HEADER_LEN];
  }

  /** Decoding a longer stream continues from what decoding its front left over. */
  lemma {:induction false} DecodeContinues(a: seq<byte>, b: seq<byte>)
    ensures var d, e := Decode(a), Decode(Decode(a).rest + b);
            Decode(a + b) == Decoded(d.messages + e.messages, e.rest, e.invalid)
    ensures Decode(a).invalid ==> Decode(Decode(a).rest + b) == Decoded([], Decode(a).rest + b, true)
    decreases |a|
  {
    if HEADER_LEN <= |a| && BadLength(HeaderOf(a)) {
      BadHeaderStays(a, b);
    } else if HEADER_LEN <= |a| && HEADER_LEN + HeaderOf(a) <= |a| {
      var len := HeaderOf(a);
      var m, tail := a[HEADER_LEN..HEADER_LEN + len], a[HEADER_LEN + len..];
      FrontFrame(a, b, len);
      DecodeContinues(tail, b);
      Associative([m], Decode(tail).messages, Decode(Decode(tail).rest + b).messages);
    }
  }

  /** What is left over holds no complete frame: decoding it again changes nothing. */
  lemma {:induction false} DecodeRestIsStuck(s: seq<byte>)
    ensures Decode(Decode(s).rest) == Decode(s).(messages := [])
    decreases |s|
  {
    if HEADER_LEN <= |s| && !BadLength(HeaderOf(s)) && HEADER_LEN + HeaderOf(s) <= |s| {
      DecodeRestIsStuck(s[HEADER_LEN + HeaderOf(s)..]);
    }
  }

  /**
   Segmentation independence: however the stream is cut, the messages delivered,
   in order, and the bytes left in the buffer are those of one call on the whole.
   */
  lemma {:induction false} FeedIsDecode(pieces: seq<seq<byte>>, buffered: seq<byte>)
    requires pieces != [] || Decode(buffered) == Decoded([], buffered, false)
    ensures Feed(pieces, buffered) == Decode(buffered + Flatten(pieces))
    decreases |pieces|
  {
    if pieces == [] {
      assert buffered + [] == buffered;
    } else {
      var first := buffered + pieces[0];
      var rest := Decode(first).rest;
      assert buffered + Flatten(pieces) == first + Flatten(pieces[1..]);
      DecodeContinues(first, Flatten(pieces[1..]));
      DecodeRestIsStuck(first);
      if pieces[1..] != [] || !Decode(first).invalid {
        FeedIsDecode(pieces[1..], rest);
      } else {
        assert rest + [] == rest;
      }
    }
  }

  lemma StaysInvalid(buffered: seq<byte>, more: seq<byte>)
    requires Decode(buffered) == Decoded([], buffered, true)
    ensures Decode(buffered + more) == Decoded([], buffered + more, true)
  {
    DecodeContinues(buffered, more);
  }

  /** After a header out of range, no later arrival delivers a message. */
  lemma {:induction false} NothingAfterInvalid(buffered: seq<byte>, pieces: seq<seq<byte>>)
    requires Decode(buffered) == Decoded([], buffered, true)
    ensures Feed(pieces, buffered).messages == [] && Feed(pieces, buffered).rest == buffered + Flatten(pieces)
    decreases |pieces|
  {
    if pieces != [] {
      var first := buffered + pieces[0];
      StaysInvalid(buffered, pieces[0]);
      NothingAfterInvalid(first, pieces[1..]);
      assert first + Flatten(pieces[1..]) == buffered + Flatten(pieces);
    } else {
      assert buffered + [] == buffered;
    }
  }

  // ---- encoding and decoding undo each other ----

  lemma SmallLength(n: nat)
    requires n <= MAX_MESSAGE
    ensures ToInt32(n) == n
  {
  }

  lemma DecodeOneFrame(m: Message, rest: seq<byte>)
    requires |m| <= MAX_MESSAGE
    ensures Decode(Encode(m) + rest) == Decode(rest).(messages := [m] + Decode(rest).messages)
  {
    var stream := Encode(m) + rest;
    SmallLength(|m|);
    FromToNetwork(HEADER_LEN, |m|);
    assert stream[..HEADER_LEN] == ToNetwork(HEADER_LEN, |m|);
    assert stream[HEADER_LEN..HEADER_LEN + |m|] == m;
    assert stream[HEADER_LEN + |m|..] == rest;
  }

  /** Round trip for messages within the limit. */
  lemma {:induction false} DecodeEncodeAll(ms: seq<Message>)
    requires forall m <- ms :: |m| <= MAX_MESSAGE
    ensures Decode(EncodeAll(ms)) == Decoded(ms, [], false)
  {
    if ms != [] {
      DecodeOneFrame(ms[0], EncodeAll(ms[1..]));
      DecodeEncodeAll(ms[1..]);
      assert [ms[0]] + ms[1..] == ms;
    }
  }

  lemma EncodeOfFrame(s: seq<byte>, len: nat)
    requires HEADER_LEN + len <= |s| && len == HeaderOf(s) && !BadLength(len)
    ensures Encode(s[HEADER_LEN..HEADER_LEN + len]) + s[HEADER_LEN + len..] == s
  {
    SmallLength(len);
    ToFromNetwork(s[..HEADER_LEN]);
  }

  lemma EncodeAllCons(m: Message, ms: seq<Message>)
    ensures EncodeAll([m] + ms) == Encode(m) + EncodeAll(ms)
  {
    assert ([m] + ms)[1..] == ms;
  }

  lemma SmallCons(m: Message, ms: seq<Message>)
    requires |m| <= MAX_MESSAGE && forall x <- ms :: |x| <= MAX_MESSAGE
    ensures forall x <- [m] + ms :: |x| <= MAX_MESSAGE
  {
  }

  /** The other direction, for every stream: what was delivered re-encodes to what was consumed. */
  lemma {:induction false} EncodeAllDecode(s: seq<byte>)
    ensures EncodeAll(Decode(s).messages) + Decode(s).rest == s
    ensures forall m <- Decode(s).messages :: |m| <= MAX_MESSAGE
    decreases |s|
  {
    if HEADER_LEN <= |s| && !BadLength(HeaderOf(s)) && HEADER_LEN + HeaderOf(s) <= |s| {
      var len := HeaderOf(s);
      var m, tail := s[HEADER_LEN..HEADER_LEN + len], s[HEADER_LEN + len..];
      EncodeAllDecode(tail);
      EncodeOfFrame(s, len);
      EncodeAllCons(m, Decode(tail).messages);
      SmallCons(m, Decode(tail).messages);
      Associative(Encode(m), EncodeAll(Decode(tail).messages), Decode(tail).rest);
    } else {
      assert [] + s == s;
    }
  }

  /** A frame is delivered as the message it was made from exactly within the limit. */
  lemma RoundTripIff(m: Message)
    ensures Decode(Encode(m)) == Decoded([m], [], false) <==> |m| <= MAX_MESSAGE
  {
    EncodeAllDecode(Encode(m));
    assert m in [m];
    if |m| <= MAX_MESSAGE {
      DecodeOneFrame(m, []);
      assert Encode(m) + [] == Encode(m);
      assert Decode([]) == Decoded([], [], false);
    }
  }

  // ---- exactly what is delivered ----

  /** A length that cannot be a message's: negative, or over 64 KiB. */
  predicate HeaderOutOfRange(s: seq<byte>) {
    |s| >= 4 && !(0 <= FromNetwork(s[..4]) <= 65536)
  }

  /** No whole frame is in front. */
  predicate NoFrameInFront(s: seq<byte>) {
    |s| < 4 || HeaderOutOfRange(s) || |s| - 4 < FromNetwork(s[..4])
  }

  lemma LeftoverHasNoFrame(rest: seq<byte>)
    ensures Decode(rest) == Decoded([], rest, HeaderOutOfRange(rest)) <==> NoFrameInFront(rest)
  {
  }

  lemma {:induction false} DecodeFrames(ms: seq<Message>, rest: seq<byte>)
    requires (forall m <- ms :: |m| <= 65536) && NoFrameInFront(rest)
    ensures Decode(EncodeAll(ms) + rest) == Decoded(ms, rest, HeaderOutOfRange(rest))
  {
    if ms == [] {
      LeftoverHasNoFrame(rest);
      assert EncodeAll(ms) + rest == rest;
    } else {
      var tail := EncodeAll(ms[1..]) + rest;
      assert ms[0] in ms;
      DecodeFrames(ms[1..], rest);
      DecodeOneFrame(ms[0], tail);
      Associative(Encode(ms[0]), EncodeAll(ms[1..]), rest);
      assert [ms[0]] + ms[1..] == ms;
    }
  }

  lemma {:induction false} NothingWholeIsLeft(s: seq<byte>)
    ensures NoFrameInFront(Decode(s).rest)
    decreases |s|
  {
    if HEADER_LEN <= |s| && !BadLength(HeaderOf(s)) && HEADER_LEN + HeaderOf(s) <= |s| {
      NothingWholeIsLeft(s[HEADER_LEN + HeaderOf(s)..]);
    }
  }

  /**
   Any stream is cut in just one way into the frames of messages within the limit and
   a rest without a whole frame in front: those messages are delivered, that rest is
   kept, and the connection is found invalid exactly if the rest begins with a header
   out of range.
   */
  lemma DecodeIff(s: seq<byte>, ms: seq<Message>, rest: seq<byte>)
    ensures Decode(s) == Decoded(ms, rest, HeaderOutOfRange(rest))
       <==> s == EncodeAll(ms) + rest && (forall m <- ms :: |m| <= 65536) && NoFrameInFront(rest)
  {
    if s == EncodeAll(ms) + rest && (forall m <- ms :: |m| <= 65536) && NoFrameInFront(rest) {
      DecodeFrames(ms, rest);
    }
    EncodeAllDecode(s);
    NothingWholeIsLeft(s);
  }

  /**
   End to end: any messages within the limit, sent as frames and cut into any
   pieces on the way, are delivered exactly, in order, with nothing left over.
   */
  lemma DeliveredUnderAnySegmentation(ms: seq<Message>, pieces: seq<seq<byte>>)
    requires forall m <- ms :: |m| <= MAX_MESSAGE
    requires Flatten(pieces) == EncodeAll(ms)
    ensures Feed(pieces, []) == Decoded(ms, [], false)
  {
    assert Decode([]) == Decoded([], [], false);
    FeedIsDecode(pieces, []);
    assert [] + Flatten(pieces) == Flatten(pieces);
    DecodeEncodeAll(ms);
  }

  // ---- a connection's reads ----

  /** What was delivered and what is still to come amount to the whole. */
  predicate Accounts(before: seq<Message>, whole: Decoded, delivered: seq<Message>,
                     buffered: seq<byte>, rest: seq<byte>)
  {
    if rest == [] then
      delivered == before + whole.messages && buffered == whole.rest
    else
      var d := Decode(buffered + rest);
      delivered + d.messages == before + whole.messages && d.rest == whole.rest
  }

  lemma AccountsNext(before: seq<Message>, whole: Decoded, delivered: seq<Message>,
                     buffered: seq<byte>, rest: seq<byte>, n: nat)
    requires Accounts(before, whole, delivered, buffered, rest) && 0 < n <= |rest|
    ensures var d := Decode(buffered + rest[..n]); Accounts(before, whole, delivered + d.messages, d.rest, rest[n..])
  {
    var d, later := Decode(buffered + rest[..n]), rest[n..];
    assert buffered + rest == buffered + rest[..n] + later;
    DecodeContinues(buffered + rest[..n], later);
    Associative(delivered, d.messages, Decode(d.rest + later).messages);
    if later == [] {
      assert d.rest + later == d.rest;
      DecodeRestIsStuck(buffered + rest[..n]);
      assert delivered + d.messages + [] == delivered + d.messages;
    }
  }

  /** The codec, with the user's callback and the connection recorded by what reaches them. */
  class LengthHeaderCodec {
    // messageCallback_: the messages passed to it
    var delivered: seq<Message>
    // conn->shutdown(): how often it was called
    var shutdowns: nat

    constructor ()
      ensures delivered == [] && shutdowns == 0
    {
      delivered, shutdowns := [], 0;
    }

    method OnMessage(buf: Buffer)
      requires buf.Valid()
      modifies this, buf`readerIndex, buf`writerIndex
      ensures buf.Valid()
      ensures var d := Decode(old(buf.Contents()));
              && delivered == old(delivered) + d.messages
              && buf.Contents() == d.rest
              && shutdowns == old(shutdowns) + (if d.invalid then 1 else 0)
    {
      ghost var whole := Decode(buf.Contents());
      while buf.ReadableBytes() >= HEADER_LEN
        invariant buf.Valid() && shutdowns == old(shutdowns)
        invariant var d := Decode(buf.Contents());
                  && delivered + d.messages == old(delivered) + whole.messages
                  && d.rest == whole.rest && d.invalid == whole.invalid
        decreases buf.ReadableBytes()
      {
        ghost var stream := buf.Contents();
        var len := buf.PeekInt(HEADER_LEN);
        assert len == HeaderOf(stream);
        if BadLength(len) {
          shutdowns := shutdowns + 1;
          return;
        } else if buf.ReadableBytes() >= len + HEADER_LEN {
          buf.Retrieve(HEADER_LEN);
          var message := buf.Contents()[..len];
          delivered := delivered + [message];
          buf.Retrieve(len);
          DecodeFront(stream, len, delivered[..|delivered| - 1]);
        } else {
          return;
        }
      }
    }

    /** A frame built in a fresh buffer: the header is prepended in the reserved front. */
    method Send(message: Message) returns (frame: Buffer)
      ensures fresh(frame) && frame.Valid() && frame.Contents() == Encode(message)
    {
      frame := new Buffer();
      frame.Append(message);
      assert [] + message == message;
      frame.Prepend(ToNetwork(HEADER_LEN, ToInt32(|message|)));
    }

    /** One read of a connection: the bytes land in the input buffer and are decoded at once. */
    method ReceiveOnce(input: Buffer, data: seq<byte>)
      requires input.Valid() && |data| <= input.Room()
      modifies this, input
      ensures input.Valid()
      ensures var d := Decode(old(input.Contents()) + data);
              delivered == old(delivered) + d.messages && input.Contents() == d.rest
    {
      var got := input.ReadFd(Some(data));
      OnMessage(input);
    }

    /**
     A connection's reads: the kernel cuts the stream into reads as it likes, as far as
     there is room, and onMessage runs after each.  The cut makes no difference.
     */
    method Receive(input: Buffer, stream: seq<byte>)
      requires input.Valid() && stream != []
      modifies this, input
      ensures input.Valid()
      ensures var d := Decode(old(input.Contents()) + stream);
              delivered == old(delivered) + d.messages && input.Contents() == d.rest
    {
      ghost var before, whole := delivered, Decode(input.Contents() + stream);
      var rest := stream;
      while rest != []
        invariant input.Valid() && Accounts(before, whole, delivered, input.Contents(), rest)
        decreases |rest|
      {
        var most := Min(|rest|, input.Room());
        var n: nat :| 1 <= n <= most;
        AccountsNext(before, whole, delivered, input.Contents(), rest, n);
        ReceiveOnce(input, rest[..n]);
        rest := rest[n..];
      }
    }
  }
}
