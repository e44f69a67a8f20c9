/** The incremental HTTP/1.x request parser. */
module HttpContext {
  import opened Sequences
  import opened Endian
  import opened Buffer
  import opened HttpRequest

  datatype ParseState = ExpectRequestLine | ExpectHeaders | ExpectBody | GotAll

  datatype Context = Context(state: ParseState, request: Request)

  const NEW_CONTEXT := Context(ExpectRequestLine, NEW_REQUEST)

  const QUESTION: byte := 63
  const COLON: byte := 58
  const ZERO: byte := 48
  const ONE: byte := 49
  // "HTTP/1."
  const HTTP_1: Text := [72, 84, 84, 80, 47, 49, 46]

  function FindFrom(s: Text, c: byte, i: nat): (k: nat)
    requires i <= |s|
    ensures i <= k <= |s| && (k < |s| ==> s[k] == c)
    ensures forall j | i <= j < k :: s[j] != c
    decreases |s| - i
  {
    if i == |s| || s[i] == c then i else FindFrom(s, c, i + 1)
  }

  /** std::find: the first position of c, or the end. */
  function Find(s: Text, c: byte): (k: nat)
    ensures k <= |s| && (k < |s| ==> s[k] == c)
    ensures forall j | 0 <= j < k :: s[j] != c
  {
    FindFrom(s, c, 0)
  }

  /** A separator is found where it was put, if it does not occur before. */
  lemma FindSeparator(a: Text, c: byte, b: Text)
    requires c !in a
    ensures var s := a + [c] + b; Find(s, c) == |a| && s[..|a|] == a && s[|a| + 1..] == b
  {
    var s := a + [c] + b;
    assert s[|a|] == c;
    assert forall i | 0 <= i < |a| :: s[i] == a[i] && a[i] in a;
  }

  lemma SplitAt(s: Text, c: byte)
    requires Find(s, c) < |s|
    ensures s == s[..Find(s, c)] + [c] + s[Find(s, c) + 1..]
  {
  }

  // ---- the request line ----

  datatype LineResult = LineResult(request: Request, ok: bool)

  /** The setters' effects on the target: the query keeps its question mark. */
  function WithTarget(r: Request, target: Text): Request {
    var q := Find(target, QUESTION);
    if q < |target| then r.(path := target[..q], query := target[q..]) else r.(path := target)
  }

  function WithVersion(r: Request, version: Text): LineResult {
    if |version| == 8 && version[..7] == HTTP_1 then
      if version[7] == ONE then LineResult(r.(version := Http11), true)
      else if version[7] == ZERO then LineResult(r.(version := Http10), true)
      else LineResult(r, false)
    else LineResult(r, false)
  }

  /** The part of the line after the method and its space. */
  function AfterMethod(named: Request, rest: Text): LineResult {
    var sp := Find(rest, SPACE);
    if sp == |rest| then LineResult(named, false)
    else WithVersion(WithTarget(named, rest[..sp]), rest[sp + 1..])
  }

  /** processRequestLine: what it has set stays set when a later part is wrong. */
  function ProcessLine(r: Request, line: Text): LineResult {
    var sp := Find(line, SPACE);
    if sp == |line| then LineResult(r, false)
    else
      var named := r.(method_ := MethodOf(line[..sp]));
      if named.method_ == Invalid then LineResult(named, false) else AfterMethod(named, line[sp + 1..])
  }

  function VersionText(v: Version): Text
    requires v != Unknown
  {
    HTTP_1 + [if v == Http11 then ONE else ZERO]
  }

  /**
   A request line in the form of section 3.1.1 of RFC 7230, without its CR LF, except
   that the source also takes an empty target, as in "GET  HTTP/1.1".
   */
  function RequestLine(m: Method, target: Text, v: Version): Text
    requires m != Invalid && v != Unknown
  {
    MethodName(m) + [SPACE] + (target + [SPACE] + VersionText(v))
  }

  lemma TargetParts(r: Request, target: Text)
    requires r.query == []
    ensures var t := WithTarget(r, target);
            && t.path + t.query == target && QUESTION !in t.path && (t.query != [] ==> t.query[0] == QUESTION)
            && t == r.(path := t.path, query := t.query)
  {
    var q := Find(target, QUESTION);
    assert target == target[..q] + target[q..];
    assert q == |target| ==> target[..q] == target;
  }

  lemma VersionParts(r: Request, version: Text)
    ensures WithVersion(r, version).ok <==> version == VersionText(Http11) || version == VersionText(Http10)
    ensures forall v | v != Unknown && version == VersionText(v) :: WithVersion(r, version).request == r.(version := v)
  {
    assert |version| == 8 ==> version == version[..7] + [version[7]];
    assert VersionText(Http11)[..7] == HTTP_1 && VersionText(Http10)[..7] == HTTP_1;
  }

  /** Every well-formed line is parsed into its parts. */
  lemma ParseRendered(m: Method, target: Text, v: Version)
    requires m != Invalid && v != Unknown && SPACE !in target
    ensures var p := ProcessLine(NEW_REQUEST, RequestLine(m, target, v));
            && p.ok && p.request.method_ == m && p.request.version == v
            && p.request.path + p.request.query == target
            && QUESTION !in p.request.path && (p.request.query != [] ==> p.request.query[0] == QUESTION)
  {
    MethodNames(m, MethodName(m));
    FindSeparator(MethodName(m), SPACE, target + [SPACE] + VersionText(v));
    FindSeparator(target, SPACE, VersionText(v));
    var named := NEW_REQUEST.(method_ := m);
    TargetParts(named, target);
    VersionParts(WithTarget(named, target), VersionText(v));
    assert ProcessLine(NEW_REQUEST, RequestLine(m, target, v))
        == WithVersion(WithTarget(named, target), VersionText(v));
  }

  /** What is accepted after the method is a target, a space and a version. */
  lemma AcceptedAfterMethod(named: Request, rest: Text)
    requires named.query == [] && AfterMethod(named, rest).ok
    ensures var r := AfterMethod(named, rest).request;
            && r.method_ == named.method_ && r.version != Unknown && SPACE !in r.path + r.query
            && rest == r.path + r.query + [SPACE] + VersionText(r.version)
  {
    var sp := Find(rest, SPACE);
    var target, version := rest[..sp], rest[sp + 1..];
    SplitAt(rest, SPACE);
    TargetParts(named, target);
    VersionParts(WithTarget(named, target), version);
  }

  /** Only well-formed lines are accepted, and the parts are those of the line. */
  lemma AcceptedIsRendered(line: Text)
    requires ProcessLine(NEW_REQUEST, line).ok
    ensures var r := ProcessLine(NEW_REQUEST, line).request;
            && r.method_ != Invalid && r.version != Unknown && SPACE !in r.path + r.query
            && line == RequestLine(r.method_, r.path + r.query, r.version)
  {
    var sp := Find(line, SPACE);
    SplitAt(line, SPACE);
    var named := NEW_REQUEST.(method_ := MethodOf(line[..sp]));
    MethodNames(named.method_, line[..sp]);
    AcceptedAfterMethod(named, line[sp + 1..]);
  }

  /**
   The grammar, both ways: a line is accepted exactly when it is a method, a target
   without spaces, which may be empty, and a version.
   */
  lemma AcceptedIff(line: Text)
    ensures ProcessLine(NEW_REQUEST, line).ok
       <==> exists m: Method, target: Text, v: Version ::
              m != Invalid && v != Unknown && SPACE !in target && line == RequestLine(m, target, v)
  {
    if ProcessLine(NEW_REQUEST, line).ok {
      AcceptedIsRendered(line);
    }
    forall m: Method, target: Text, v: Version |
      m != Invalid && v != Unknown && SPACE !in target && line == RequestLine(m, target, v)
      ensures ProcessLine(NEW_REQUEST, line).ok
    {
      ParseRendered(m, target, v);
    }
  }

  // ---- the state machine ----

  /** One iteration of the parsing loop, lines 45-82. */
  datatype TurnResult = TurnResult(ctx: Context, rest: Text, ok: bool, more: bool)

  /** setMethod asserts that the method is not set yet. */
  predicate SetMethodAsserts(c: Context, s: Text) {
    (c.state == ExpectRequestLine && FindCRLF(s).Some? && SPACE in s[..FindCRLF(s).value])
    ==> c.request.method_ == Invalid
  }

  function Turn(c: Context, s: Text, time: int): (t: TurnResult)
    ensures t.more && c.state != GotAll ==> t.ctx.state != GotAll && |t.rest| < |s|
    ensures t.more && c.state != GotAll ==> t.ctx.state != ExpectRequestLine && t.ok
  {
    match c.state
    case ExpectRequestLine =>
      (match FindCRLF(s)
       case None => TurnResult(c, s, true, false)
       case Some(p) =>
         var line := ProcessLine(c.request, s[..p]);
         if line.ok
         then TurnResult(Context(ExpectHeaders, line.request.(receiveTime := time)), DropFront(s, p + 2), true, true)
         else TurnResult(Context(ExpectRequestLine, line.request), s, false, false))
    case ExpectHeaders =>
      (match FindCRLF(s)
       case None => TurnResult(c, s, true, false)
       case Some(p) =>
         var colon := Find(s[..p], COLON);
         if colon < p
         then TurnResult(c.(request := WithHeader(c.request, s[..p], colon)), DropFront(s, p + 2), true, true)
         else TurnResult(c.(state := ExpectBody), DropFront(s, p + 2), true, true))
    case ExpectBody =>
      TurnResult(Context(GotAll, c.request.(body := s)), [], true, false)
    case GotAll =>
      TurnResult(c, s, true, true)
  }

  /** What parseRequest leaves: the context, the bytes still buffered, and its return value. */
  datatype Outcome = Outcome(ctx: Context, rest: Text, ok: bool)

  function Parse(c: Context, s: Text, time: int): Outcome
    requires c.state != GotAll
    decreases |s|
  {
    var t := Turn(c, s, time);
    if t.more then Parse(t.ctx, t.rest, time) else Outcome(t.ctx, t.rest, t.ok)
  }

  /** Entered after a complete request, the loop would change nothing and never end. */
  lemma GotAllNeverEnds(c: Context, s: Text, time: int)
    ensures Turn(c, s, time) == TurnResult(c, s, true, true) <==> c.state == GotAll
  {
  }

  // ---- whole messages ----

  const CR_LF: Text := [CR, LF]

  /** Text that the search for CR LF runs through. */
  ghost predicate OneLine(s: Text) {
    forall k: nat :: !CRLFAt(s, k)
  }

  /** A header line, cut at its first colon. */
  datatype Field = Field(name: Text, tail: Text)

  function FieldLine(f: Field): Text {
    f.name + [COLON] + f.tail
  }

  function FieldLines(fields: seq<Field>): Text {
    if fields == [] then [] else FieldLine(fields[0]) + CR_LF + FieldLines(fields[1..])
  }

  ghost predicate FieldsWellFormed(fields: seq<Field>) {
    forall f <- fields :: COLON !in f.name && OneLine(FieldLine(f))
  }

  /** The parts of a message: its header section ends with a line without a colon, which is `end`. */
  datatype Message = Message(method_: Method, target: Text, version: Version, fields: seq<Field>, end: Text)

  ghost predicate WellFormed(msg: Message) {
    && msg.method_ != Invalid && msg.version != Unknown && SPACE !in msg.target && OneLine(msg.target)
    && FieldsWellFormed(msg.fields) && COLON !in msg.end && OneLine(msg.end)
  }

  function HeaderText(msg: Message): Text
    requires msg.method_ != Invalid && msg.version != Unknown
  {
    RequestLine(msg.method_, msg.target, msg.version) + CR_LF + (FieldLines(msg.fields) + (msg.end + CR_LF))
  }

  /** The text after the colon in the last line with this name. */
  function LastTail(fields: seq<Field>, name: Text): Option<Text> {
    if fields == [] then None
    else if fields[|fields| - 1].name == name then Some(fields[|fields| - 1].tail)
    else LastTail(fields[..|fields| - 1], name)
  }

  /** The headers are those of the lines; of several with the same name, the last one's. */
  ghost predicate HeadersOf(headers: map<Text, Text>, fields: seq<Field>) {
    forall name :: (name in headers <==> LastTail(fields, name).Some?)
                   && (name in headers ==> headers[name] == StoredValue(LastTail(fields, name).value))
  }

  ghost predicate Represents(r: Request, msg: Message, body: Text) {
    && r.method_ == msg.method_ && r.version == msg.version
    && r.path + r.query == msg.target && QUESTION !in r.path && (r.query != [] ==> r.query[0] == QUESTION)
    && HeadersOf(r.headers, msg.fields) && r.body == body
  }

  lemma FieldLinesCons(f: Field, others: seq<Field>, last: Text)
    ensures FieldLines([f] + others) + last == FieldLine(f) + CR_LF + (FieldLines(others) + last)
  {
    assert ([f] + others)[1..] == others;
  }

  lemma MessageText(msg: Message, body: Text)
    requires msg.method_ != Invalid && msg.version != Unknown
    ensures HeaderText(msg) + body
         == RequestLine(msg.method_, msg.target, msg.version) + CR_LF
            + (FieldLines(msg.fields) + (msg.end + CR_LF + body))
  {
  }

  lemma LineEnds(line: Text, rest: Text)
    requires OneLine(line)
    ensures var s := line + CR_LF + rest;
            FindCRLF(s) == Some(|line|) && s[..|line|] == line && DropFront(s, |line| + 2) == rest
  {
    var s := line + CR_LF + rest;
    assert CRLFAt(s, |line|);
    forall k: nat | k < |line| ensures !CRLFAt(s, k) {
      assert !CRLFAt(line, k);
    }
  }

  lemma FirstLine(s: Text)
    requires FindCRLF(s).Some?
    ensures var p := FindCRLF(s).value; OneLine(s[..p]) && s == s[..p] + CR_LF + DropFront(s, p + 2)
  {
    var p := FindCRLF(s).value;
    forall k: nat ensures !CRLFAt(s[..p], k) {
      assert k + 2 <= p ==> !CRLFAt(s, k);
    }
  }

  lemma RequestLineIsOneLine(m: Method, target: Text, v: Version)
    requires m != Invalid && v != Unknown
    ensures OneLine(RequestLine(m, target, v)) <==> OneLine(target)
  {
    var s, n := RequestLine(m, target, v), |MethodName(m)| + 1;
    assert forall c <- MethodName(m) :: c != CR;
    assert forall k | n <= k < n + |target| :: s[k] == target[k - n];
    forall k: nat ensures CRLFAt(s, k) <==> n <= k && CRLFAt(target, k - n) {
    }
    if !OneLine(target) {
      var k: nat :| CRLFAt(target, k);
      assert CRLFAt(s, n + k);
    }
  }

  lemma FieldColon(f: Field)
    requires COLON !in f.name
    ensures var line := FieldLine(f);
            Find(line, COLON) == |f.name| < |line| && line[..|f.name|] == f.name && line[|f.name| + 1..] == f.tail
  {
    FindSeparator(f.name, COLON, f.tail);
  }

  lemma LastTailSnoc(before: seq<Field>, f: Field, name: Text)
    ensures LastTail(before + [f], name) == if f.name == name then Some(f.tail) else LastTail(before, name)
  {
    assert (before + [f])[..|before|] == before;
  }

  lemma HeadersSnoc(r: Request, before: seq<Field>, f: Field)
    requires HeadersOf(r.headers, before) && COLON !in f.name
    ensures HeadersOf(WithHeader(r, FieldLine(f), |f.name|).headers, before + [f])
  {
    FieldColon(f);
    var headers := WithHeader(r, FieldLine(f), |f.name|).headers;
    assert headers == r.headers[f.name := StoredValue(f.tail)];
    forall name
      ensures name in headers <==> LastTail(before + [f], name).Some?
      ensures name in headers ==> headers[name] == StoredValue(LastTail(before + [f], name).value)
    {
      LastTailSnoc(before, f, name);
    }
  }

  /** One header line. */
  lemma FieldTurn(c: Context, before: seq<Field>, f: Field, rest: Text, time: int)
    requires c.state == ExpectHeaders && HeadersOf(c.request.headers, before)
    requires COLON !in f.name && OneLine(FieldLine(f))
    ensures var t := Turn(c, FieldLine(f) + CR_LF + rest, time);
            && t == TurnResult(t.ctx, rest, true, true)
            && t.ctx == c.(request := c.request.(headers := t.ctx.request.headers))
            && HeadersOf(t.ctx.request.headers, before + [f])
  {
    LineEnds(FieldLine(f), rest);
    FieldColon(f);
    HeadersSnoc(c.request, before, f);
  }

  /** The line that ends the headers, and the body behind it. */
  lemma EndOfHeaders(c: Context, end: Text, body: Text, time: int)
    requires c.state == ExpectHeaders && COLON !in end && OneLine(end)
    ensures Parse(c, end + CR_LF + body, time) == Outcome(Context(GotAll, c.request.(body := body)), [], true)
  {
    LineEnds(end, body);
    assert Turn(c, end + CR_LF + body, time) == TurnResult(c.(state := ExpectBody), body, true, true);
  }

  lemma {:induction false} ParseFields(c: Context, before: seq<Field>, fields: seq<Field>, end: Text, body: Text,
                                       time: int)
    requires c.state == ExpectHeaders && HeadersOf(c.request.headers, before)
    requires FieldsWellFormed(fields) && COLON !in end && OneLine(end)
    ensures var o := Parse(c, FieldLines(fields) + (end + CR_LF + body), time);
            && o == Outcome(Context(GotAll, o.ctx.request), [], true)
            && o.ctx.request == c.request.(headers := o.ctx.request.headers, body := body)
            && HeadersOf(o.ctx.request.headers, before + fields)
    decreases |fields|
  {
    var last := end + CR_LF + body;
    if fields == [] {
      assert FieldLines(fields) + last == last && before + fields == before;
      EndOfHeaders(c, end, body, time);
    } else {
      var rest := FieldLines(fields[1..]) + last;
      assert [fields[0]] + fields[1..] == fields;
      FieldLinesCons(fields[0], fields[1..], last);
      assert fields[0] in fields;
      FieldTurn(c, before, fields[0], rest, time);
      assert forall f <- fields[1..] :: f in fields;
      var next := Turn(c, FieldLine(fields[0]) + CR_LF + rest, time).ctx;
      ParseFields(next, before + [fields[0]], fields[1..], end, body, time);
      assert before + [fields[0]] + fields[1..] == before + fields;
    }
  }

  lemma LineTurn(msg: Message, rest: Text, time: int)
    requires WellFormed(msg)
    ensures var line := RequestLine(msg.method_, msg.target, msg.version);
            var t, p := Turn(NEW_CONTEXT, line + CR_LF + rest, time), ProcessLine(NEW_REQUEST, line);
            p.ok && t == TurnResult(Context(ExpectHeaders, p.request.(receiveTime := time)), rest, true, true)
  {
    var line := RequestLine(msg.method_, msg.target, msg.version);
    RequestLineIsOneLine(msg.method_, msg.target, msg.version);
    LineEnds(line, rest);
    ParseRendered(msg.method_, msg.target, msg.version);
  }

  /**
   Every well-formed message completes in one call: the request has its parts, the
   body is all that follows the header section, and nothing stays in the buffer.
   */
  lemma MessageIsParsed(msg: Message, body: Text, time: int)
    requires WellFormed(msg)
    ensures var o := Parse(NEW_CONTEXT, HeaderText(msg) + body, time);
            && o.ok && o.ctx.state == GotAll && o.rest == []
            && Represents(o.ctx.request, msg, body) && o.ctx.request.receiveTime == time
  {
    var line := RequestLine(msg.method_, msg.target, msg.version);
    var rest := FieldLines(msg.fields) + (msg.end + CR_LF + body);
    MessageText(msg, body);
    LineTurn(msg, rest, time);
    ParseRendered(msg.method_, msg.target, msg.version);
    LineKeepsHeaders(NEW_REQUEST, line);
    ParseFields(Turn(NEW_CONTEXT, line + CR_LF + rest, time).ctx, [], msg.fields, msg.end, body, time);
    assert [] + msg.fields == msg.fields;
  }

  lemma FieldOfLine(line: Text)
    requires Find(line, COLON) < |line|
    ensures var k := Find(line, COLON); COLON !in line[..k] && line == FieldLine(Field(line[..k], line[k + 1..]))
  {
    SplitAt(line, COLON);
  }

  lemma {:induction false} CompleteHeaders(c: Context, s: Text, time: int)
    returns (fields: seq<Field>, end: Text, body: Text)
    requires c.state == ExpectHeaders && Parse(c, s, time).ctx.state == GotAll
    ensures FieldsWellFormed(fields) && COLON !in end && OneLine(end)
    ensures s == FieldLines(fields) + (end + CR_LF + body)
    decreases |s|
  {
    var t := Turn(c, s, time);
    FirstLine(s);
    var line := s[..FindCRLF(s).value];
    var colon := Find(line, COLON);
    if colon < |line| {
      var f := Field(line[..colon], line[colon + 1..]);
      FieldOfLine(line);
      var others;
      others, end, body := CompleteHeaders(t.ctx, t.rest, time);
      fields := [f] + others;
      FieldLinesCons(f, others, end + CR_LF + body);
    } else {
      fields, end, body := [], line, t.rest;
    }
  }

  lemma CompleteMessage(s: Text, time: int) returns (msg: Message, body: Text)
    requires Parse(NEW_CONTEXT, s, time).ok && Parse(NEW_CONTEXT, s, time).ctx.state == GotAll
    ensures WellFormed(msg) && s == HeaderText(msg) + body
  {
    var t := Turn(NEW_CONTEXT, s, time);
    FirstLine(s);
    var line := s[..FindCRLF(s).value];
    AcceptedIsRendered(line);
    var r := ProcessLine(NEW_REQUEST, line).request;
    RequestLineIsOneLine(r.method_, r.path + r.query, r.version);
    var fields, end, rest := CompleteHeaders(t.ctx, t.rest, time);
    msg, body := Message(r.method_, r.path + r.query, r.version, fields, end), rest;
    MessageText(msg, body);
  }

  /** A request completes exactly on the well-formed messages, followed by any body. */
  lemma CompletesIff(s: Text, time: int)
    ensures var o := Parse(NEW_CONTEXT, s, time);
            o.ok && o.ctx.state == GotAll <==> exists msg, body :: WellFormed(msg) && s == HeaderText(msg) + body
  {
    var o := Parse(NEW_CONTEXT, s, time);
    if o.ok && o.ctx.state == GotAll {
      var msg, body := CompleteMessage(s, time);
    }
    forall msg, body | WellFormed(msg) && s == HeaderText(msg) + body ensures o.ok && o.ctx.state == GotAll {
      MessageIsParsed(msg, body, time);
    }
  }

  /** A request is refused exactly when the first line is complete and not a request line. */
  lemma RefusedIff(s: Text, time: int)
    ensures !Parse(NEW_CONTEXT, s, time).ok
       <==> exists line, rest :: OneLine(line) && s == line + CR_LF + rest
              && !exists m: Method, target: Text, v: Version ::
                   m != Invalid && v != Unknown && SPACE !in target && line == RequestLine(m, target, v)
  {
    var t := Turn(NEW_CONTEXT, s, time);
    if t.more {
      NeverRefusedLater(t.ctx, t.rest, time);
    }
    if FindCRLF(s).Some? {
      FirstLine(s);
      AcceptedIff(s[..FindCRLF(s).value]);
    }
    forall line, rest | OneLine(line) && s == line + CR_LF + rest
      ensures FindCRLF(s).Some? && s[..FindCRLF(s).value] == line
    {
      LineEnds(line, rest);
    }
  }

  // ---- parsing does not depend on how the bytes arrive ----

  lemma FindCRLFContinues(a: Text, b: Text)
    requires FindCRLF(a).Some?
    ensures FindCRLF(a + b) == FindCRLF(a)
    ensures (a + b)[..FindCRLF(a).value] == a[..FindCRLF(a).value]
    ensures DropFront(a + b, FindCRLF(a).value + 2) == DropFront(a, FindCRLF(a).value + 2) + b
  {
    var p, q := FindCRLF(a).value, FindCRLF(a + b);
    assert CRLFAt(a + b, p);
    assert q.Some? && q.value <= p;
    assert CRLFAt(a, q.value);
  }

  /** An iteration that goes on, or fails, does the same with more bytes behind. */
  lemma TurnContinues(c: Context, a: Text, b: Text, time: int)
    requires c.state != GotAll && (Turn(c, a, time).more || !Turn(c, a, time).ok)
    ensures Turn(c, a + b, time) == Turn(c, a, time).(rest := Turn(c, a, time).rest + b)
  {
    FindCRLFContinues(a, b);
  }

  /** An iteration that stops for want of bytes changes nothing. */
  lemma TurnStops(c: Context, a: Text, time: int)
    requires c.state != GotAll && !Turn(c, a, time).more && Turn(c, a, time).ok
    ensures Turn(c, a, time).ctx.state == GotAll || Turn(c, a, time) == TurnResult(c, a, true, false)
    ensures Turn(c, a, time).ctx.state == GotAll <==> c.state == ExpectBody
  {
  }

  function WithMoreBody(c: Context, b: Text): Context {
    c.(request := c.request.(body := c.request.body + b))
  }

  /** Parsing a longer input: from where parsing its front stopped. */
  lemma {:induction false} ParseContinues(c: Context, a: Text, b: Text, time: int)
    requires c.state != GotAll
    ensures var o := Parse(c, a, time);
            if !o.ok then Parse(c, a + b, time) == Outcome(o.ctx, o.rest + b, false)
            else if o.ctx.state == GotAll then Parse(c, a + b, time) == Outcome(WithMoreBody(o.ctx, b), [], true)
            else Parse(c, a + b, time) == Parse(o.ctx, o.rest + b, time)
    decreases |a|
  {
    var t := Turn(c, a, time);
    if t.more {
      TurnContinues(c, a, b, time);
      ParseContinues(t.ctx, t.rest, b, time);
    } else if !t.ok {
      TurnContinues(c, a, b, time);
    } else {
      TurnStops(c, a, time);
    }
  }

  /** Everything but the receive time. */
  function Timeless(c: Context): Context {
    c.(request := c.request.(receiveTime := 0))
  }

  function TimelessOutcome(o: Outcome): Outcome {
    o.(ctx := Timeless(o.ctx))
  }

  lemma LineIgnoresTime(r: Request, line: Text, time: int)
    ensures var u := ProcessLine(r.(receiveTime := time), line);
            u == LineResult(ProcessLine(r, line).request.(receiveTime := time), ProcessLine(r, line).ok)
  {
  }

  lemma TurnIgnoresTime(c: Context, d: Context, s: Text, time: int, time': int)
    requires c.state != GotAll && Timeless(c) == Timeless(d)
    ensures var t, u := Turn(c, s, time), Turn(d, s, time');
            Timeless(t.ctx) == Timeless(u.ctx) && t.rest == u.rest && t.ok == u.ok && t.more == u.more
  {
    assert d.request == c.request.(receiveTime := d.request.receiveTime);
    if c.state == ExpectRequestLine && FindCRLF(s).Some? {
      LineIgnoresTime(c.request, s[..FindCRLF(s).value], d.request.receiveTime);
    }
  }

  lemma {:induction false} ParseIgnoresTime(c: Context, d: Context, s: Text, time: int, time': int)
    requires c.state != GotAll && Timeless(c) == Timeless(d)
    ensures TimelessOutcome(Parse(c, s, time)) == TimelessOutcome(Parse(d, s, time'))
    decreases |s|
  {
    TurnIgnoresTime(c, d, s, time, time');
    var t, u := Turn(c, s, time), Turn(d, s, time');
    if t.more {
      ParseIgnoresTime(t.ctx, u.ctx, t.rest, time, time');
    }
  }

  /** Bytes that arrive together, and when. */
  datatype Arrival = Arrival(bytes: Text, time: int)

  function AllBytes(arrivals: seq<Arrival>): Text {
    if arrivals == [] then [] else arrivals[0].bytes + AllBytes(arrivals[1..])
  }

  /** One parseRequest per arrival, until the request is complete or refused. */
  datatype Fed = Fed(outcome: Outcome, unused: seq<Arrival>)

  function Feed(c: Context, buffered: Text, arrivals: seq<Arrival>): Fed
    requires c.state != GotAll
    decreases |arrivals|
  {
    if arrivals == [] then Fed(Outcome(c, buffered, true), [])
    else
      var o := Parse(c, buffered + arrivals[0].bytes, arrivals[0].time);
      if !o.ok || o.ctx.state == GotAll then Fed(o, arrivals[1..]) else Feed(o.ctx, o.rest, arrivals[1..])
  }

  /** Nothing in the buffer can be parsed yet. */
  predicate Waiting(c: Context, buffered: Text) {
    c.state != GotAll && Parse(c, buffered, 0) == Outcome(c, buffered, true)
  }

  lemma {:induction false} ParseLeavesWaiting(c: Context, s: Text, time: int)
    requires c.state != GotAll
    ensures var o := Parse(c, s, time); o.ok && o.ctx.state != GotAll ==> Waiting(o.ctx, o.rest)
    decreases |s|
  {
    var t := Turn(c, s, time);
    if t.more {
      ParseLeavesWaiting(t.ctx, t.rest, time);
    } else if t.ok {
      TurnStops(c, s, time);
      if t.ctx.state != GotAll {
        assert Turn(c, s, 0) == TurnResult(c, s, true, false);
      }
    }
  }

  /** The segmented outcome with the arrivals that were not used put behind it. */
  function Completed(f: Fed): Outcome {
    if f.outcome.ok && f.outcome.ctx.state == GotAll
    then Outcome(WithMoreBody(f.outcome.ctx, AllBytes(f.unused)), [], true)
    else Outcome(f.outcome.ctx, f.outcome.rest + AllBytes(f.unused), f.outcome.ok)
  }

  /**
   Segmentation independence: for every cut of every input, the outcome is that
   of one call on the whole, receive time apart; when the request completes before
   the input ends, the whole's body has the rest of the input behind it.
   */
  lemma {:induction false} FeedIsParse(c: Context, buffered: Text, arrivals: seq<Arrival>, time: int)
    requires Waiting(c, buffered)
    ensures TimelessOutcome(Completed(Feed(c, buffered, arrivals)))
         == TimelessOutcome(Parse(c, buffered + AllBytes(arrivals), time))
    decreases |arrivals|
  {
    if arrivals == [] {
      assert buffered + [] == buffered;
      ParseIgnoresTime(c, c, buffered, 0, time);
    } else {
      var first, rest := buffered + arrivals[0].bytes, AllBytes(arrivals[1..]);
      var o := Parse(c, first, arrivals[0].time);
      assert buffered + AllBytes(arrivals) == first + rest;
      ParseContinues(c, first, rest, arrivals[0].time);
      ParseIgnoresTime(c, c, first + rest, arrivals[0].time, time);
      if o.ok && o.ctx.state != GotAll {
        ParseLeavesWaiting(c, first, arrivals[0].time);
        FeedIsParse(o.ctx, o.rest, arrivals[1..], time);
        ParseIgnoresTime(o.ctx, o.ctx, o.rest + rest, arrivals[0].time, time);
      }
    }
  }

  lemma NewContextWaits()
    ensures Waiting(NEW_CONTEXT, [])
  {
    assert FindCRLF([]).None?;
    assert Turn(NEW_CONTEXT, [], 0) == TurnResult(NEW_CONTEXT, [], true, false);
  }

  lemma {:induction false} UnusedIsSuffix(c: Context, buffered: Text, arrivals: seq<Arrival>)
    requires c.state != GotAll
    ensures |Feed(c, buffered, arrivals).unused| <= |arrivals|
    ensures Feed(c, buffered, arrivals).unused == arrivals[|arrivals| - |Feed(c, buffered, arrivals).unused|..]
    decreases |arrivals|
  {
    if arrivals != [] {
      var o := Parse(c, buffered + arrivals[0].bytes, arrivals[0].time);
      if o.ok && o.ctx.state != GotAll {
        UnusedIsSuffix(o.ctx, o.rest, arrivals[1..]);
      }
    }
  }

  lemma SomeBytes(arrivals: seq<Arrival>)
    requires forall a <- arrivals :: a.bytes != []
    ensures AllBytes(arrivals) == [] <==> arrivals == []
  {
    assert arrivals != [] ==> arrivals[0] in arrivals;
  }

  /** If the whole has no body, nothing was left for after the completing arrival. */
  lemma CompletedByLast(f: Fed, whole: Outcome)
    requires TimelessOutcome(Completed(f)) == TimelessOutcome(whole)
    requires whole.ok && whole.ctx.state == GotAll && whole.ctx.request.body == []
    requires forall a <- f.unused :: a.bytes != []
    ensures f.unused == [] && f.outcome.ok && f.outcome.ctx.state == GotAll
    ensures Timeless(f.outcome.ctx) == Timeless(whole.ctx)
  {
    assert f.outcome.ok && f.outcome.ctx.state == GotAll;
    var body := f.outcome.ctx.request.body;
    assert body + AllBytes(f.unused) == Completed(f).ctx.request.body == [];
    SomeBytes(f.unused);
    assert body + [] == body;
  }

  lemma WholeIsParsed(msg: Message)
    requires WellFormed(msg)
    ensures var o := Parse(NEW_CONTEXT, HeaderText(msg), 0);
            o.ok && o.ctx.state == GotAll && o.ctx.request.body == [] && Represents(o.ctx.request, msg, [])
  {
    assert HeaderText(msg) + [] == HeaderText(msg);
    MessageIsParsed(msg, [], 0);
  }

  lemma TimelessRepresents(r: Request, q: Request, msg: Message, body: Text)
    requires r.(receiveTime := 0) == q.(receiveTime := 0) && Represents(q, msg, body)
    ensures Represents(r, msg, body)
  {
    assert q == r.(receiveTime := q.receiveTime);
  }

  /**
   For every cut of a well-formed header section into nonempty pieces: all calls but
   the last return true without completing, and the last one completes the request
   with the parts of the message.
   */
  lemma HeaderSectionUnderAnyCut(msg: Message, arrivals: seq<Arrival>)
    requires WellFormed(msg) && AllBytes(arrivals) == HeaderText(msg) && forall a <- arrivals :: a.bytes != []
    ensures var f := Feed(NEW_CONTEXT, [], arrivals);
            && f.unused == [] && f.outcome.ok && f.outcome.ctx.state == GotAll
            && Represents(f.outcome.ctx.request, msg, [])
  {
    var f, whole := Feed(NEW_CONTEXT, [], arrivals), Parse(NEW_CONTEXT, HeaderText(msg), 0);
    WholeIsParsed(msg);
    NewContextWaits();
    FeedIsParse(NEW_CONTEXT, [], arrivals, 0);
    UnusedIsSuffix(NEW_CONTEXT, [], arrivals);
    assert [] + AllBytes(arrivals) == HeaderText(msg);
    CompletedByLast(f, whole);
    TimelessRepresents(f.outcome.ctx.request, whole.ctx.request, msg, []);
  }

  // ---- a refused request line ----

  lemma FindSpaceInLine(line: Text)
    ensures SPACE in line <==> Find(line, SPACE) < |line|
  {
  }

  /** A failed iteration: the line stays, and the method is set if it was recognised. */
  lemma RefusedTurn(c: Context, s: Text, time: int)
    requires c.state != GotAll && SetMethodAsserts(c, s) && !Turn(c, s, time).ok
    ensures c.state == ExpectRequestLine && FindCRLF(s).Some?
    ensures var t, line := Turn(c, s, time), s[..FindCRLF(s).value];
            && t == TurnResult(Context(ExpectRequestLine, t.ctx.request), s, false, false)
            && (SPACE in line ==> t.ctx.request.method_ == MethodOf(line[..Find(line, SPACE)]))
            && (SPACE !in line ==> t.ctx.request == c.request)
  {
    FindSpaceInLine(s[..FindCRLF(s).value]);
  }

  /**
   After parseRequest has returned false, a further call on the same context, with
   any more bytes, trips the assertion in setMethod exactly when the refused line
   began with a method name; the line is still in the buffer.
   */
  lemma RefusedLineTripsIff(c: Context, s: Text, time: int, more: Text)
    requires c.state != GotAll && SetMethodAsserts(c, s) && !Parse(c, s, time).ok
    ensures var o := Parse(c, s, time);
            c.state == o.ctx.state == ExpectRequestLine && o.rest == s && FindCRLF(s).Some?
    ensures var o, line := Parse(c, s, time), s[..FindCRLF(s).value];
            !SetMethodAsserts(o.ctx, o.rest + more) <==> SPACE in line && MethodOf(line[..Find(line, SPACE)]) != Invalid
  {
    var t := Turn(c, s, time);
    if t.more {
      NeverRefusedLater(t.ctx, t.rest, time);
    } else {
      RefusedTurn(c, s, time);
      FindCRLFContinues(s, more);
    }
  }

  /** Past the request line, parsing never returns false. */
  lemma {:induction false} NeverRefusedLater(c: Context, s: Text, time: int)
    requires c.state in {ExpectHeaders, ExpectBody}
    ensures Parse(c, s, time).ok
    decreases |s|
  {
    var t := Turn(c, s, time);
    if t.more {
      NeverRefusedLater(t.ctx, t.rest, time);
    }
  }

  // ---- stored headers ----

  predicate BlankOrSpaced(v: Text) {
    v != [] ==> IsSpace(v[0])
  }

  predicate HeadersSpaced(r: Request) {
    forall name <- r.headers :: BlankOrSpaced(r.headers[name])
  }

  lemma AfterMethodKeepsHeaders(r: Request, rest: Text)
    ensures AfterMethod(r, rest).request.headers == r.headers
  {
    var sp := Find(rest, SPACE);
    if sp < |rest| {
      var targeted := WithTarget(r, rest[..sp]);
      assert targeted.headers == r.headers;
      assert WithVersion(targeted, rest[sp + 1..]).request.headers == targeted.headers;
    }
  }

  lemma LineKeepsHeaders(r: Request, line: Text)
    ensures ProcessLine(r, line).request.headers == r.headers
  {
    var sp := Find(line, SPACE);
    if sp < |line| {
      AfterMethodKeepsHeaders(r.(method_ := MethodOf(line[..sp])), line[sp + 1..]);
    }
  }

  lemma HeaderKeepsSpaced(r: Request, line: Text, colon: nat)
    requires HeadersSpaced(r) && colon < |line|
    ensures HeadersSpaced(WithHeader(r, line, colon))
  {
    StoredValueShape(line[colon + 1..]);
  }

  lemma TurnKeepsHeadersSpaced(c: Context, s: Text, time: int)
    requires HeadersSpaced(c.request)
    ensures HeadersSpaced(Turn(c, s, time).ctx.request)
  {
    if FindCRLF(s).Some? && c.state == ExpectRequestLine {
      LineKeepsHeaders(c.request, s[..FindCRLF(s).value]);
    } else if FindCRLF(s).Some? && c.state == ExpectHeaders {
      var line := s[..FindCRLF(s).value];
      if Find(line, COLON) < |line| {
        HeaderKeepsSpaced(c.request, line, Find(line, COLON));
      }
    }
  }

  /** Whatever is parsed, a stored header value is empty or starts with white space. */
  lemma {:induction false} ParseKeepsHeadersSpaced(c: Context, s: Text, time: int)
    requires c.state != GotAll && HeadersSpaced(c.request)
    ensures HeadersSpaced(Parse(c, s, time).ctx.request)
    decreases |s|
  {
    TurnKeepsHeadersSpaced(c, s, time);
    var t := Turn(c, s, time);
    if t.more {
      ParseKeepsHeadersSpaced(t.ctx, t.rest, time);
    }
  }

  // ---- the object ----

  class HttpContext {
    var state: ParseState
    var request: Request

    function View(): Context
      reads this
    {
      Context(state, request)
    }

    constructor ()
      ensures View() == NEW_CONTEXT
    {
      state, request := ExpectRequestLine, NEW_REQUEST;
    }

    method Reset()
      modifies this
      ensures View() == NEW_CONTEXT
    {
      state, request := ExpectRequestLine, NEW_REQUEST;
    }

    /** Lines 16-23: path, and query if there is a question mark. */
    method SetTarget(target: Text)
      modifies this`request
      ensures request == WithTarget(old(request), target)
    {
      var question := Find(target, QUESTION);
      if question != |target| {
        request := request.(path := target[..question]);
        request := request.(query := target[question..]);
      } else {
        request := request.(path := target);
      }
    }

    /** Lines 24-36: only HTTP/1.0 and HTTP/1.1. */
    method SetVersion(version: Text) returns (succeed: bool)
      modifies this`request
      ensures LineResult(request, succeed) == WithVersion(old(request), version)
    {
      succeed := |version| == 8 && version[..7] == HTTP_1;
      if succeed {
        if version[7] == ONE {
          request := request.(version := Http11);
        } else if version[7] == ZERO {
          request := request.(version := Http10);
        } else {
          succeed := false;
        }
      }
    }

    method ProcessRequestLine(line: Text) returns (succeed: bool)
      requires SPACE in line ==> request.method_ == Invalid
      modifies this`request
      ensures LineResult(request, succeed) == ProcessLine(old(request), line)
    {
      succeed := false;
      var space := Find(line, SPACE);
      if space != |line| {
        request := request.(method_ := MethodOf(line[..space]));
        if request.method_ != Invalid {
          var rest := line[space + 1..];
          space := Find(rest, SPACE);
          if space != |rest| {
            SetTarget(rest[..space]);
            succeed := SetVersion(rest[space + 1..]);
          }
        }
      }
    }

    /** The loop: on entry the previous request must have been taken away. */
    method ParseRequest(buf: Buffer, receiveTime: int) returns (ok: bool)
      requires buf.Valid() && state != GotAll && SetMethodAsserts(View(), buf.Contents())
      modifies this, buf`readerIndex, buf`writerIndex
      ensures buf.Valid()
      ensures Outcome(View(), buf.Contents(), ok) == Parse(old(View()), old(buf.Contents()), receiveTime)
    {
      ok := true;
      var hasMore := true;
      ghost var whole := Parse(View(), buf.Contents(), receiveTime);
      while hasMore
        invariant buf.Valid()
        invariant hasMore ==> ok && state != GotAll && Parse(View(), buf.Contents(), receiveTime) == whole
        invariant hasMore ==> SetMethodAsserts(View(), buf.Contents())
        invariant !hasMore ==> Outcome(View(), buf.Contents(), ok) == whole
        decreases hasMore, |buf.Contents()|
      {
        ghost var t := Turn(View(), buf.Contents(), receiveTime);
        ok, hasMore := OneTurn(buf, receiveTime);
        assert TurnResult(View(), buf.Contents(), ok, hasMore) == t;
      }
    }

    method OneTurn(buf: Buffer, receiveTime: int) returns (ok: bool, hasMore: bool)
      requires buf.Valid() && state != GotAll && SetMethodAsserts(View(), buf.Contents())
      modifies this, buf`readerIndex, buf`writerIndex
      ensures buf.Valid()
      ensures TurnResult(View(), buf.Contents(), ok, hasMore) == Turn(old(View()), old(buf.Contents()), receiveTime)
    {
      if state == ExpectRequestLine {
        ok, hasMore := RequestLineTurn(buf, receiveTime);
      } else if state == ExpectHeaders {
        ok := true;
        hasMore := HeaderTurn(buf, receiveTime);
      } else {
        request := request.(body := buf.Contents());
        buf.RetrieveAll();
        ok, hasMore := true, false;
        state := GotAll;
      }
    }

    method RequestLineTurn(buf: Buffer, receiveTime: int) returns (ok: bool, hasMore: bool)
      requires buf.Valid() && state == ExpectRequestLine && SetMethodAsserts(View(), buf.Contents())
      modifies this, buf`readerIndex, buf`writerIndex
      ensures buf.Valid()
      ensures TurnResult(View(), buf.Contents(), ok, hasMore) == Turn(old(View()), old(buf.Contents()), receiveTime)
    {
      ok, hasMore := true, true;
      var crlf := FindCRLF(buf.Contents());
      if crlf.Some? {
        ok := ProcessRequestLine(buf.Contents()[..crlf.value]);
        if ok {
          request := request.(receiveTime := receiveTime);
          buf.Retrieve(crlf.value + 2);
          state := ExpectHeaders;
        } else {
          hasMore := false;
        }
      } else {
        hasMore := false;
      }
    }

    method HeaderTurn(buf: Buffer, ghost receiveTime: int) returns (hasMore: bool)
      requires buf.Valid() && state == ExpectHeaders
      modifies this, buf`readerIndex, buf`writerIndex
      ensures buf.Valid()
      ensures TurnResult(View(), buf.Contents(), true, hasMore) == Turn(old(View()), old(buf.Contents()), receiveTime)
    {
      hasMore := true;
      var crlf := FindCRLF(buf.Contents());
      if crlf.Some? {
        var line := buf.Contents()[..crlf.value];
        var colon := Find(line, COLON);
        if colon != |line| {
          request := AddHeader(request, line, colon);
        } else {
          state := ExpectBody;
        }
        buf.Retrieve(crlf.value + 2);
      } else {
        hasMore := false;
      }
    }
  }
}
