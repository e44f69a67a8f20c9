/** A parsed HTTP request: a copyable value, filled field by field. */
module HttpRequest {
  import opened Endian

  datatype Method = Invalid | Get | Post | Head | Put | Delete

  datatype Version = Unknown | Http10 | Http11

  type Text = seq<byte>

  datatype Request = Request(
    method_: Method,
    version: Version,
    path: Text,
    query: Text,
    receiveTime: int,
    headers: map<Text, Text>,
    body: Text
  )

  const NEW_REQUEST := Request(Invalid, Unknown, [], [], 0, map[], [])

  const GET: Text := [71, 69, 84]
  const POST: Text := [80, 79, 83, 84]
  const HEAD: Text := [72, 69, 65, 68]
  const PUT: Text := [80, 85, 84]
  const DELETE: Text := [68, 69, 76, 69, 84, 69]

  /** setMethod: the names are case-sensitive, and anything else is invalid. */
  function MethodOf(name: Text): Method {
    if name == GET then Get
    else if name == POST then Post
    else if name == HEAD then Head
    else if name == PUT then Put
    else if name == DELETE then Delete
    else Invalid
  }

  /** methodToString, for the methods that can be set. */
  function MethodName(m: Method): Text
    requires m != Invalid
  {
    match m
    case Get => GET
    case Post => POST
    case Head => HEAD
    case Put => PUT
    case Delete => DELETE
  }

  const SPACE: byte := 32

  lemma MethodNames(m: Method, name: Text)
    requires m != Invalid
    ensures MethodOf(name) == m <==> name == MethodName(m)
    ensures SPACE !in MethodName(m)
  {
    assert GET[0] == 71 && POST[0] == 80 && HEAD[0] == 72 && PUT[0] == 80 && DELETE[0] == 68;
    assert POST[1] == 79 && PUT[1] == 85;
  }

  // ---- header fields ----

  /** isspace in the C locale. */
  predicate IsSpace(c: byte) {
    c == 32 || 9 <= c <= 13
  }

  /** Where the run of non-space bytes at the front ends. */
  function FirstSpace(s: Text): (k: nat)
    ensures k <= |s| && (k < |s| ==> IsSpace(s[k]))
    ensures forall i | 0 <= i < k :: !IsSpace(s[i])
  {
    if s == [] || IsSpace(s[0]) then 0 else FirstSpace(s[1..]) + 1
  }

  function TrimRight(s: Text): (r: Text)
    ensures r <= s && (r != [] ==> !IsSpace(r[|r| - 1]))
    ensures forall i | |r| <= i < |s| :: IsSpace(s[i])
  {
    if s != [] && IsSpace(s[|s| - 1]) then TrimRight(s[..|s| - 1]) else s
  }

  function TrimLeft(s: Text): (r: Text)
    ensures r != [] ==> !IsSpace(r[0])
    ensures r == [] <==> forall c <- s :: IsSpace(c)
  {
    if s != [] && IsSpace(s[0]) then TrimLeft(s[1..]) else s
  }

  /** What addHeader stores for the text after the colon: it skips up to the first space, not past it. */
  function StoredValue(tail: Text): Text {
    TrimRight(tail[FirstSpace(tail)..])
  }

  /** The field value without the whitespace around it (section 3.2 of RFC 7230). */
  function FieldValue(tail: Text): Text {
    TrimRight(TrimLeft(tail))
  }

  lemma {:induction false} TrimRightEmpty(s: Text)
    ensures TrimRight(s) == [] <==> forall c <- s :: IsSpace(c)
  {
    if s != [] {
      assert s == s[..|s| - 1] + [s[|s| - 1]];
      TrimRightEmpty(s[..|s| - 1]);
      assert s[|s| - 1] in s;
    }
  }

  /** A stored value is empty or starts with white space. */
  lemma StoredValueShape(tail: Text)
    ensures StoredValue(tail) != [] ==> IsSpace(StoredValue(tail)[0])
  {
    var rest := tail[FirstSpace(tail)..];
    assert TrimRight(rest) != [] ==> rest[0] == tail[FirstSpace(tail)];
  }

  /** The stored value is the field value exactly when the field is blank. */
  lemma StoredIsFieldValueIff(tail: Text)
    ensures StoredValue(tail) == FieldValue(tail) <==> forall c <- tail :: IsSpace(c)
  {
    var trimmed := TrimLeft(tail);
    if trimmed == [] {
      assert tail[FirstSpace(tail)..] == tail by { assert tail != [] ==> tail[0] in tail; }
      TrimRightEmpty(tail);
    } else {
      TrimRightEmpty(trimmed);
      assert trimmed[0] in trimmed;
      assert FieldValue(tail) != [] && FieldValue(tail)[0] == trimmed[0];
      StoredValueShape(tail);
    }
  }

  lemma {:induction false} FirstSpaceAfter(word: Text, rest: Text)
    requires (forall c <- word :: !IsSpace(c)) && (rest != [] ==> IsSpace(rest[0]))
    ensures FirstSpace(word + rest) == |word|
  {
    if word == [] {
      assert word + rest == rest;
    } else {
      assert word[0] in word && (word + rest)[1..] == word[1..] + rest;
      FirstSpaceAfter(word[1..], rest);
    }
  }

  lemma {:induction false} TrimRightDrops(value: Text, blanks: Text)
    requires (value != [] ==> !IsSpace(value[|value| - 1])) && forall c <- blanks :: IsSpace(c)
    ensures TrimRight(value + blanks) == value
  {
    var s := value + blanks;
    if blanks == [] {
      assert s == value;
    } else {
      assert s[|s| - 1] == blanks[|blanks| - 1] && blanks[|blanks| - 1] in blanks;
      assert s[..|s| - 1] == value + blanks[..|blanks| - 1];
      TrimRightDrops(value, blanks[..|blanks| - 1]);
    }
  }

  /** The text after the colon, cut into a word, what is stored, and the white space behind it. */
  predicate StoredParts(tail: Text, word: Text, value: Text, blanks: Text) {
    && tail == word + value + blanks
    && (forall c <- word :: !IsSpace(c)) && (forall c <- blanks :: IsSpace(c))
    && (value != [] ==> IsSpace(value[0]) && !IsSpace(value[|value| - 1]))
  }

  lemma StoredValueOfParts(tail: Text, word: Text, value: Text, blanks: Text)
    requires StoredParts(tail, word, value, blanks)
    ensures StoredValue(tail) == value
  {
    var rest := value + blanks;
    assert tail == word + rest;
    assert value == [] && blanks != [] ==> blanks[0] in blanks;
    FirstSpaceAfter(word, rest);
    TrimRightDrops(value, blanks);
  }

  lemma CutTwice(tail: Text, k: nat, value: Text)
    requires k <= |tail| && value <= tail[k..]
    ensures tail == tail[..k] + value + tail[k + |value|..]
  {
  }

  lemma BlanksBehind(rest: Text)
    ensures forall c <- rest[|TrimRight(rest)|..] :: IsSpace(c)
  {
  }

  lemma PartsOfText(tail: Text)
    ensures exists word, blanks :: StoredParts(tail, word, StoredValue(tail), blanks)
  {
    var k, value := FirstSpace(tail), StoredValue(tail);
    var blanks := tail[k + |value|..];
    CutTwice(tail, k, value);
    BlanksBehind(tail[k..]);
    assert tail[k..][|value|..] == blanks;
    StoredValueShape(tail);
    assert StoredParts(tail, tail[..k], value, blanks);
  }

  /** Every text is cut in just one way, and the part in the middle is the stored value. */
  lemma StoredValueIff(tail: Text, value: Text)
    ensures StoredValue(tail) == value <==> exists word, blanks :: StoredParts(tail, word, value, blanks)
  {
    PartsOfText(tail);
    forall word, blanks | StoredParts(tail, word, value, blanks) ensures StoredValue(tail) == value {
      StoredValueOfParts(tail, word, value, blanks);
    }
  }

  /** addHeader: the name up to the colon, the value after it; a repeated name is overwritten. */
  function WithHeader(r: Request, line: Text, colon: nat): Request
    requires colon < |line|
  {
    r.(headers := r.headers[line[..colon] := StoredValue(line[colon + 1..])])
  }

  method AddHeader(r: Request, line: Text, colon: nat) returns (r': Request)
    requires colon < |line|
    ensures r' == WithHeader(r, line, colon)
  {
    var fieldName := line[..colon];
    var tail := line[colon + 1..];
    var p := 0;
    while p < |tail| && !IsSpace(tail[p])
      invariant 0 <= p <= |tail| && p + FirstSpace(tail[p..]) == FirstSpace(tail)
    {
      assert tail[p..][1..] == tail[p + 1..];
      p := p + 1;
    }
    var fieldValue := tail[p..];
    while fieldValue != [] && IsSpace(fieldValue[|fieldValue| - 1])
      invariant TrimRight(fieldValue) == StoredValue(tail)
      decreases |fieldValue|
    {
      fieldValue := fieldValue[..|fieldValue| - 1];
    }
    r' := r.(headers := r.headers[fieldName := fieldValue]);
  }

  function GetHeader(r: Request, name: Text): Text {
    if name in r.headers then r.headers[name] else []
  }
}
