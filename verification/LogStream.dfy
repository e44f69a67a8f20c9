/** Integer formatting into fixed-size log buffers. */
module LogStream {
  import opened Sequences

  const MAX_NUMERIC_SIZE: nat := 32

  // digits[9 + d] is the character of the digit |d|, for d from -9 to 9
  const DIGITS := "9876543210123456789"
  const ZERO: nat := 9
  const DIGITS_HEX := "0123456789ABCDEF"

  // ---- numerals ----

  predicate Base(b: nat) {
    b == 10 || b == 16
  }

  function DigitChar(d: nat): char
    requires d < 16
  {
    DIGITS_HEX[d]
  }

  /** The numeral of n, most significant digit first, without leading zeros. */
  function Numeral(b: nat, n: nat): (s: string)
    requires Base(b)
    ensures s != ""
  {
    if n < b then [DigitChar(n)] else Numeral(b, Quotient(b, n)) + [DigitChar(LastDigit(b, n))]
  }

  // division by the two bases, written out so that it stays linear
  function Quotient(b: nat, n: nat): (q: nat)
    requires Base(b)
    ensures n >= b ==> 0 < q < n
    ensures n < b ==> q == 0
  {
    if b == 10 then n / 10 else n / 16
  }

  function LastDigit(b: nat, n: nat): (d: nat)
    requires Base(b)
    ensures d < b
  {
    if b == 10 then n % 10 else n % 16
  }

  function Shifted(b: nat, n: nat): nat {
    if b == 10 then 10 * n else 16 * n
  }

  function Decimal(v: int): string
  {
    if v < 0 then "-" + Magnitude(v) else Magnitude(v)
  }

  function Magnitude(v: int): string {
    Numeral(10, Abs(v))
  }

  function Abs(v: int): nat {
    if v < 0 then -v else v
  }

  function Hex(n: nat): string {
    Numeral(16, n)
  }

  function DigitValue(c: char): Option<nat> {
    if '0' <= c <= '9' then Some((c - '0') as nat)
    else if 'A' <= c <= 'F' then Some((c - 'A') as nat + 10)
    else None
  }

  predicate IsDigit(b: nat, c: char) {
    DigitValue(c).Some? && DigitValue(c).value < b
  }

  predicate AllDigits(b: nat, s: string) {
    forall i | 0 <= i < |s| :: IsDigit(b, s[i])
  }

  /** The value of the first k digits. */
  function ValueUpTo(b: nat, s: string, k: nat): nat
    requires Base(b) && AllDigits(b, s) && k <= |s|
  {
    if k == 0 then 0 else Shifted(b, ValueUpTo(b, s, k - 1)) + DigitValue(s[k - 1]).value
  }

  /** Reads a numeral, leading zeros allowed. */
  function Value(b: nat, s: string): nat
    requires Base(b) && AllDigits(b, s)
  {
    ValueUpTo(b, s, |s|)
  }

  lemma {:induction false} ValueOfPrefix(b: nat, s: string, t: string, k: nat)
    requires Base(b) && AllDigits(b, s) && AllDigits(b, t) && k <= |s| && k <= |t|
    requires forall i | 0 <= i < k :: s[i] == t[i]
    ensures ValueUpTo(b, s, k) == ValueUpTo(b, t, k)
  {
    if k > 0 {
      ValueOfPrefix(b, s, t, k - 1);
    }
  }

  /** The one way to write a natural number: no leading zero, except "0" itself. */
  predicate CanonicalNumeral(b: nat, s: string) {
    s != "" && AllDigits(b, s) && (s[0] == '0' ==> |s| == 1)
  }

  predicate CanonicalDecimal(s: string) {
    if s != "" && s[0] == '-' then CanonicalNumeral(10, s[1..]) && s[1] != '0' else CanonicalNumeral(10, s)
  }

  function ParseDecimal(s: string): int
    requires CanonicalDecimal(s)
  {
    if s[0] == '-' then 0 - Value(10, s[1..]) else Value(10, s)
  }

  lemma DigitCharValue(d: nat)
    requires d < 16
    ensures DigitValue(DigitChar(d)) == Some(d) && (DigitChar(d) == '0' <==> d == 0) && DigitChar(d) != '-'
  {
  }

  lemma QuotientAndDigit(b: nat, n: nat)
    requires Base(b)
    ensures n == Shifted(b, Quotient(b, n)) + LastDigit(b, n)
    ensures n < b ==> LastDigit(b, n) == n
  {
  }

  lemma SnocDigits(b: nat, s: string, d: nat)
    requires Base(b) && d < b && AllDigits(b, s)
    ensures AllDigits(b, s + [DigitChar(d)]) && Value(b, s + [DigitChar(d)]) == Shifted(b, Value(b, s)) + d
  {
    DigitCharValue(d);
    ValueOfPrefix(b, s + [DigitChar(d)], s, |s|);
  }

  lemma {:induction false} NumeralIsCanonical(b: nat, n: nat)
    requires Base(b)
    ensures CanonicalNumeral(b, Numeral(b, n)) && Value(b, Numeral(b, n)) == n
    ensures Numeral(b, n)[0] == '0' <==> n == 0
    ensures Numeral(b, n)[0] != '-'
    decreases n
  {
    var d := LastDigit(b, n);
    QuotientAndDigit(b, n);
    DigitCharValue(d);
    if n < b {
      assert ValueUpTo(b, [DigitChar(d)], 0) == 0;
    } else {
      NumeralIsCanonical(b, Quotient(b, n));
      SnocDigits(b, Numeral(b, Quotient(b, n)), d);
    }
  }

  lemma CharOfDigit(c: char)
    requires DigitValue(c).Some?
    ensures DigitValue(c).value < 16 && DigitChar(DigitValue(c).value) == c
  {
  }

  lemma ValueNext(b: nat, s: string, k: nat)
    requires Base(b) && AllDigits(b, s) && k < |s|
    ensures DigitValue(s[k]).Some? && DigitValue(s[k]).value < b && DigitChar(DigitValue(s[k]).value) == s[k]
    ensures ValueUpTo(b, s, k + 1) == Shifted(b, ValueUpTo(b, s, k)) + DigitValue(s[k]).value
  {
    assert IsDigit(b, s[k]);
    CharOfDigit(s[k]);
  }

  lemma {:induction false} PrefixPositive(b: nat, s: string, k: nat)
    requires Base(b) && AllDigits(b, s) && 1 <= k <= |s| && s[0] != '0'
    ensures ValueUpTo(b, s, k) > 0
  {
    ValueNext(b, s, k - 1);
    if k > 1 {
      PrefixPositive(b, s, k - 1);
    }
  }

  lemma ShiftedApart(b: nat, hi: nat, d: nat, hi': nat, d': nat)
    requires Base(b) && d < b && d' < b && Shifted(b, hi) + d == Shifted(b, hi') + d'
    ensures hi == hi' && d == d'
  {
  }

  /** Without leading zeros, digits of the same value are the same. */
  lemma {:induction false} SameDigits(b: nat, s: string, k: nat, t: string, l: nat)
    requires Base(b) && AllDigits(b, s) && AllDigits(b, t) && k <= |s| && l <= |t|
    requires (k > 0 ==> s[0] != '0') && (l > 0 ==> t[0] != '0')
    requires ValueUpTo(b, s, k) == ValueUpTo(b, t, l)
    ensures s[..k] == t[..l]
  {
    if k == 0 && l > 0 {
      PrefixPositive(b, t, l);
    } else if k > 0 && l == 0 {
      PrefixPositive(b, s, k);
    } else if k > 0 {
      ValueNext(b, s, k - 1);
      ValueNext(b, t, l - 1);
      ShiftedApart(b, ValueUpTo(b, s, k - 1), DigitValue(s[k - 1]).value,
                   ValueUpTo(b, t, l - 1), DigitValue(t[l - 1]).value);
      SameDigits(b, s, k - 1, t, l - 1);
      TakeSnoc(s, k - 1);
      TakeSnoc(t, l - 1);
    }
  }

  /** The converse: a canonical numeral is the numeral of its value. */
  lemma CanonicalIsNumeral(b: nat, s: string)
    requires Base(b) && CanonicalNumeral(b, s)
    ensures Numeral(b, Value(b, s)) == s
  {
    var t := Numeral(b, Value(b, s));
    NumeralIsCanonical(b, Value(b, s));
    if s[0] == '0' {
      assert ValueUpTo(b, s, 1) == Shifted(b, ValueUpTo(b, s, 0)) == 0;
    } else {
      PrefixPositive(b, s, |s|);
      SameDigits(b, s, |s|, t, |t|);
      assert s[..|s|] == s && t[..|t|] == t;
    }
  }

  /** Printing then parsing returns every value, the most negative ones included. */
  lemma DecimalRoundTrip(v: int)
    ensures CanonicalDecimal(Decimal(v)) && ParseDecimal(Decimal(v)) == v
  {
    NumeralIsCanonical(10, if v < 0 then -v else v);
    if v < 0 {
      assert Decimal(v)[1..] == Numeral(10, -v);
    }
  }

  /** Parsing then printing returns every canonical string, so there is only one per value. */
  lemma ParseRoundTrip(s: string)
    requires CanonicalDecimal(s)
    ensures Decimal(ParseDecimal(s)) == s
  {
    if s[0] == '-' {
      CanonicalIsNumeral(10, s[1..]);
      assert s == "-" + s[1..];
    } else {
      CanonicalIsNumeral(10, s);
    }
  }

  lemma HexRoundTrip(n: nat)
    ensures CanonicalNumeral(16, Hex(n)) && Value(16, Hex(n)) == n
  {
    NumeralIsCanonical(16, n);
  }

  function Pow(b: nat, k: nat): nat
    requires Base(b)
  {
    if k == 0 then 1 else Shifted(b, Pow(b, k - 1))
  }

  /** A numeral of at most k digits is exactly one below b^k. */
  lemma {:induction false} NumeralLength(b: nat, n: nat, k: nat)
    requires Base(b) && k > 0
    ensures |Numeral(b, n)| <= k <==> n < Pow(b, k)
    decreases k
  {
    if k == 1 {
      assert Pow(b, 1) == Shifted(b, Pow(b, 0)) == b;
    } else {
      NumeralLength(b, Quotient(b, n), k - 1);
      PowPositive(b, k - 1);
      assert Pow(b, k) == Shifted(b, Pow(b, k - 1));
      assert Quotient(b, n) < Pow(b, k - 1) <==> n < Shifted(b, Pow(b, k - 1));
    }
  }

  lemma {:induction false} PowPositive(b: nat, k: nat)
    requires Base(b)
    ensures Pow(b, k) > 0
  {
    if k > 0 {
      PowPositive(b, k - 1);
    }
  }

  lemma PowersOfTen()
    ensures Pow(10, 19) == 10_000_000_000_000_000_000 && Pow(10, 20) == 100_000_000_000_000_000_000
  {
    assert Pow(10, 2) == 100;
    assert Pow(10, 4) == 10_000;
    assert Pow(10, 6) == 1_000_000;
    assert Pow(10, 8) == 100_000_000;
    assert Pow(10, 10) == 10_000_000_000;
    assert Pow(10, 12) == 1_000_000_000_000;
    assert Pow(10, 14) == 100_000_000_000_000;
    assert Pow(10, 16) == 10_000_000_000_000_000;
    assert Pow(10, 18) == 1_000_000_000_000_000_000;
  }

  // The widest types the stream formats.
  predicate Is64Bit(v: int) {
    -0x8000_0000_0000_0000 <= v < 0x1_0000_0000_0000_0000
  }

  /** Every 64-bit value, with sign and terminator, fits the space formatInteger asks for. */
  lemma DecimalFits(v: int)
    requires Is64Bit(v)
    ensures |Decimal(v)| + 1 <= 21 <= MAX_NUMERIC_SIZE
  {
    if v < 0 {
      PowersOfTen();
      NumeralLength(10, -v, 19);
    } else {
      PowersOfTen();
      NumeralLength(10, v, 20);
    }
  }

  lemma HexFits(n: nat)
    requires n < 0x1_0000_0000_0000_0000
    ensures |"0x" + Hex(n)| + 1 <= 19 <= MAX_NUMERIC_SIZE
  {
    assert Pow(16, 2) == 0x100;
    assert Pow(16, 4) == 0x1_0000;
    assert Pow(16, 6) == 0x100_0000;
    assert Pow(16, 8) == 0x1_0000_0000;
    assert Pow(16, 10) == 0x100_0000_0000;
    assert Pow(16, 12) == 0x1_0000_0000_0000;
    assert Pow(16, 14) == 0x100_0000_0000_0000;
    assert Pow(16, 16) == 0x1_0000_0000_0000_0000;
    NumeralLength(16, n, 16);
  }

  // ---- the conversion loop ----

  /** C++ integer division: toward zero, with the remainder's sign that of the dividend. */
  function TruncDiv(a: int, b: nat): int
    requires b > 0
  {
    if a >= 0 then a / b else -((-a) / b)
  }

  function TruncMod(a: int, b: nat): int
    requires b > 0
  {
    a - b * TruncDiv(a, b)
  }

  function Backwards(s: string): (r: string)
    ensures |r| == |s|
    ensures forall i | 0 <= i < |s| :: r[i] == s[|s| - 1 - i]
  {
    seq(|s|, i requires 0 <= i < |s| => s[|s| - 1 - i])
  }

  lemma BackwardsIs(s: string, t: string)
    requires |s| == |t| && forall i | 0 <= i < |s| :: t[i] == s[|s| - 1 - i]
    ensures t == Backwards(s)
  {
  }

  // ---- writing into the array ----

  lemma OverAppend(s: string, at: nat, t: string, c: char)
    requires at + |t| < |s|
    ensures Over(s, at, t)[at + |t| := c] == Over(s, at, t + [c])
  {
  }

  lemma OverNothing(s: string, at: nat)
    requires at <= |s|
    ensures Over(s, at, "") == s
  {
  }

  /** std::reverse on a range of the array. */
  method ReverseRange(buf: array<char>, lo: nat, hi: nat)
    requires lo <= hi <= buf.Length
    modifies buf
    ensures buf[..] == Over(old(buf[..]), lo, Backwards(old(buf[lo..hi])))
  {
    var i, j := lo, hi;
    while i + 1 < j
      invariant lo <= i && j <= hi && i + j == lo + hi && i <= j
      invariant forall k | lo <= k < i || j <= k < hi :: buf[k] == old(buf[lo + hi - 1 - k])
      invariant forall k | i <= k < j || 0 <= k < lo || hi <= k < buf.Length :: buf[k] == old(buf[k])
    {
      j := j - 1;
      buf[i], buf[j] := buf[j], buf[i];
      i := i + 1;
    }
  }

  lemma BackwardsSnoc(s: string, c: char)
    ensures Backwards(s + [c]) == [c] + Backwards(s)
  {
    BackwardsIs(s + [c], [c] + Backwards(s));
  }

  lemma BackwardsTwice(s: string)
    ensures Backwards(Backwards(s)) == s
  {
    BackwardsIs(Backwards(s), s);
  }

  /** Reading a numeral from its last digit. */
  lemma BackwardsNumeral(b: nat, n: nat)
    requires Base(b)
    ensures Backwards(Numeral(b, n))
         == [DigitChar(LastDigit(b, n))] + (if Quotient(b, n) == 0 then "" else Backwards(Numeral(b, Quotient(b, n))))
  {
    QuotientAndDigit(b, n);
    if n >= b {
      BackwardsSnoc(Numeral(b, Quotient(b, n)), DigitChar(LastDigit(b, n)));
    }
  }

  lemma BackwardsMagnitude(v: int)
    ensures Backwards(Magnitude(v))
         == [DigitChar(Abs(v) % 10)] + (if Abs(v) / 10 == 0 then "" else Backwards(Magnitude(Abs(v) / 10)))
    ensures Magnitude(-(Abs(v) / 10)) == Magnitude(Abs(v) / 10)
  {
    BackwardsNumeral(10, Abs(v));
  }

  lemma BackwardsHex(n: nat)
    ensures Backwards(Hex(n)) == [DigitChar(n % 16)] + (if n / 16 == 0 then "" else Backwards(Hex(n / 16)))
  {
    BackwardsNumeral(16, n);
  }

  /** One turn of the decimal loop: the last digit's character, and the value without it. */
  method SplitLastDigit(v: int) returns (c: char, rest: int)
    ensures c == DigitChar(Abs(v) % 10) && Abs(rest) == Abs(v) / 10
  {
    var lsd := TruncMod(v, 10);
    assert Abs(v) == 10 * (Abs(v) / 10) + Abs(v) % 10;
    assert lsd == if v >= 0 then Abs(v) % 10 else -(Abs(v) % 10);
    c, rest := DIGITS[ZERO + lsd], TruncDiv(v, 10);
  }

  /** One digit moves from what is left of the numeral to what is written. */
  lemma DigitStep(written: string, v: int)
    ensures var c := DigitChar(Abs(v) % 10);
            written + Backwards(Magnitude(v))
            == written + [c] + (if Abs(v) / 10 == 0 then "" else Backwards(Magnitude(Abs(v) / 10)))
  {
    BackwardsMagnitude(v);
    Associative(written, [DigitChar(Abs(v) % 10)], if Abs(v) / 10 == 0 then "" else Backwards(Magnitude(Abs(v) / 10)));
  }

  lemma HexDigitStep(written: string, n: nat)
    ensures var c := DigitChar(n % 16);
            written + Backwards(Hex(n)) == written + [c] + (if n / 16 == 0 then "" else Backwards(Hex(n / 16)))
  {
    BackwardsHex(n);
    Associative(written, [DigitChar(n % 16)], if n / 16 == 0 then "" else Backwards(Hex(n / 16)));
  }

  /** The do-while loop: the remainders are negative for negative values, and so is the table. */
  method PutDigits(buf: array<char>, at: nat, value: int) returns (p: nat)
    requires at + |Magnitude(value)| <= buf.Length
    modifies buf
    ensures p == at + |Magnitude(value)|
    ensures buf[..] == Over(old(buf[..]), at, Backwards(Magnitude(value)))
  {
    var i, more := value, true;
    p := at;
    ghost var all, written := Backwards(Magnitude(value)), "";
    OverNothing(buf[..], at);
    while more
      invariant p == at + |written| && |written| <= |all|
      invariant all == written + (if more then Backwards(Magnitude(i)) else "")
      invariant buf[..] == Over(old(buf[..]), at, written)
      decreases more, Abs(i)
    {
      DigitStep(written, i);
      var c, rest := SplitLastDigit(i);
      assert Magnitude(rest) == Magnitude(Abs(i) / 10);
      i := rest;
      OverAppend(old(buf[..]), at, written, c);
      buf[p] := c;
      p := p + 1;
      written := written + [c];
      more := i != 0;
    }
  }

  method PutHexDigits(buf: array<char>, at: nat, value: nat) returns (p: nat)
    requires at + |Hex(value)| <= buf.Length
    modifies buf
    ensures p == at + |Hex(value)|
    ensures buf[..] == Over(old(buf[..]), at, Backwards(Hex(value)))
  {
    var i, more := value, true;
    p := at;
    ghost var all, written := Backwards(Hex(value)), "";
    OverNothing(buf[..], at);
    while more
      invariant p == at + |written| && |written| <= |all|
      invariant all == written + (if more then Backwards(Hex(i)) else "")
      invariant buf[..] == Over(old(buf[..]), at, written)
      decreases more, i
    {
      HexDigitStep(written, i);
      var c := DIGITS_HEX[i % 16];
      i := i / 16;
      OverAppend(old(buf[..]), at, written, c);
      buf[p] := c;
      p := p + 1;
      written := written + [c];
      more := i != 0;
    }
  }

  /** The terminator, and std::reverse of what was written backwards. */
  method Finish(buf: array<char>, at: nat, p: nat, ghost before: string, ghost text: string)
    requires p == at + |text| < buf.Length == |before|
    requires buf[..] == Over(before, at, Backwards(text))
    modifies buf
    ensures buf[..] == Over(before, at, text + ['\0'])
  {
    OverAppend(before, at, Backwards(text), '\0');
    buf[p] := '\0';
    OverFront(before, at, Backwards(text), '\0', Backwards(Backwards(text)));
    assert buf[at..p] == buf[..][at..p];
    ReverseRange(buf, at, p);
    BackwardsTwice(text);
  }

  /** Rewriting all but the last character written. */
  lemma OverFront(s: string, at: nat, t: string, c: char, u: string)
    requires at + |t| < |s| && |u| == |t|
    ensures Over(s, at, t + [c])[at..at + |t|] == t
    ensures Over(Over(s, at, t + [c]), at, u) == Over(s, at, u + [c])
  {
  }

  method Convert(buf: array<char>, at: nat, value: int) returns (len: nat)
    requires at + |Decimal(value)| < buf.Length
    modifies buf
    ensures len == |Decimal(value)|
    ensures buf[..] == Over(old(buf[..]), at, Decimal(value) + ['\0'])
  {
    ghost var before := buf[..];
    var p := PutDigits(buf, at, value);
    if value < 0 {
      SignIsLast(value);
      OverAppend(before, at, Backwards(Magnitude(value)), '-');
      buf[p] := '-';
      p := p + 1;
    }
    Finish(buf, at, p, before, Decimal(value));
    len := p - at;
  }

  lemma SignIsLast(v: int)
    requires v < 0
    ensures Backwards(Decimal(v)) == Backwards(Magnitude(v)) + ['-']
  {
    BackwardsIs(Decimal(v), Backwards(Magnitude(v)) + ['-']);
  }

  method ConvertHex(buf: array<char>, at: nat, value: nat) returns (len: nat)
    requires at + |Hex(value)| < buf.Length
    modifies buf
    ensures len == |Hex(value)|
    ensures buf[..] == Over(old(buf[..]), at, Hex(value) + ['\0'])
  {
    ghost var before := buf[..];
    var p := PutHexDigits(buf, at, value);
    Finish(buf, at, p, before, Hex(value));
    len := p - at;
  }

  /** What the cursor exposes after a conversion: what it exposed before, and the text. */
  lemma OverEndsWith(s: string, at: nat, t: string)
    requires at + |t| < |s|
    ensures Over(s, at, t + ['\0'])[..at + |t|] == s[..at] + t
  {
  }

  // ---- the fixed buffer ----

  /** FixedBuffer<SIZE>: an array and a cursor; what does not fit is silently dropped. */
  class FixedBuffer {
    const data: array<char>
    var cur: nat

    ghost predicate Valid()
      reads this, data
    {
      cur <= data.Length
    }

    function Text(): string
      requires Valid()
      reads this, data
    {
      data[..cur]
    }

    constructor (size: nat)
      ensures Valid() && Text() == "" && data.Length == size && fresh(data)
    {
      data := new char[size];
      cur := 0;
    }

    function Avail(): nat
      requires Valid()
      reads this, data
    {
      data.Length - cur
    }

    /** Strictly more room than the text needs, or nothing is written. */
    method Append(text: string)
      requires Valid()
      modifies this`cur, data
      ensures Valid()
      ensures Text() == if old(Avail()) > |text| then old(Text()) + text else old(Text())
    {
      if Avail() > |text| {
        forall k | 0 <= k < |text| {
          data[cur + k] := text[k];
        }
        cur := cur + |text|;
        assert data[..cur] == old(data[..cur]) + text;
      }
    }

    method Reset()
      requires Valid()
      modifies this`cur
      ensures Valid() && Text() == ""
    {
      cur := 0;
    }

    /** operator<< of an integer: its canonical decimal text, or nothing when space is short. */
    method FormatInteger(v: int)
      requires Valid() && Is64Bit(v)
      modifies this`cur, data
      ensures Valid()
      ensures Text() == if old(Avail()) >= MAX_NUMERIC_SIZE then old(Text()) + Decimal(v) else old(Text())
    {
      if Avail() >= MAX_NUMERIC_SIZE {
        DecimalFits(v);
        var len := Convert(data, cur, v);
        OverEndsWith(old(data[..]), cur, Decimal(v));
        cur := cur + len;
      }
    }

    /** operator<< of a pointer. */
    method FormatPointer(v: nat)
      requires Valid() && v < 0x1_0000_0000_0000_0000
      modifies this`cur, data
      ensures Valid()
      ensures Text() == if old(Avail()) >= MAX_NUMERIC_SIZE then old(Text()) + "0x" + Hex(v) else old(Text())
    {
      if Avail() >= MAX_NUMERIC_SIZE {
        HexFits(v);
        data[cur], data[cur + 1] := '0', 'x';
        ghost var prefixed := data[..];
        assert prefixed[..cur + 2] == old(data[..cur]) + "0x";
        var len := ConvertHex(data, cur + 2, v);
        OverEndsWith(prefixed, cur + 2, Hex(v));
        cur := cur + len + 2;
      }
    }
  }
}
