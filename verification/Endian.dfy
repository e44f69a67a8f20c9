/** Fixed-width two's-complement integers in network byte order. */
module Endian {

  type byte = x: int | 0 <= x < 256

  function Pow256(n: nat): (r: int)
    ensures r > 0
  {
    if n == 0 then 1 else 256 * Pow256(n - 1)
  }

  predicate Fits(width: nat, x: int) {
    width > 0 && -Pow256(width) <= 2 * x < Pow256(width)
  }

  /** The unsigned value of the first k bytes, most significant byte first. */
  function UnsignedUpTo(bs: seq<byte>, k: nat): (r: int)
    requires k <= |bs|
    ensures 0 <= r < Pow256(k)
  {
    if k == 0 then 0 else UnsignedUpTo(bs, k - 1) * 256 + bs[k - 1]
  }

  function Unsigned(bs: seq<byte>): (r: int)
    ensures 0 <= r < Pow256(|bs|)
  {
    UnsignedUpTo(bs, |bs|)
  }

  function BigEndian(width: nat, u: int): (bs: seq<byte>)
    requires 0 <= u < Pow256(width)
    ensures |bs| == width
  {
    if width == 0 then [] else BigEndian(width - 1, u / 256) + [u % 256]
  }

  lemma {:induction false} UnsignedOfPrefix(a: seq<byte>, b: seq<byte>, k: nat)
    requires k <= |a| && k <= |b| && forall i | 0 <= i < k :: a[i] == b[i]
    ensures UnsignedUpTo(a, k) == UnsignedUpTo(b, k)
  {
    if k > 0 {
      UnsignedOfPrefix(a, b, k - 1);
    }
  }

  lemma {:induction false} UnsignedBigEndian(width: nat, u: int)
    requires 0 <= u < Pow256(width)
    ensures Unsigned(BigEndian(width, u)) == u
  {
    if width > 0 {
      UnsignedBigEndian(width - 1, u / 256);
      UnsignedOfPrefix(BigEndian(width, u), BigEndian(width - 1, u / 256), width - 1);
    }
  }

  lemma {:induction false} BigEndianOfPrefix(bs: seq<byte>, k: nat)
    requires k <= |bs|
    ensures BigEndian(k, UnsignedUpTo(bs, k)) == bs[..k]
  {
    if k > 0 {
      BigEndianOfPrefix(bs, k - 1);
      var hi, lo := UnsignedUpTo(bs, k - 1), bs[k - 1];
      assert (hi * 256 + lo) / 256 == hi && (hi * 256 + lo) % 256 == lo;
      assert BigEndian(k, hi * 256 + lo) == BigEndian(k - 1, hi) + [lo];
      assert bs[..k] == bs[..k - 1] + [bs[k - 1]];
    }
  }

  lemma BigEndianUnsigned(bs: seq<byte>)
    ensures BigEndian(|bs|, Unsigned(bs)) == bs
  {
    BigEndianOfPrefix(bs, |bs|);
    assert bs[..|bs|] == bs;
  }

  /** x as an unsigned number of this width. */
  function Wrapped(width: nat, x: int): (u: int)
    requires -Pow256(width) <= x < Pow256(width)
    ensures 0 <= u < Pow256(width)
  {
    if x < 0 then x + Pow256(width) else x
  }

  /** hostToNetworkN followed by a byte copy: the bytes of x as they go on the wire. */
  function ToNetwork(width: nat, x: int): (bs: seq<byte>)
    requires Fits(width, x)
    ensures |bs| == width
  {
    BigEndian(width, Wrapped(width, x))
  }

  /** networkToHostN of bytes read from the wire, as a signed integer. */
  function FromNetwork(bs: seq<byte>): (x: int)
    requires bs != []
    ensures Fits(|bs|, x)
  {
    var u := Unsigned(bs);
    if 2 * u < Pow256(|bs|) then u else u - Pow256(|bs|)
  }

  lemma FromToNetwork(width: nat, x: int)
    requires Fits(width, x)
    ensures FromNetwork(ToNetwork(width, x)) == x
  {
    UnsignedBigEndian(width, Wrapped(width, x));
  }

  lemma ToFromNetwork(bs: seq<byte>)
    requires bs != []
    ensures ToNetwork(|bs|, FromNetwork(bs)) == bs
  {
    BigEndianUnsigned(bs);
  }

  lemma SmallMultiple(d: int, k: int)
    requires -d < d * k < d
    ensures k == 0
  {
  }

  lemma QuotientIs(a: int, d: int, p: int, e: int)
    requires a == d * p + e && 0 <= e < d
    ensures a / d == p
  {
    assert d * (p - a / d) == d * p - d * (a / d);
    SmallMultiple(d, p - a / d);
  }

  lemma DivideTwice(x: int, m: int)
    requires m > 0
    ensures x / 256 / m == x / (256 * m)
  {
    var q := x / 256;
    var p := q / m;
    assert q == m * p + q % m;
    assert 256 * (m * p) == (256 * m) * p;
    QuotientIs(x, 256 * m, p, 256 * (q % m) + x % 256);
  }

  lemma WrappedParts(width: nat, x: int)
    requires width > 0 && -Pow256(width) <= x < Pow256(width)
    ensures -Pow256(width - 1) <= x / 256 < Pow256(width - 1)
    ensures Wrapped(width, x) / 256 == Wrapped(width - 1, x / 256) && Wrapped(width, x) % 256 == x % 256
  {
  }

  lemma {:induction false} BigEndianDigit(width: nat, x: int, i: nat)
    requires -Pow256(width) <= x < Pow256(width) && i < width
    ensures BigEndian(width, Wrapped(width, x))[i] == x / Pow256(width - 1 - i) % 256
  {
    WrappedParts(width, x);
    if i < width - 1 {
      BigEndianDigit(width - 1, x / 256, i);
      DivideTwice(x, Pow256(width - 2 - i));
    } else {
      assert Pow256(0) == 1;
    }
  }

  /** Network byte order: byte i is that digit of x to base 256, the most significant one first. */
  lemma MostSignificantFirst(width: nat, x: int, i: nat)
    requires Fits(width, x) && i < width
    ensures ToNetwork(width, x)[i] == x / Pow256(width - 1 - i) % 256
  {
    BigEndianDigit(width, x, i);
  }

  /** static_cast<int32_t> of a size: the low 32 bits, read as signed. */
  function ToInt32(n: nat): (x: int)
    ensures Fits(4, x)
    ensures (x - n) % 0x1_0000_0000 == 0
  {
    assert Pow256(4) == 0x1_0000_0000 by { assert Pow256(2) == 65536; assert Pow256(3) == 16777216; }
    var low := n % 0x1_0000_0000;
    if low < 0x8000_0000 then low else low - 0x1_0000_0000
  }
}
