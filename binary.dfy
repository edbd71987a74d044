/**
 * Fixed-width big-endian integers, as `encoding/binary.BigEndian` writes and
 * reads them, and the integer kinds of the codec (codec.go:375-521).
 */
module Binary {

  type Byte = b: int | 0 <= b < 256

  /** The integer codecs: `int8Coder` ... `uint64Coder`. */
  datatype IntKind = I8 | I16 | I32 | I64 | U8 | U16 | U32 | U64 {
    /** The number of bytes the codec reads and writes. */
    function Width(): nat
    {
      match this
      case I8 | U8 => 1
      case I16 | U16 => 2
      case I32 | U32 => 4
      case I64 | U64 => 8
    }
    predicate Signed() { I8? || I16? || I32? || I64? }
  }

  function Pow256(w: nat): (p: nat)
    ensures p >= 1
  {
    if w == 0 then 1 else 256 * Pow256(w - 1)
  }

  /** The low `w` bytes of `n`, most significant first. */
  function BigEndian(n: nat, w: nat): (b: seq<Byte>)
    ensures |b| == w
  {
    if w == 0 then [] else BigEndian(n / 256, w - 1) + [n % 256]
  }

  /** The number a big-endian byte string denotes. */
  function FromBigEndian(b: seq<Byte>): nat
  {
    if |b| == 0 then 0 else FromBigEndian(b[..|b| - 1]) * 256 + b[|b| - 1]
  }

  /** Go's conversion of an integer to a `w`-byte unsigned type (two's complement wrap). */
  function Truncate(x: int, w: nat): (r: nat)
    ensures r < Pow256(w)
  {
    x % Pow256(w)
  }

  /** Go's conversion of a `w`-byte unsigned pattern to the signed type of that width. */
  function SignExtend(u: nat, w: nat): int
    requires w >= 1
  {
    if u >= Pow256(w) / 2 then u - Pow256(w) else u
  }

  /** A `w`-byte pattern converted to the signed type of that width lies in its range. */
  lemma SignExtendRange(u: nat, w: nat)
    requires w >= 1 && u < Pow256(w)
    ensures -(Pow256(w) / 2) <= SignExtend(u, w) < Pow256(w) / 2
  {
    assert Pow256(w) == 2 * (128 * Pow256(w - 1));
  }

  /** The range of values of the kind. */
  predicate InRange(k: IntKind, x: int)
  {
    if k.Signed() then -(Pow256(k.Width()) / 2) <= x < Pow256(k.Width()) / 2
    else 0 <= x < Pow256(k.Width())
  }

  /** What the encoder of kind `k` writes for `x` (`PutUint16(b, uint16(i))` and alike). */
  function EncodeInt(k: IntKind, x: int): seq<Byte>
  {
    BigEndian(Truncate(x, k.Width()), k.Width())
  }

  /** What the decoder of kind `k` stores for the bytes `b` (sign extension for signed kinds). */
  function DecodeInt(k: IntKind, b: seq<Byte>): int
  {
    var u := FromBigEndian(b);
    if k.Signed() then SignExtend(u % Pow256(k.Width()), k.Width()) else u
  }

  // ---------------------------------------------------------------------------

  lemma ModDecompose(n: nat, p: nat)
    requires p >= 1
    ensures n % (256 * p) == ((n / 256) % p) * 256 + n % 256
  {
    var q := n / 256;
    var r := n % 256;
    var a := q / p;
    var b := q % p;
    assert n == 256 * q + r;
    assert q == p * a + b;
    assert n == (256 * p) * a + (256 * b + r);
    assert 0 <= 256 * b + r < 256 * p;
    ModUnique(n, 256 * p, a, 256 * b + r);
  }

  lemma ModUnique(n: int, d: int, a: int, m: int)
    requires d >= 1 && 0 <= m < d && n == d * a + m
    ensures n % d == m && n / d == a
  {
    var q := n / d;
    var r := n % d;
    assert d * q + r == d * a + m;
    assert d * (q - a) == m - r;
    MulSmall(d, q - a);
  }

  lemma MulSmall(d: int, x: int)
    requires d >= 1 && -d < d * x < d
    ensures x == 0
  {
  }

  /** Reading back the bytes of `BigEndian(n, w)` gives `n` modulo `256^w`. */
  lemma {:induction false} FromBigEndianOf(n: nat, w: nat)
    ensures FromBigEndian(BigEndian(n, w)) == n % Pow256(w)
    decreases w
  {
    if w > 0 {
      var b := BigEndian(n, w);
      assert b[..|b| - 1] == BigEndian(n / 256, w - 1);
      FromBigEndianOf(n / 256, w - 1);
      ModDecompose(n, Pow256(w - 1));
    }
  }

  /** A big-endian string of `w` bytes denotes a number below `256^w`. */
  lemma {:induction false} FromBigEndianBound(b: seq<Byte>)
    ensures FromBigEndian(b) < Pow256(|b|)
    decreases |b|
  {
    if |b| > 0 {
      FromBigEndianBound(b[..|b| - 1]);
      assert FromBigEndian(b) <= (Pow256(|b| - 1) - 1) * 256 + 255;
    }
  }

  /** Every encoder writes exactly its width: the bytes of `x` truncated to that width. */
  lemma EncodeIntValue(k: IntKind, x: int)
    ensures |EncodeInt(k, x)| == k.Width()
    ensures FromBigEndian(EncodeInt(k, x)) == Truncate(x, k.Width())
  {
    var tr := Truncate(x, k.Width());
    FromBigEndianOf(tr, k.Width());
    ModUnique(tr, Pow256(k.Width()), 0, tr);
  }

  /** Decoding what an encoder wrote returns the original in-range value. */
  lemma IntRoundTrip(k: IntKind, x: int)
    requires InRange(k, x)
    ensures DecodeInt(k, EncodeInt(k, x)) == x
  {
    var w := k.Width();
    var p := Pow256(w);
    EncodeIntValue(k, x);
    if k.Signed() {
      SignedRoundTrip(x, w);
    } else {
      ModUnique(x, p, 0, x);
    }
  }

  lemma SignedRoundTrip(x: int, w: nat)
    requires w >= 1
    requires -(Pow256(w) / 2) <= x < Pow256(w) / 2
    ensures SignExtend(Truncate(x, w) % Pow256(w), w) == x
  {
    var p := Pow256(w);
    assert p == 256 * Pow256(w - 1);
    var tr := Truncate(x, w);
    ModUnique(tr, p, 0, tr);
    if x < 0 {
      ModUnique(x, p, -1, x + p);
    } else {
      ModUnique(x, p, 0, x);
    }
  }

  /** The concrete widths: 256^1, 256^2, 256^4 and 256^8. */
  lemma Pow256Values()
    ensures Pow256(1) == 0x100 && Pow256(2) == 0x1_0000 && Pow256(4) == 0x1_0000_0000
    ensures Pow256(8) == 0x1_0000_0000_0000_0000
  {
    assert Pow256(2) == 256 * Pow256(1);
    assert Pow256(4) == 256 * (256 * Pow256(2));
    assert Pow256(8) == 256 * (256 * (256 * (256 * Pow256(4))));
  }
}
