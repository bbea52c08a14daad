/**
 Numbers on the wire: little-endian words, 64-bit values in two words, and the binary32 values
 of small integers, which are exact.
 */
module Binary {
  import opened Wrappers

  type Byte = b: nat | b < 256

  type Word = w: nat | w < 0x1_0000_0000

  type Long = l: nat | l < 0x1_0000_0000_0000_0000

  const U32 := 0x1_0000_0000

  // ---------------------------------------------------------------- words

  /** A word in little-endian order. */
  function WordBytes(w: Word): (bs: seq<Byte>)
    ensures |bs| == 4
  {
    [w % 256, w / 256 % 256, w / 0x1_0000 % 256, w / 0x100_0000]
  }

  function WordAt(bs: seq<Byte>): Word
    requires |bs| == 4
  {
    (bs[0] as int) + (bs[1] as int) * 256 + (bs[2] as int) * 0x1_0000 + (bs[3] as int) * 0x100_0000
  }

  lemma WordRoundTrip(w: Word)
    ensures WordAt(WordBytes(w)) == w
  {
    var a, b := w / 256, w / 0x1_0000;
    assert w == a * 256 + w % 256;
    assert b == a / 256 && a == b * 256 + a % 256;
    assert w / 0x100_0000 == b / 256 && b == b / 256 * 256 + b % 256;
  }

  /** And so does any four bytes: there is one way to write a word. */
  lemma BytesRoundTrip(bs: seq<Byte>)
    requires |bs| == 4
    ensures WordBytes(WordAt(bs)) == bs
  {
    var a, b, c, d := bs[0] as int, bs[1] as int, bs[2] as int, bs[3] as int;
    var w := WordAt(bs) as int;
    assert w == a + 256 * (b + 256 * (c + 256 * d));
    assert w % 256 == a && w / 256 == b + 256 * (c + 256 * d);
    assert w / 0x1_0000 == w / 256 / 256 == c + 256 * d;
    assert w / 0x100_0000 == w / 0x1_0000 / 256 == d;
  }

  function Pack(ws: seq<Word>): (bs: seq<Byte>)
    ensures |bs| == 4 * |ws|
  {
    if ws == [] then [] else WordBytes(ws[0]) + Pack(ws[1..])
  }

  function Unpack(bs: seq<Byte>): (ws: seq<Word>)
    requires |bs| % 4 == 0
    ensures |bs| == 4 * |ws|
  {
    if bs == [] then [] else [WordAt(bs[..4])] + Unpack(bs[4..])
  }

  lemma {:induction false} PackRoundTrip(ws: seq<Word>)
    ensures Unpack(Pack(ws)) == ws
  {
    if ws != [] {
      var bs := Pack(ws);
      assert bs[..4] == WordBytes(ws[0]) && bs[4..] == Pack(ws[1..]);
      WordRoundTrip(ws[0]);
      PackRoundTrip(ws[1..]);
    }
  }

  lemma {:induction false} UnpackRoundTrip(bs: seq<Byte>)
    requires |bs| % 4 == 0
    ensures Pack(Unpack(bs)) == bs
    decreases |bs|
  {
    if bs != [] {
      BytesRoundTrip(bs[..4]);
      UnpackRoundTrip(bs[4..]);
      assert bs == bs[..4] + bs[4..];
      assert Unpack(bs)[1..] == Unpack(bs[4..]);
    }
  }

  // ---------------------------------------------------------------- 64-bit values

  function Low(l: Long): Word {
    l % U32
  }

  function High(l: Long): Word {
    l / U32
  }

  function Joined(low: Word, high: Word): Long {
    low + high * U32
  }

  lemma JoinedRoundTrip(low: Word, high: Word)
    ensures Low(Joined(low, high)) == low && High(Joined(low, high)) == high
  {
  }

  lemma LongRoundTrip(l: Long)
    ensures Joined(Low(l), High(l)) == l
  {
  }

  /** The k-th 16-bit chunk of a tag mask. */
  function Chunk(tags: Long, k: nat): nat
    requires k < 4
    ensures Chunk(tags, k) < 0x1_0000
  {
    match k
    case 0 => tags % 0x1_0000
    case 1 => tags / 0x1_0000 % 0x1_0000
    case 2 => tags / 0x1_0000_0000 % 0x1_0000
    case 3 => tags / 0x1_0000_0000_0000
  }

  function Mask(chunks: seq<nat>): Long
    requires |chunks| == 4 && forall c | c in chunks :: c < 0x1_0000
  {
    assert forall k | 0 <= k < 4 :: chunks[k] in chunks;
    chunks[0] + chunks[1] * 0x1_0000 + chunks[2] * 0x1_0000_0000 + chunks[3] * 0x1_0000_0000_0000
  }

  lemma MaskRoundTrip(tags: Long)
    ensures Mask([Chunk(tags, 0), Chunk(tags, 1), Chunk(tags, 2), Chunk(tags, 3)]) == tags
  {
    var high := tags / 0x1_0000;
    assert tags == high * 0x1_0000 + Chunk(tags, 0);
    assert tags / 0x1_0000_0000 == high / 0x1_0000;
    assert high == high / 0x1_0000 * 0x1_0000 + Chunk(tags, 1);
    assert tags / 0x1_0000_0000_0000 == tags / 0x1_0000_0000 / 0x1_0000;
  }

  // ---------------------------------------------------------------- binary32

  function Power(n: nat): nat
    ensures Power(n) > 0
  {
    if n == 0 then 1 else 2 * Power(n - 1)
  }

  const FRACTION := 0x80_0000

  /** The magnitude of a normal number: its significand, scaled. */
  function Scaled(significand: nat, exponent: nat): real {
    if exponent >= 150 then (significand * Power(exponent - 150)) as real
    else significand as real / Power(150 - exponent) as real
  }

  /** What a binary32 pattern stands for. */
  function ValueOf(w: Word): Float {
    var negative := w >= 0x8000_0000;
    var exponent := w / FRACTION % 256;
    var fraction := w % FRACTION;
    if exponent == 255 then
      if fraction != 0 then NotANumber else if negative then NegativeInfinity else PositiveInfinity
    else
      var magnitude := if exponent == 0 then Scaled(fraction, 1) else Scaled(FRACTION + fraction, exponent);
      Finite(if negative then -magnitude else magnitude)
  }

  function Log2(n: nat): nat {
    if n < 2 then 0 else 1 + Log2(n / 2)
  }

  lemma {:induction false} LogBounds(n: nat)
    requires n > 0
    ensures Power(Log2(n)) <= n < 2 * Power(Log2(n))
  {
    if n >= 2 { LogBounds(n / 2); }
  }

  lemma {:induction false} PowerSplit(a: nat, b: nat)
    ensures Power(a) * Power(b) == Power(a + b)
  {
    if a > 0 {
      PowerSplit(a - 1, b);
      assert Power(a) * Power(b) == 2 * (Power(a - 1) * Power(b));
    }
  }

  lemma {:induction false} LogSmall(n: nat, k: nat)
    requires 0 < n < Power(k)
    ensures Log2(n) < k
    decreases k
  {
    if n >= 2 { LogSmall(n / 2, k - 1); }
  }

  lemma Log16(n: nat)
    requires 0 < n < 0x1_0000
    ensures Log2(n) < 16
  {
    assert Power(16) == 0x1_0000 by { assert Power(4) == 16; PowerSplit(4, 4); PowerSplit(8, 8); }
    LogSmall(n, 16);
  }

  lemma Power23()
    ensures Power(23) == FRACTION
  {
    assert Power(7) == 128;
    assert Power(4) == 16;
    PowerSplit(4, 4);
    PowerSplit(8, 8);
    PowerSplit(7, 16);
  }

  /** The unit in the last place of the binary32 number for `n`, as a multiple of its fraction bit. */
  function Unit(n: nat): nat {
    if n < 2 then FRACTION else Unit(n / 2) / 2
  }

  /** A 16-bit integer as a binary32 number: one more bit is one more in the exponent, and a fraction bit. */
  function FloatOf(n: nat): (w: Word)
    requires n < 0x1_0000
    ensures w < 0x5000_0000
  {
    FloatFits(n);
    Pattern(n)
  }

  function Pattern(n: nat): nat {
    if n == 0 then 0
    else if n == 1 then 127 * FRACTION
    else Pattern(n / 2) + FRACTION + if n % 2 == 1 then Unit(n) else 0
  }

  lemma {:induction false} UnitIs(n: nat)
    requires 0 < n && Log2(n) <= 23
    ensures Unit(n) == Power(23 - Log2(n))
  {
    if n < 2 { Power23(); } else { UnitIs(n / 2); }
  }

  /** Exponent and fraction of the pattern. */
  lemma {:induction false} PatternFields(n: nat)
    requires 0 < n && Log2(n) <= 22
    ensures Pattern(n) == (Log2(n) + 127) * FRACTION + (n * Unit(n) - FRACTION)
  {
    if n >= 2 {
      var m := n / 2;
      PatternFields(m);
      UnitIs(m);
      UnitIs(n);
      assert Unit(m) == 2 * Unit(n);
      DoubleUp(n, m, Unit(n));
    }
  }

  lemma DoubleUp(n: nat, m: nat, unit: nat)
    requires m == n / 2
    ensures n * unit == m * (2 * unit) + if n % 2 == 1 then unit else 0
  {
    assert n == 2 * m + n % 2;
    assert n * unit == (2 * m) * unit + (n % 2) * unit;
  }

  /** The significand of a number lies between one and two. */
  lemma Significand(n: nat)
    requires 0 < n < 0x1_0000
    ensures Log2(n) < 16 && Unit(n) == Power(23 - Log2(n)) && FRACTION <= n * Unit(n) < 2 * FRACTION
  {
    Log16(n);
    LogBounds(n);
    UnitIs(n);
    Power23();
    PowerSplit(Log2(n), 23 - Log2(n));
    Between(Power(Log2(n)), n, Unit(n));
  }

  lemma Between(p: nat, n: nat, q: nat)
    requires p <= n < 2 * p && q > 0
    ensures p * q <= n * q < 2 * (p * q)
  {
    assert (n - p) * q >= 0 && (2 * p - n) * q > 0;
  }

  lemma FloatFits(n: nat)
    requires n < 0x1_0000
    ensures Pattern(n) < 0x5000_0000
  {
    if n > 0 {
      Significand(n);
      PatternFields(n);
    }
  }

  /** The value of a positive normal number, from its two fields. */
  lemma NormalValue(exponent: nat, fraction: nat)
    requires 0 < exponent < 255 && fraction < FRACTION
    ensures exponent * FRACTION + fraction < 0x8000_0000
    ensures ValueOf(exponent * FRACTION + fraction) == Finite(Scaled(FRACTION + fraction, exponent))
  {
    var w := exponent * FRACTION + fraction;
    assert w / FRACTION == exponent && w % FRACTION == fraction;
  }

  lemma Quotient(n: nat, d: nat)
    requires d > 0
    ensures (n * d) as real / d as real == n as real
  {
    assert (n * d) as real == n as real * d as real;
  }

  lemma ScaledBack(n: nat, exponent: nat, shift: nat)
    requires exponent + shift == 150 && shift > 0
    ensures Scaled(n * Power(shift), exponent) == n as real
  {
    Quotient(n, Power(shift));
  }

  lemma NormalExact(n: nat, exponent: nat, fraction: nat, shift: nat)
    requires 0 < exponent < 150 && exponent + shift == 150 && fraction < FRACTION
    requires FRACTION + fraction == n * Power(shift)
    ensures exponent * FRACTION + fraction < 0x8000_0000
    ensures ValueOf(exponent * FRACTION + fraction) == Finite(n as real)
  {
    NormalValue(exponent, fraction);
    ScaledBack(n, exponent, shift);
  }

  /** Every 16-bit integer is exact as a binary32 number. */
  lemma FloatExact(n: nat)
    requires n < 0x1_0000
    ensures ValueOf(FloatOf(n)) == Finite(n as real)
  {
    if n == 0 {
      assert Scaled(0, 1) == 0.0;
    } else {
      Significand(n);
      PatternFields(n);
      NormalExact(n, Log2(n) + 127, n * Unit(n) - FRACTION, 23 - Log2(n));
    }
  }
}
