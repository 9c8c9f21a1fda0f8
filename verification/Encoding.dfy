/**
  The two label encodings.  Base32 is section 6 of RFC 4648, read as one stream of bits: zero bits
  fill the last 5-bit group, and the padding characters are left out (section 3.2).  Hex is section 8
  with lower-case digits.
 */
module Encoding {
  import opened Basics

  // ------------------------------------------------------------------- bits

  function Pow2(n: nat): (p: nat)
    ensures p > 0
  {
    if n == 0 then 1 else 2 * Pow2(n - 1)
  }

  /** The `n` low bits of `v`, most significant first. */
  function BitsOf(v: nat, n: nat): (bits: seq<bool>)
    ensures |bits| == n
  {
    if n == 0 then [] else BitsOf(v / 2, n - 1) + [v % 2 == 1]
  }

  function ValueOf(bits: seq<bool>): nat {
    if bits == [] then 0
    else 2 * ValueOf(bits[..|bits| - 1]) + if bits[|bits| - 1] then 1 else 0
  }

  lemma {:induction false} ValueOfBitsOf(v: nat, n: nat)
    requires v < Pow2(n)
    ensures ValueOf(BitsOf(v, n)) == v
  {
    if n > 0 {
      ValueOfBitsOf(v / 2, n - 1);
      assert BitsOf(v, n)[..n - 1] == BitsOf(v / 2, n - 1);
    }
  }

  lemma {:induction false} BitsOfValueOf(bits: seq<bool>)
    ensures ValueOf(bits) < Pow2(|bits|)
    ensures BitsOf(ValueOf(bits), |bits|) == bits
  {
    if bits != [] {
      BitsOfValueOf(bits[..|bits| - 1]);
      assert bits == bits[..|bits| - 1] + [bits[|bits| - 1]];
    }
  }

  lemma Pow2Small()
    ensures Pow2(4) == 16 && Pow2(5) == 32 && Pow2(8) == 256
  {
    assert Pow2(3) == 8;
    assert Pow2(6) == 64;
  }

  /** The bits of a byte string, in order. */
  function Bits(p: seq<byte>): (bits: seq<bool>)
    ensures |bits| == 8 * |p|
  {
    if p == [] then [] else BitsOf(p[0], 8) + Bits(p[1..])
  }

  lemma {:induction false} BitsAppend(p: seq<byte>, q: seq<byte>)
    ensures Bits(p + q) == Bits(p) + Bits(q)
  {
    if p == [] {
      assert p + q == q;
    } else {
      assert (p + q)[1..] == p[1..] + q;
      BitsAppend(p[1..], q);
    }
  }

  /** Whole bytes of a bit string; fewer than 8 bits at the end are dropped. */
  function Octets(bits: seq<bool>): (p: seq<byte>)
    ensures |p| == |bits| / 8
  {
    if |bits| < 8 then []
    else
      BitsOfValueOf(bits[..8]);
      Pow2Small();
      [ValueOf(bits[..8])] + Octets(bits[8..])
  }

  lemma {:induction false} OctetsOfBits(p: seq<byte>, rest: seq<bool>)
    requires |rest| < 8
    ensures Octets(Bits(p) + rest) == p
  {
    if p != [] {
      var all := Bits(p) + rest;
      assert all[..8] == BitsOf(p[0], 8);
      assert all[8..] == Bits(p[1..]) + rest;
      Pow2Small();
      ValueOfBitsOf(p[0], 8);
      OctetsOfBits(p[1..], rest);
    }
  }

  // ------------------------------------------------------------------ base32

  type quintet = v: nat | v < 32

  function ZeroBits(n: nat): seq<bool> {
    seq(n, _ => false)
  }

  /** 5-bit groups, the last one filled with zero bits. */
  function Quintets(bits: seq<bool>): (vs: seq<quintet>)
    ensures |vs| == (|bits| + 4) / 5
  {
    Pow2Small();
    if bits == [] then []
    else if |bits| < 5 then
      BitsOfValueOf(bits + ZeroBits(5 - |bits|));
      [ValueOf(bits + ZeroBits(5 - |bits|))]
    else
      BitsOfValueOf(bits[..5]);
      [ValueOf(bits[..5])] + Quintets(bits[5..])
  }

  function QuintetBits(vs: seq<quintet>): (bits: seq<bool>)
    ensures |bits| == 5 * |vs|
  {
    if vs == [] then [] else BitsOf(vs[0], 5) + QuintetBits(vs[1..])
  }

  lemma PaddedPrefixSplits(bits: seq<bool>, pad: seq<bool>, k: nat)
    requires 5 <= |bits| && 0 < k && 5 * k <= |bits| + |pad|
    ensures (bits + pad)[..5 * k] == bits[..5] + (bits[5..] + pad)[..5 * (k - 1)]
  {
    assert bits + pad == bits[..5] + (bits[5..] + pad);
  }

  /** A last group of fewer than 5 bits. */
  lemma ShortQuintetPrefix(bits: seq<bool>)
    requires 0 < |bits| < 5
    ensures QuintetBits(Quintets(bits)[..1]) == (bits + ZeroBits(4))[..5]
  {
    Pow2Small();
    BitsOfValueOf(bits + ZeroBits(5 - |bits|));
    assert (bits + ZeroBits(4))[..5] == bits + ZeroBits(5 - |bits|);
  }

  /** The first `k` groups carry exactly the first `5 * k` bits, zero-filled at the very end. */
  lemma {:induction false} QuintetPrefix(bits: seq<bool>, k: nat)
    requires k <= (|bits| + 4) / 5
    ensures QuintetBits(Quintets(bits)[..k]) == (bits + ZeroBits(4))[..5 * k]
  {
    if k > 0 && |bits| < 5 {
      ShortQuintetPrefix(bits);
    } else if k > 0 {
      Pow2Small();
      BitsOfValueOf(bits[..5]);
      assert Quintets(bits)[..k][1..] == Quintets(bits[5..])[..k - 1];
      QuintetPrefix(bits[5..], k - 1);
      PaddedPrefixSplits(bits, ZeroBits(4), k);
    }
  }

  /** The RFC 4648 alphabet. */
  function UpperSymbol(v: quintet): char {
    if v < 26 then 'A' + (v as char) else '2' + ((v - 26) as char)
  }

  /** The alphabet after the code's own lower-casing. */
  function Symbol(v: quintet): char {
    if v < 26 then 'a' + (v as char) else '2' + ((v - 26) as char)
  }

  function SymbolValue(x: char): quintet {
    if 'a' <= x <= 'z' then (x - 'a') as nat
    else if '2' <= x <= '7' then 26 + (x - '2') as nat
    else 0
  }

  lemma SymbolRoundTrip(v: quintet)
    ensures SymbolValue(Symbol(v)) == v
  {}

  function UpperB32(p: seq<byte>): (s: string)
    ensures |s| == (8 * |p| + 4) / 5
  {
    var vs := Quintets(Bits(p));
    seq(|vs|, i requires 0 <= i < |vs| => UpperSymbol(vs[i]))
  }

  /** What a label made by `strictB32` must be. */
  function B32(p: seq<byte>): (s: string)
    ensures |s| == (8 * |p| + 4) / 5
  {
    var vs := Quintets(Bits(p));
    seq(|vs|, i requires 0 <= i < |vs| => Symbol(vs[i]))
  }

  function FromB32(s: string): seq<byte> {
    Octets(QuintetBits(seq(|s|, i requires 0 <= i < |s| => SymbolValue(s[i]))))
  }

  /** Decoding the first `k` symbols gives back the whole bytes those symbols cover. */
  lemma B32PrefixDecodes(p: seq<byte>, q: seq<byte>, k: nat)
    requires k <= |B32(p + q)| && 8 * |p| <= 5 * k < 8 * |p| + 8
    ensures FromB32(B32(p + q)[..k]) == p
  {
    var bits := Bits(p + q);
    var s := B32(p + q)[..k];
    forall v: quintet ensures SymbolValue(Symbol(v)) == v { SymbolRoundTrip(v); }
    assert seq(|s|, i requires 0 <= i < |s| => SymbolValue(s[i])) == Quintets(bits)[..k];
    QuintetPrefix(bits, k);
    BitsAppend(p, q);
    assert (bits + ZeroBits(4))[..5 * k] == Bits(p) + (Bits(q) + ZeroBits(4))[..5 * k - 8 * |p|];
    OctetsOfBits(p, (Bits(q) + ZeroBits(4))[..5 * k - 8 * |p|]);
  }

  lemma B32RoundTrip(p: seq<byte>)
    ensures FromB32(B32(p)) == p
  {
    assert p + [] == p;
    B32PrefixDecodes(p, [], |B32(p)|);
    assert B32(p)[..|B32(p)|] == B32(p);
  }

  // --------------------------------------------------------------------- hex

  type nibble = v: nat | v < 16

  function HexDigit(v: nibble): char {
    if v < 10 then '0' + (v as char) else 'a' + ((v - 10) as char)
  }

  function HexValue(x: char): nibble {
    if '0' <= x <= '9' then (x - '0') as nat
    else if 'a' <= x <= 'f' then 10 + (x - 'a') as nat
    else 0
  }

  function Hex(p: seq<byte>): (s: string)
    ensures |s| == 2 * |p|
  {
    if p == [] then [] else [HexDigit(p[0] / 16), HexDigit(p[0] % 16)] + Hex(p[1..])
  }

  function FromHex(s: string): seq<byte> {
    if |s| < 2 then [] else [16 * HexValue(s[0]) + HexValue(s[1])] + FromHex(s[2..])
  }

  lemma {:induction false} HexRoundTrip(p: seq<byte>)
    ensures FromHex(Hex(p)) == p
  {
    if p != [] {
      assert Hex(p)[2..] == Hex(p[1..]);
      HexRoundTrip(p[1..]);
    }
  }

  // ---------------------------------------------------------- label alphabet

  predicate NoDot(s: string) {
    forall i | 0 <= i < |s| :: s[i] != '.'
  }

  lemma B32HasNoDot(p: seq<byte>)
    ensures NoDot(B32(p))
  {}

  lemma {:induction false} HexHasNoDot(p: seq<byte>)
    ensures NoDot(Hex(p))
  {
    if p != [] { HexHasNoDot(p[1..]); }
  }

  // ------------------------------------------- the encodings in plain arithmetic

  const HEX_DIGITS := "0123456789abcdef"
  const B32_SYMBOLS := "abcdefghijklmnopqrstuvwxyz234567"

  /** The high digit of each byte comes first. */
  lemma {:induction false} HexByDigits(p: seq<byte>, i: nat)
    requires i < |p|
    ensures Hex(p)[2 * i] == HEX_DIGITS[p[i] / 16] && Hex(p)[2 * i + 1] == HEX_DIGITS[p[i] % 16]
  {
    HexDigitIs(p[0] / 16);
    HexDigitIs(p[0] % 16);
    if i > 0 {
      HexByDigits(p[1..], i - 1);
      assert Hex(p)[2..] == Hex(p[1..]);
      assert Hex(p)[2 * i] == Hex(p)[2..][2 * i - 2] && Hex(p)[2 * i + 1] == Hex(p)[2..][2 * i - 1];
    }
  }

  lemma HexDigitIs(v: nibble)
    ensures HexDigit(v) == HEX_DIGITS[v]
  {}

  lemma SymbolIs(v: quintet)
    ensures Symbol(v) == B32_SYMBOLS[v]
  {}

  /** Byte `j` of the input, zero past its end. */
  function ByteAt(p: seq<byte>, j: nat): byte {
    if j < |p| then p[j] else 0
  }

  /** The five bits from bit `m` on, of the input read as one big-endian number. */
  function DigitAt(p: seq<byte>, m: nat): nat {
    (256 * ByteAt(p, m / 8) + ByteAt(p, m / 8 + 1)) / Pow2(11 - m % 8) % 32
  }

  lemma {:induction false} ValueOfJoin(x: seq<bool>, y: seq<bool>)
    ensures ValueOf(x + y) == ValueOf(x) * Pow2(|y|) + ValueOf(y)
  {
    if y == [] {
      assert x + y == x;
    } else {
      var n := |y| - 1;
      ValueOfJoin(x, y[..n]);
      assert (x + y)[..|x + y| - 1] == x + y[..n];
      assert ValueOf(x + y) == 2 * (ValueOf(x) * Pow2(n) + ValueOf(y[..n])) + if y[n] then 1 else 0;
      DoubleProduct(ValueOf(x), Pow2(n));
    }
  }

  lemma DoubleProduct(a: nat, b: nat)
    ensures 2 * (a * b) == a * (2 * b)
  {}

  /** Five bits inside sixteen. */
  lemma MiddleBits(x: seq<bool>, y: seq<bool>, z: seq<bool>)
    requires |y| == 5
    ensures ValueOf(x + y + z) / Pow2(|z|) % 32 == ValueOf(y)
  {
    ValueOfJoin(x + y, z);
    ValueOfJoin(x, y);
    BitsOfValueOf(y);
    BitsOfValueOf(z);
    Pow2Small();
    DivByPow(ValueOf(x + y), Pow2(|z|), ValueOf(z));
    LowDigit(ValueOf(x), ValueOf(y));
  }

  lemma DivByPow(q: nat, d: nat, r: nat)
    requires r < d
    ensures (q * d + r) / d == q
  {
    var m := (q * d + r) / d;
    assert m * d <= q * d + r < (m + 1) * d;
    if m < q {
      MulAtLeast(m + 1, q, d);
    } else if m > q {
      MulAtLeast(q + 1, m, d);
    }
  }

  lemma MulAtLeast(a: nat, b: nat, d: nat)
    requires a <= b
    ensures a * d <= b * d
  {}

  lemma LowDigit(q: nat, r: nat)
    requires r < 32
    ensures (q * 32 + r) % 32 == r
  {}

  /** The two bytes of the bit stream from byte `j` on. */
  lemma {:induction false} TwoBytes(p: seq<byte>, j: nat)
    requires j < |p|
    ensures Bits(p + [0]) == Bits(p[..j]) + (BitsOf(ByteAt(p, j), 8) + BitsOf(ByteAt(p, j + 1), 8)) + Bits((p + [0])[j + 2..])
  {
    var q := p + [0];
    var x, y := q[j], q[j + 1];
    assert q == (p[..j] + [x] + [y]) + q[j + 2..];
    BitsAppend(p[..j] + [x] + [y], q[j + 2..]);
    BitsAppend(p[..j] + [x], [y]);
    BitsAppend(p[..j], [x]);
    OneByte(x);
    OneByte(y);
  }

  lemma TwoByteValue(x: byte, y: byte)
    ensures ValueOf(BitsOf(x, 8) + BitsOf(y, 8)) == 256 * x + y
  {
    OneByte(x);
    OneByte(y);
    ValueOfJoin(BitsOf(x, 8), BitsOf(y, 8));
  }

  lemma OneByte(b: byte)
    ensures Bits([b]) == BitsOf(b, 8) && ValueOf(BitsOf(b, 8)) == b && Pow2(8) == 256
  {
    assert [b][1..] == [];
    Pow2Small();
    ValueOfBitsOf(b, 8);
  }

  /** Group `k` is the value of its five bits, zero-filled. */
  lemma {:induction false} QuintetAt(bits: seq<bool>, k: nat)
    requires k < (|bits| + 4) / 5
    ensures Quintets(bits)[k] == ValueOf((bits + ZeroBits(4))[5 * k..5 * k + 5])
  {
    Pow2Small();
    if |bits| < 5 {
      assert (bits + ZeroBits(4))[0..5] == bits + ZeroBits(5 - |bits|);
    } else if k == 0 {
      assert (bits + ZeroBits(4))[0..5] == bits[..5];
    } else {
      QuintetAt(bits[5..], k - 1);
      assert (bits + ZeroBits(4))[5 * k..5 * k + 5] == (bits[5..] + ZeroBits(4))[5 * (k - 1)..5 * (k - 1) + 5];
    }
  }

  lemma ZeroByte()
    ensures Bits([0]) == ZeroBits(8)
  {
    OneByte(0);
    assert BitsOf(0, 4) == ZeroBits(4);
    assert BitsOf(0, 8) == ZeroBits(8);
  }

  lemma ZerosAgree(bits: seq<bool>, m: nat)
    requires m < |bits|
    ensures (bits + ZeroBits(4))[m..m + 5] == (bits + ZeroBits(8))[m..m + 5]
  {}

  lemma WindowInside(before: seq<bool>, two: seq<bool>, after: seq<bool>, o: nat)
    requires o + 5 <= |two|
    ensures (before + two + after)[|before| + o..|before| + o + 5] == two[o..o + 5]
  {}

  lemma SplitsInThree(two: seq<bool>, o: nat)
    requires o + 5 <= |two|
    ensures two[..o] + two[o..o + 5] + two[o + 5..] == two
  {}

  lemma DigitOfBits(two: seq<bool>, o: nat)
    requires |two| == 16 && o < 8
    ensures ValueOf(two[o..o + 5]) == ValueOf(two) / Pow2(11 - o) % 32
  {
    SplitsInThree(two, o);
    MiddleBits(two[..o], two[o..o + 5], two[o + 5..]);
  }

  lemma {:induction false} WindowInTwoBytes(p: seq<byte>, j: nat, o: nat)
    requires j < |p| && o < 8
    ensures Bits(p + [0])[8 * j + o..8 * j + o + 5]
            == (BitsOf(ByteAt(p, j), 8) + BitsOf(ByteAt(p, j + 1), 8))[o..o + 5]
  {
    TwoBytes(p, j);
    WindowInside(Bits(p[..j]), BitsOf(ByteAt(p, j), 8) + BitsOf(ByteAt(p, j + 1), 8), Bits((p + [0])[j + 2..]), o);
  }

  /** Five bits that start in byte `j` are a digit of that byte and the next. */
  lemma {:induction false} WindowIsDigit(p: seq<byte>, j: nat, o: nat)
    requires j < |p| && o < 8
    ensures ValueOf(Bits(p + [0])[8 * j + o..8 * j + o + 5])
            == (256 * ByteAt(p, j) + ByteAt(p, j + 1)) / Pow2(11 - o) % 32
  {
    WindowInTwoBytes(p, j, o);
    TwoByteValue(ByteAt(p, j), ByteAt(p, j + 1));
    DigitOfBits(BitsOf(ByteAt(p, j), 8) + BitsOf(ByteAt(p, j + 1), 8), o);
  }

  lemma {:induction false} PaddedWindow(p: seq<byte>, m: nat)
    requires m < 8 * |p|
    ensures (Bits(p) + ZeroBits(4))[m..m + 5] == Bits(p + [0])[m..m + 5]
  {
    BitsAppend(p, [0]);
    ZeroByte();
    ZerosAgree(Bits(p), m);
  }

  lemma {:induction false} BitsAreDigit(p: seq<byte>, m: nat)
    requires m < 8 * |p|
    ensures ValueOf((Bits(p) + ZeroBits(4))[m..m + 5]) == DigitAt(p, m)
  {
    PaddedWindow(p, m);
    WindowIsDigit(p, m / 8, m % 8);
    assert 8 * (m / 8) + m % 8 == m;
  }

  /** Symbol `k` of a base32 text is the 5-bit digit `k` of the input, in the alphabet of section 6 of RFC 4648. */
  lemma {:induction false} B32ByDigits(p: seq<byte>, k: nat)
    requires k < |B32(p)|
    ensures DigitAt(p, 5 * k) < 32 && B32(p)[k] == B32_SYMBOLS[DigitAt(p, 5 * k)]
  {
    QuintetAt(Bits(p), k);
    BitsAreDigit(p, 5 * k);
    SymbolIs(Quintets(Bits(p))[k]);
  }
}
