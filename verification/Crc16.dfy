/** CRC-16/IBM-3740 (polynomial 1021h, initial value FFFFh, no final exclusive-or), as the
    sector image uses it.

    The program absorbs a whole byte at a time.  The reference here is the textbook shift
    register that consumes one message bit per step; the methods are proved equal to it, and
    what a CRC is for (finding errors) is proved about the shift register.  A 16-bit register is
    written out as its bits, most significant first. */
module Crc16 {
  import opened Bytes

  type Word = w: seq<bool> | |w| == 16 witness ZERO

  const ZERO := [false, false, false, false, false, false, false, false,
                 false, false, false, false, false, false, false, false]

  /** Bitwise exclusive-or of equally long bit strings. */
  function Xor(a: seq<bool>, b: seq<bool>): (c: seq<bool>)
    requires |a| == |b|
    ensures |c| == |a|
    ensures forall i :: 0 <= i < |a| ==> c[i] == (a[i] != b[i])
  {
    seq(|a|, i requires 0 <= i < |a| => a[i] != b[i])
  }

  const INITIAL: Word := [true, true, true, true, true, true, true, true,
                          true, true, true, true, true, true, true, true]

  /** 1021h: the bits of weight 2^12, 2^5 and 2^0. */
  const POLYNOMIAL: Word := [false, false, false, true, false, false, false, false,
                             false, false, true, false, false, false, false, true]

  function Zeros(n: nat): (zeros: seq<bool>)
    ensures |zeros| == n && forall i :: 0 <= i < n ==> !zeros[i]
  {
    seq(n, _ => false)
  }

  /** `crc << 1` in sixteen bits. */
  function Doubled(crc: Word): Word {
    crc[1..] + [false]
  }

  /** One shift of the division register. */
  function Step(crc: Word): Word {
    if crc[0] then Xor(Doubled(crc), POLYNOMIAL) else Doubled(crc)
  }

  /** One step of the bit-serial register: the message bit enters at the top. */
  function Shift(crc: Word, bit: bool): Word {
    Step([crc[0] != bit] + crc[1..])
  }

  /** The bit-serial register after a whole bit string. */
  function Register(crc: Word, bits: seq<bool>): Word
    decreases bits
  {
    if bits == [] then crc else Register(Shift(crc, bits[0]), bits[1..])
  }

  /** A message in transmission order, most significant bit of each byte first. */
  function Bits(bytes: seq<byte>): (bits: seq<bool>)
    ensures |bits| == 8 * |bytes|
  {
    if bytes == [] then [] else NatBits(bytes[0], 8) + Bits(bytes[1..])
  }

  /** The checksum of a message, by the bit-serial definition. */
  function Checksum(bytes: seq<byte>): Word {
    Register(INITIAL, Bits(bytes))
  }

  /** `crc >> 8` and the low byte of `crc`, the order in which they are recorded. */
  function High(crc: Word): byte {
    assert Pow2(8) == 256;
    BitsNat(crc[..8])
  }

  function Low(crc: Word): byte {
    assert Pow2(8) == 256;
    BitsNat(crc[8..])
  }

  // ---------------------------------------------------------------- the byte-wise program

  /** A byte moved up to the top of the register: `value << 8`. */
  function Raised(value: byte): Word {
    NatBits(value, 8) + Zeros(8)
  }

  /** The loop over the eight bits of one absorbed byte. */
  method UpdateCrc(crc: Word, value: byte) returns (result: Word)
    ensures result == Register(crc, NatBits(value, 8))
  {
    result := Xor(crc, Raised(value));
    ghost var bits := NatBits(value, 8);
    ghost var fed: Word, waiting: Word := crc, Raised(value);
    for bit := 0 to 8
      invariant result == Xor(fed, waiting)
      invariant waiting == bits[bit..] + Zeros(8 + bit)
      invariant Register(fed, bits[bit..]) == Register(crc, bits)
    {
      NextBit(fed, waiting);
      assert bits[bit..][1..] == bits[bit + 1..];
      result := if result[0] then Xor(Doubled(result), POLYNOMIAL) else Doubled(result);
      fed, waiting := Shift(fed, bits[bit]), Doubled(waiting);
      assert waiting == bits[bit + 1..] + Zeros(8 + bit + 1);
    }
    assert bits[8..] == [];
    assert Xor(fed, waiting) == fed;
  }

  method Crc(bytes: seq<byte>) returns (crc: Word)
    ensures crc == Checksum(bytes)
  {
    crc := INITIAL;
    for i := 0 to |bytes|
      invariant crc == Checksum(bytes[..i])
    {
      ChecksumAppend(bytes, i);
      crc := UpdateCrc(crc, bytes[i]);
    }
    assert bytes[..|bytes|] == bytes;
  }

  lemma {:induction false} NextBit(fed: Word, waiting: Word)
    ensures Step(Xor(fed, waiting)) == Xor(Shift(fed, waiting[0]), Doubled(waiting))
  {
    var left, right := Step(Xor(fed, waiting)), Xor(Shift(fed, waiting[0]), Doubled(waiting));
    assert forall i :: 0 <= i < 16 ==> left[i] == right[i];
  }

  // ---------------------------------------------------------------- the register as a fold

  lemma {:induction false} RegisterConcat(crc: Word, a: seq<bool>, b: seq<bool>)
    ensures Register(crc, a + b) == Register(Register(crc, a), b)
    decreases a
  {
    if a == [] {
      assert a + b == b;
    } else {
      assert (a + b)[1..] == a[1..] + b;
      RegisterConcat(Shift(crc, a[0]), a[1..], b);
    }
  }

  lemma {:induction false} BitsConcat(a: seq<byte>, b: seq<byte>)
    ensures Bits(a + b) == Bits(a) + Bits(b)
  {
    if a == [] {
      assert a + b == b;
    } else {
      assert (a + b)[1..] == a[1..] + b;
      BitsConcat(a[1..], b);
    }
  }

  lemma {:induction false} BitsOfOne(value: byte)
    ensures Bits([value]) == NatBits(value, 8)
  {
    assert Bits([value]) == NatBits(value, 8) + Bits([]);
  }

  lemma {:induction false} ChecksumAppend(bytes: seq<byte>, i: nat)
    requires i < |bytes|
    ensures Checksum(bytes[..i + 1]) == Register(Checksum(bytes[..i]), NatBits(bytes[i], 8))
  {
    assert bytes[..i + 1] == bytes[..i] + [bytes[i]];
    BitsConcat(bytes[..i], [bytes[i]]);
    BitsOfOne(bytes[i]);
    RegisterConcat(INITIAL, Bits(bytes[..i]), NatBits(bytes[i], 8));
  }

  // ---------------------------------------------------------------- error detection

  /** The bit shifted out is visible in the lowest bit of the result, so a shift loses
      nothing. */
  lemma {:induction false} ShiftInjective(a: Word, b: Word, bit: bool)
    requires Shift(a, bit) == Shift(b, bit)
    ensures a == b
  {
    var x, y := Shift(a, bit), Shift(b, bit);
    assert x[15] == (a[0] != bit) && y[15] == (b[0] != bit);
    forall i | 0 < i < 16
      ensures a[i] == b[i]
    {
      assert x[i - 1] == y[i - 1];
    }
  }

  /** Feeding the same bits to two different registers leaves them different. */
  lemma {:induction false} RegisterInjective(a: Word, b: Word, bits: seq<bool>)
    requires Register(a, bits) == Register(b, bits)
    ensures a == b
    decreases bits
  {
    if bits != [] {
      RegisterInjective(Shift(a, bits[0]), Shift(b, bits[0]), bits[1..]);
      ShiftInjective(a, b, bits[0]);
    }
  }

  /** Registers that agree in their lowest bits after a shift agreed in one bit fewer before. */
  lemma {:induction false} AgreeBefore(a: Word, b: Word, x: bool, y: bool, from: nat)
    requires from < 16
    requires Shift(a, x)[from..] == Shift(b, y)[from..]
    ensures a[from + 1..] == b[from + 1..]
  {
    var c, d := Shift(a, x), Shift(b, y);
    assert forall i :: from <= i < 16 ==> c[i] == c[from..][i - from] == d[from..][i - from] == d[i];
    assert c[15] == (a[0] != x) && d[15] == (b[0] != y);
    forall i | from < i < 16
      ensures a[i] == b[i]
    {
      assert c[i - 1] == (a[i] != (POLYNOMIAL[i - 1] && c[15]));
      assert d[i - 1] == (b[i] != (POLYNOMIAL[i - 1] && d[15]));
    }
  }

  /** Two registers driven by two strings of the same length, at most 16, can only meet when
      they agree in the low bits to begin with: backwards from the meeting point, each step
      frees one more bit at the top. */
  lemma {:induction false} MeetAgain(a: Word, b: Word, x: seq<bool>, y: seq<bool>)
    requires |x| == |y| <= 16
    requires Register(a, x) == Register(b, y)
    ensures a[|x|..] == b[|x|..]
    decreases x
  {
    if x != [] {
      MeetAgain(Shift(a, x[0]), Shift(b, y[0]), x[1..], y[1..]);
      AgreeBefore(a, b, x[0], y[0], |x| - 1);
    }
  }

  lemma {:induction false} ShortBurst(crc: Word, x: seq<bool>, y: seq<bool>)
    requires |x| == |y| <= 16
    requires Register(crc, x) == Register(crc, y)
    ensures x == y
    decreases x
  {
    if x != [] {
      var c, d := Shift(crc, x[0]), Shift(crc, y[0]);
      MeetAgain(c, d, x[1..], y[1..]);
      assert c[15] == c[|x| - 1..][16 - |x|] == d[|x| - 1..][16 - |x|] == d[15];
      assert c[15] == (crc[0] != x[0]) && d[15] == (crc[0] != y[0]);
      ShortBurst(c, x[1..], y[1..]);
      assert x == [x[0]] + x[1..];
      assert y == [y[0]] + y[1..];
    }
  }

  /** Burst detection: two messages whose bit strings agree except inside one window of at most
      sixteen consecutive bits, at any alignment, have equal checksums only when they are
      equal. */
  lemma {:induction false} BurstDetected(prefix: seq<bool>, x: seq<bool>, y: seq<bool>, suffix: seq<bool>,
                      m1: seq<byte>, m2: seq<byte>)
    requires |x| == |y| <= 16
    requires Bits(m1) == prefix + x + suffix
    requires Bits(m2) == prefix + y + suffix
    ensures Checksum(m1) == Checksum(m2) <==> x == y
  {
    RegisterConcat(INITIAL, prefix + x, suffix);
    RegisterConcat(INITIAL, prefix, x);
    RegisterConcat(INITIAL, prefix + y, suffix);
    RegisterConcat(INITIAL, prefix, y);
    if Checksum(m1) == Checksum(m2) {
      var s := Register(INITIAL, prefix);
      RegisterInjective(Register(s, x), Register(s, y), suffix);
      ShortBurst(s, x, y);
    }
  }

  /** Two adjacent damaged bytes, anywhere in a field of any length, always change the CRC. */
  lemma {:induction false} AdjacentBytesDetected(prefix: seq<byte>, a1: byte, a2: byte, b1: byte, b2: byte, suffix: seq<byte>)
    ensures Checksum(prefix + [a1, a2] + suffix) == Checksum(prefix + [b1, b2] + suffix)
            <==> a1 == b1 && a2 == b2
  {
    TwoByteMessage(prefix, a1, a2, suffix);
    TwoByteMessage(prefix, b1, b2, suffix);
    var x, y := NatBits(a1, 8) + NatBits(a2, 8), NatBits(b1, 8) + NatBits(b2, 8);
    BurstDetected(Bits(prefix), x, y, Bits(suffix), prefix + [a1, a2] + suffix, prefix + [b1, b2] + suffix);
    if x == y {
      assert NatBits(a1, 8) == x[..8] == y[..8] == NatBits(b1, 8);
      assert NatBits(a2, 8) == x[8..] == y[8..] == NatBits(b2, 8);
      assert Pow2(8) == 256;
      NatOfNatBits(a1, 8);
      NatOfNatBits(b1, 8);
      NatOfNatBits(a2, 8);
      NatOfNatBits(b2, 8);
    }
  }

  lemma {:induction false} TwoByteMessage(prefix: seq<byte>, b1: byte, b2: byte, suffix: seq<byte>)
    ensures Bits(prefix + [b1, b2] + suffix) == Bits(prefix) + (NatBits(b1, 8) + NatBits(b2, 8)) + Bits(suffix)
  {
    BitsConcat(prefix + [b1, b2], suffix);
    BitsConcat(prefix, [b1, b2]);
    assert [b1, b2] == [b1] + [b2];
    BitsConcat([b1], [b2]);
    BitsOfOne(b1);
    BitsOfOne(b2);
  }

  /** A field followed by two bytes leaves the register at zero exactly when those bytes are the
      field's own CRC, high byte first: the check a reader makes, in both directions. */
  lemma {:induction false} ResidueIsZero(message: seq<byte>, high: byte, low: byte)
    ensures Checksum(message + [high, low]) == ZERO
            <==> high == High(Checksum(message)) && low == Low(Checksum(message))
  {
    var crc := Checksum(message);
    OwnCrcDivides(message);
    assert message + [high, low] + [] == message + [high, low];
    assert message + [High(crc), Low(crc)] + [] == message + [High(crc), Low(crc)];
    AdjacentBytesDetected(message, high, low, High(crc), Low(crc), []);
  }

  lemma {:induction false} OwnCrcDivides(message: seq<byte>)
    ensures var crc := Checksum(message);
            Checksum(message + [High(crc), Low(crc)]) == ZERO
  {
    var crc := Checksum(message);
    var tail := [High(crc), Low(crc)];
    BitsConcat(message, tail);
    BitsOfOwnCrc(crc);
    RegisterConcat(INITIAL, Bits(message), crc);
    assert crc[..16] == crc;
    SelfCancels(crc, 16);
  }

  lemma {:induction false} BitsOfOwnCrc(crc: Word)
    ensures Bits([High(crc), Low(crc)]) == crc
  {
    BitsConcat([High(crc)], [Low(crc)]);
    BitsOfOne(High(crc));
    BitsOfOne(Low(crc));
    BitsOfBitsNat(crc[..8]);
    BitsOfBitsNat(crc[8..]);
    assert [High(crc), Low(crc)] == [High(crc)] + [Low(crc)];
    assert crc[..8] + crc[8..] == crc;
  }

  /** A register fed with its own bits empties itself. */
  lemma {:induction false} SelfCancels(crc: Word, n: nat)
    requires n <= 16
    requires forall i :: n <= i < 16 ==> !crc[i]
    ensures Register(crc, crc[..n]) == ZERO
    decreases n
  {
    if n == 0 {
      assert crc == ZERO;
    } else {
      var next := Shift(crc, crc[0]);
      assert next == crc[1..] + [false];
      SelfCancels(next, n - 1);
      assert crc[..n][1..] == next[..n - 1];
    }
  }

  /** The register starts with all ones, and a single one bit leaves 1021h in it. */
  lemma {:induction false} Constants()
    ensures High(Checksum([])) == 0xFF && Low(Checksum([])) == 0xFF
    ensures High(Register(ZERO, [true])) == 0x10 && Low(Register(ZERO, [true])) == 0x21
  {
    StartsWithOnes();
    OneBitFeedsBack();
  }

  lemma {:induction false} StartsWithOnes()
    ensures High(Checksum([])) == 0xFF && Low(Checksum([])) == 0xFF
  {
    assert Bits([]) == [] && Register(INITIAL, []) == INITIAL;
    AllOnes(INITIAL[..8]);
    AllOnes(INITIAL[8..]);
  }

  lemma {:induction false} AllOnes(bits: seq<bool>)
    requires |bits| == 8 && forall i :: 0 <= i < 8 ==> bits[i]
    ensures BitsNat(bits) == 255
  {
    LowestBits(bits, true, true, true, true, true, true, true, true);
  }

  lemma {:induction false} OneBitFeedsBack()
    ensures High(Register(ZERO, [true])) == 0x10 && Low(Register(ZERO, [true])) == 0x21
  {
    assert [true][1..] == [];
    assert Register(ZERO, [true]) == Shift(ZERO, true) == POLYNOMIAL;
    PolynomialBytes(POLYNOMIAL);
  }

  lemma {:induction false} PolynomialBytes(crc: Word)
    requires crc == POLYNOMIAL
    ensures High(crc) == 0x10 && Low(crc) == 0x21
  {
    LowestBits(crc[..8], false, false, false, true, false, false, false, false);
    LowestBits(crc[8..], false, false, true, false, false, false, false, true);
  }

  lemma {:induction false} LowestBits(bits: seq<bool>, a: bool, b: bool, c: bool, d: bool, e: bool, f: bool, g: bool, h: bool)
    requires bits == [a, b, c, d, e, f, g, h]
    ensures BitsNat(bits) == (if a then 128 else 0) + (if b then 64 else 0) + (if c then 32 else 0) + (if d then 16 else 0)
                             + (if e then 8 else 0) + (if f then 4 else 0) + (if g then 2 else 0) + (if h then 1 else 0)
  {
    FourMoreBits([], a, b, c, d);
    FourMoreBits([a, b, c, d], e, f, g, h);
    assert [] + [a, b, c, d] == [a, b, c, d];
    assert [a, b, c, d] + [e, f, g, h] == bits;
  }

  lemma {:induction false} FourMoreBits(bits: seq<bool>, a: bool, b: bool, c: bool, d: bool)
    ensures BitsNat(bits + [a, b, c, d])
         == 16 * BitsNat(bits) + (if a then 8 else 0) + (if b then 4 else 0) + (if c then 2 else 0) + (if d then 1 else 0)
  {
    OneMoreBit(bits, a);
    OneMoreBit(bits + [a], b);
    OneMoreBit(bits + [a] + [b], c);
    OneMoreBit(bits + [a] + [b] + [c], d);
    assert bits + [a] + [b] + [c] + [d] == bits + [a, b, c, d];
  }

  lemma {:induction false} OneMoreBit(bits: seq<bool>, a: bool)
    ensures BitsNat(bits + [a]) == 2 * BitsNat(bits) + if a then 1 else 0
  {
    assert (bits + [a])[..|bits|] == bits;
  }
}
