/** Bytes, single bits of them, and the correspondence between a number and its bits. */
module Bytes {

  type byte = x: int | 0 <= x < 256

  /** `(value & mask) != 0` for a mask of one bit. */
  predicate HasBit(value: nat, mask: nat)
    requires mask > 0
  {
    value / mask % 2 == 1
  }

  /** The low `width` bits of a number, most significant first. */
  function NatBits(value: nat, width: nat): (bits: seq<bool>)
    ensures |bits| == width
    decreases width
  {
    if width == 0 then [] else NatBits(value / 2, width - 1) + [value % 2 == 1]
  }

  function Pow2(n: nat): (p: nat)
    ensures p > 0
  {
    if n == 0 then 1 else 2 * Pow2(n - 1)
  }

  function BitsNat(bits: seq<bool>): (value: nat)
    ensures value < Pow2(|bits|)
  {
    if bits == [] then 0
    else 2 * BitsNat(bits[..|bits| - 1]) + if bits[|bits| - 1] then 1 else 0
  }

  lemma {:induction false} BitsOfBitsNat(bits: seq<bool>)
    ensures NatBits(BitsNat(bits), |bits|) == bits
  {
    if bits != [] {
      BitsOfBitsNat(bits[..|bits| - 1]);
      assert bits == bits[..|bits| - 1] + [bits[|bits| - 1]];
    }
  }

  lemma {:induction false} NatOfNatBits(value: nat, width: nat)
    requires value < Pow2(width)
    ensures BitsNat(NatBits(value, width)) == value
    decreases width
  {
    if width != 0 {
      NatOfNatBits(value / 2, width - 1);
      assert NatBits(value, width)[..width - 1] == NatBits(value / 2, width - 1);
    }
  }

  function Min(a: nat, b: nat): nat { if a <= b then a else b }

  function Sum(numbers: seq<nat>): nat {
    if numbers == [] then 0 else numbers[0] + Sum(numbers[1..])
  }

  // ---------------------------------------------------------------- division

  lemma {:induction false} DivModUnique(n: int, d: nat, q: int, r: nat)
    requires n == q * d + r && r < d
    ensures n / d == q && n % d == r
  {
    var q', r' := n / d, n % d;
    assert n == q' * d + r';
    assert (q - q') * d == r' - r;
    assert (q' - q) * d == -((q - q') * d);
    if q > q' {
      AtLeastOne(q - q', d);
    } else if q < q' {
      AtLeastOne(q' - q, d);
    }
  }

  lemma {:induction false} AtLeastOne(k: int, d: nat)
    requires k >= 1
    ensures k * d >= d
  {
  }
}
