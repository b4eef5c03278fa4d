/** The 8255 from the bits of its words on: the mode word, the bit set and reset word, and what a read of
    port C shows. */
module PortWords {
  import opened Bytes
  import opened Ppi8255

  // ---------------------------------------------------------------- single bits of a byte

  /** Bit `k` of a number. */
  predicate Bit(v: nat, k: nat) {
    if k == 0 then v % 2 == 1 else Bit(v / 2, k - 1)
  }

  /** Bit `k` set to a value, the others as they are. */
  function SetBit(v: nat, k: nat, on: bool): nat {
    if k == 0 then v / 2 * 2 + (if on then 1 else 0) else SetBit(v / 2, k - 1, on) * 2 + v % 2
  }

  lemma {:induction false} BitsOfSet(v: nat, k: nat, on: bool, j: nat)
    ensures Bit(SetBit(v, k, on), j) <==> if j == k then on else Bit(v, j)
    decreases k, j
  {
    var w := SetBit(v, k, on);
    if k == 0 {
      assert w / 2 == v / 2;
    } else {
      assert w / 2 == SetBit(v / 2, k - 1, on) && w % 2 == v % 2;
      if j > 0 {
        BitsOfSet(v / 2, k - 1, on, j - 1);
      }
    }
  }

  lemma {:induction false} SetIsSum(v: nat, k: nat, on: bool)
    ensures SetBit(v, k, on) == if Bit(v, k) == on then v else if on then v + Pow2(k) else v - Pow2(k)
    decreases k
  {
    if k > 0 {
      SetIsSum(v / 2, k - 1, on);
    }
  }

  lemma {:induction false} DivideTwice(value: nat, p: nat)
    requires p > 0
    ensures value / 2 / p == value / (2 * p)
  {
    var q, r := value / 2 / p, value / 2 % p;
    assert value / 2 == q * p + r;
    assert q * (2 * p) == 2 * (q * p);
    DivModUnique(value, 2 * p, q, 2 * r + value % 2);
  }

  lemma {:induction false} MaskIsBit(v: nat, k: nat)
    ensures HasBit(v, Pow2(k)) <==> Bit(v, k)
  {
    if k > 0 {
      MaskIsBit(v / 2, k - 1);
      DivideTwice(v, Pow2(k - 1));
    }
  }

  lemma {:induction false} Powers()
    ensures Pow2(0) == 1 && Pow2(1) == 2 && Pow2(2) == 4 && Pow2(3) == 8
    ensures Pow2(4) == 16 && Pow2(5) == 32 && Pow2(6) == 64 && Pow2(7) == 128
  {
    assert Pow2(4) == 2 * Pow2(3) && Pow2(5) == 2 * Pow2(4) && Pow2(6) == 2 * Pow2(5) && Pow2(7) == 2 * Pow2(6);
  }

  /** A byte with one bit set or cleared. */
  lemma {:induction false} WithBitSets(value: byte, k: nat, mask: byte, on: bool)
    requires k < 8 && mask == Pow2(k) && mask in {1, 2, 4, 8, 16, 32, 64, 128}
    ensures WithBit(value, mask, on) == SetBit(value, k, on)
  {
    MaskIsBit(value, k);
    SetIsSum(value, k, on);
  }

  // ---------------------------------------------------------------- the mode word

  /** Bit 7 set: bits 5 and 6 are the mode of group A, 4 the direction of port A, 3 that of the upper half
      of port C, 2 the mode of group B, 1 the direction of port B, 0 that of the lower half of port C; a
      set bit means input.  The outputs are cleared, the handshakes idle and the interrupts off. */
  predicate ModeWord(s: PpiState, v: byte, t: PpiState) {
    && (t.a.mode == Mode0 <==> v / 32 % 4 == 0) && (t.a.mode == Mode1 <==> v / 32 % 4 == 1)
        && (t.a.mode == Mode2 <==> v / 64 % 2 == 1)
    && (t.a.input <==> v / 16 % 2 == 1) && (t.a.upperInput <==> v / 8 % 2 == 1)
    && (t.b.mode == Mode0 <==> v / 4 % 2 == 0) && (t.b.mode == Mode1 <==> v / 4 % 2 == 1)
    && (t.b.input <==> v / 2 % 2 == 1) && (t.b.lowerInput <==> v % 2 == 1)
    && t.ports == Ports(0, 0, 0, s.ports.inA, s.ports.inB, s.ports.inC)
    && !t.a.shake.ibf && !t.b.shake.ibf && t.a.shake.obfHigh && t.b.shake.obfHigh
    && t.a.shake.strobeHigh && t.b.shake.strobeHigh && t.a.shake.ackHigh && t.b.shake.ackHigh
    && !t.a.inteInput && !t.a.inteOutput && !t.b.inte && !t.a.intr && !t.b.intr
  }

  lemma {:induction false} ModeIsSet(s: PpiState, register: byte, v: byte)
    requires register % 4 == 3 && v >= 128
    ensures ModeWord(s, v, Written(s, register, v))
  {
    assert v / 128 == 1;
    assert v / 32 % 4 == v / 64 % 2 * 2 + v / 32 % 2;
  }

  /** What a program then reads from the three ports in mode 0: the pins of an input, and zero of an
      output. */
  lemma {:induction false} ModeShows(s: PpiState, register: byte, v: byte)
    requires register % 4 == 3 && v >= 128 && v / 32 % 4 == 0 && v / 4 % 2 == 0
    ensures var t := Written(s, register, v);
            && ReadValue(t, 0) == (if v / 16 % 2 == 1 then s.ports.inA else 0)
            && ReadValue(t, 1) == (if v / 2 % 2 == 1 then s.ports.inB else 0)
            && ReadValue(t, 2) == (if v / 8 % 2 == 1 then s.ports.inC / 16 * 16 else 0)
                + (if v % 2 == 1 then s.ports.inC % 16 else 0)
  {
    ModeIsSet(s, register, v);
  }

  // ---------------------------------------------------------------- the bit word

  /** Bit 7 clear: bits 1 to 3 name a bit of port C, and bit 0 is its value.  Where that bit is the enable
      of an interrupt it is the enable that is set, and the port stays. */
  predicate BitWord(s: PpiState, v: byte, t: PpiState) {
    var k, on := v / 2 % 8, v % 2 == 1;
    var enableA, enableB := (k == 4 && s.a.Receives()) || (k == 6 && s.a.Sends()), k == 2 && s.b.mode == Mode1;
    && (t.a.inteInput <==> if k == 4 && s.a.Receives() then on else s.a.inteInput)
    && (t.a.inteOutput <==> if k == 6 && s.a.Sends() then on else s.a.inteOutput)
    && (t.b.inte <==> if enableB then on else s.b.inte)
    && (forall j: nat :: j < 8 ==> (Bit(t.ports.outC, j) <==>
          if j == k && !enableA && !enableB then on else Bit(s.ports.outC, j)))
    && t.ports == s.ports.(outC := t.ports.outC)
    && t.a == s.a.(inteInput := t.a.inteInput, inteOutput := t.a.inteOutput, intr := t.a.intr)
    && t.b == s.b.(inte := t.b.inte, intr := t.b.intr)
  }

  lemma {:induction false} MaskIsPower(k: nat)
    requires k < 8
    ensures MaskOf(k) == Pow2(k)
  {
    Powers();
  }

  lemma {:induction false} OutputBit(s: PpiState, v: byte, j: nat)
    requires v < 128
    ensures var after := WithBit(s.ports.outC, MaskOf(v / 2 % 8), v % 2 == 1);
            Bit(after, j) <==> if j == v / 2 % 8 then v % 2 == 1 else Bit(s.ports.outC, j)
  {
    var k, on := v / 2 % 8, v % 2 == 1;
    MaskIsPower(k);
    WithBitSets(s.ports.outC, k, MaskOf(k), on);
    BitsOfSet(s.ports.outC, k, on, j);
  }

  /** The word names the enable of an interrupt. */
  predicate NamesEnable(s: PpiState, v: byte) {
    var k := v / 2 % 8;
    (k == 4 && s.a.Receives()) || (k == 6 && s.a.Sends()) || (k == 2 && s.b.mode == Mode1)
  }

  lemma {:induction false} WordIsBit(s: PpiState, register: byte, v: byte)
    requires register % 4 == 3 && v < 128
    ensures Written(s, register, v) == Settled(BitSetReset(s, v))
  {
    assert v / 128 % 2 == 0;
  }

  lemma {:induction false} EnableIsWritten(s: PpiState, v: byte)
    requires v < 128 && NamesEnable(s, v)
    ensures BitWord(s, v, Settled(BitSetReset(s, v)))
  {
  }

  lemma {:induction false} OutputIsWritten(s: PpiState, v: byte)
    requires v < 128 && !NamesEnable(s, v)
    ensures BitWord(s, v, Settled(BitSetReset(s, v)))
  {
    var t := Settled(BitSetReset(s, v));
    forall j: nat | j < 8
      ensures Bit(t.ports.outC, j) <==> if j == v / 2 % 8 then v % 2 == 1 else Bit(s.ports.outC, j)
    {
      OutputBit(s, v, j);
    }
  }

  lemma {:induction false} BitIsWritten(s: PpiState, register: byte, v: byte)
    requires register % 4 == 3 && v < 128
    ensures BitWord(s, v, Written(s, register, v))
  {
    WordIsBit(s, register, v);
    if NamesEnable(s, v) {
      EnableIsWritten(s, v);
    } else {
      OutputIsWritten(s, v);
    }
  }

  // ---------------------------------------------------------------- port C

  /** Three bits of a byte set one after the other. */
  lemma {:induction false} ThreeBits(v: byte, k: nat, l: nat, m: nat, x: bool, y: bool, z: bool, mk: byte,
                                     ml: byte, mm: byte, j: nat)
    requires k < 8 && l < 8 && m < 8 && mk == Pow2(k) && ml == Pow2(l) && mm == Pow2(m) && k != l && l != m && k != m
    requires {mk, ml, mm} <= {1, 2, 4, 8, 16, 32, 64, 128}
    ensures Bit(WithBit(WithBit(WithBit(v, mk, x), ml, y), mm, z), j) <==>
              if j == k then x else if j == l then y else if j == m then z else Bit(v, j)
  {
    var a := WithBit(v, mk, x);
    var b := WithBit(a, ml, y);
    WithBitSets(v, k, mk, x);
    WithBitSets(a, l, ml, y);
    WithBitSets(b, m, mm, z);
    BitsOfSet(v, k, x, j);
    BitsOfSet(a, l, y, j);
    BitsOfSet(b, m, z, j);
  }

  /** What port C would show without handshakes. */
  function PlainC(s: PpiState): byte {
    (if s.a.upperInput then s.ports.inC else s.ports.outC) / 16 * 16
        + (if s.b.lowerInput then s.ports.inC else s.ports.outC) % 16
  }

  /** Port C as a program reads it while group A is in mode 1: for a receiving group bit 5 is the input
      buffer full flag and bit 4 its strobe pin, for a sending one bit 7 is the inverted output buffer full
      flag and bit 6 its acknowledge pin; bit 3 is its interrupt. */
  lemma {:induction false} GroupAShown(s: PpiState, v: byte, j: nat)
    requires s.a.mode == Mode1
    ensures var h := s.a.shake;
            Bit(WithGroupA(s, v), j) <==>
              if j == 3 then s.a.intr
              else if s.a.input then if j == 5 then h.ibf else if j == 4 then h.strobeHigh else Bit(v, j)
              else if j == 7 then h.obfHigh else if j == 6 then h.ackHigh else Bit(v, j)
  {
    var h := s.a.shake;
    Powers();
    if s.a.input {
      ThreeBits(v, 4, 5, 3, h.strobeHigh, h.ibf, s.a.intr, 0x10, 0x20, 0x08, j);
    } else {
      ThreeBits(v, 7, 6, 3, h.obfHigh, h.ackHigh, s.a.intr, 0x80, 0x40, 0x08, j);
    }
  }

  /** Group A in mode 2 shows all of them: its flags on bits 7 and 5, its pins on 6 and 4. */
  lemma {:induction false} BothWaysShown(s: PpiState, v: byte, j: nat)
    requires s.a.mode == Mode2
    ensures var h := s.a.shake;
            Bit(WithGroupA(s, v), j) <==>
              if j == 3 then s.a.intr else if j == 4 then h.strobeHigh else if j == 5 then h.ibf
              else if j == 6 then h.ackHigh else if j == 7 then h.obfHigh else Bit(v, j)
  {
    var h := s.a.shake;
    Powers();
    ThreeBits(v, 7, 6, 5, h.obfHigh, h.ackHigh, h.ibf, 0x80, 0x40, 0x20, j);
    var a := WithBit(WithBit(WithBit(v, 0x80, h.obfHigh), 0x40, h.ackHigh), 0x20, h.ibf);
    WithBitSets(a, 4, 0x10, h.strobeHigh);
    BitsOfSet(a, 4, h.strobeHigh, j);
    var b := WithBit(a, 0x10, h.strobeHigh);
    WithBitSets(b, 3, 0x08, s.a.intr);
    BitsOfSet(b, 3, s.a.intr, j);
  }

  /** Group B in mode 1: bit 2 is its strobe or acknowledge pin, bit 1 the flag of its buffer, bit 0 its
      interrupt. */
  lemma {:induction false} GroupBShown(s: PpiState, v: byte, j: nat)
    requires s.b.mode == Mode1
    ensures var h := s.b.shake;
            Bit(WithGroupB(s, v), j) <==>
              if j == 0 then s.b.intr
              else if j == 1 then if s.b.input then h.ibf else h.obfHigh
              else if j == 2 then if s.b.input then h.strobeHigh else h.ackHigh
              else Bit(v, j)
  {
    var h := s.b.shake;
    Powers();
    ThreeBits(v, 2, 1, 0, if s.b.input then h.strobeHigh else h.ackHigh, if s.b.input then h.ibf else h.obfHigh, s.b.intr,
              0x04, 0x02, 0x01, j);
  }

  /** The handshake bits of port C with both groups in mode 1, as a program polls them. */
  lemma {:induction false} PortCShows(s: PpiState, register: byte, j: nat)
    requires s.a.mode == Mode1 && s.b.mode == Mode1 && register % 4 == 2
    ensures var (v, a, b) := (ReadValue(s, register), s.a.shake, s.b.shake);
            Bit(v, j) <==>
              if j == 0 then s.b.intr
              else if j == 1 then if s.b.input then b.ibf else b.obfHigh
              else if j == 2 then if s.b.input then b.strobeHigh else b.ackHigh
              else if j == 3 then s.a.intr
              else if s.a.input && j == 4 then a.strobeHigh
              else if s.a.input && j == 5 then a.ibf
              else if !s.a.input && j == 6 then a.ackHigh
              else if !s.a.input && j == 7 then a.obfHigh
              else Bit(PlainC(s), j)
  {
    GroupAShown(s, PlainC(s), j);
    GroupBShown(s, WithGroupA(s, PlainC(s)), j);
  }
}
