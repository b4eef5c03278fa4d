/** The 8255 peripheral interface: three ports and, in mode 1 and 2, the strobe/acknowledge
    handshakes of its two groups. */
module Ppi8255 {
  import opened Bytes

  datatype Mode = Mode0 | Mode1 | Mode2

  /** The handshake flags of one group.  `obfHigh` is the inverted "output buffer full". */
  datatype Handshake = Handshake(
    latch: byte,
    strobeHigh: bool,
    ackHigh: bool,
    ibf: bool,
    obfHigh: bool,
    acknowledged: bool)

  const IDLE := Handshake(0, true, true, false, true, false)

  datatype GroupA = GroupA(mode: Mode, input: bool, upperInput: bool, shake: Handshake,
                           inteInput: bool, inteOutput: bool, intr: bool)
  {
    predicate Receives() { (mode == Mode1 && input) || mode == Mode2 }

    predicate Sends() { (mode == Mode1 && !input) || mode == Mode2 }

    /** What INTR A has to be. */
    predicate Interrupt() {
      || (Receives() && inteInput && shake.ibf && shake.strobeHigh)
      || (Sends() && inteOutput && shake.acknowledged && shake.obfHigh && shake.ackHigh)
    }
  }

  datatype GroupB = GroupB(mode: Mode, input: bool, lowerInput: bool, shake: Handshake, inte: bool, intr: bool)
  {
    predicate Receives() { mode == Mode1 && input }

    predicate Sends() { mode == Mode1 && !input }

    /** What INTR B has to be. */
    predicate Interrupt() {
      || (Receives() && inte && shake.ibf && shake.strobeHigh)
      || (Sends() && inte && shake.acknowledged && shake.obfHigh && shake.ackHigh)
    }
  }

  datatype Ports = Ports(outA: byte, outB: byte, outC: byte, inA: byte, inB: byte, inC: byte)

  datatype PpiState = PpiState(ports: Ports, a: GroupA, b: GroupB)

  // ---------------------------------------------------------------- handshake events

  function Strobed(h: Handshake, high: bool, value: byte, receives: bool): Handshake {
    var falling := h.strobeHigh && !high;
    if falling && receives then h.(strobeHigh := high, latch := value, ibf := true)
    else h.(strobeHigh := high)
  }

  function Acked(h: Handshake, high: bool, sends: bool): Handshake {
    var falling, rising := h.ackHigh && !high, !h.ackHigh && high;
    h.(ackHigh := high,
       obfHigh := h.obfHigh || (falling && sends),
       acknowledged := h.acknowledged || rising)
  }

  /** The processor has read the port. */
  function Taken(h: Handshake, receives: bool): Handshake {
    if receives then h.(ibf := false) else h
  }

  /** The processor has written the port. */
  function Given(h: Handshake, sends: bool): Handshake {
    if sends then h.(obfHigh := false, acknowledged := false) else h
  }

  // ---------------------------------------------------------------- operations

  /** INTR A and INTR B follow their flags. */
  function Settled(s: PpiState): PpiState {
    s.(a := s.a.(intr := s.a.Interrupt()), b := s.b.(intr := s.b.Interrupt()))
  }

  function ModeSet(s: PpiState, value: byte): PpiState {
    var modeA := if HasBit(value, 0x40) then Mode2 else if HasBit(value, 0x20) then Mode1 else Mode0;
    var modeB := if HasBit(value, 0x04) then Mode1 else Mode0;
    PpiState(Ports(0, 0, 0, s.ports.inA, s.ports.inB, s.ports.inC),
             GroupA(modeA, HasBit(value, 0x10), HasBit(value, 0x08), IDLE, false, false, false),
             GroupB(modeB, HasBit(value, 0x02), HasBit(value, 0x01), IDLE, false, false))
  }

  function WithBit(value: byte, mask: byte, on: bool): byte
    requires mask in {1, 2, 4, 8, 16, 32, 64, 128}
  {
    if HasBit(value, mask) == on then value
    else if on then
      TopBitFits(value, mask);
      value + mask
    else
      AtLeastUnit(value, mask);
      value - mask
  }

  lemma {:induction false} OneMore(value: nat, unit: nat)
    requires unit > 0
    ensures (value + unit) / unit == value / unit + 1
  {
    var q := value / unit;
    assert value + unit == (q + 1) * unit + value % unit;
    DivModUnique(value + unit, unit, q + 1, value % unit);
  }

  lemma {:induction false} AtLeastUnit(value: nat, unit: nat)
    requires unit > 0 && value / unit >= 1
    ensures value >= unit
  {
  }

  lemma {:induction false} TopBitFits(value: byte, mask: byte)
    requires mask in {1, 2, 4, 8, 16, 32, 64, 128} && !HasBit(value, mask)
    ensures value + mask < 256
  {
    if mask == 1 { } else if mask == 2 { } else if mask == 4 { } else if mask == 8 { }
    else if mask == 16 { } else if mask == 32 { } else if mask == 64 { } else { assert mask == 128; }
  }

  lemma {:induction false} BitFlips(value: byte, mask: byte, on: bool)
    requires mask in {1, 2, 4, 8, 16, 32, 64, 128} && HasBit(value, mask) != on
    ensures WithBit(value, mask, on) == if on then value + mask else value - mask
    ensures HasBit(WithBit(value, mask, on), mask) == on
  {
    if on {
      BitRises(value, mask);
    } else {
      BitFalls(value, mask);
    }
  }

  lemma {:induction false} BitRises(value: byte, mask: byte)
    requires mask in {1, 2, 4, 8, 16, 32, 64, 128} && !HasBit(value, mask)
    ensures value + mask < 256 && HasBit(value + mask, mask)
  {
    TopBitFits(value, mask);
    OneMore(value, mask);
  }

  lemma {:induction false} BitFalls(value: byte, mask: byte)
    requires mask in {1, 2, 4, 8, 16, 32, 64, 128} && HasBit(value, mask)
    ensures value >= mask && !HasBit(value - mask, mask)
  {
    AtLeastUnit(value, mask);
    OneMore(value - mask, mask);
  }

  /** Setting a bit to a value sets that bit, and setting it back gives the old byte. */
  lemma {:induction false} BitIsSet(value: byte, mask: byte, on: bool)
    requires mask in {1, 2, 4, 8, 16, 32, 64, 128}
    ensures HasBit(WithBit(value, mask, on), mask) == on
    ensures WithBit(WithBit(value, mask, on), mask, HasBit(value, mask)) == value
  {
    if HasBit(value, mask) != on {
      BitFlips(value, mask, on);
      BitFlips(WithBit(value, mask, on), mask, !on);
    }
  }

  function MaskOf(bit: nat): (mask: byte)
    requires bit < 8
    ensures mask in {1, 2, 4, 8, 16, 32, 64, 128}
  {
    [1, 2, 4, 8, 16, 32, 64, 128][bit]
  }

  function BitSetReset(s: PpiState, value: byte): PpiState {
    var bit, on := value / 2 % 8, value % 2 == 1;
    if bit == 4 && s.a.Receives() then s.(a := s.a.(inteInput := on))
    else if bit == 6 && s.a.Sends() then s.(a := s.a.(inteOutput := on))
    else if bit == 2 && s.b.mode == Mode1 then s.(b := s.b.(inte := on))
    else s.(ports := s.ports.(outC := WithBit(s.ports.outC, MaskOf(bit), on)))
  }

  function Written(s: PpiState, register: byte, value: byte): PpiState {
    match register % 4
    case 0 => Settled(s.(ports := s.ports.(outA := value), a := s.a.(shake := Given(s.a.shake, s.a.Sends()))))
    case 1 => Settled(s.(ports := s.ports.(outB := value), b := s.b.(shake := Given(s.b.shake, s.b.Sends()))))
    case 2 => Settled(s.(ports := s.ports.(outC := value)))
    case _ => Settled(if HasBit(value, 0x80) then ModeSet(s, value) else BitSetReset(s, value))
  }

  function StrobeA(s: PpiState, high: bool): PpiState {
    Settled(s.(a := s.a.(shake := Strobed(s.a.shake, high, s.ports.inA, s.a.Receives()))))
  }

  function StrobeB(s: PpiState, high: bool): PpiState {
    Settled(s.(b := s.b.(shake := Strobed(s.b.shake, high, s.ports.inB, s.b.Receives()))))
  }

  function AckA(s: PpiState, high: bool): PpiState {
    Settled(s.(a := s.a.(shake := Acked(s.a.shake, high, s.a.Sends()))))
  }

  function AckB(s: PpiState, high: bool): PpiState {
    Settled(s.(b := s.b.(shake := Acked(s.b.shake, high, s.b.Sends()))))
  }

  function PulseStrobeA(s: PpiState, value: byte): PpiState {
    StrobeA(StrobeA(s.(ports := s.ports.(inA := value)), false), true)
  }

  function PulseStrobeB(s: PpiState, value: byte): PpiState {
    StrobeB(StrobeB(s.(ports := s.ports.(inB := value)), false), true)
  }

  function PulseAckA(s: PpiState): PpiState {
    AckA(AckA(s, false), true)
  }

  function PulseAckB(s: PpiState): PpiState {
    AckB(AckB(s, false), true)
  }

  function PortC(s: PpiState): (value: byte) {
    var upper := (if s.a.upperInput then s.ports.inC else s.ports.outC) / 16;
    var lower := (if s.b.lowerInput then s.ports.inC else s.ports.outC) % 16;
    WithGroupB(s, WithGroupA(s, upper * 16 + lower))
  }

  function WithGroupA(s: PpiState, value: byte): byte {
    var h := s.a.shake;
    match s.a.mode
    case Mode0 => value
    case Mode1 =>
      if s.a.input then WithBit(WithBit(WithBit(value, 0x10, h.strobeHigh), 0x20, h.ibf), 0x08, s.a.intr)
      else WithBit(WithBit(WithBit(value, 0x80, h.obfHigh), 0x40, h.ackHigh), 0x08, s.a.intr)
    case Mode2 =>
      WithBit(WithBit(WithBit(WithBit(WithBit(value, 0x80, h.obfHigh), 0x40, h.ackHigh), 0x20, h.ibf),
                      0x10, h.strobeHigh), 0x08, s.a.intr)
  }

  function WithGroupB(s: PpiState, value: byte): byte {
    var h := s.b.shake;
    if s.b.mode != Mode1 then value
    else WithBit(WithBit(WithBit(value, 0x04, if s.b.input then h.strobeHigh else h.ackHigh),
                         0x02, if s.b.input then h.ibf else h.obfHigh),
                 0x01, s.b.intr)
  }

  /** The byte a register read returns. */
  function ReadValue(s: PpiState, register: byte): byte {
    match register % 4
    case 0 => if s.a.Receives() then s.a.shake.latch else if s.a.input then s.ports.inA else s.ports.outA
    case 1 => if s.b.Receives() then s.b.shake.latch else if s.b.input then s.ports.inB else s.ports.outB
    case 2 => PortC(s)
    case _ => 0xFF
  }

  /** The state after a register read: a received byte counts as taken. */
  function AfterRead(s: PpiState, register: byte): PpiState {
    match register % 4
    case 0 => if s.a.Receives() then Settled(s.(a := s.a.(shake := Taken(s.a.shake, true)))) else s
    case 1 => if s.b.Receives() then Settled(s.(b := s.b.(shake := Taken(s.b.shake, true)))) else s
    case _ => s
  }

  const RESET_STATE := ModeSet(PpiState(Ports(0, 0, 0, 0, 0, 0),
                                        GroupA(Mode0, true, true, IDLE, false, false, false),
                                        GroupB(Mode0, true, true, IDLE, false, false)), 0x9B)

  // ---------------------------------------------------------------- the chip

  /** A change of the strobe pin of a group. */
  method MoveStrobe(h: Handshake, high: bool, value: byte, receives: bool) returns (after: Handshake)
    ensures after == Strobed(h, high, value, receives)
  {
    var falling := h.strobeHigh && !high;
    after := h.(strobeHigh := high);
    if falling && receives {
      after := after.(latch := value, ibf := true);
    }
  }

  /** A change of the acknowledge pin of a group. */
  method MoveAck(h: Handshake, high: bool, sends: bool) returns (after: Handshake)
    ensures after == Acked(h, high, sends)
  {
    var falling := h.ackHigh && !high;
    var rising := !h.ackHigh && high;
    after := h.(ackHigh := high);
    if falling && sends {
      after := after.(obfHigh := true);
    }
    if rising {
      after := after.(acknowledged := true);
    }
  }

  class Ppi {
    var ports: Ports
    var a: GroupA
    var b: GroupB

    ghost function State(): PpiState
      reads this
    {
      PpiState(ports, a, b)
    }

    constructor ()
      ensures State() == RESET_STATE
    {
      ports := Ports(0, 0, 0, 0, 0, 0);
      a := GroupA(Mode0, true, true, IDLE, false, false, false);
      b := GroupB(Mode0, true, true, IDLE, false, false);
      new;
      DoModeSet(0x9B);
    }

    method Reset()
      modifies this
      ensures State() == RESET_STATE
    {
      ports := Ports(0, 0, 0, 0, 0, 0);
      DoModeSet(0x9B);
    }

    method DoModeSet(value: byte)
      modifies this
      ensures State() == ModeSet(old(State()), value)
    {
      var modeA := Mode0;
      if HasBit(value, 0x40) {
        modeA := Mode2;
      } else if HasBit(value, 0x20) {
        modeA := Mode1;
      }
      a := GroupA(modeA, HasBit(value, 0x10), HasBit(value, 0x08), IDLE, false, false, false);
      b := GroupB(if HasBit(value, 0x04) then Mode1 else Mode0, HasBit(value, 0x02), HasBit(value, 0x01),
                  IDLE, false, false);
      ports := ports.(outA := 0, outB := 0, outC := 0);
    }

    method DoBitSetReset(value: byte)
      modifies this
      ensures State() == BitSetReset(old(State()), value)
    {
      var bit := value / 2 % 8;
      var on := value % 2 == 1;
      if bit == 4 && a.Receives() {
        a := a.(inteInput := on);
      } else if bit == 6 && a.Sends() {
        a := a.(inteOutput := on);
      } else if bit == 2 && b.mode == Mode1 {
        b := b.(inte := on);
      } else {
        ports := ports.(outC := WithBit(ports.outC, MaskOf(bit), on));
      }
    }

    method UpdateInterrupts()
      modifies this`a, this`b
      ensures State() == Settled(old(State()))
    {
      a := a.(intr := a.Interrupt());
      b := b.(intr := b.Interrupt());
    }

    method Read(register: byte) returns (value: byte)
      modifies this
      ensures value == ReadValue(old(State()), register)
      ensures State() == AfterRead(old(State()), register)
    {
      match register % 4 {
        case 0 =>
          if a.Receives() {
            value := a.shake.latch;
            a := a.(shake := a.shake.(ibf := false), intr := false);
            UpdateInterrupts();
          } else {
            value := if a.input then ports.inA else ports.outA;
          }
        case 1 =>
          if b.Receives() {
            value := b.shake.latch;
            b := b.(shake := b.shake.(ibf := false), intr := false);
            UpdateInterrupts();
          } else {
            value := if b.input then ports.inB else ports.outB;
          }
        case 2 =>
          value := PortC(PpiState(ports, a, b));
        case _ =>
          value := 0xFF;
      }
    }

    method Write(register: byte, value: byte)
      modifies this
      ensures State() == Written(old(State()), register, value)
    {
      match register % 4 {
        case 0 =>
          ports := ports.(outA := value);
          if a.Sends() {
            a := a.(shake := a.shake.(obfHigh := false, acknowledged := false), intr := false);
          }
        case 1 =>
          ports := ports.(outB := value);
          if b.Sends() {
            b := b.(shake := b.shake.(obfHigh := false, acknowledged := false), intr := false);
          }
        case 2 =>
          ports := ports.(outC := value);
        case _ =>
          if HasBit(value, 0x80) {
            DoModeSet(value);
          } else {
            DoBitSetReset(value);
          }
      }
      UpdateInterrupts();
    }

    method SetPortAInput(value: byte)
      modifies this`ports
      ensures State() == old(State()).(ports := old(ports).(inA := value))
    {
      ports := ports.(inA := value);
    }

    method SetPortCInput(value: byte)
      modifies this`ports
      ensures State() == old(State()).(ports := old(ports).(inC := value))
    {
      ports := ports.(inC := value);
    }

    method SetStrobeB(high: bool)
      modifies this
      ensures State() == StrobeB(old(State()), high)
    {
      var shake := MoveStrobe(b.shake, high, ports.inB, b.Receives());
      b := b.(shake := shake);
      UpdateInterrupts();
    }

    method SetStrobeA(high: bool)
      modifies this
      ensures State() == StrobeA(old(State()), high)
    {
      var shake := MoveStrobe(a.shake, high, ports.inA, a.Receives());
      a := a.(shake := shake);
      UpdateInterrupts();
    }

    method SetAckA(high: bool)
      modifies this
      ensures State() == AckA(old(State()), high)
    {
      var shake := MoveAck(a.shake, high, a.Sends());
      a := a.(shake := shake);
      UpdateInterrupts();
    }

    method SetAckB(high: bool)
      modifies this
      ensures State() == AckB(old(State()), high)
    {
      var shake := MoveAck(b.shake, high, b.Sends());
      b := b.(shake := shake);
      UpdateInterrupts();
    }

    method DoPulseStrobeB(value: byte)
      modifies this
      ensures State() == PulseStrobeB(old(State()), value)
    {
      ports := ports.(inB := value);
      SetStrobeB(false);
      SetStrobeB(true);
    }

    method DoPulseStrobeA(value: byte)
      modifies this
      ensures State() == PulseStrobeA(old(State()), value)
    {
      ports := ports.(inA := value);
      SetStrobeA(false);
      SetStrobeA(true);
    }

    method DoPulseAckA()
      modifies this
      ensures State() == PulseAckA(old(State()))
    {
      SetAckA(false);
      SetAckA(true);
    }

    method DoPulseAckB()
      modifies this
      ensures State() == PulseAckB(old(State()))
    {
      SetAckB(false);
      SetAckB(true);
    }
  }
}
