/** The 8253 interval timer: three counters, programmed and clocked one pulse at a time. */
module Pit8253 {
  import opened Bytes

  datatype Access = Latch | Lsb | Msb | LsbMsb

  /** The registers through which the processor programs and reads a counter. */
  datatype Port = Port(
    access: Access,
    bcd: bool,
    writeLowNext: bool,
    readLowNext: bool,
    latched: bool,
    latchedLowNext: bool,
    pendingLow: byte,
    latchedValue: nat)

  /** The part that counts. */
  datatype Element = Element(
    mode: nat,
    countLoaded: bool,
    reload: nat,
    running: bool,
    output: bool,
    strobeLow: bool,
    phaseHigh: bool,
    current: nat,
    phaseRemaining: nat)

  /** Everything one counter remembers: one element of the chip's array. */
  datatype Counter = Counter(port: Port, gate: bool, waitingForTrigger: bool, element: Element)

  const RESET_COUNTER := Counter(Port(LsbMsb, false, true, true, false, true, 0, 0), false, false,
                                 Element(0, false, 0, false, false, false, true, 0, 0))

  // ---------------------------------------------------------------- counts and their codes

  /** A programmed count; zero stands for the largest one. */
  function DecodeCount(raw: nat, bcd: bool): (value: nat)
    requires raw < 65_536
    ensures 1 <= value <= 65_536
  {
    if !bcd then if raw == 0 then 65_536 else raw
    else
      var value := Decimal(raw / 4096 % 16, raw / 256 % 16, raw / 16 % 16, raw % 16);
      if value == 0 then 10_000 else value
  }

  function EncodeCount(value: nat, bcd: bool): (raw: nat)
    ensures raw < 65_536
  {
    if !bcd then value % 65_536
    else if value == 10_000 then 0
    else
      var v := value % 10_000;
      v / 1000 * 4096 + v / 100 % 10 * 256 + v / 10 % 10 * 16 + v % 10
  }

  function Decimal(a: nat, b: nat, c: nat, d: nat): nat {
    a * 1000 + b * 100 + c * 10 + d
  }

  lemma {:induction false} DecimalDigits(a: nat, b: nat, c: nat, d: nat)
    requires a <= 9 && b <= 9 && c <= 9 && d <= 9
    ensures var v := Decimal(a, b, c, d);
            v / 1000 == a && v / 100 % 10 == b && v / 10 % 10 == c && v % 10 == d && v < 10_000
  {
    var v := Decimal(a, b, c, d);
    assert v / 10 == a * 100 + b * 10 + c;
    assert v / 100 == a * 10 + b;
  }

  lemma {:induction false} HexDigits(raw: nat)
    requires raw < 65_536
    ensures raw == raw / 4096 % 16 * 4096 + raw / 256 % 16 * 256 + raw / 16 % 16 * 16 + raw % 16
  {
    assert raw / 256 == raw / 4096 * 16 + raw / 256 % 16;
    assert raw / 16 == raw / 256 * 16 + raw / 16 % 16;
  }

  lemma {:induction false} EncodeDigits(a: nat, b: nat, c: nat, d: nat)
    requires a <= 9 && b <= 9 && c <= 9 && d <= 9
    ensures var v := Decimal(a, b, c, d);
            EncodeCount(if v == 0 then 10_000 else v, true) == a * 4096 + b * 256 + c * 16 + d
  {
    var v := Decimal(a, b, c, d);
    DecimalDigits(a, b, c, d);
    if v != 0 {
      assert v % 10_000 == v;
    }
  }

  /** Reading back a count that has not moved gives the code it was programmed with, when that
      is a decimal code in decimal mode. */
  lemma {:induction false} CodesRoundTrip(raw: nat, bcd: bool)
    requires raw < 65_536
    requires bcd ==> raw / 4096 % 16 <= 9 && raw / 256 % 16 <= 9 && raw / 16 % 16 <= 9 && raw % 16 <= 9
    ensures EncodeCount(DecodeCount(raw, bcd), bcd) == raw
  {
    if bcd {
      var a, b, c, d := raw / 4096 % 16, raw / 256 % 16, raw / 16 % 16, raw % 16;
      HexDigits(raw);
      EncodeDigits(a, b, c, d);
    }
  }

  function VisibleCount(c: Counter): (raw: nat)
    ensures raw < 65_536
  {
    var e := c.element;
    if e.mode != 3 then EncodeCount(e.current, c.port.bcd)
    else
      var value := e.phaseRemaining * 2;
      EncodeCount(if e.phaseHigh && e.reload % 2 == 1 && value != 0 then value - 1 else value, c.port.bcd)
  }

  // ---------------------------------------------------------------- one counter

  function ModeOf(control: byte): nat {
    match control / 2 % 8
    case 6 => 2
    case 7 => 3
    case mode => mode
  }

  function AccessOf(control: byte): Access {
    match control / 16 % 4
    case 0 => Latch
    case 1 => Lsb
    case 2 => Msb
    case _ => LsbMsb
  }

  function Configure(c: Counter, control: byte): Counter {
    var mode := ModeOf(control);
    Counter(Port(AccessOf(control), control % 2 == 1, true, true, false, true, 0, c.port.latchedValue),
            c.gate, mode == 1 || mode == 5,
            Element(mode, false, 0, false, mode != 0, false, true, 0, 0))
  }

  function Load(c: Counter, raw: nat): Counter
    requires raw < 65_536
  {
    var reload := DecodeCount(raw, c.port.bcd);
    var mode := c.element.mode;
    var waits := mode == 1 || mode == 5;
    var known := mode <= 5;
    c.(waitingForTrigger := waits || c.waitingForTrigger,
       element := c.element.(
         reload := reload, current := reload, countLoaded := true, strobeLow := false, phaseHigh := true,
         output := if known then mode != 0 else c.element.output,
         running := if !known then c.element.running else !waits && c.gate,
         phaseRemaining := if mode == 3 then (reload + 1) / 2 else c.element.phaseRemaining))
  }

  function Trigger(c: Counter): Counter {
    c.(waitingForTrigger := false,
       element := c.element.(current := c.element.reload, output := c.element.mode != 1,
                             running := true, strobeLow := false))
  }

  function SetGate(c: Counter, high: bool): Counter {
    var rising, falling, e := !c.gate && high, c.gate && !high, c.element;
    var gated := c.(gate := high);
    if e.mode == 0 || e.mode == 4 then
      gated.(element := e.(running := e.countLoaded && high && !e.strobeLow))
    else if e.mode == 1 || e.mode == 5 then
      if rising && e.countLoaded then Trigger(gated) else gated
    else if e.mode == 2 || e.mode == 3 then
      if falling then gated.(element := e.(running := false, output := true))
      else if rising && e.countLoaded then
        gated.(element := e.(current := e.reload, phaseHigh := true,
                             phaseRemaining := if e.mode == 3 then (e.reload + 1) / 2 else 0,
                             output := true, running := true))
      else gated
    else gated
  }

  /** One clock pulse. */
  function ClockOnce(e: Element): Element {
    if !e.running || !e.countLoaded then e
    else if e.mode == 0 || e.mode == 1 then CountOut(e)
    else if e.mode == 2 then CountRate(e)
    else if e.mode == 3 then CountSquare(e)
    else if e.mode == 4 || e.mode == 5 then CountStrobe(e)
    else e
  }

  function CountOut(e: Element): Element {
    if e.current > 1 then e.(current := e.current - 1)
    else e.(current := 0, output := true, running := false)
  }

  function CountRate(e: Element): Element {
    if !e.output then e.(output := true, current := if e.current > 1 then e.current - 1 else e.current)
    else if e.current > 1 then e.(current := e.current - 1)
    else e.(current := e.reload, output := false)
  }

  function CountSquare(e: Element): Element {
    if e.phaseRemaining > 1 then e.(phaseRemaining := e.phaseRemaining - 1)
    else
      var half := if e.output then e.reload / 2 else (e.reload + 1) / 2;
      e.(output := !e.output, phaseHigh := !e.output, phaseRemaining := if half == 0 then 1 else half)
  }

  function CountStrobe(e: Element): Element {
    if e.strobeLow then e.(output := true, strobeLow := false, running := false)
    else if e.current > 1 then e.(current := e.current - 1)
    else e.(current := 0, output := false, strobeLow := true)
  }

  /** The value a read returns, and the counter after it. */
  function ReadCounter(c: Counter): (byte, Counter) {
    var p := c.port;
    var value := if p.latched then p.latchedValue % 65_536 else VisibleCount(c);
    var low: byte, high: byte := value % 256, value / 256;
    match p.access
    case Lsb => (low, c.(port := p.(latched := false)))
    case Msb => (high, c.(port := p.(latched := false)))
    case LsbMsb =>
      if p.latched then
        if p.latchedLowNext then (low, c.(port := p.(latchedLowNext := false)))
        else (high, c.(port := p.(latchedLowNext := true, latched := false)))
      else if p.readLowNext then (low, c.(port := p.(readLowNext := false)))
      else (high, c.(port := p.(readLowNext := true)))
    case Latch => (0xFF, c)
  }

  function WriteCounter(c: Counter, value: byte): Counter {
    var p := c.port;
    match p.access
    case Lsb => Load(c, value)
    case Msb => Load(c, value * 256)
    case LsbMsb =>
      if p.writeLowNext then c.(port := p.(pendingLow := value, writeLowNext := false))
      else Load(c.(port := p.(writeLowNext := true)), value * 256 + p.pendingLow)
    case Latch => c
  }

  function LatchCounter(c: Counter): Counter {
    if c.port.latched then c
    else c.(port := c.port.(latchedValue := VisibleCount(c), latched := true, latchedLowNext := true))
  }

  // ---------------------------------------------------------------- runs of clock pulses

  /** The counting part after `n` pulses. */
  function Clocked(e: Element, n: nat): Element
    decreases n, e
  {
    if n == 0 then e else ClockOnce(Clocked(e, n - 1))
  }

  /** How often the output rose, and how often it fell, during `n` pulses. */
  function RisingEdges(e: Element, n: nat): nat
    decreases n, e
  {
    if n == 0 then 0
    else RisingEdges(e, n - 1) + if !Clocked(e, n - 1).output && Clocked(e, n).output then 1 else 0
  }

  function FallingEdges(e: Element, n: nat): nat
    decreases n, e
  {
    if n == 0 then 0
    else FallingEdges(e, n - 1) + if Clocked(e, n - 1).output && !Clocked(e, n).output then 1 else 0
  }

  // ---------------------------------------------------------------- the chip

  class Pit {
    const channels: array<Counter>

    ghost predicate Valid() {
      channels.Length == 3
    }

    /** The three counters. */
    ghost function State(): (counters: seq<Counter>)
      requires Valid()
      reads channels
      ensures |counters| == 3
    {
      channels[..]
    }

    constructor ()
      ensures Valid() && fresh(channels)
      ensures State() == [RESET_COUNTER, RESET_COUNTER, RESET_COUNTER]
    {
      channels := new Counter[3](_ => RESET_COUNTER);
    }

    method Reset()
      requires Valid()
      modifies channels
      ensures State() == [RESET_COUNTER, RESET_COUNTER, RESET_COUNTER]
    {
      channels[0], channels[1], channels[2] := RESET_COUNTER, RESET_COUNTER, RESET_COUNTER;
    }

    method Read(register: byte) returns (value: byte)
      requires Valid()
      modifies channels
      ensures var (v, after) := ReadAt(old(State()), register); value == v && State() == after
    {
      var index := register % 4;
      if index < channels.Length {
        var (v, c) := ReadCounter(channels[index]);
        value, channels[index] := v, c;
      } else {
        value := 0xFF;
      }
    }

    method Write(register: byte, value: byte)
      requires Valid()
      modifies channels
      ensures State() == Written(old(State()), register, value)
    {
      var index := register % 4;
      if index < channels.Length {
        channels[index] := WriteCounter(channels[index], value);
        return;
      }
      var selected := value / 64;
      if selected >= channels.Length {
        return;
      }
      if AccessOf(value) == Latch {
        channels[selected] := LatchCounter(channels[selected]);
        return;
      }
      channels[selected] := Configure(channels[selected], value);
    }

    method SetGateInput(index: nat, high: bool)
      requires Valid()
      modifies channels
      ensures State() == if index < 3 then old(State())[index := SetGate(old(State())[index], high)] else old(State())
    {
      if index >= channels.Length {
        return;
      }
      channels[index] := SetGate(channels[index], high);
    }

    method Clock(index: nat, pulses: nat) returns (risingEdges: nat, fallingEdges: nat)
      requires Valid()
      modifies channels
      ensures index >= 3 ==> risingEdges == fallingEdges == 0 && State() == old(State())
      ensures index < 3 ==>
                var c := old(State())[index];
                && State() == old(State())[index := c.(element := Clocked(c.element, pulses))]
                && risingEdges == RisingEdges(c.element, pulses)
                && fallingEdges == FallingEdges(c.element, pulses)
    {
      risingEdges, fallingEdges := 0, 0;
      if index >= channels.Length {
        return;
      }
      ghost var before := channels[..];
      ghost var e := before[index].element;
      for pulse := 0 to pulses
        invariant channels[..] == before[index := before[index].(element := Clocked(e, pulse))]
        invariant risingEdges == RisingEdges(e, pulse)
        invariant fallingEdges == FallingEdges(e, pulse)
      {
        var channel := channels[index];
        assert channel.element == Clocked(e, pulse);
        var oldOutput := channel.element.output;
        channel := channel.(element := ClockOnce(channel.element));
        if !oldOutput && channel.element.output {
          risingEdges := risingEdges + 1;
        } else if oldOutput && !channel.element.output {
          fallingEdges := fallingEdges + 1;
        }
        channels[index] := channel;
      }
    }
  }

  function ReadAt(counters: seq<Counter>, register: byte): (result: (byte, seq<Counter>))
    requires |counters| == 3
    ensures |result.1| == 3
  {
    var index := register % 4;
    if index < 3 then var (v, c) := ReadCounter(counters[index]); (v, counters[index := c]) else (0xFF, counters)
  }

  /** The counters after a register write: a count byte, a latch command or a control word. */
  function Written(counters: seq<Counter>, register: byte, value: byte): (after: seq<Counter>)
    requires |counters| == 3
    ensures |after| == 3
  {
    var index, selected := register % 4, value / 64;
    if index < 3 then counters[index := WriteCounter(counters[index], value)]
    else if selected >= 3 then counters
    else if AccessOf(value) == Latch then counters[selected := LatchCounter(counters[selected])]
    else counters[selected := Configure(counters[selected], value)]
  }
}
