/** The timer from the bits of its control word on: what a program writes to the four ports, and what the
    outputs do then. */
module PitPrograms {
  import opened Bytes
  import opened Pit8253
  import opened PitCounting

  // ---------------------------------------------------------------- what is written

  /** The control word for one of the three counters, and the count bytes that bits 4 and 5 ask for: the
      low one, the high one, or both, low one first. */
  function Program(counters: seq<Counter>, control: byte, low: byte, high: byte): (after: seq<Counter>)
    requires |counters| == 3 && control / 64 < 3
    ensures |after| == 3
  {
    var s := Written(counters, 3, control);
    match control / 16 % 4
    case 1 => Written(s, control / 64, low)
    case 2 => Written(s, control / 64, high)
    case 3 => Written(Written(s, control / 64, low), control / 64, high)
    case _ => s
  }

  /** The sixteen bits of the count: a byte that is not written is zero. */
  function Raw(control: byte, low: byte, high: byte): (raw: nat)
    ensures raw < 65_536
  {
    match control / 16 % 4
    case 1 => low
    case 2 => 256 * high
    case 3 => low + 256 * high
    case _ => 0
  }

  /** The number they stand for, by bit 0: binary, or four decimal digits; all zeros are the largest
      count. */
  function CountOf(control: byte, raw: nat): nat {
    if control % 2 == 0 then if raw == 0 then 65_536 else raw
    else if raw == 0 then 10_000
    else raw / 4096 % 16 * 1000 + raw / 256 % 16 * 100 + raw / 16 % 16 * 10 + raw % 16
  }

  /** A counter that has been programmed: `d` pulses to count, bits 1 to 3 of the control word as its
      mode. */
  predicate Ready(c: Counter, control: byte, d: nat) {
    match c
    case Counter(p, _, _, e) =>
      && p.bcd == (control % 2 == 1) && p.readLowNext && !p.latched
      && (p.access == Lsb <==> control / 16 % 4 == 1) && (p.access == Msb <==> control / 16 % 4 == 2)
      && (p.access == LsbMsb <==> control / 16 % 4 == 3)
      && d >= 1 && e.countLoaded && e.reload == d && e.current == d && !e.strobeLow && e.phaseHigh
      && (e.mode == 0 || e.mode == 1 || e.mode == 2 || e.mode == 3 || e.mode == 4 || e.mode == 5)
      && (control / 2 % 8 == 0 <==> e.mode == 0) && (control / 2 % 8 == 1 <==> e.mode == 1)
      && (control / 2 % 8 == 2 || control / 2 % 8 == 6 <==> e.mode == 2)
      && (control / 2 % 8 == 3 || control / 2 % 8 == 7 <==> e.mode == 3)
      && (control / 2 % 8 == 4 <==> e.mode == 4) && (control / 2 % 8 == 5 <==> e.mode == 5)
      && e.output == (e.mode != 0) && e.running == (c.gate && e.mode != 1 && e.mode != 5)
      && (e.mode == 3 ==> e.phaseRemaining == (d + 1) / 2)
  }

  lemma {:induction false} DecimalIsCount(control: byte, raw: nat)
    requires raw < 65_536
    ensures DecodeCount(raw, control % 2 == 1) == CountOf(control, raw)
  {
    if control % 2 == 1 {
      HexDigits(raw);
    }
  }

  lemma {:induction false} LoadedIsReady(c: Counter, control: byte, raw: nat, d: nat)
    requires raw < 65_536 && d == CountOf(control, raw) && c.port.bcd == (control % 2 == 1)
    requires c.element == Configure(c, control).element && c.port.access == Configure(c, control).port.access
    requires c.port.readLowNext && !c.port.latched && control / 16 % 4 != 0
    ensures Ready(Load(c, raw), control, d)
  {
    DecimalIsCount(control, raw);
  }

  lemma {:induction false} ControlWord(counters: seq<Counter>, control: byte)
    requires |counters| == 3 && control / 64 < 3 && control / 16 % 4 != 0
    ensures Written(counters, 3, control) == counters[control / 64 := Configure(counters[control / 64], control)]
  {
  }

  lemma {:induction false} CountByte(counters: seq<Counter>, i: byte, value: byte)
    requires |counters| == 3 && i < 3
    ensures Written(counters, i, value) == counters[i := WriteCounter(counters[i], value)]
  {
  }

  /** The writes of a program, at the counter they go to. */
  lemma {:induction false} ProgramWrites(counters: seq<Counter>, control: byte, low: byte, high: byte, c: Counter)
    requires |counters| == 3 && control / 64 < 3 && control / 16 % 4 != 0 && c == Configure(counters[control / 64], control)
    ensures Program(counters, control, low, high)
         == counters[control / 64 := match control / 16 % 4
                                     case 1 => WriteCounter(c, low)
                                     case 2 => WriteCounter(c, high)
                                     case _ => WriteCounter(WriteCounter(c, low), high)]
  {
    var i: byte := control / 64;
    ControlWord(counters, control);
    var s := counters[i := c];
    CountByte(s, i, low);
    CountByte(s, i, high);
    CountByte(s[i := WriteCounter(c, low)], i, high);
  }

  lemma {:induction false} WritesAreReady(before: Counter, control: byte, low: byte, high: byte, c: Counter, after: Counter)
    requires control / 16 % 4 != 0 && c == Configure(before, control)
    requires after == match control / 16 % 4
                      case 1 => WriteCounter(c, low)
                      case 2 => WriteCounter(c, high)
                      case _ => WriteCounter(WriteCounter(c, low), high)
    ensures Ready(after, control, CountOf(control, Raw(control, low, high))) && after.gate == before.gate
  {
    var raw := Raw(control, low, high);
    match control / 16 % 4
    case 1 => LoadedIsReady(c, control, raw, CountOf(control, raw));
    case 2 => LoadedIsReady(c, control, raw, CountOf(control, raw));
    case _ => LoadedIsReady(WriteCounter(c, low).(port := c.port.(pendingLow := low)), control, raw, CountOf(control, raw));
  }

  /** Programming a counter leaves it ready with its count, and leaves the other counters and all gates
      alone, whatever the counter was doing. */
  lemma {:induction false} ProgramIsReady(counters: seq<Counter>, control: byte, low: byte, high: byte)
    requires |counters| == 3 && control / 64 < 3 && control / 16 % 4 != 0
    ensures var i, after := control / 64, Program(counters, control, low, high);
            && Ready(after[i], control, CountOf(control, Raw(control, low, high))) && after[i].gate == counters[i].gate
            && forall j :: 0 <= j < 3 && j != i ==> after[j] == counters[j]
  {
    var i := control / 64;
    var c := Configure(counters[i], control);
    ProgramWrites(counters, control, low, high, c);
    WritesAreReady(counters[i], control, low, high, c, Program(counters, control, low, high)[i]);
  }

  // ---------------------------------------------------------------- what the output does

  /** Modes 0 to 5 of a counter that counts `d` pulses, with the gate left alone: the level of the output
      after `n` pulses, counted from the load, or in modes 1 and 5 from the trigger. */
  function High(select: nat, d: nat, n: nat): bool
    requires d >= 1
  {
    match select
    case 0 => n >= d
    case 1 => n >= d
    case 2 => if d == 1 then n % 2 == 0 else n == 0 || n % d != 0
    case 6 => if d == 1 then n % 2 == 0 else n == 0 || n % d != 0
    case 3 => if d == 1 then n % 2 == 0 else n % d < (d + 1) / 2
    case 7 => if d == 1 then n % 2 == 0 else n % d < (d + 1) / 2
    case _ => n != d
  }

  /** How often the output has risen. */
  function Rises(select: nat, d: nat, n: nat): nat
    requires d >= 1
  {
    match select
    case 0 => if n < d then 0 else 1
    case 1 => if n < d then 0 else 1
    case 2 => if d == 1 then n / 2 else if n == 0 then 0 else (n - 1) / d
    case 6 => if d == 1 then n / 2 else if n == 0 then 0 else (n - 1) / d
    case 3 => if d == 1 then n / 2 else n / d
    case 7 => if d == 1 then n / 2 else n / d
    case _ => if n <= d then 0 else 1
  }

  function Falls(select: nat, d: nat, n: nat): nat
    requires d >= 1
  {
    match select
    case 0 => 0
    case 1 => 0
    case 2 => if d == 1 then (n + 1) / 2 else n / d
    case 6 => if d == 1 then (n + 1) / 2 else n / d
    case 3 => if d == 1 then (n + 1) / 2 else (n + d / 2) / d
    case 7 => if d == 1 then (n + 1) / 2 else (n + d / 2) / d
    case _ => if n < d then 0 else 1
  }

  /** What `n` pulses do to this counter. */
  predicate Runs(c: Counter, select: nat, d: nat, n: nat)
    requires d >= 1
  {
    match c
    case Counter(_, _, _, e) =>
      (Clocked(e, n).output <==> High(select, d, n)) && RisingEdges(e, n) == Rises(select, d, n)
          && FallingEdges(e, n) == Falls(select, d, n)
  }

  lemma {:induction false} Counts(c: Counter, control: byte, d: nat, n: nat)
    requires Ready(c, control, d) && c.gate && control / 2 % 8 == 0
    ensures Runs(c, 0, d, n)
  {
    CountDown(c.element, d, n);
  }

  lemma {:induction false} Divides(c: Counter, control: byte, d: nat, n: nat)
    requires Ready(c, control, d) && c.gate && (control / 2 % 8 == 2 || control / 2 % 8 == 6)
    ensures Runs(c, 2, d, n)
  {
    if d == 1 {
      RateOfOne(c.element, n);
    } else {
      RateGenerator(c.element, d, n);
    }
  }

  lemma {:induction false} Squares(c: Counter, control: byte, d: nat, n: nat)
    requires Ready(c, control, d) && c.gate && (control / 2 % 8 == 3 || control / 2 % 8 == 7)
    ensures Runs(c, 3, d, n)
  {
    if d == 1 {
      SquareOfOne(c.element, n);
    } else {
      SquareWave(c.element, d, n);
    }
  }

  lemma {:induction false} Strobes(c: Counter, control: byte, d: nat, n: nat)
    requires Ready(c, control, d) && c.gate && control / 2 % 8 == 4
    ensures Runs(c, 4, d, n)
  {
    StrobeEdges(c.element, d, n);
  }

  lemma {:induction false} StandsStill(e: Element, n: nat)
    requires !e.running
    ensures Clocked(e, n) == e && RisingEdges(e, n) == 0 && FallingEdges(e, n) == 0
  {
    if n > 0 {
      StandsStill(e, n - 1);
    }
  }

  /** With a high gate a counter runs from the load on, in modes 1 and 5 from the next rise of the
      gate. */
  lemma {:induction false} ReadyRuns(c: Counter, control: byte, d: nat, n: nat)
    requires Ready(c, control, d) && c.gate
    ensures if control / 2 % 8 == 1 || control / 2 % 8 == 5 then Clocked(c.element, n) == c.element
            else Runs(c, control / 2 % 8, d, n)
  {
    match control / 2 % 8
    case 0 => Counts(c, control, d, n);
    case 2 => Divides(c, control, d, n);
    case 6 => Divides(c, control, d, n);
    case 3 => Squares(c, control, d, n);
    case 7 => Squares(c, control, d, n);
    case 4 => Strobes(c, control, d, n);
    case _ => StandsStill(c.element, n);
  }

  /** With a low gate it waits, and starts with the rise of the gate, whatever the mode. */
  lemma {:induction false} ReadyWaits(c: Counter, control: byte, d: nat, before: nat, n: nat)
    requires Ready(c, control, d) && !c.gate
    ensures Clocked(c.element, before) == c.element
    ensures Runs(SetGate(c, true), control / 2 % 8, d, n)
  {
    StandsStill(c.element, before);
    var t := SetGate(c, true);
    match control / 2 % 8
    case 0 => CountDown(t.element, d, n);
    case 1 => CountDown(t.element, d, n);
    case 2 => GateDivides(t, d, n);
    case 6 => GateDivides(t, d, n);
    case 3 => GateSquares(t, d, n);
    case 7 => GateSquares(t, d, n);
    case _ => StrobeEdges(t.element, d, n);
  }

  lemma {:induction false} GateDivides(t: Counter, d: nat, n: nat)
    requires RateLoaded(t.element, d) && d >= 1
    ensures Runs(t, 2, d, n) && Runs(t, 6, d, n)
  {
    if d == 1 {
      RateOfOne(t.element, n);
    } else {
      RateGenerator(t.element, d, n);
    }
  }

  lemma {:induction false} GateSquares(t: Counter, d: nat, n: nat)
    requires SquareLoaded(t.element, d) && d >= 1
    ensures Runs(t, 3, d, n) && Runs(t, 7, d, n)
  {
    if d == 1 {
      SquareOfOne(t.element, n);
    } else {
      SquareWave(t.element, d, n);
    }
  }

  /** From the bits of the control word on: a counter programmed with its gate high runs as bits 1 to 3
      say, with the count that bits 0, 4 and 5 and the bytes make; programmed with the gate low, it waits
      for it, and then does. */
  lemma {:induction false} ProgramRuns(counters: seq<Counter>, control: byte, low: byte, high: byte,
                                       c: Counter, d: nat, before: nat, n: nat)
    requires |counters| == 3 && control / 64 < 3 && control / 16 % 4 != 0
    requires c == Program(counters, control, low, high)[control / 64] && d == CountOf(control, Raw(control, low, high))
    ensures d >= 1 && c.gate == counters[control / 64].gate
    ensures if c.gate then
              if control / 2 % 8 == 1 || control / 2 % 8 == 5 then
                && Clocked(c.element, before) == c.element && c.element.output
                && Runs(SetGate(SetGate(AfterPulses(c, before), false), true), control / 2 % 8, d, n)
              else Runs(c, control / 2 % 8, d, n)
            else
              Clocked(c.element, before) == c.element && Runs(SetGate(c, true), control / 2 % 8, d, n)
  {
    ProgramIsReady(counters, control, low, high);
    if c.gate {
      ReadyRuns(c, control, d, n);
      if control / 2 % 8 == 1 || control / 2 % 8 == 5 {
        StandsStill(c.element, before);
        ReadyWaits(SetGate(c, false), control, d, before, n);
      }
    } else {
      ReadyWaits(c, control, d, before, n);
    }
  }

  // ---------------------------------------------------------------- the gate

  /** In mode 0 a low gate stops the count and a high one lets it go on from there. */
  lemma {:induction false} GatePauses(c: Counter, n: nat)
    requires c.element.mode == 0 && c.gate && c.element.running && c.element.countLoaded && !c.element.strobeLow
    ensures Clocked(SetGate(c, false).element, n) == SetGate(c, false).element
    ensures SetGate(AfterPulses(SetGate(c, false), n), true) == c
  {
    StandsStill(SetGate(c, false).element, n);
  }

  /** In modes 2 and 3 a falling gate sets the output high at once, and a rising one starts the count
      anew. */
  lemma {:induction false} GateRestarts(c: Counter, between: nat, n: nat)
    requires (c.element.mode == 2 || c.element.mode == 3) && c.gate && c.element.countLoaded && c.element.reload >= 1
    ensures var stopped := SetGate(c, false);
            && stopped.element.output && Clocked(stopped.element, between) == stopped.element
            && Runs(SetGate(AfterPulses(stopped, between), true), c.element.mode, c.element.reload, n)
  {
    var stopped := SetGate(c, false);
    StandsStill(stopped.element, between);
    var t := SetGate(stopped, true);
    if c.element.mode == 2 {
      GateDivides(t, c.element.reload, n);
    } else {
      GateSquares(t, c.element.reload, n);
    }
  }

  // ---------------------------------------------------------------- reading the count

  /** A count as it is read, by bit 0 of the control word: sixteen bits, or four decimal digits. */
  function CodeOf(control: byte, value: nat): nat {
    if control % 2 == 0 then value % 65_536
    else
      var v := value % 10_000;
      v / 1000 * 4096 + v / 100 % 10 * 256 + v / 10 % 10 * 16 + v % 10
  }

  /** The count a program sees after `n` pulses: what is left, and in mode 3 what is left of the half
      period, in steps of two. */
  function Left(select: nat, d: nat, n: nat): int
    requires d >= 1
  {
    match select
    case 2 => d - n % d
    case 6 => d - n % d
    case 3 => LeftOfHalf(d, n % d)
    case 7 => LeftOfHalf(d, n % d)
    case _ => if n < d then d - n else 0
  }

  function LeftOfHalf(d: nat, r: nat): int {
    var high := (d + 1) / 2;
    if r < high then 2 * (high - r) - d % 2 else 2 * (d / 2 - (r - high))
  }

  lemma {:induction false} CodeIsEncoded(control: byte, value: nat)
    ensures EncodeCount(value, control % 2 == 1) == CodeOf(control, value)
  {
  }

  /** The counter after `n` pulses shows this count. */
  predicate Shows(c: Counter, control: byte, value: int) {
    value >= 0 && VisibleCount(c) == CodeOf(control, value)
  }

  lemma {:induction false} CountShown(c: Counter, control: byte, d: nat, n: nat)
    requires Ready(c, control, d) && c.gate && control / 2 % 8 == 0
    ensures Shows(AfterPulses(c, n), control, Left(0, d, n))
  {
    CountDown(c.element, d, n);
    CodeIsEncoded(control, Left(0, d, n));
  }

  lemma {:induction false} RateShown(c: Counter, control: byte, d: nat, n: nat)
    requires Ready(c, control, d) && c.gate && (control / 2 % 8 == 2 || control / 2 % 8 == 6)
    ensures Shows(AfterPulses(c, n), control, Left(2, d, n))
  {
    if d == 1 {
      RateOfOne(c.element, n);
    } else {
      RateGenerator(c.element, d, n);
    }
    CodeIsEncoded(control, Left(2, d, n));
  }

  lemma {:induction false} HalfShown(c: Counter, control: byte, d: nat, r: nat, t: Counter)
    requires SquareLoaded(c.element, d) && d >= 2 && r < d && c.port.bcd == (control % 2 == 1)
    requires t == c.(element := SquareAt(c.element, d, r))
    ensures Shows(t, control, LeftOfHalf(d, r))
  {
    CodeIsEncoded(control, LeftOfHalf(d, r));
  }

  lemma {:induction false} SquareShown(c: Counter, control: byte, d: nat, n: nat)
    requires Ready(c, control, d) && c.gate && (control / 2 % 8 == 3 || control / 2 % 8 == 7) && d >= 2
    ensures Shows(AfterPulses(c, n), control, Left(3, d, n))
  {
    SquareWave(c.element, d, n);
    HalfShown(c, control, d, n % d, AfterPulses(c, n));
  }

  lemma {:induction false} StrobeShown(c: Counter, control: byte, d: nat, n: nat)
    requires Ready(c, control, d) && c.gate && control / 2 % 8 == 4
    ensures Shows(AfterPulses(c, n), control, Left(4, d, n))
  {
    SingleStrobe(c.element, d, n);
    CodeIsEncoded(control, Left(4, d, n));
  }

  /** The count a running counter shows. */
  lemma {:induction false} ReadyShows(c: Counter, control: byte, d: nat, n: nat)
    requires Ready(c, control, d) && c.gate && (d >= 2 || control / 2 % 4 != 3)
    requires control / 2 % 8 != 1 && control / 2 % 8 != 5
    ensures Shows(AfterPulses(c, n), control, Left(control / 2 % 8, d, n))
  {
    match control / 2 % 8
    case 0 => CountShown(c, control, d, n);
    case 2 => RateShown(c, control, d, n);
    case 6 => RateShown(c, control, d, n);
    case 3 => SquareShown(c, control, d, n);
    case 7 => SquareShown(c, control, d, n);
    case _ => StrobeShown(c, control, d, n);
  }

  /** What a program reads from a counter it has programmed: the low byte of the count, the high byte, or
      the two in turn, as bits 4 and 5 of the control word say. */
  lemma {:induction false} ReadyReads(c: Counter, control: byte, d: nat, n: nat, t: Counter, v: nat)
    requires Ready(c, control, d) && control / 16 % 4 != 0 && t == AfterPulses(c, n) && v == VisibleCount(t)
    ensures var (first, u) := ReadCounter(t);
            && first == (if control / 16 % 4 == 2 then v / 256 else v % 256)
            && ReadCounter(u).0 == (if control / 16 % 4 == 1 then v % 256 else v / 256)
            && u.element == t.element && u.gate == t.gate
  {
  }

  /** A control word with bits 4 and 5 clear latches the count of its counter, unless one is latched
      already. */
  lemma {:induction false} LatchCommand(counters: seq<Counter>, control: byte, n: nat)
    requires |counters| == 3 && control / 64 < 3 && control / 16 % 4 == 0
    ensures var i := control / 64;
            var latched := LatchCounter(counters[i]);
            && Written(counters, 3, control) == counters[i := latched]
            && latched.element == counters[i].element && latched.port.latched
            && (!counters[i].port.latched ==> latched.port.latchedValue == VisibleCount(counters[i]))
            && LatchCounter(AfterPulses(latched, n)) == AfterPulses(latched, n)
  {
  }
}
