/** What runs of clock pulses do: closed forms for the counting modes, and the laws every mode
    obeys. */
module PitCounting {
  import opened Bytes
  import opened Pit8253

  function Level(output: bool): int {
    if output then 1 else 0
  }

  // ---------------------------------------------------------------- laws of every mode

  /** Clocking in two steps is clocking at once, for the state and for the edges. */
  lemma {:induction false} ClockedConcat(e: Element, a: nat, b: nat)
    ensures Clocked(e, a + b) == Clocked(Clocked(e, a), b)
    ensures RisingEdges(e, a + b) == RisingEdges(e, a) + RisingEdges(Clocked(e, a), b)
    ensures FallingEdges(e, a + b) == FallingEdges(e, a) + FallingEdges(Clocked(e, a), b)
    decreases b
  {
    if b > 0 {
      ClockedConcat(e, a, b - 1);
      assert a + b - 1 == a + (b - 1);
    }
  }

  /** Rising and falling edges alternate: their balance is the change of the output. */
  lemma {:induction false} EdgeBalance(e: Element, n: nat)
    ensures RisingEdges(e, n) - FallingEdges(e, n) == Level(Clocked(e, n).output) - Level(e.output)
    ensures RisingEdges(e, n) + FallingEdges(e, n) <= n
  {
    if n > 0 {
      EdgeBalance(e, n - 1);
    }
  }

  // ---------------------------------------------------------------- division, one step at a time

  lemma {:induction false} DivModNext(n: nat, d: nat)
    requires d >= 1
    ensures n % d == d - 1 ==> (n + 1) / d == n / d + 1 && (n + 1) % d == 0
    ensures n % d != d - 1 ==> (n + 1) / d == n / d && (n + 1) % d == n % d + 1
  {
    var q, r := n / d, n % d;
    assert n == q * d + r;
    if r == d - 1 {
      assert n + 1 == (q + 1) * d + 0;
      DivModUnique(n + 1, d, q + 1, 0);
    } else {
      DivModUnique(n + 1, d, q, r + 1);
    }
  }

  // ---------------------------------------------------------------- mode 2: rate generator

  /** Mode 2 with a count of `d`, just loaded, gate high. */
  predicate RateLoaded(e: Element, d: nat) {
    e.mode == 2 && e.running && e.countLoaded && e.output && e.reload == d && e.current == d
  }

  lemma {:induction false} LoadRate(c: Counter, raw: nat)
    requires raw < 65_536 && c.element.mode == 2 && c.gate
    ensures RateLoaded(Load(c, raw).element, DecodeCount(raw, c.port.bcd))
  {
  }

  /** A count of two or more: the output is low for one pulse in `d`, and the count runs down
      from `d`. */
  lemma {:induction false} RateGenerator(e: Element, d: nat, n: nat)
    requires RateLoaded(e, d) && d >= 2
    ensures Clocked(e, n) == e.(current := d - n % d, output := n == 0 || n % d != 0)
    ensures FallingEdges(e, n) == n / d
    ensures RisingEdges(e, n) == if n == 0 then 0 else (n - 1) / d
  {
    if n == 0 {
      DivModUnique(0, d, 0, 0);
    } else {
      RateGenerator(e, d, n - 1);
      DivModNext(n - 1, d);
      if n == 1 {
        DivModUnique(0, d, 0, 0);
      } else {
        DivModNext(n - 2, d);
      }
    }
  }

  /** A count of one: the program gives a square wave of period two. */
  lemma {:induction false} RateOfOne(e: Element, n: nat)
    requires RateLoaded(e, 1)
    ensures Clocked(e, n) == e.(output := n % 2 == 0)
    ensures FallingEdges(e, n) == (n + 1) / 2
    ensures RisingEdges(e, n) == n / 2
  {
    if n > 0 {
      RateOfOne(e, n - 1);
    }
  }

  // ---------------------------------------------------------------- mode 3: square wave

  /** Mode 3 with a count of `d`, just loaded, gate high. */
  predicate SquareLoaded(e: Element, d: nat) {
    && e.mode == 3 && e.running && e.countLoaded && e.output && e.phaseHigh
    && e.reload == d && e.phaseRemaining == (d + 1) / 2
  }

  lemma {:induction false} LoadSquare(c: Counter, raw: nat)
    requires raw < 65_536 && c.element.mode == 3 && c.gate
    ensures SquareLoaded(Load(c, raw).element, DecodeCount(raw, c.port.bcd))
  {
  }

  /** The counter `r` pulses into a period of `d`. */
  function SquareAt(e: Element, d: nat, r: nat): Element
    requires r < d
  {
    var high := (d + 1) / 2;
    if r < high then e.(output := true, phaseHigh := true, phaseRemaining := high - r)
    else e.(output := false, phaseHigh := false, phaseRemaining := d / 2 - (r - high))
  }

  lemma {:induction false} SquareStep(e: Element, d: nat, r: nat)
    requires SquareLoaded(e, d) && d >= 2 && r < d
    ensures ClockOnce(SquareAt(e, d, r)) == SquareAt(e, d, if r == d - 1 then 0 else r + 1)
  {
  }

  /** The output is high for the first half of every period, the longer half when the count is
      odd. */
  lemma {:induction false} SquareWave(e: Element, d: nat, n: nat)
    requires SquareLoaded(e, d) && d >= 2
    ensures Clocked(e, n) == SquareAt(e, d, n % d)
    ensures Clocked(e, n).output <==> n % d < (d + 1) / 2
    ensures RisingEdges(e, n) == n / d
    ensures FallingEdges(e, n) == (n + d / 2) / d
  {
    if n == 0 {
      DivModUnique(0, d, 0, 0);
      DivModUnique(d / 2, d, 0, d / 2);
    } else {
      SquareWave(e, d, n - 1);
      SquareStep(e, d, (n - 1) % d);
      DivModNext(n - 1, d);
      HalfTurn(n - 1, d);
      HalfTurn(n, d);
    }
  }

  /** Half a period ahead: the quotient has grown exactly when the second half has begun. */
  lemma {:induction false} HalfTurn(n: nat, d: nat)
    requires d >= 2
    ensures (n + d / 2) / d == n / d + if n % d >= (d + 1) / 2 then 1 else 0
  {
    var q, r := n / d, n % d;
    assert n == q * d + r;
    if r >= (d + 1) / 2 {
      assert n + d / 2 == (q + 1) * d + (r + d / 2 - d);
      DivModUnique(n + d / 2, d, q + 1, r + d / 2 - d);
    } else {
      DivModUnique(n + d / 2, d, q, r + d / 2);
    }
  }

  lemma {:induction false} SquareOfOne(e: Element, n: nat)
    requires SquareLoaded(e, 1)
    ensures Clocked(e, n) == e.(output := n % 2 == 0, phaseHigh := n % 2 == 0)
    ensures FallingEdges(e, n) == (n + 1) / 2
    ensures RisingEdges(e, n) == n / 2
  {
    if n > 0 {
      SquareOfOne(e, n - 1);
    }
  }

  // ---------------------------------------------------------------- modes 0 and 1: one event

  /** Counting down to a single rising edge: mode 0 after a load, mode 1 after a trigger. */
  predicate CountingDown(e: Element, d: nat) {
    (e.mode == 0 || e.mode == 1) && e.running && e.countLoaded && !e.output && e.current == d && d >= 1
  }

  lemma {:induction false} LoadCountDown(c: Counter, raw: nat)
    requires raw < 65_536 && c.element.mode == 0 && c.gate
    ensures CountingDown(Load(c, raw).element, DecodeCount(raw, c.port.bcd))
  {
  }

  lemma {:induction false} TriggerCountDown(c: Counter)
    requires c.element.mode == 1 && !c.gate && c.element.countLoaded && c.element.reload >= 1
    ensures CountingDown(SetGate(c, true).element, c.element.reload)
  {
  }

  /** The output rises at pulse `d`, once, and the counter stops there. */
  lemma {:induction false} CountDown(e: Element, d: nat, n: nat)
    requires CountingDown(e, d)
    ensures Clocked(e, n) == if n < d then e.(current := d - n)
                             else e.(current := 0, output := true, running := false)
    ensures RisingEdges(e, n) == if n < d then 0 else 1
    ensures FallingEdges(e, n) == 0
  {
    if n > 0 {
      CountDown(e, d, n - 1);
    }
  }

  // ---------------------------------------------------------------- modes 4 and 5: a strobe

  predicate Strobing(e: Element, d: nat) {
    (e.mode == 4 || e.mode == 5) && e.running && e.countLoaded && e.output && !e.strobeLow && e.current == d && d >= 1
  }

  lemma {:induction false} LoadStrobe(c: Counter, raw: nat)
    requires raw < 65_536 && c.element.mode == 4 && c.gate
    ensures Strobing(Load(c, raw).element, DecodeCount(raw, c.port.bcd))
  {
  }

  /** With the gate left alone, the output is low for exactly the pulse period after pulse
      `d`. */
  lemma {:induction false} SingleStrobe(e: Element, d: nat, n: nat)
    requires Strobing(e, d)
    ensures Clocked(e, n).output <==> n != d
    ensures n < d ==> Clocked(e, n) == e.(current := d - n)
    ensures n == d ==> Clocked(e, n) == e.(current := 0, output := false, strobeLow := true)
    ensures n > d ==> Clocked(e, n) == e.(current := 0, running := false)
  {
    if n > 0 {
      SingleStrobe(e, d, n - 1);
    }
  }

  // ---------------------------------------------------------------- from the load of a count on

  /** The writes of the processor that program a counter: the control word and the bytes its access
      mode asks for. */
  function Programmed(c: Counter, control: byte, low: byte, high: byte): Counter {
    var configured := Configure(c, control);
    match AccessOf(control)
    case Latch => c
    case Lsb => WriteCounter(configured, low)
    case Msb => WriteCounter(configured, high)
    case LsbMsb => WriteCounter(WriteCounter(configured, low), high)
  }

  function ProgrammedCount(control: byte, low: byte, high: byte): (raw: nat)
    ensures raw < 65_536
  {
    (if AccessOf(control) == Msb then 0 else low) + if AccessOf(control) == Lsb then 0 else high * 256
  }

  /** Whatever the counter was doing, programming it leaves it in the mode of the control word with
      the count just loaded, and the gate as it was. */
  lemma {:induction false} ProgrammingLoads(c: Counter, control: byte, low: byte, high: byte)
    requires AccessOf(control) != Latch
    ensures var before := Configure(c, control);
            && before.gate == c.gate && before.element.mode == ModeOf(control)
            && before.port.bcd == (control % 2 == 1)
            && Programmed(c, control, low, high).gate == c.gate
            && Programmed(c, control, low, high).element == Load(before, ProgrammedCount(control, low, high)).element
  {
  }

  /** Mode 2 from the load on: edges and count in closed form. */
  lemma {:induction false} RateFromLoad(c: Counter, raw: nat, n: nat)
    requires raw < 65_536 && c.element.mode == 2 && c.gate
    ensures var d, e := DecodeCount(raw, c.port.bcd), Load(c, raw).element;
            if d == 1 then FallingEdges(e, n) == (n + 1) / 2 && RisingEdges(e, n) == n / 2
            else
              && FallingEdges(e, n) == n / d && RisingEdges(e, n) == (if n == 0 then 0 else (n - 1) / d)
              && Clocked(e, n).current == d - n % d && (Clocked(e, n).output <==> n == 0 || n % d != 0)
  {
    var d, e := DecodeCount(raw, c.port.bcd), Load(c, raw).element;
    LoadRate(c, raw);
    if d == 1 {
      RateOfOne(e, n);
    } else {
      RateGenerator(e, d, n);
    }
  }

  /** Mode 3 from the load on. */
  lemma {:induction false} SquareFromLoad(c: Counter, raw: nat, n: nat)
    requires raw < 65_536 && c.element.mode == 3 && c.gate
    ensures var d, e := DecodeCount(raw, c.port.bcd), Load(c, raw).element;
            if d == 1 then FallingEdges(e, n) == (n + 1) / 2 && RisingEdges(e, n) == n / 2
            else
              && RisingEdges(e, n) == n / d && FallingEdges(e, n) == (n + d / 2) / d
              && (Clocked(e, n).output <==> n % d < (d + 1) / 2)
  {
    var d, e := DecodeCount(raw, c.port.bcd), Load(c, raw).element;
    LoadSquare(c, raw);
    if d == 1 {
      SquareOfOne(e, n);
    } else {
      SquareWave(e, d, n);
    }
  }

  /** Mode 0 from the load on: OUT goes low at once and rises for good with pulse `d`. */
  lemma {:induction false} CountDownFromLoad(c: Counter, raw: nat, n: nat)
    requires raw < 65_536 && c.element.mode == 0 && c.gate
    ensures var d, e := DecodeCount(raw, c.port.bcd), Load(c, raw).element;
            && (Clocked(e, n).output <==> n >= d) && Clocked(e, n).current == (if n < d then d - n else 0)
            && RisingEdges(e, n) == (if n < d then 0 else 1) && FallingEdges(e, n) == 0
  {
    LoadCountDown(c, raw);
    CountDown(Load(c, raw).element, DecodeCount(raw, c.port.bcd), n);
  }

  /** Mode 4 from the load on: low for the one period after pulse `d`. */
  lemma {:induction false} StrobeFromLoad(c: Counter, raw: nat, n: nat)
    requires raw < 65_536 && c.element.mode == 4 && c.gate
    ensures var d, e := DecodeCount(raw, c.port.bcd), Load(c, raw).element;
            && (Clocked(e, n).output <==> n != d)
            && FallingEdges(e, n) == (if n < d then 0 else 1) && RisingEdges(e, n) == (if n <= d then 0 else 1)
  {
    LoadStrobe(c, raw);
    StrobeEdges(Load(c, raw).element, DecodeCount(raw, c.port.bcd), n);
  }

  lemma {:induction false} StrobeEdges(e: Element, d: nat, n: nat)
    requires Strobing(e, d)
    ensures Clocked(e, n).output <==> n != d
    ensures FallingEdges(e, n) == if n < d then 0 else 1
    ensures RisingEdges(e, n) == if n <= d then 0 else 1
  {
    SingleStrobe(e, d, n);
    if n > 0 {
      StrobeEdges(e, d, n - 1);
    }
  }

  // ---------------------------------------------------------------- reading on the fly

  function AfterPulses(c: Counter, n: nat): Counter {
    c.(element := Clocked(c.element, n))
  }

  /** A latched counter read low byte first gives the count of the moment it was latched, however
      often it is clocked before the reads and between them. */
  lemma {:induction false} LatchedReadIsAtomic(c: Counter, before: nat, between: nat)
    requires c.port.access == LsbMsb && !c.port.latched
    ensures var (low, c1) := ReadCounter(AfterPulses(LatchCounter(c), before));
            var (high, c2) := ReadCounter(AfterPulses(c1, between));
            low + 256 * high == VisibleCount(c) && !c2.port.latched
  {
    var latched := AfterPulses(LatchCounter(c), before);
    var (low, c1) := ReadCounter(latched);
    var c1' := AfterPulses(c1, between);
    assert c1'.port == latched.port.(latchedLowNext := false);
  }
}
