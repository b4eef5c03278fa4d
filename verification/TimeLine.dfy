/** Time is partition-independent: cut into any steps, it does the same to everything that runs by
    itself, and shows the same cells, repeats, edges, frames and clock pulses. */
module TimeLines {
  import opened Bytes
  import opened FloppyDrives
  import opened MachineTime
  import Mouse
  import Pit = Pit8253
  import PitCounting

  // ---------------------------------------------------------------- a disk

  function RotatedAll(d: DriveState, steps: seq<nat>): DriveState
    requires DriveOk(d)
    decreases steps
  {
    if steps == [] then d else RotatedAll(Rotated(d, steps[0]), steps[1..])
  }

  function VisitedAll(d: DriveState, steps: seq<nat>): Cells
    requires DriveOk(d)
    decreases steps
  {
    if steps == [] then [] else Visited(d, steps[0]) + VisitedAll(Rotated(d, steps[0]), steps[1..])
  }

  lemma {:induction false} NoTurn(d: DriveState, none: nat)
    requires DriveOk(d) && none == 0
    ensures Rotated(d, none) == d && Visited(d, none) == []
  {
    assert Passing(UnderHead(d), d.phase, none) == [];
  }

  /** Only the sum of the steps matters to the rotation of a disk and to the cells that pass. */
  lemma {:induction false} StepsDoNotMatterToDisk(d: DriveState, steps: seq<nat>)
    requires DriveOk(d)
    ensures RotatedAll(d, steps) == Rotated(d, Sum(steps))
    ensures VisitedAll(d, steps) == Visited(d, Sum(steps))
    decreases steps
  {
    if steps == [] {
      NoTurn(d, Sum(steps));
    } else {
      StepsDoNotMatterToDisk(Rotated(d, steps[0]), steps[1..]);
      RotatedTwice(d, steps[0], Sum(steps[1..]));
    }
  }

  // ---------------------------------------------------------------- the mouse

  /** The encoder as any call leaves it. */
  predicate AtRest(m: Mouse.MouseState) {
    && m.accumulator <= Mouse.EDGE_INTERVAL_TICKS
    && (m.accumulator == Mouse.EDGE_INTERVAL_TICKS ==> !m.Pending())
  }

  lemma {:induction false} EncoderAtRest(m: Mouse.MouseState, ticks: nat, enabled: bool)
    ensures AtRest(Mouse.Advanced(m, ticks, enabled))
  {
    Mouse.DrainStops(Mouse.Later(m, ticks), enabled);
  }

  function AdvancedAll(m: Mouse.MouseState, steps: seq<nat>, enabled: bool): Mouse.MouseState
    decreases steps
  {
    if steps == [] then m else AdvancedAll(Mouse.Advanced(m, steps[0], enabled), steps[1..], enabled)
  }

  function TraceAll(m: Mouse.MouseState, steps: seq<nat>, enabled: bool): seq<Mouse.Event>
    decreases steps
  {
    if steps == [] then []
    else Mouse.Trace(m, steps[0], enabled) + TraceAll(Mouse.Advanced(m, steps[0], enabled), steps[1..], enabled)
  }

  /** Only the sum of the steps matters to the encoder and to the edges it emits. */
  lemma {:induction false} StepsDoNotMatterToMouse(m: Mouse.MouseState, steps: seq<nat>, enabled: bool)
    requires AtRest(m)
    ensures AdvancedAll(m, steps, enabled) == Mouse.Advanced(m, Sum(steps), enabled)
    ensures TraceAll(m, steps, enabled) == Mouse.Trace(m, Sum(steps), enabled)
    decreases steps
  {
    if steps != [] {
      EncoderAtRest(m, steps[0], enabled);
      StepsDoNotMatterToMouse(Mouse.Advanced(m, steps[0], enabled), steps[1..], enabled);
      Mouse.AdvancedTwice(m, steps[0], Sum(steps[1..]), enabled);
    }
  }

  // ---------------------------------------------------------------- what is clocked

  /** The time line and counter 1, its gate left alone. */
  datatype Clocks = Clocks(clock: Clock, one: Pit.Element)

  datatype Pulses = Pulses(frames: nat, clocks: nat, rises: nat, falls: nat)

  function Ran(e: Pit.Element, clocks: nat): Pit.Element { Pit.Clocked(e, clocks) }

  function Rises(e: Pit.Element, clocks: nat): nat { Pit.RisingEdges(e, clocks) }

  function Falls(e: Pit.Element, clocks: nat): nat { Pit.FallingEdges(e, clocks) }

  function RunClocks(c: Clocks, cycles: nat): Clocks {
    Clocks(Later(c.clock, cycles), Ran(c.one, TimerClocks(c.clock, cycles)))
  }

  function ShowClocks(c: Clocks, cycles: nat): Pulses {
    var clocks := TimerClocks(c.clock, cycles);
    Pulses(FramesDone(c.clock, cycles), clocks, Rises(c.one, clocks), Falls(c.one, clocks))
  }

  function Together(a: Pulses, b: Pulses): Pulses {
    Pulses(a.frames + b.frames, a.clocks + b.clocks, a.rises + b.rises, a.falls + b.falls)
  }

  lemma {:induction false} EdgesTwice(e: Pit.Element, m: nat, n: nat)
    ensures Ran(e, m + n) == Ran(Ran(e, m), n)
    ensures Rises(e, m + n) == Rises(e, m) + Rises(Ran(e, m), n)
    ensures Falls(e, m + n) == Falls(e, m) + Falls(Ran(e, m), n)
  {
    PitCounting.ClockedConcat(e, m, n);
  }

  lemma {:induction false} ClocksTwice(c: Clocks, a: nat, b: nat)
    requires InStep(c.clock)
    ensures RunClocks(RunClocks(c, a), b) == RunClocks(c, a + b)
    ensures Together(ShowClocks(c, a), ShowClocks(RunClocks(c, a), b)) == ShowClocks(c, a + b)
  {
    LaterTwice(c.clock, a, b);
    EdgesTwice(c.one, TimerClocks(c.clock, a), TimerClocks(Later(c.clock, a), b));
  }

  lemma {:induction false} NoClocks(c: Clocks, none: nat)
    requires InStep(c.clock) && none == 0
    ensures RunClocks(c, none) == c && ShowClocks(c, none) == Pulses(0, 0, 0, 0)
  {
  }

  function RunAllClocks(c: Clocks, steps: seq<nat>): Clocks
    decreases steps
  {
    if steps == [] then c else RunAllClocks(RunClocks(c, steps[0]), steps[1..])
  }

  function ShowAllClocks(c: Clocks, steps: seq<nat>): Pulses
    decreases steps
  {
    if steps == [] then Pulses(0, 0, 0, 0)
    else Together(ShowClocks(c, steps[0]), ShowAllClocks(RunClocks(c, steps[0]), steps[1..]))
  }

  /** Only the sum of the steps matters to the frames and to the pulses and edges of counter 1. */
  lemma {:induction false} StepsDoNotMatterToClocks(c: Clocks, steps: seq<nat>)
    requires InStep(c.clock)
    ensures RunAllClocks(c, steps) == RunClocks(c, Sum(steps))
    ensures ShowAllClocks(c, steps) == ShowClocks(c, Sum(steps))
    decreases steps
  {
    if steps != [] {
      var next := RunClocks(c, steps[0]);
      StaysInStep(c.clock, steps[0]);
      StepsDoNotMatterToClocks(next, steps[1..]);
      ClocksTwice(c, steps[0], Sum(steps[1..]));
    } else {
      NoClocks(c, Sum(steps));
    }
  }
}
