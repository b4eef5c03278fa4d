/** What the processor may do beside a transfer without touching it: reads of any port, writes to ports
    A and B of the data 8255, programming counter 0, switching clock patterns while the timing stays on,
    and everything that is none of the disk's business. */
module DiskSteps {
  import opened Bytes
  import opened FloppyTracks
  import opened FloppyDrives
  import opened DiskController
  import Pit = Pit8253
  import Ppi = Ppi8255

  /** A write to the timer that neither programs nor loads counter 1 or 2: counter 0, latch commands,
      and control words for no counter. */
  predicate SparesCounters(register: byte, value: byte) {
    register % 4 == 0
    || (register % 4 == 3 && (value / 64 == 0 || value / 64 == 3 || Pit.AccessOf(value) == Pit.Latch))
  }

  /** A step that leaves the data 8255 and all latches alone. */
  predicate Bystander(step: Step) {
    match step
    case TimerRead(_, _) => true
    case TimerWrite(register, value, _) => SparesCounters(register, value)
    case TimingSwitch(timing) => timing
    case Elsewhere => true
    case _ => false
  }

  /** A step of the processor that does not interfere with a transfer. */
  predicate Calm(step: Step) {
    match step
    case DataRead(_) => true
    case DataWrite(register, _) => register % 4 <= 1
    case _ => Bystander(step)
  }

  /** The step fills port A. */
  predicate Fills(step: Step) {
    step.DataWrite? && step.register % 4 == 0
  }

  /** Time steps in which at most one cell passes, and calm steps of the processor. */
  predicate Allowed(step: Step) {
    if step.TimePasses? then |step.cells| <= 1 else Calm(step)
  }

  predicate AllAllowed(steps: seq<Step>) {
    forall i :: 0 <= i < |steps| ==> Allowed(steps[i])
  }

  /** The cells a step hands to the medium. */
  function HandedOver(d: Disk, step: Step): Cells {
    if step.TimePasses? then Elapsed(d, step.controlA, step.cells, step.clocks).pending else []
  }

  /** All cells handed to the medium. */
  function Written(d: Disk, steps: seq<Step>): Cells
    decreases steps
  {
    if steps == [] then [] else HandedOver(d, steps[0]) + Written(After(d, steps[0]), steps[1..])
  }

  /** Counter 1 with its gate driven to the level it has. */
  function Regated(c: Pit.Counter): Pit.Element {
    Pit.SetGate(c, c.gate).element
  }

  /** From `d` to `e` nothing has moved but the registers through which the counters are read, and
      counter 1 by a gate that keeps its level. */
  predicate Stands(d: Disk, e: Disk, regated: bool) {
    && Consistent(e)
    && e == d.(one := e.one, two := d.two.(port := e.two.port))
    && e.one.gate == d.one.gate
    && e.one.element == if regated then Regated(d.one) else d.one.element
  }

  lemma {:induction false} ReadingCounters(d: Disk, zero: Pit.Counter, register: byte)
    requires Consistent(d)
    ensures Stands(d, ReadTimer(d, zero, register), false)
  {
  }

  lemma {:induction false} SparingCounters(d: Disk, zero: Pit.Counter, register: byte, value: byte)
    requires Consistent(d) && SparesCounters(register, value)
    ensures Stands(d, WriteTimer(d, zero, register, value), false)
  {
  }

  lemma {:induction false} TimingStays(d: Disk)
    requires Consistent(d) && d.latches.timing
    ensures Stands(d, SwitchTiming(d, true), true)
  {
    GateHoldsAfter(d.one, d.latches.sync);
  }

  lemma {:induction false} BystanderStands(d: Disk, step: Step)
    requires Consistent(d) && d.latches.timing && Bystander(step)
    ensures Stands(d, After(d, step), step.TimingSwitch?)
  {
    match step
    case TimerRead(register, zero) =>
      ReadingCounters(d, zero, register);
      RefreshOnce(ReadTimer(d, zero, register));
    case TimerWrite(register, value, zero) =>
      SparingCounters(d, zero, register, value);
      RefreshOnce(WriteTimer(d, zero, register, value));
    case TimingSwitch(_) =>
      TimingStays(d);
      RefreshOnce(SwitchTiming(d, true));
    case Elsewhere => RefreshOnce(d);
  }

  // ---------------------------------------------------------------- the data 8255

  predicate PortsSettled(s: Ppi.PpiState) {
    s.a.intr == s.a.Interrupt() && s.b.intr == s.b.Interrupt()
  }

  /** A change of the data 8255 that raises no interrupt is not counted, and nothing else moves. */
  lemma {:induction false} DataMoves(d: Disk, data: Ppi.PpiState)
    requires Consistent(d) && PortsSettled(data) && (data.a.intr || data.b.intr ==> d.Interrupt())
    ensures var e := d.(data := data, detector := d.detector.(level := data.a.intr || data.b.intr));
            Consistent(e) && Refreshed(d.(data := data)) == e
  {
    var e := d.(data := data, detector := d.detector.(level := data.a.intr || data.b.intr));
    assert Leveled(Counted(d.(data := data))) == e;
    if d.EndOfData() && d.latches.timing {
      GateStays(d.one);
    }
  }

  // ---------------------------------------------------------------- the cells that pass

  /** The cells that pass during the steps. */
  function CellsIn(steps: seq<Step>): Cells {
    if steps == [] then [] else CellsOf(steps[0]) + CellsIn(steps[1..])
  }

  function CellsOf(step: Step): Cells {
    if step.TimePasses? then step.cells else []
  }

  lemma {:induction false} CellsConcat(a: seq<Step>, b: seq<Step>)
    ensures CellsIn(a + b) == CellsIn(a) + CellsIn(b)
    decreases a
  {
    if a == [] {
      assert a + b == b;
    } else {
      assert (a + b)[1..] == a[1..] + b;
      CellsConcat(a[1..], b);
    }
  }
}
