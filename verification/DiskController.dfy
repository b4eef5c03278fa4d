/** The disk controller: the auxiliary register, the synchronization, write and format latches,
    and their couplings through the 8255 handshake, counters 1 and 2 and the OUT2 reset.

    The processor is the environment: it reads and writes ports, and time passes, in any order. */
module DiskController {
  import opened Bytes
  import opened FloppyTracks
  import opened FloppyDrives
  import Pit = Pit8253
  import Ppi = Ppi8255
  import PpiHistory

  /** The auxiliary disk register: RE, WRE, RDM and FOR. */
  datatype Aux = Aux(read: bool, write: bool, dataMark: bool, format: bool)

  const AUX_CLEAR := Aux(false, false, false, false)

  function AuxOf(value: byte): Aux {
    Aux(HasBit(value, 0x01), HasBit(value, 0x02), HasBit(value, 0x04), HasBit(value, 0x10))
  }

  datatype Latches = Latches(timing: bool, sync: bool, ordinary: bool, format: bool, timeout: bool)

  /** The data interrupt as last seen, whether its next rise is not counted, and where the head
      was last. */
  datatype Detector = Detector(level: bool, suppress: bool, lastTick: nat)

  /** `one` and `two` are counters 1 and 2 of the timer. */
  datatype Disk = Disk(data: Ppi.PpiState, one: Pit.Counter, two: Pit.Counter, aux: Aux, latches: Latches,
                       detector: Detector, pending: Cells)
  {
    predicate Interrupt() { data.a.intr || data.b.intr }

    /** OUT2. */
    predicate EndOfData() { two.element.output }
  }

  function Gate1(d: Disk, high: bool): Disk {
    d.(one := Pit.SetGate(d.one, high))
  }

  // ---------------------------------------------------------------- the interrupt network

  /** A rise of the data interrupt is a pulse of counter 2, unless it is the mark's. */
  function Counted(d: Disk): Disk {
    if d.detector.level || !d.Interrupt() then d
    else if d.detector.suppress then d.(detector := d.detector.(suppress := false))
    else d.(two := d.two.(element := Pit.ClockOnce(d.two.element)))
  }

  /** OUT2 resets the auxiliary register and the latches. */
  function Ended(d: Disk): Disk {
    var e := d.(aux := AUX_CLEAR, latches := d.latches.(sync := false, ordinary := false, format := false));
    if d.latches.timing then Gate1(e, false) else e
  }

  function Leveled(d: Disk): Disk {
    d.(detector := d.detector.(level := d.Interrupt()))
  }

  function Refreshed(d: Disk): Disk {
    var e := Leveled(Counted(d));
    if e.EndOfData() then Ended(e) else e
  }

  // ---------------------------------------------------------------- a cell passes the head

  function WrittenClockMask(controlA: byte): byte {
    match controlA % 4
    case 1 => 0xD7
    case 2 => 0xEF
    case 3 => 0xC7
    case _ => 0xFF
  }

  predicate IsIdAddressMark(cell: TimedFmByte) { cell.data == 0xFE && cell.clocks == 0xC7 }

  predicate IsDataAddressMark(cell: TimedFmByte) { (cell.data == 0xFB || cell.data == 0xF8) && cell.clocks == 0xC7 }

  predicate Selects(aux: Aux, cell: TimedFmByte) {
    if aux.dataMark then IsDataAddressMark(cell) else IsIdAddressMark(cell)
  }

  /** The cell the serializer would write now. */
  function Outgoing(d: Disk, controlA: byte, tick: nat): TimedFmByte {
    TimedFmByte(tick, d.data.ports.outA, WrittenClockMask(controlA))
  }

  /** The serializer takes the byte in PA and asks for the next. */
  function Transferred(d: Disk, controlA: byte, tick: nat): Disk {
    Refreshed(d.(pending := d.pending + [Outgoing(d, controlA, tick)], data := Ppi.PulseAckA(d.data)))
  }

  function Deserialized(d: Disk, cell: TimedFmByte): Disk {
    Refreshed(d.(data := Ppi.PulseStrobeB(d.data, cell.data)))
  }

  function Synchronized(d: Disk): Disk {
    Gate1(d.(latches := d.latches.(sync := true), detector := d.detector.(suppress := true)), true)
  }

  /** The reading half of the controller sees a cell. */
  function Seen(d: Disk, cell: TimedFmByte): Disk {
    if !d.aux.read then d
    else if d.latches.sync then Deserialized(d, cell)
    else if Selects(d.aux, cell) then Deserialized(Synchronized(d), cell)
    else d
  }

  /** The second index ends the format. */
  function FormatEnded(d: Disk): Disk {
    Refreshed(Gate1(d.(aux := AUX_CLEAR, latches := d.latches.(sync := false, ordinary := false, format := false)), false))
  }

  /** Where the head is, noted even with the controller off. */
  function At(d: Disk, cell: TimedFmByte): Disk {
    d.(detector := d.detector.(lastTick := cell.tick))
  }

  predicate EndsFormat(d: Disk, cell: TimedFmByte) {
    d.aux.format && cell.tick == 0 && d.latches.format
  }

  /** The first index with FOR set starts the format. */
  function Armed(d: Disk, cell: TimedFmByte): Disk {
    if d.aux.format && cell.tick == 0 then d.(latches := d.latches.(format := true)) else d
  }

  predicate Writing(d: Disk) { d.latches.format || d.latches.ordinary }

  function Exchanged(d: Disk, controlA: byte, cell: TimedFmByte): Disk {
    if Writing(d) then Seen(Transferred(d, controlA, cell.tick), Outgoing(d, controlA, cell.tick))
    else Seen(d, cell)
  }

  function Passed(d: Disk, controlA: byte, cell: TimedFmByte): Disk {
    var e := At(d, cell);
    if !e.latches.timing then e
    else if EndsFormat(e, cell) then FormatEnded(e)
    else Exchanged(Armed(e, cell), controlA, cell)
  }

  function AllPassed(d: Disk, controlA: byte, cells: Cells): Disk
    decreases cells
  {
    if cells == [] then d else Passed(AllPassed(d, controlA, cells[..|cells| - 1]), controlA, cells[|cells| - 1])
  }

  lemma {:induction false} OneCell(d: Disk, controlA: byte, cell: TimedFmByte)
    ensures AllPassed(d, controlA, [cell]) == Passed(d, controlA, cell)
  {
    var none := [cell][..0];
    assert none == [];
    assert AllPassed(d, controlA, none) == d;
  }

  // ---------------------------------------------------------------- time

  function ClockedOne(d: Disk, clocks: nat): Disk {
    d.(one := d.one.(element := Pit.Clocked(d.one.element, clocks)))
  }

  /** OUT1 requests the timeout interrupt while a data mark is awaited. */
  function TimedOut(d: Disk, rises: bool): Disk {
    if rises && d.latches.timing && d.aux.read && d.aux.dataMark then d.(latches := d.latches.(timeout := true)) else d
  }

  predicate StartsWriting(d: Disk, rises: bool) {
    rises && d.latches.timing && d.aux.write && !d.latches.ordinary
  }

  /** OUT1 starts an ordinary write with the cell last passed. */
  function Started(d: Disk, controlA: byte, rises: bool): Disk {
    if StartsWriting(d, rises) then Transferred(d.(latches := d.latches.(ordinary := true)), controlA, d.detector.lastTick)
    else d
  }

  /** Counter 1 runs. */
  function CounterOneRan(d: Disk, controlA: byte, clocks: nat): Disk {
    var rises := Pit.RisingEdges(d.one.element, clocks) != 0;
    Started(TimedOut(ClockedOne(d, clocks), rises), controlA, rises)
  }

  function Flushed(d: Disk): Disk {
    d.(pending := [])
  }

  /** A span of time before its writes go to the medium: cells pass, then counter 1 runs. */
  function Elapsed(d: Disk, controlA: byte, cells: Cells, clocks: nat): Disk {
    CounterOneRan(AllPassed(d, controlA, cells), controlA, clocks)
  }

  // ---------------------------------------------------------------- ports

  function WriteAux(d: Disk, value: byte): Disk {
    var aux := AuxOf(value);
    d.(aux := if d.latches.timing then aux else AUX_CLEAR,
       latches := d.latches.(ordinary := d.latches.ordinary && aux.write,
                             format := d.latches.format && aux.format,
                             timeout := d.latches.timeout && (aux.read || aux.format)))
  }

  function ProgramsCounterOne(register: byte, value: byte): bool {
    register % 4 == 3 && value / 64 == 1 && value / 16 % 4 != 0
  }

  function Counters(d: Disk, zero: Pit.Counter): (counters: seq<Pit.Counter>)
    ensures |counters| == 3
  {
    [zero, d.one, d.two]
  }

  function WithCounters(d: Disk, counters: seq<Pit.Counter>): Disk
    requires |counters| == 3
  {
    d.(one := counters[1], two := counters[2])
  }

  /** Programming counter 1 acknowledges the timeout. */
  function WriteTimer(d: Disk, zero: Pit.Counter, register: byte, value: byte): Disk {
    var e := if ProgramsCounterOne(register, value) then d.(latches := d.latches.(timeout := false)) else d;
    WithCounters(e, Pit.Written(Counters(d, zero), register, value))
  }

  function ReadTimer(d: Disk, zero: Pit.Counter, register: byte): Disk {
    WithCounters(d, Pit.ReadAt(Counters(d, zero), register).1)
  }

  /** PA6 of the control port switches the disk timing. */
  function SwitchTiming(d: Disk, timing: bool): Disk {
    var e := if timing then d.(latches := d.latches.(timing := true))
             else d.(aux := AUX_CLEAR, latches := Latches(false, false, false, false, false));
    Gate1(e, !timing || e.latches.sync)
  }

  // ---------------------------------------------------------------- what always holds

  /** A low gate stops counter 1 in the modes where the gate enables counting. */
  predicate GateHolds(c: Pit.Counter) {
    (c.element.mode == 0 || c.element.mode == 4) && !c.gate ==> !c.element.running
  }

  /** The couplings that every operation keeps, before the network settles. */
  predicate Wired(d: Disk) {
    && GateHolds(d.one)
    && d.one.gate == (!d.latches.timing || d.latches.sync)
    && (d.latches.sync ==> d.latches.timing)
    && (!d.latches.timing ==> d.aux == AUX_CLEAR && !d.latches.ordinary && !d.latches.format && !d.latches.timeout)
  }

  predicate DataSettled(d: Disk) {
    d.data.a.intr == d.data.a.Interrupt() && d.data.b.intr == d.data.b.Interrupt()
  }

  /** OUT2 high keeps the register and the latches clear. */
  predicate Quiet(d: Disk) {
    d.EndOfData() ==> d.aux == AUX_CLEAR && !d.latches.sync && !d.latches.ordinary && !d.latches.format
  }

  /** The controller between two steps. */
  predicate Consistent(d: Disk) {
    Wired(d) && DataSettled(d) && Quiet(d) && d.detector.level == d.Interrupt()
  }

  lemma {:induction false} CountedKeeps(d: Disk)
    requires Wired(d) && DataSettled(d)
    ensures var e := Leveled(Counted(d));
            && Wired(e) && DataSettled(e) && e.detector.level == e.Interrupt()
            && e.latches == d.latches && e.aux == d.aux
  {
  }

  lemma {:induction false} EndedKeeps(d: Disk)
    requires Wired(d) && DataSettled(d) && d.detector.level == d.Interrupt()
    ensures Consistent(Ended(d)) && Ended(d).latches.timing == d.latches.timing
  {
    GateHoldsAfter(d.one, false);
  }

  lemma {:induction false} GateHoldsAfter(c: Pit.Counter, high: bool)
    ensures GateHolds(Pit.SetGate(c, high)) && Pit.SetGate(c, high).gate == high
  {
  }

  /** Whatever an operation has done, the refresh makes the controller consistent again. */
  lemma {:induction false} RefreshSettles(d: Disk)
    requires Wired(d) && DataSettled(d)
    ensures Consistent(Refreshed(d)) && Refreshed(d).latches.timing == d.latches.timing
  {
    CountedKeeps(d);
    var e := Leveled(Counted(d));
    if e.EndOfData() {
      EndedKeeps(e);
    }
  }

  /** Refreshing again changes nothing. */
  lemma {:induction false} RefreshOnce(d: Disk)
    requires Consistent(d)
    ensures Refreshed(d) == d
  {
    if d.EndOfData() && d.latches.timing {
      GateStays(d.one);
    }
  }

  lemma {:induction false} GateStays(c: Pit.Counter)
    requires !c.gate && GateHolds(c)
    ensures Pit.SetGate(c, false) == c
  {
  }

  // ---------------------------------------------------------------- every step keeps the couplings

  /** A byte strobed into group B. */
  lemma {:induction false} StrobeSettles(d: Disk, value: byte)
    requires Wired(d)
    ensures var e := Refreshed(d.(data := Ppi.PulseStrobeB(d.data, value)));
            Consistent(e) && e.latches.timing == d.latches.timing
  {
    RefreshSettles(d.(data := Ppi.PulseStrobeB(d.data, value)));
  }

  lemma {:induction false} TransferSettles(d: Disk, controlA: byte, tick: nat)
    requires Wired(d)
    ensures Consistent(Transferred(d, controlA, tick)) && Transferred(d, controlA, tick).latches.timing == d.latches.timing
  {
    RefreshSettles(d.(pending := d.pending + [Outgoing(d, controlA, tick)], data := Ppi.PulseAckA(d.data)));
  }

  lemma {:induction false} SeenSettles(d: Disk, cell: TimedFmByte)
    requires Consistent(d)
    ensures Consistent(Seen(d, cell)) && Seen(d, cell).latches.timing == d.latches.timing
  {
    if d.aux.read && !d.latches.sync && Selects(d.aux, cell) {
      SynchronizedIsWired(d);
      StrobeSettles(Synchronized(d), cell.data);
    } else if d.aux.read && d.latches.sync {
      StrobeSettles(d, cell.data);
    }
  }

  lemma {:induction false} SynchronizedIsWired(d: Disk)
    requires Wired(d) && d.latches.timing
    ensures Wired(Synchronized(d)) && Synchronized(d).latches.timing
  {
    GateHoldsAfter(d.one, true);
  }

  lemma {:induction false} FormatEndSettles(d: Disk)
    requires Consistent(d) && d.latches.timing
    ensures Consistent(FormatEnded(d)) && FormatEnded(d).latches.timing == d.latches.timing
  {
    var e := d.(aux := AUX_CLEAR, latches := d.latches.(sync := false, ordinary := false, format := false));
    GateHoldsAfter(d.one, false);
    RefreshSettles(Gate1(e, false));
  }

  lemma {:induction false} ExchangeSettles(d: Disk, controlA: byte, cell: TimedFmByte)
    requires Consistent(d)
    ensures Consistent(Exchanged(d, controlA, cell)) && Exchanged(d, controlA, cell).latches.timing == d.latches.timing
  {
    if Writing(d) {
      TransferSettles(d, controlA, cell.tick);
      SeenSettles(Transferred(d, controlA, cell.tick), Outgoing(d, controlA, cell.tick));
    } else {
      SeenSettles(d, cell);
    }
  }

  lemma {:induction false} ArmedSettles(d: Disk, cell: TimedFmByte)
    requires Consistent(d) && d.latches.timing
    ensures Consistent(Armed(d, cell)) && Armed(d, cell).latches.timing == d.latches.timing
  {
  }

  lemma {:induction false} AtSettles(d: Disk, cell: TimedFmByte)
    requires Consistent(d)
    ensures Consistent(At(d, cell)) && At(d, cell).latches == d.latches
  {
  }

  lemma {:induction false} PassedSettles(d: Disk, controlA: byte, cell: TimedFmByte)
    requires Consistent(d)
    ensures Consistent(Passed(d, controlA, cell)) && Passed(d, controlA, cell).latches.timing == d.latches.timing
  {
    var e := At(d, cell);
    AtSettles(d, cell);
    if e.latches.timing {
      if EndsFormat(e, cell) {
        FormatEndSettles(e);
      } else {
        ArmedSettles(e, cell);
        ExchangeSettles(Armed(e, cell), controlA, cell);
      }
    }
  }

  lemma {:induction false} AllPassedSettles(d: Disk, controlA: byte, cells: Cells)
    requires Consistent(d)
    ensures Consistent(AllPassed(d, controlA, cells)) && AllPassed(d, controlA, cells).latches.timing == d.latches.timing
    decreases cells
  {
    if cells != [] {
      AllPassedSettles(d, controlA, cells[..|cells| - 1]);
      PassedSettles(AllPassed(d, controlA, cells[..|cells| - 1]), controlA, cells[|cells| - 1]);
    }
  }

  lemma {:induction false} ClockingHoldsGate(c: Pit.Counter, clocks: nat)
    requires GateHolds(c)
    ensures GateHolds(c.(element := Pit.Clocked(c.element, clocks)))
    ensures Pit.Clocked(c.element, clocks).mode == c.element.mode
    decreases clocks
  {
    if clocks > 0 {
      ClockingHoldsGate(c, clocks - 1);
    }
  }

  lemma {:induction false} ClockedSettles(d: Disk, controlA: byte, clocks: nat)
    requires Consistent(d)
    ensures Consistent(CounterOneRan(d, controlA, clocks))
              && CounterOneRan(d, controlA, clocks).latches.timing == d.latches.timing
  {
    ClockingHoldsGate(d.one, clocks);
    var rises := Pit.RisingEdges(d.one.element, clocks) != 0;
    var e := ClockedOne(d, clocks);
    assert Consistent(e);
    var f := TimedOut(e, rises);
    assert Consistent(f);
    if StartsWriting(f, rises) {
      TransferSettles(f.(latches := f.latches.(ordinary := true)), controlA, f.detector.lastTick);
    }
  }

  /** Reading or writing a port of the data 8255. */
  lemma {:induction false} DataPortSettles(d: Disk, data: Ppi.PpiState)
    requires Wired(d)
    requires data.a.intr == data.a.Interrupt() && data.b.intr == data.b.Interrupt()
    ensures Consistent(Refreshed(d.(data := data)))
    ensures Refreshed(d.(data := data)).latches.timing == d.latches.timing
  {
    RefreshSettles(d.(data := data));
  }

  lemma {:induction false} DataAccessesSettle(s: Ppi.PpiState, register: byte, value: byte)
    requires s.a.intr == s.a.Interrupt() && s.b.intr == s.b.Interrupt()
    ensures var t := Ppi.AfterRead(s, register); t.a.intr == t.a.Interrupt() && t.b.intr == t.b.Interrupt()
    ensures var t := Ppi.Written(s, register, value); t.a.intr == t.a.Interrupt() && t.b.intr == t.b.Interrupt()
  {
    PpiHistory.AlwaysSettled(s, PpiHistory.ReadRegister(register));
    PpiHistory.AlwaysSettled(s, PpiHistory.WriteRegister(register, value));
  }

  lemma {:induction false} AuxSettles(d: Disk, value: byte)
    requires Consistent(d)
    ensures Consistent(Refreshed(WriteAux(d, value)))
    ensures Refreshed(WriteAux(d, value)).latches.timing == d.latches.timing
  {
    assert Wired(WriteAux(d, value));
    RefreshSettles(WriteAux(d, value));
  }

  lemma {:induction false} CounterWriteKeepsGate(c: Pit.Counter, value: byte)
    requires GateHolds(c)
    ensures GateHolds(Pit.WriteCounter(c, value)) && Pit.WriteCounter(c, value).gate == c.gate
    ensures GateHolds(Pit.Configure(c, value)) && Pit.Configure(c, value).gate == c.gate
    ensures GateHolds(Pit.LatchCounter(c)) && Pit.LatchCounter(c).gate == c.gate
    ensures GateHolds(Pit.ReadCounter(c).1) && Pit.ReadCounter(c).1.gate == c.gate
  {
  }

  lemma {:induction false} TimerWriteSettles(d: Disk, zero: Pit.Counter, register: byte, value: byte)
    requires Consistent(d)
    ensures var e := Refreshed(WriteTimer(d, zero, register, value));
            Consistent(e) && e.latches.timing == d.latches.timing
  {
    CounterWriteKeepsGate(d.one, value);
    var e := WriteTimer(d, zero, register, value);
    assert e.latches == d.latches.(timeout := e.latches.timeout) && e.aux == d.aux && e.data == d.data;
    assert GateHolds(e.one) && e.one.gate == d.one.gate;
    RefreshSettles(e);
  }

  lemma {:induction false} TimerReadSettles(d: Disk, zero: Pit.Counter, register: byte)
    requires Consistent(d)
    ensures var e := Refreshed(ReadTimer(d, zero, register));
            Consistent(e) && e.latches.timing == d.latches.timing
  {
    CounterWriteKeepsGate(d.one, 0);
    var e := ReadTimer(d, zero, register);
    assert GateHolds(e.one) && e.one.gate == d.one.gate;
    RefreshSettles(e);
  }

  lemma {:induction false} SwitchSettles(d: Disk, timing: bool)
    requires Consistent(d)
    ensures var e := Refreshed(SwitchTiming(d, timing));
            Consistent(e) && e.latches.timing == timing
  {
    GateHoldsAfter(d.one, !timing || d.latches.sync);
    RefreshSettles(SwitchTiming(d, timing));
  }

  // ---------------------------------------------------------------- every run

  /** Everything the machine can do to the controller.  Counter 0 is not part of it, but shares
      the timer's ports. */
  datatype Step =
    | TimePasses(controlA: byte, cells: Cells, clocks: nat)
    | DataRead(register: byte)
    | DataWrite(register: byte, value: byte)
    | TimerRead(register: byte, zero: Pit.Counter)
    | TimerWrite(register: byte, value: byte, zero: Pit.Counter)
    | AuxWrite(value: byte)
    | TimingSwitch(timing: bool)
    | Elsewhere

  function After(d: Disk, step: Step): Disk {
    match step
    case TimePasses(controlA, cells, clocks) => Refreshed(Flushed(Elapsed(d, controlA, cells, clocks)))
    case DataRead(register) => Refreshed(d.(data := Ppi.AfterRead(d.data, register)))
    case DataWrite(register, value) => Refreshed(d.(data := Ppi.Written(d.data, register, value)))
    case TimerRead(register, zero) => Refreshed(ReadTimer(d, zero, register))
    case TimerWrite(register, value, zero) => Refreshed(WriteTimer(d, zero, register, value))
    case AuxWrite(value) => Refreshed(WriteAux(d, value))
    case TimingSwitch(timing) => Refreshed(SwitchTiming(d, timing))
    case Elsewhere => Refreshed(d)
  }

  function AfterSteps(d: Disk, steps: seq<Step>): Disk
    decreases steps
  {
    if steps == [] then d else AfterSteps(After(d, steps[0]), steps[1..])
  }

  const RESET_DISK := Disk(Ppi.RESET_STATE.(ports := Ppi.RESET_STATE.ports.(inC := 0x20)),
                           Pit.SetGate(Pit.RESET_COUNTER, true), Pit.SetGate(Pit.RESET_COUNTER, true),
                           AUX_CLEAR, Latches(false, false, false, false, false), Detector(false, false, 0), [])

  lemma {:induction false} ResetIsConsistent()
    ensures Consistent(RESET_DISK)
  {
  }

  lemma {:induction false} ResetSettles()
    ensures Consistent(Refreshed(RESET_DISK)) && Refreshed(RESET_DISK) == RESET_DISK
  {
    ResetIsConsistent();
    RefreshOnce(RESET_DISK);
  }

  lemma {:induction false} ElapsedSettles(d: Disk, controlA: byte, cells: Cells, clocks: nat)
    requires Consistent(d)
    ensures var e := Flushed(Elapsed(d, controlA, cells, clocks));
            Consistent(e) && Refreshed(e) == e && e.latches.timing == d.latches.timing
  {
    AllPassedSettles(d, controlA, cells);
    ClockedSettles(AllPassed(d, controlA, cells), controlA, clocks);
    var e := Elapsed(d, controlA, cells, clocks);
    assert Consistent(Flushed(e));
    RefreshOnce(Flushed(e));
  }

  lemma {:induction false} StepKeeps(d: Disk, step: Step)
    requires Consistent(d)
    ensures Consistent(After(d, step))
  {
    match step
    case TimePasses(controlA, cells, clocks) => ElapsedSettles(d, controlA, cells, clocks);
    case DataRead(register) =>
      DataAccessesSettle(d.data, register, 0);
      DataPortSettles(d, Ppi.AfterRead(d.data, register));
    case DataWrite(register, value) =>
      DataAccessesSettle(d.data, register, value);
      DataPortSettles(d, Ppi.Written(d.data, register, value));
    case TimerRead(register, zero) => TimerReadSettles(d, zero, register);
    case TimerWrite(register, value, zero) => TimerWriteSettles(d, zero, register, value);
    case AuxWrite(value) => AuxSettles(d, value);
    case TimingSwitch(timing) => SwitchSettles(d, timing);
    case Elsewhere => RefreshSettles(d);
  }

  lemma {:induction false} RefreshPends(d: Disk)
    ensures Refreshed(d).pending == d.pending
  {
  }

  /** Only the passing of time hands cells to the medium. */
  lemma {:induction false} StepPends(d: Disk, step: Step)
    ensures After(d, step).pending == if step.TimePasses? then [] else d.pending
  {
    match step
    case TimePasses(controlA, cells, clocks) => RefreshPends(Flushed(Elapsed(d, controlA, cells, clocks)));
    case DataRead(register) => RefreshPends(d.(data := Ppi.AfterRead(d.data, register)));
    case DataWrite(register, value) => RefreshPends(d.(data := Ppi.Written(d.data, register, value)));
    case TimerRead(register, zero) => RefreshPends(ReadTimer(d, zero, register));
    case TimerWrite(register, value, zero) => RefreshPends(WriteTimer(d, zero, register, value));
    case AuxWrite(value) => RefreshPends(WriteAux(d, value));
    case TimingSwitch(timing) => RefreshPends(SwitchTiming(d, timing));
    case Elsewhere => RefreshPends(d);
  }

  lemma {:induction false} RunKeeps(d: Disk, steps: seq<Step>)
    requires Consistent(d)
    ensures Consistent(AfterSteps(d, steps))
    decreases steps
  {
    if steps != [] {
      StepKeeps(d, steps[0]);
      RunKeeps(After(d, steps[0]), steps[1..]);
    }
  }

  /** In every reachable state: GATE1 is high exactly when the timing is off or the mark has been
      found; with the timing off, and with OUT2 high, the register and the latches are clear. */
  lemma {:induction false} ControllerInvariant(steps: seq<Step>)
    ensures var d := AfterSteps(RESET_DISK, steps);
            && d.one.gate == (!d.latches.timing || d.latches.sync)
            && (d.latches.sync ==> d.latches.timing)
            && (!d.latches.timing ==> d.aux == AUX_CLEAR && d.latches == Latches(false, false, false, false, false))
            && (d.EndOfData() ==> d.aux == AUX_CLEAR && !d.latches.sync && !Writing(d))
            && (d.detector.level <==> d.data.a.Interrupt() || d.data.b.Interrupt())
  {
    ResetIsConsistent();
    RunKeeps(RESET_DISK, steps);
  }
}
