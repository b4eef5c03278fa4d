/** Writing a field: with WRE set the first rise of OUT1 starts the serializer at the cell last
    passed; it takes one byte from port A per cell until counter 2 has counted the programmed
    number, and not one more.  The processor fills port A between transfers, whenever it likes, and
    may do anything else in between that does not interfere. */
module FieldWrite {
  import opened Bytes
  import opened FloppyTracks
  import opened FloppyDrives
  import opened DiskController
  import opened DiskSteps
  import opened PitCounting
  import Ppi = Ppi8255
  import Pit = Pit8253

  // ---------------------------------------------------------------- the writer without the controller

  /** How far a write is: the byte in port A and whether it is a new one, the tick of the cell last
      passed, how many cells are still to be written, whether OUT1 has risen, and counter 1 until it
      does. */
  datatype Writer = Writer(pa: byte, filled: bool, tick: nat, left: nat, started: bool, one: Pit.Counter)

  predicate Rises(one: Pit.Counter, clocks: nat) {
    Pit.RisingEdges(one.element, clocks) != 0
  }

  function TickAfter(tick: nat, cells: Cells): nat {
    if cells == [] then tick else cells[|cells| - 1].tick
  }

  /** A cell is written in this step: the cell that passes, or the one last passed when OUT1 rises. */
  predicate Transfers(w: Writer, step: Step) {
    step.TimePasses? && w.left > 0 && if w.started then step.cells != [] else Rises(w.one, step.clocks)
  }

  function Clocked(one: Pit.Counter, clocks: nat): Pit.Counter {
    one.(element := Pit.Clocked(one.element, clocks))
  }

  function Next(w: Writer, step: Step): Writer {
    match step
    case TimePasses(controlA, cells, clocks) =>
      var t := w.(tick := TickAfter(w.tick, cells), one := Clocked(w.one, clocks));
      if Transfers(w, step) then t.(filled := false, left := w.left - 1, started := true) else t
    case DataWrite(register, value) => if Fills(step) then w.(pa := value, filled := true) else w
    case TimingSwitch(_) => w.(one := w.one.(element := Regated(w.one)))
    case _ => w
  }

  function Put(w: Writer, step: Step): Cells {
    if Transfers(w, step)
    then [TimedFmByte(TickAfter(w.tick, step.cells), w.pa, WrittenClockMask(step.controlA))]
    else []
  }

  function WriterAfter(w: Writer, steps: seq<Step>): Writer
    decreases steps
  {
    if steps == [] then w else WriterAfter(Next(w, steps[0]), steps[1..])
  }

  /** The whole field. */
  function Field(w: Writer, steps: seq<Step>): Cells
    decreases steps
  {
    if steps == [] then [] else Put(w, steps[0]) + Field(Next(w, steps[0]), steps[1..])
  }

  /** Port A has been filled since the last transfer when the next one comes.  Between transfers there
      may be any number of time steps and of calm steps, before the processor fills port A and
      after. */
  predicate InTime(w: Writer, steps: seq<Step>)
    decreases steps
  {
    steps == [] || ((Transfers(w, steps[0]) ==> w.filled) && InTime(Next(w, steps[0]), steps[1..]))
  }

  lemma {:induction false} FieldIsCounted(w: Writer, steps: seq<Step>)
    ensures |Field(w, steps)| + WriterAfter(w, steps).left == w.left
    decreases steps
  {
    if steps != [] {
      FieldIsCounted(Next(w, steps[0]), steps[1..]);
    }
  }

  // ---------------------------------------------------------------- the controller in each phase

  /** Port A is set up for the field, holds a new byte or asks for one, and group B is silent. */
  predicate PortA(s: Ppi.PpiState, filled: bool) {
    && s.a.mode == Ppi.Mode1 && !s.a.input && s.a.inteOutput && s.a.shake.ackHigh
    && PortsSettled(s) && !s.b.intr && s.a.intr == !filled
  }

  predicate Resting(d: Disk, w: Writer) {
    && Consistent(d) && d.latches.timing && PortA(d.data, w.filled) && d.pending == []
    && !d.aux.read && !d.aux.format && !d.latches.format && !d.detector.suppress
    && d.data.ports.outA == w.pa && d.detector.lastTick == w.tick
  }

  /** Counter 2 counts the cells still to be written. */
  predicate Counting(d: Disk, w: Writer) {
    d.aux.write && CountingDown(d.two.element, w.left) && d.two.element.mode == 0
  }

  /** WRE is set and OUT1 has not risen. */
  predicate Armed(d: Disk, w: Writer) {
    Resting(d, w) && Counting(d, w) && !d.latches.ordinary && d.one.element == w.one.element && d.one.gate == w.one.gate
  }

  predicate Serving(d: Disk, w: Writer) {
    Resting(d, w) && Counting(d, w) && d.latches.ordinary
  }

  predicate Finished(d: Disk, w: Writer) {
    Resting(d, w) && d.EndOfData() && !d.two.element.running
  }

  /** The controller is where the writer is. */
  predicate Shows(d: Disk, w: Writer) {
    match w.left
    case 0 => Finished(d, w)
    case _ => if w.started then Serving(d, w) else Armed(d, w)
  }

  lemma {:induction false} ShowsRests(d: Disk, w: Writer)
    requires Shows(d, w)
    ensures Resting(d, w)
  {
  }

  // ---------------------------------------------------------------- the port

  function Asking(s: Ppi.PpiState): Ppi.PpiState {
    s.(a := s.a.(shake := s.a.shake.(obfHigh := true, acknowledged := true), intr := true))
  }

  lemma {:induction false} AckAsks(s: Ppi.PpiState)
    requires PortA(s, true)
    ensures Ppi.PulseAckA(s) == Asking(s) && PortA(Asking(s), false)
  {
    var low := Ppi.AckA(s, false);
    assert low == s.(a := s.a.(shake := s.a.shake.(obfHigh := true, ackHigh := false)));
  }

  lemma {:induction false} WriteFills(s: Ppi.PpiState, filled: bool, register: byte, value: byte)
    requires PortA(s, filled) && register % 4 <= 1
    ensures var t := Ppi.Written(s, register, value);
            if register % 4 == 0 then PortA(t, true) && t.ports.outA == value
            else PortA(t, filled) && t.ports.outA == s.ports.outA
  {
  }

  lemma {:induction false} ReadKeepsA(s: Ppi.PpiState, filled: bool, register: byte)
    requires PortA(s, filled)
    ensures PortA(Ppi.AfterRead(s, register), filled) && Ppi.AfterRead(s, register).ports == s.ports
  {
  }

  // ---------------------------------------------------------------- calm steps

  /** Only the data 8255, the interrupt level, counter 1 and the registers of the counters differ. */
  predicate Beside(d: Disk, e: Disk) {
    && Consistent(e)
    && e == d.(data := e.data, one := e.one, two := d.two.(port := e.two.port),
               detector := d.detector.(level := e.detector.level))
  }

  lemma {:induction false} BesideShows(d: Disk, w: Writer, e: Disk, v: Writer)
    requires Shows(d, w) && Beside(d, e) && v == w.(pa := e.data.ports.outA, filled := v.filled, one := v.one)
    requires PortA(e.data, v.filled) && e.one.gate == d.one.gate && v.one.gate == w.one.gate
    requires d.one.element == w.one.element && d.one.gate == w.one.gate ==> e.one.element == v.one.element
    ensures Shows(e, v)
  {
  }

  lemma {:induction false} ReadShows(d: Disk, w: Writer, register: byte)
    requires Shows(d, w)
    ensures Shows(After(d, DataRead(register)), w)
  {
    ShowsRests(d, w);
    ReadKeepsA(d.data, w.filled, register);
    DataMoves(d, Ppi.AfterRead(d.data, register));
    BesideShows(d, w, After(d, DataRead(register)), w);
  }

  lemma {:induction false} FillShows(d: Disk, w: Writer, register: byte, value: byte)
    requires Shows(d, w) && register % 4 <= 1
    ensures Shows(After(d, DataWrite(register, value)), Next(w, DataWrite(register, value)))
  {
    ShowsRests(d, w);
    WriteFills(d.data, w.filled, register, value);
    DataMoves(d, Ppi.Written(d.data, register, value));
    BesideShows(d, w, After(d, DataWrite(register, value)), Next(w, DataWrite(register, value)));
  }

  lemma {:induction false} BystanderShows(d: Disk, w: Writer, step: Step)
    requires Shows(d, w) && Bystander(step)
    ensures Shows(After(d, step), Next(w, step))
  {
    ShowsRests(d, w);
    BystanderStands(d, step);
    BesideShows(d, w, After(d, step), Next(w, step));
  }

  lemma {:induction false} CalmShows(d: Disk, w: Writer, step: Step)
    requires Shows(d, w) && Calm(step)
    ensures Shows(After(d, step), Next(w, step))
  {
    match step
    case DataRead(register) => ReadShows(d, w, register);
    case DataWrite(register, value) => FillShows(d, w, register, value);
    case _ => BystanderShows(d, w, step);
  }

  // ---------------------------------------------------------------- one transfer

  /** The state right after a transfer: port A asks, and one cell is pending. */
  predicate Served(d: Disk, e: Disk, cell: TimedFmByte) {
    && Consistent(e) && e.latches.timing && e.data == Asking(d.data) && e.pending == [cell]
    && !e.aux.read && !e.aux.format && !e.latches.format && !e.detector.suppress
    && e.detector.lastTick == d.detector.lastTick
  }

  /** A transfer with `left` to go leaves one less; the last one ends the write. */
  lemma {:induction false} TransferCounts(d: Disk, w: Writer, controlA: byte, tick: nat)
    requires Serving(d, w) && w.filled
    ensures var e := Transferred(d, controlA, tick);
            && Served(d, e, TimedFmByte(tick, w.pa, WrittenClockMask(controlA)))
            && (if w.left == 1 then e.EndOfData() && !e.two.element.running
                else e.aux.write && e.latches.ordinary
                     && e.two == d.two.(element := d.two.element.(current := w.left - 1)))
  {
    AckAsks(d.data);
    TransferSettles(d, controlA, tick);
  }

  lemma {:induction false} TransferShows(d: Disk, w: Writer, controlA: byte, e: Disk)
    requires Serving(d, w) && w.filled && e == Transferred(d, controlA, w.tick)
    ensures e.pending == [TimedFmByte(w.tick, w.pa, WrittenClockMask(controlA))] && !e.aux.read
    ensures w.left > 0 && Shows(Flushed(e), w.(filled := false, left := w.left - 1, started := true))
    ensures !e.aux.write || e.latches.ordinary
  {
    TransferCounts(d, w, controlA, w.tick);
    AckAsks(d.data);
  }

  // ---------------------------------------------------------------- one time step

  /** Counter 1 runs without starting anything. */
  lemma {:induction false} ClockOnly(d: Disk, controlA: byte, clocks: nat)
    requires !d.aux.read && (!d.aux.write || d.latches.ordinary || Pit.RisingEdges(d.one.element, clocks) == 0)
    ensures CounterOneRan(d, controlA, clocks) == ClockedOne(d, clocks)
  {
  }

  lemma {:induction false} NoCells(d: Disk, controlA: byte, none: Cells)
    requires none == []
    ensures AllPassed(d, controlA, none) == d
  {
  }

  /** A cell passes while the serializer is not at work. */
  lemma {:induction false} CellGoesBy(d: Disk, w: Writer, controlA: byte, cells: Cells)
    requires Resting(d, w) && !d.latches.ordinary && |cells| <= 1
    ensures AllPassed(d, controlA, cells) == d.(detector := d.detector.(lastTick := TickAfter(w.tick, cells)))
  {
    if cells == [] {
      NoCells(d, controlA, cells);
    } else {
      assert cells == [cells[0]];
      OneCell(d, controlA, cells[0]);
    }
  }

  /** A cell passes while the serializer is at work. */
  lemma {:induction false} CellIsServed(d: Disk, controlA: byte, cell: TimedFmByte)
    requires d.latches.timing && !d.aux.format && d.latches.ordinary
    requires !Transferred(At(d, cell), controlA, cell.tick).aux.read
    ensures AllPassed(d, controlA, [cell]) == Transferred(At(d, cell), controlA, cell.tick)
  {
    OneCell(d, controlA, cell);
  }

  /** The clocks of counter 1 after the cells of a time step: nothing but its element moves. */
  lemma {:induction false} ClockedShows(d: Disk, w: Writer, e: Disk, clocks: nat)
    requires Shows(Flushed(d), w) && Consistent(e) && e == Flushed(ClockedOne(d, clocks))
    ensures Shows(e, w.(one := Clocked(w.one, clocks)))
  {
  }

  lemma {:induction false} ClockingConsists(d: Disk, controlA: byte, cells: Cells, clocks: nat, e: Disk)
    requires Consistent(d) && AllPassed(d, controlA, cells) == e
    requires CounterOneRan(e, controlA, clocks) == ClockedOne(e, clocks)
    ensures var f := Flushed(ClockedOne(e, clocks));
            Consistent(f) && After(d, TimePasses(controlA, cells, clocks)) == f
    ensures Elapsed(d, controlA, cells, clocks).pending == e.pending
  {
    ElapsedSettles(d, controlA, cells, clocks);
  }

  /** OUT1 does not rise, or all is over: the cell goes by. */
  lemma {:induction false} GoesByShows(d: Disk, w: Writer, step: Step)
    requires Shows(d, w) && step.TimePasses? && |step.cells| <= 1 && !Transfers(w, step) && (w.left == 0 || !w.started)
    ensures HandedOver(d, step) == [] && Shows(After(d, step), Next(w, step))
  {
    ShowsRests(d, w);
    CellGoesBy(d, w, step.controlA, step.cells);
    var e := d.(detector := d.detector.(lastTick := TickAfter(w.tick, step.cells)));
    var v := w.(tick := TickAfter(w.tick, step.cells));
    ClockOnly(e, step.controlA, step.clocks);
    ClockingConsists(d, step.controlA, step.cells, step.clocks, e);
    assert Shows(Flushed(e), v);
    ClockedShows(e, v, After(d, step), step.clocks);
  }

  /** OUT1 rises: the cell last passed is the first one written. */
  lemma {:induction false} RiseShows(d: Disk, w: Writer, step: Step)
    requires w.left > 0 && Armed(d, w) && step.TimePasses? && |step.cells| <= 1
    requires Rises(w.one, step.clocks) && !w.started && w.filled
    ensures HandedOver(d, step) == Put(w, step) && Shows(After(d, step), Next(w, step))
  {
    CellGoesBy(d, w, step.controlA, step.cells);
    var e := d.(detector := d.detector.(lastTick := TickAfter(w.tick, step.cells)));
    var f := ClockedOne(e, step.clocks);
    var g := f.(latches := f.latches.(ordinary := true));
    ClockingHoldsGate(e.one, step.clocks);
    var v := w.(tick := TickAfter(w.tick, step.cells), one := Clocked(w.one, step.clocks));
    assert Serving(g, v);
    var h := Transferred(g, step.controlA, v.tick);
    TransferShows(g, v, step.controlA, h);
    assert Elapsed(d, step.controlA, step.cells, step.clocks) == h;
    ElapsedSettles(d, step.controlA, step.cells, step.clocks);
    assert After(d, step) == Flushed(h);
  }

  /** A cell passes under the serializer. */
  lemma {:induction false} CellShows(d: Disk, w: Writer, step: Step)
    requires w.left > 0 && Serving(d, w) && step.TimePasses? && |step.cells| == 1 && w.started && w.filled
    ensures HandedOver(d, step) == Put(w, step) && Shows(After(d, step), Next(w, step))
  {
    var cell := step.cells[0];
    assert step.cells == [cell];
    var e, v := At(d, cell), w.(tick := cell.tick);
    AtSettles(d, cell);
    assert Serving(e, v);
    var f := Transferred(e, step.controlA, cell.tick);
    TransferShows(e, v, step.controlA, f);
    CellIsServed(d, step.controlA, cell);
    ClockOnly(f, step.controlA, step.clocks);
    ClockingConsists(d, step.controlA, step.cells, step.clocks, f);
    ClockedShows(f, v.(filled := false, left := w.left - 1), After(d, step), step.clocks);
  }

  /** No cell passes under the serializer. */
  lemma {:induction false} IdleShows(d: Disk, w: Writer, step: Step)
    requires w.left > 0 && Serving(d, w) && step.TimePasses? && step.cells == [] && w.started
    ensures HandedOver(d, step) == [] && Shows(After(d, step), Next(w, step))
  {
    NoCells(d, step.controlA, step.cells);
    ClockOnly(d, step.controlA, step.clocks);
    ClockingConsists(d, step.controlA, step.cells, step.clocks, d);
    assert Flushed(d) == d;
    ClockedShows(d, w, After(d, step), step.clocks);
  }

  lemma {:induction false} StepShows(d: Disk, w: Writer, step: Step)
    requires Shows(d, w) && Allowed(step) && (Transfers(w, step) ==> w.filled)
    ensures HandedOver(d, step) == Put(w, step) && Shows(After(d, step), Next(w, step))
  {
    if !step.TimePasses? {
      CalmShows(d, w, step);
    } else if w.left == 0 || (!w.started && !Transfers(w, step)) {
      GoesByShows(d, w, step);
    } else if !w.started {
      RiseShows(d, w, step);
    } else if step.cells == [] {
      IdleShows(d, w, step);
    } else {
      CellShows(d, w, step);
    }
  }

  // ---------------------------------------------------------------- the field

  /** The controller follows the writer, and hands over what the writer puts. */
  lemma {:induction false} RunShows(d: Disk, w: Writer, steps: seq<Step>)
    requires Shows(d, w) && AllAllowed(steps) && InTime(w, steps)
    ensures Written(d, steps) == Field(w, steps) && Shows(AfterSteps(d, steps), WriterAfter(w, steps))
    decreases steps
  {
    if steps != [] {
      StepShows(d, w, steps[0]);
      RunShows(After(d, steps[0]), Next(w, steps[0]), steps[1..]);
    }
  }

  lemma {:induction false} ShowsEnd(d: Disk, w: Writer)
    requires Shows(d, w)
    ensures d.EndOfData() <==> w.left == 0
  {
  }

  /** From any point before OUT1 rises, whatever time steps and calm steps follow: as long as port A is
      filled between transfers, exactly the cells of the specification are written, at most as many as
      counter 2 was loaded with, and OUT2 is high exactly when all of them have been. */
  lemma {:induction false} FieldIsWritten(d: Disk, w: Writer, steps: seq<Step>)
    requires Armed(d, w) && !w.started && AllAllowed(steps) && InTime(w, steps)
    ensures Written(d, steps) == Field(w, steps) && |Written(d, steps)| <= w.left
    ensures AfterSteps(d, steps).EndOfData() <==> |Written(d, steps)| == w.left
  {
    RunShows(d, w, steps);
    FieldIsCounted(w, steps);
    ShowsEnd(AfterSteps(d, steps), WriterAfter(w, steps));
  }

  // ---------------------------------------------------------------- what the specification says

  /** The byte in port A: the last one the processor has filled it with. */
  function PortAfter(pa: byte, steps: seq<Step>): byte {
    if steps == [] then pa
    else
      var last := steps[|steps| - 1];
      if Fills(last) then last.value else PortAfter(pa, steps[..|steps| - 1])
  }

  /** The place of the `i`th step in which a cell passes. */
  function Place(steps: seq<Step>, i: nat): (p: nat)
    ensures p <= |steps| && (p < |steps| ==> CellsOf(steps[p]) != [])
    decreases steps
  {
    if steps == [] then 0
    else if CellsOf(steps[0]) == [] then 1 + Place(steps[1..], i)
    else if i == 0 then 0
    else 1 + Place(steps[1..], i - 1)
  }

  lemma {:induction false} PortLater(pa: byte, steps: seq<Step>, n: nat)
    requires n < |steps|
    ensures PortAfter(pa, steps[..n + 1]) == PortAfter(if Fills(steps[0]) then steps[0].value else pa, steps[1..][..n])
    decreases n
  {
    assert steps[..n + 1][..n] == steps[..n];
    if n > 0 {
      PortLater(pa, steps, n - 1);
      assert steps[1..][..n][..n - 1] == steps[1..][..n - 1];
    }
  }

  ghost predicate AtMostOneCell(steps: seq<Step>) {
    forall i :: 0 <= i < |steps| ==> |CellsOf(steps[i])| <= 1
  }

  /** The cell the serializer writes in step `p`. */
  function CellIn(pa: byte, steps: seq<Step>, p: nat): TimedFmByte
    requires p < |steps| && steps[p].TimePasses? && steps[p].cells != []
  {
    TimedFmByte(steps[p].cells[0].tick, PortAfter(pa, steps[..p]), WrittenClockMask(steps[p].controlA))
  }

  /** The `i`th cell of the field is written in the step of the `i`th cell that passes. */
  ghost predicate PutInOrder(w: Writer, steps: seq<Step>, i: nat) {
    var p := Place(steps, i);
    && p < |steps| && i < |Field(w, steps)| && i < |CellsIn(steps)|
    && Field(w, steps)[i] == CellIn(w.pa, steps, p) && steps[p].cells == [CellsIn(steps)[i]]
  }

  lemma {:induction false} CellLater(w: Writer, steps: seq<Step>, p: nat)
    requires p + 1 < |steps| && steps[p + 1].TimePasses? && steps[p + 1].cells != []
    ensures CellIn(w.pa, steps, p + 1) == CellIn(Next(w, steps[0]).pa, steps[1..], p)
  {
    PortLater(w.pa, steps, p);
  }

  lemma {:induction false} CellsLater(steps: seq<Step>, i: nat, j: nat)
    requires steps != [] && |CellsOf(steps[0])| + j == i && j < |CellsIn(steps[1..])|
    ensures i < |CellsIn(steps)| && CellsIn(steps)[i] == CellsIn(steps[1..])[j]
  {
  }

  lemma {:induction false} PlaceLater(steps: seq<Step>, i: nat, j: nat)
    requires steps != [] && |CellsOf(steps[0])| <= 1 && |CellsOf(steps[0])| + j == i
    ensures Place(steps, i) == 1 + Place(steps[1..], j)
  {
  }

  lemma {:induction false} FieldLater(w: Writer, steps: seq<Step>, i: nat, j: nat)
    requires w.started && steps != [] && |CellsOf(steps[0])| <= 1 && |CellsOf(steps[0])| + j == i
    requires w.left > |CellsOf(steps[0])| && j < |Field(Next(w, steps[0]), steps[1..])|
    ensures i < |Field(w, steps)| && Field(w, steps)[i] == Field(Next(w, steps[0]), steps[1..])[j]
  {
    assert |Put(w, steps[0])| == |CellsOf(steps[0])|;
  }

  lemma {:induction false} PutLater(w: Writer, steps: seq<Step>, i: nat, j: nat)
    requires w.started && steps != [] && |CellsOf(steps[0])| <= 1 && |CellsOf(steps[0])| + j == i
    requires w.left > |CellsOf(steps[0])| && PutInOrder(Next(w, steps[0]), steps[1..], j)
    ensures PutInOrder(w, steps, i)
  {
    var p := Place(steps[1..], j);
    PlaceLater(steps, i, j);
    FieldLater(w, steps, i, j);
    CellsLater(steps, i, j);
    assert steps[p + 1] == steps[1..][p];
    CellLater(w, steps, p);
  }

  lemma {:induction false} PutFirst(w: Writer, steps: seq<Step>, first: nat)
    requires w.started && w.left > 0 && steps != [] && |CellsOf(steps[0])| == 1 && first == 0
    ensures PutInOrder(w, steps, first)
  {
    assert steps[..first] == [];
  }

  /** The `i`th cell after the rise of OUT1 is written at its own tick, with the byte that is then in
      port A and the clocks then selected. */
  lemma {:induction false} SerialInOrder(w: Writer, steps: seq<Step>, i: nat)
    requires w.started && AtMostOneCell(steps) && i < w.left && i < |CellsIn(steps)|
    ensures PutInOrder(w, steps, i)
    decreases steps
  {
    var rest := steps[1..];
    assert forall j :: 0 <= j < |rest| ==> rest[j] == steps[j + 1];
    if CellsOf(steps[0]) == [] {
      assert CellsIn(steps) == CellsIn(rest);
      SerialInOrder(Next(w, steps[0]), rest, i);
      PutLater(w, steps, i, i);
    } else if i > 0 {
      SerialInOrder(Next(w, steps[0]), rest, i - 1);
      PutLater(w, steps, i, i - 1);
    } else {
      PutFirst(w, steps, i);
    }
  }

  lemma {:induction false} SerialIsCounted(w: Writer, steps: seq<Step>)
    requires w.started && AtMostOneCell(steps)
    ensures |Field(w, steps)| == Min(w.left, |CellsIn(steps)|)
    decreases steps
  {
    if steps != [] {
      var rest := steps[1..];
      assert forall j :: 0 <= j < |rest| ==> rest[j] == steps[j + 1];
      SerialIsCounted(Next(w, steps[0]), rest);
    }
  }

  /** The step in which OUT1 first rises. */
  function Rise(w: Writer, steps: seq<Step>): (r: nat)
    ensures r <= |steps| && (r < |steps| ==> steps[r].TimePasses?)
    decreases steps
  {
    if steps == [] || (steps[0].TimePasses? && Rises(w.one, steps[0].clocks)) then 0
    else 1 + Rise(Next(w, steps[0]), steps[1..])
  }

  lemma {:induction false} NothingBeforeRise(w: Writer, steps: seq<Step>)
    requires !w.started && Rise(w, steps) == |steps|
    ensures Field(w, steps) == [] && !WriterAfter(w, steps).started
    decreases steps
  {
    if steps != [] {
      NothingBeforeRise(Next(w, steps[0]), steps[1..]);
    }
  }

  /** The tick of the cell last passed. */
  function LastTick(tick: nat, steps: seq<Step>): nat {
    TickAfter(tick, CellsIn(steps))
  }

  lemma {:induction false} LastTickLater(tick: nat, first: Step, rest: seq<Step>)
    ensures LastTick(tick, [first] + rest) == LastTick(TickAfter(tick, CellsOf(first)), rest)
  {
    assert ([first] + rest)[1..] == rest;
  }

  /** The writer once OUT1 has risen in step `r` and the first cell is written. */
  function Risen(w: Writer, steps: seq<Step>, r: nat): Writer
    requires r <= |steps| && w.left > 0
  {
    w.(started := true, left := w.left - 1, pa := PortAfter(w.pa, steps[..r]))
  }

  /** A field starts in the step in which OUT1 rises, with the cell last passed and the byte then in
      port A, and goes on with the cells that pass after it. */
  ghost predicate StartsWithRise(w: Writer, steps: seq<Step>, r: nat) {
    && w.left > 0 && r < |steps| && steps[r].TimePasses?
    && Field(w, steps)
       == [TimedFmByte(LastTick(w.tick, steps[..r + 1]), PortAfter(w.pa, steps[..r]), WrittenClockMask(steps[r].controlA))]
                          + Field(Risen(w, steps, r), steps[r + 1..])
  }

  lemma {:induction false} RisesAtOnce(w: Writer, steps: seq<Step>, r: nat)
    requires !w.started && w.left > 0 && r == Rise(w, steps) < |steps| && r == 0
    ensures StartsWithRise(w, steps, r)
  {
    assert steps[..r] == [] && PortAfter(w.pa, steps[..r]) == w.pa;
    assert steps[..r + 1] == [steps[0]];
    LastTickLater(w.tick, steps[0], []);
    assert [steps[0]] + [] == [steps[0]];
    SerialForgets(Next(w, steps[0]), Risen(w, steps, r), steps[1..]);
  }

  lemma {:induction false} RisesLater(w: Writer, steps: seq<Step>, r: nat)
    requires !w.started && w.left > 0 && r == Rise(w, steps) < |steps| && r > 0
    requires StartsWithRise(Next(w, steps[0]), steps[1..], r - 1)
    ensures StartsWithRise(w, steps, r)
  {
    var next, rest := Next(w, steps[0]), steps[1..];
    assert rest[r..] == steps[r + 1..];
    PortLater(w.pa, steps, r - 1);
    assert steps[..r + 1] == [steps[0]] + rest[..r];
    LastTickLater(w.tick, steps[0], rest[..r]);
    SerialForgets(Risen(next, rest, r - 1), Risen(w, steps, r), steps[r + 1..]);
    var field := Field(next, rest);
    assert [] + field == field;
  }

  lemma {:induction false} FieldInOrder(w: Writer, steps: seq<Step>, r: nat)
    requires !w.started && w.left > 0 && r == Rise(w, steps) < |steps|
    ensures StartsWithRise(w, steps, r)
    decreases steps
  {
    if r == 0 {
      RisesAtOnce(w, steps, r);
    } else {
      FieldInOrder(Next(w, steps[0]), steps[1..], r - 1);
      RisesLater(w, steps, r);
    }
  }

  /** Once started, neither counter 1 nor the tick of the cell before matters. */
  lemma {:induction false} SerialForgets(v: Writer, w: Writer, steps: seq<Step>)
    requires v.started && w.started && v.left == w.left && v.pa == w.pa
    ensures Field(v, steps) == Field(w, steps)
    decreases steps
  {
    if steps != [] {
      SerialForgets(Next(v, steps[0]), Next(w, steps[0]), steps[1..]);
    }
  }
}
