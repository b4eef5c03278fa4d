/** Reading a field: the processor programs counter 2 with the length of the field, sets RE, and
    reads port B between cells.  It gets the mark and exactly the programmed number of cells,
    whatever else it does in between that does not interfere. */
module FieldRead {
  import opened Bytes
  import opened Wrappers
  import opened FloppyTracks
  import opened FloppyDrives
  import opened DiskController
  import opened DiskSteps
  import opened Interrupts3214
  import opened PitCounting
  import Ppi = Ppi8255

  // ---------------------------------------------------------------- the environment

  predicate TakesByte(step: Step) {
    step.DataRead? && step.register % 4 == 1
  }

  /** What a read of port B takes: the byte group B asks for, if it does. */
  function Taken(d: Disk, step: Step): seq<byte> {
    if TakesByte(step) && d.data.b.intr then [Ppi.ReadValue(d.data, step.register)] else []
  }

  /** Everything the processor has been given. */
  function Delivered(d: Disk, steps: seq<Step>): seq<byte>
    decreases steps
  {
    if steps == [] then [] else Taken(d, steps[0]) + Delivered(After(d, steps[0]), steps[1..])
  }

  /** The byte that waits in port B. */
  function Waiting(d: Disk): seq<byte> {
    if d.data.b.shake.ibf then [d.data.b.shake.latch] else []
  }

  // ---------------------------------------------------------------- what the field is

  /** The position of the first selected mark. */
  function FirstMark(aux: Aux, cells: Cells): (p: nat)
    ensures p <= |cells|
    ensures p < |cells| ==> Selects(aux, cells[p])
    ensures forall i :: 0 <= i < p ==> !Selects(aux, cells[i])
  {
    if cells == [] || Selects(aux, cells[0]) then 0 else 1 + FirstMark(aux, cells[1..])
  }

  function Data(cells: Cells): (data: seq<byte>)
    ensures |data| == |cells|
    ensures forall i :: 0 <= i < |cells| ==> data[i] == cells[i].data
  {
    if cells == [] then [] else [cells[0].data] + Data(cells[1..])
  }

  function UpTo(n: nat, cells: Cells): Cells {
    if n <= |cells| then cells[..n] else cells
  }

  /** The mark and the `n` cells after it, as far as they have passed. */
  function FieldOf(aux: Aux, n: nat, cells: Cells): seq<byte> {
    Data(UpTo(n + 1, cells[FirstMark(aux, cells)..]))
  }

  // ---------------------------------------------------------------- the reader without the controller

  /** How far a read is: still looking for the mark of a field of `n`, or within it, with cells to
      come and a byte that may wait. */
  datatype Reader = Looking(n: nat) | Within(left: nat, waiting: Option<byte>)

  function Shown(r: Reader, aux: Aux, cell: TimedFmByte): Reader {
    match r
    case Looking(n) => if Selects(aux, cell) then Within(n, Some(cell.data)) else r
    case Within(left, _) => if left == 0 then r else Within(left - 1, Some(cell.data))
  }

  function Emptied(r: Reader): Reader {
    if r.Within? then r.(waiting := None) else r
  }

  function Held(r: Reader): seq<byte> {
    if r.Within? && r.waiting.Some? then [r.waiting.value] else []
  }

  function Next(r: Reader, aux: Aux, step: Step): Reader {
    if step.TimePasses? then if step.cells == [] then r else Shown(r, aux, step.cells[0])
    else if TakesByte(step) then Emptied(r)
    else r
  }

  function Given(r: Reader, step: Step): seq<byte> {
    if TakesByte(step) then Held(r) else []
  }

  function ReaderAfter(r: Reader, aux: Aux, steps: seq<Step>): Reader
    decreases steps
  {
    if steps == [] then r else ReaderAfter(Next(r, aux, steps[0]), aux, steps[1..])
  }

  function GivenIn(r: Reader, aux: Aux, steps: seq<Step>): seq<byte>
    decreases steps
  {
    if steps == [] then [] else Given(r, steps[0]) + GivenIn(Next(r, aux, steps[0]), aux, steps[1..])
  }

  /** A cell of the field comes only when the byte before it has been read. */
  predicate HasRoom(r: Reader, step: Step) {
    step.TimePasses? && step.cells != [] && r.Within? && r.left > 0 ==> r.waiting.None?
  }

  /** The processor keeps up: it reads port B between any two cells of the field.  Between the cells
      there may be any number of time steps and of calm steps. */
  predicate InTime(r: Reader, aux: Aux, steps: seq<Step>)
    decreases steps
  {
    steps == [] || (HasRoom(r, steps[0]) && InTime(Next(r, aux, steps[0]), aux, steps[1..]))
  }

  lemma {:induction false} FirstOfField(n: nat, cells: Cells)
    requires cells != []
    ensures Data(UpTo(n + 1, cells)) == [cells[0].data] + Data(UpTo(n, cells[1..]))
  {
    assert UpTo(n + 1, cells)[1..] == UpTo(n, cells[1..]);
  }

  /** What the reader still owes, given and held, once these cells have passed. */
  function Owed(r: Reader, aux: Aux, cells: Cells): seq<byte> {
    match r
    case Looking(n) => FieldOf(aux, n, cells)
    case Within(left, _) => Held(r) + Data(UpTo(left, cells))
  }

  lemma {:induction false} OwedNothing(r: Reader, aux: Aux, none: Cells)
    requires none == []
    ensures Owed(r, aux, none) == Held(r)
  {
  }

  lemma {:induction false} OwedByCell(r: Reader, aux: Aux, cells: Cells)
    requires cells != [] && (r.Within? && r.left > 0 ==> r.waiting.None?)
    ensures Owed(r, aux, cells) == Owed(Shown(r, aux, cells[0]), aux, cells[1..])
  {
    match r
    case Looking(n) =>
      if Selects(aux, cells[0]) {
        FirstOfField(n, cells);
        assert cells[0..] == cells;
      } else {
        assert cells[1..][FirstMark(aux, cells[1..])..] == cells[FirstMark(aux, cells)..];
      }
    case Within(left, waiting) =>
      if left > 0 {
        FirstOfField(left - 1, cells);
      } else {
        assert UpTo(left, cells) == UpTo(left, cells[1..]);
      }
  }

  lemma {:induction false} OwedByRead(r: Reader, aux: Aux, cells: Cells)
    ensures Owed(r, aux, cells) == Held(r) + Owed(Emptied(r), aux, cells)
  {
    var rest := Owed(Emptied(r), aux, cells);
    assert [] + rest == rest;
  }

  lemma {:induction false} OwedByStep(r: Reader, aux: Aux, step: Step, later: Cells)
    requires Allowed(step) && HasRoom(r, step)
    ensures Owed(r, aux, CellsOf(step) + later) == Given(r, step) + Owed(Next(r, aux, step), aux, later)
  {
    var cells, rest := CellsOf(step) + later, Owed(Next(r, aux, step), aux, later);
    assert [] + rest == rest;
    if step.TimePasses? && step.cells != [] {
      assert cells[0] == step.cells[0] && cells[1..] == later;
      OwedByCell(r, aux, cells);
    } else {
      assert cells == later;
      if TakesByte(step) {
        OwedByRead(r, aux, later);
      }
    }
  }

  lemma {:induction false} Associates(a: seq<byte>, b: seq<byte>, c: seq<byte>)
    ensures (a + b) + c == a + (b + c)
  {
  }

  /** A reader that keeps up is given what it is owed, in order, up to the byte that waits. */
  lemma {:induction false} ReaderIsPaid(r: Reader, aux: Aux, steps: seq<Step>)
    requires AllAllowed(steps) && InTime(r, aux, steps)
    ensures GivenIn(r, aux, steps) + Held(ReaderAfter(r, aux, steps)) == Owed(r, aux, CellsIn(steps))
    decreases steps
  {
    if steps == [] {
      OwedNothing(r, aux, CellsIn(steps));
      assert [] + Held(r) == Held(r);
    } else {
      var next, rest := Next(r, aux, steps[0]), steps[1..];
      OwedByStep(r, aux, steps[0], CellsIn(rest));
      ReaderIsPaid(next, aux, rest);
      Associates(Given(r, steps[0]), GivenIn(next, aux, rest), Held(ReaderAfter(next, aux, rest)));
    }
  }

  /** The field is over for the reader once its last cell has passed. */
  predicate Over(r: Reader) {
    r.Within? && r.left == 0
  }

  function CellsLeft(r: Reader, aux: Aux, cells: Cells): int {
    match r
    case Looking(n) => FirstMark(aux, cells) + n + 1
    case Within(left, _) => left
  }

  lemma {:induction false} ReaderEnds(r: Reader, aux: Aux, steps: seq<Step>)
    requires AllAllowed(steps) && InTime(r, aux, steps) && (r.Looking? ==> r.n > 0)
    ensures Over(ReaderAfter(r, aux, steps)) <==> CellsLeft(r, aux, CellsIn(steps)) <= |CellsIn(steps)|
    decreases steps
  {
    if steps != [] {
      ReaderEnds(Next(r, aux, steps[0]), aux, steps[1..]);
      var cells, later := CellsIn(steps), CellsIn(steps[1..]);
      if CellsOf(steps[0]) == [] {
        assert cells == later;
      } else {
        assert cells[0] == steps[0].cells[0] && cells[1..] == later;
      }
    }
  }

  // ---------------------------------------------------------------- the controller in each phase

  /** Port B is set up for the field and holds this byte, if any, and group A is silent. */
  predicate PortB(s: Ppi.PpiState, waiting: Option<byte>) {
    && s.b.Receives() && s.b.inte && s.b.shake.strobeHigh && !s.a.intr && PortsSettled(s)
    && s.b.intr == s.b.shake.ibf == waiting.Some? && (waiting.Some? ==> s.b.shake.latch == waiting.value)
  }

  predicate NoWriting(d: Disk) {
    !d.aux.write && !d.aux.format && !d.latches.ordinary && !d.latches.format
  }

  /** Between two steps: nothing is being written. */
  predicate Resting(d: Disk, waiting: Option<byte>) {
    Consistent(d) && d.latches.timing && PortB(d.data, waiting) && NoWriting(d) && d.pending == []
  }

  /** The mark is still to come; counter 2 has been loaded with `n`. */
  predicate Hunting(d: Disk, aux: Aux, n: nat) {
    Resting(d, None) && d.aux == aux && aux.read && !d.latches.sync && CountingDown(d.two.element, n) && d.two.element.mode == 0
  }

  /** `k` cells of the field are still to come. */
  predicate Reading(d: Disk, k: nat, waiting: Option<byte>) {
    Resting(d, waiting) && d.aux.read && d.latches.sync && CountingDown(d.two.element, k) && d.two.element.mode == 0
    && !d.detector.suppress
  }

  /** The field is over. */
  predicate Finished(d: Disk, waiting: Option<byte>) {
    Resting(d, waiting) && d.EndOfData() && !d.two.element.running
  }

  /** The controller is where the reader is. */
  predicate Shows(d: Disk, aux: Aux, r: Reader) {
    match r
    case Looking(n) => Hunting(d, aux, n)
    case Within(left, waiting) => if left == 0 then Finished(d, waiting) else Reading(d, left, waiting)
  }

  // ---------------------------------------------------------------- the port

  function Loaded(s: Ppi.PpiState, value: byte): Ppi.PpiState {
    s.(ports := s.ports.(inB := value), b := s.b.(shake := s.b.shake.(latch := value, ibf := true), intr := true))
  }

  lemma {:induction false} StrobeLoads(s: Ppi.PpiState, value: byte)
    requires PortB(s, None)
    ensures Ppi.PulseStrobeB(s, value) == Loaded(s, value) && PortB(Loaded(s, value), Some(value))
  {
    var t := s.(ports := s.ports.(inB := value));
    var low := Ppi.StrobeB(t, false);
    assert low == t.(b := t.b.(shake := t.b.shake.(latch := value, ibf := true, strobeHigh := false)));
  }

  lemma {:induction false} ReadEmpties(s: Ppi.PpiState, waiting: Option<byte>, register: byte)
    requires PortB(s, waiting)
    ensures var t := Ppi.AfterRead(s, register);
            && PortB(t, if register % 4 == 1 then None else waiting)
            && (t.a.intr || t.b.intr ==> s.a.intr || s.b.intr)
    ensures register % 4 == 1 && waiting.Some? ==> Ppi.ReadValue(s, register) == waiting.value
  {
  }

  lemma {:induction false} FillKeepsB(s: Ppi.PpiState, waiting: Option<byte>, register: byte, value: byte)
    requires PortB(s, waiting) && register % 4 <= 1
    ensures PortB(Ppi.Written(s, register, value), waiting)
  {
  }

  // ---------------------------------------------------------------- steps without a cell

  /** Only the port's own state, the interrupt level, counter 1, the registers of the counters and the
      timeout latch differ. */
  predicate Beside(d: Disk, e: Disk) {
    && Consistent(e)
    && e == d.(data := e.data, one := e.one, two := d.two.(port := e.two.port),
                 latches := d.latches.(timeout := e.latches.timeout),
               detector := d.detector.(level := e.detector.level), pending := [])
  }

  lemma {:induction false} BesideShows(d: Disk, aux: Aux, r: Reader, e: Disk)
    requires Shows(d, aux, r) && Beside(d, e) && PortB(e.data, if r.Within? then r.waiting else None)
    ensures Shows(e, aux, r)
  {
  }

  lemma {:induction false} EmptiedShows(d: Disk, aux: Aux, r: Reader, e: Disk)
    requires Shows(d, aux, r) && Beside(d, e) && PortB(e.data, None)
    ensures Shows(e, aux, Emptied(r))
  {
  }

  /** Only counter 1 and the timeout latch move. */
  predicate OnlyOneMoved(d: Disk, e: Disk) {
    e == d.(one := e.one, latches := d.latches.(timeout := e.latches.timeout), pending := []) && Consistent(e)
  }

  lemma {:induction false} IdleMovesOne(d: Disk, controlA: byte, clocks: nat, none: Cells)
    requires Consistent(d) && !d.aux.write && none == []
    ensures OnlyOneMoved(d, After(d, TimePasses(controlA, none, clocks)))
    ensures Elapsed(d, controlA, none, clocks).pending == d.pending
  {
    ElapsedSettles(d, controlA, none, clocks);
  }

  lemma {:induction false} ReadShows(d: Disk, aux: Aux, r: Reader, register: byte)
    requires Shows(d, aux, r)
    ensures Shows(After(d, DataRead(register)), aux, Next(r, aux, DataRead(register)))
    ensures Taken(d, DataRead(register)) == Given(r, DataRead(register))
  {
    var waiting := if r.Within? then r.waiting else None;
    ReadEmpties(d.data, waiting, register);
    DataMoves(d, Ppi.AfterRead(d.data, register));
    if register % 4 == 1 {
      EmptiedShows(d, aux, r, After(d, DataRead(register)));
    } else {
      BesideShows(d, aux, r, After(d, DataRead(register)));
    }
  }

  lemma {:induction false} FillShows(d: Disk, aux: Aux, r: Reader, register: byte, value: byte)
    requires Shows(d, aux, r) && register % 4 <= 1
    ensures Shows(After(d, DataWrite(register, value)), aux, r)
  {
    FillKeepsB(d.data, if r.Within? then r.waiting else None, register, value);
    DataMoves(d, Ppi.Written(d.data, register, value));
    BesideShows(d, aux, r, After(d, DataWrite(register, value)));
  }

  lemma {:induction false} BystanderShows(d: Disk, aux: Aux, r: Reader, step: Step)
    requires Shows(d, aux, r) && Bystander(step)
    ensures Shows(After(d, step), aux, r)
  {
    BystanderStands(d, step);
    BesideShows(d, aux, r, After(d, step));
  }

  lemma {:induction false} CalmShows(d: Disk, aux: Aux, r: Reader, step: Step)
    requires Shows(d, aux, r) && Calm(step)
    ensures Shows(After(d, step), aux, Next(r, aux, step)) && Taken(d, step) == Given(r, step)
  {
    match step
    case DataRead(register) => ReadShows(d, aux, r, register);
    case DataWrite(register, value) => FillShows(d, aux, r, register, value);
    case _ => BystanderShows(d, aux, r, step);
  }

  // ---------------------------------------------------------------- a cell passes

  /** A time step with one cell, when nothing is written: the cell is seen, then counter 1 runs. */
  lemma {:induction false} CellIsSeen(d: Disk, waiting: Option<byte>, controlA: byte, cell: TimedFmByte, clocks: nat)
    requires Resting(d, waiting) && !Seen(At(d, cell), cell).aux.write
    ensures OnlyOneMoved(Seen(At(d, cell), cell), After(d, TimePasses(controlA, [cell], clocks)))
    ensures Elapsed(d, controlA, [cell], clocks).pending == Seen(At(d, cell), cell).pending
  {
    var e := Seen(At(d, cell), cell);
    AtSettles(d, cell);
    SeenSettles(At(d, cell), cell);
    assert Passed(d, controlA, cell) == e;
    OneCell(d, controlA, cell);
    ElapsedSettles(d, controlA, [cell], clocks);
    assert After(d, TimePasses(controlA, [cell], clocks)) == Flushed(CounterOneRan(e, controlA, clocks));
  }

  /** The state right after a byte has been strobed into port B. */
  predicate Arrived(d: Disk, e: Disk, cell: TimedFmByte) {
    Resting(e, Some(cell.data)) && e.data == Loaded(d.data, cell.data)
  }

  /** The mark is presented, and not counted. */
  lemma {:induction false} MarkArrives(d: Disk, aux: Aux, n: nat, cell: TimedFmByte)
    requires Hunting(d, aux, n) && Selects(aux, cell)
    ensures var e := Seen(At(d, cell), cell);
            && Arrived(d, e, cell) && e.two == d.two && e.aux == aux && e.latches.sync && !e.detector.suppress
  {
    StrobeLoads(d.data, cell.data);
    AtSettles(d, cell);
    SeenSettles(At(d, cell), cell);
  }

  /** A byte of the field is presented and counted. */
  lemma {:induction false} ByteArrives(d: Disk, k: nat, cell: TimedFmByte)
    requires Reading(d, k, None) && k > 1
    ensures var e := Seen(At(d, cell), cell);
            && Arrived(d, e, cell) && e.two == d.two.(element := d.two.element.(current := k - 1))
            && e.aux == d.aux && e.latches.sync && !e.detector.suppress
  {
    StrobeLoads(d.data, cell.data);
    AtSettles(d, cell);
    SeenSettles(At(d, cell), cell);
  }

  /** With the last byte OUT2 rises and resets the register and the latch, closes the gate, and leaves
      the data interrupt standing. */
  lemma {:induction false} LastByteArrives(d: Disk, cell: TimedFmByte)
    requires Reading(d, 1, None)
    ensures var e := Seen(At(d, cell), cell);
            && Arrived(d, e, cell) && e.EndOfData() && e.Interrupt() && !e.two.element.running
            && e.aux == AUX_CLEAR && !e.latches.sync && !e.one.gate
  {
    StrobeLoads(d.data, cell.data);
    AtSettles(d, cell);
    SeenSettles(At(d, cell), cell);
  }

  lemma {:induction false} SeenShows(d: Disk, aux: Aux, r: Reader, cell: TimedFmByte)
    requires Shows(d, aux, r) && (r.Within? && r.left > 0 ==> r.waiting.None?)
    ensures Shows(Seen(At(d, cell), cell), aux, Shown(r, aux, cell))
  {
    AtSettles(d, cell);
    match r
    case Looking(n) =>
      if Selects(aux, cell) {
        MarkArrives(d, aux, n, cell);
      }
    case Within(left, waiting) =>
      if left == 1 {
        LastByteArrives(d, cell);
      } else if left > 1 {
        ByteArrives(d, left, cell);
      }
  }

  lemma {:induction false} ShowsRests(d: Disk, aux: Aux, r: Reader)
    requires Shows(d, aux, r)
    ensures Resting(d, if r.Within? then r.waiting else None)
  {
  }

  lemma {:induction false} MovedShows(d: Disk, aux: Aux, r: Reader, e: Disk)
    requires Shows(d, aux, r) && OnlyOneMoved(d, e)
    ensures Shows(e, aux, r)
  {
    BesideShows(d, aux, r, e);
  }

  lemma {:induction false} TimeShows(d: Disk, aux: Aux, r: Reader, step: Step)
    requires Shows(d, aux, r) && step.TimePasses? && |step.cells| <= 1 && HasRoom(r, step)
    ensures Shows(After(d, step), aux, Next(r, aux, step))
    ensures HandedOver(d, step) == []
  {
    ShowsRests(d, aux, r);
    if step.cells == [] {
      IdleMovesOne(d, step.controlA, step.clocks, step.cells);
      MovedShows(d, aux, r, After(d, step));
    } else {
      var cell := step.cells[0];
      assert step.cells == [cell];
      SeenShows(d, aux, r, cell);
      var e, s := Seen(At(d, cell), cell), Shown(r, aux, cell);
      ShowsRests(e, aux, s);
      CellIsSeen(d, if r.Within? then r.waiting else None, step.controlA, cell, step.clocks);
      MovedShows(e, aux, s, After(d, step));
    }
  }

  lemma {:induction false} StepShows(d: Disk, aux: Aux, r: Reader, step: Step)
    requires Shows(d, aux, r) && Allowed(step) && HasRoom(r, step)
    ensures Shows(After(d, step), aux, Next(r, aux, step))
    ensures Taken(d, step) == Given(r, step) && HandedOver(d, step) == []
  {
    if step.TimePasses? {
      TimeShows(d, aux, r, step);
    } else {
      CalmShows(d, aux, r, step);
    }
  }

  // ---------------------------------------------------------------- the field

  /** The controller follows the reader, and gives the processor what the reader is given. */
  lemma {:induction false} RunShows(d: Disk, aux: Aux, r: Reader, steps: seq<Step>)
    requires Shows(d, aux, r) && AllAllowed(steps) && InTime(r, aux, steps)
    ensures Shows(AfterSteps(d, steps), aux, ReaderAfter(r, aux, steps))
    ensures Delivered(d, steps) == GivenIn(r, aux, steps) && Written(d, steps) == []
    decreases steps
  {
    if steps != [] {
      StepShows(d, aux, r, steps[0]);
      RunShows(After(d, steps[0]), aux, Next(r, aux, steps[0]), steps[1..]);
    }
  }

  lemma {:induction false} ShowsEnd(d: Disk, aux: Aux, r: Reader)
    requires Shows(d, aux, r)
    ensures (d.EndOfData() <==> Over(r)) && Waiting(d) == Held(r) && (d.Interrupt() <==> Held(r) != [])
  {
  }

  /** From any point before the mark, whatever cells pass and whatever calm steps the processor takes:
      as long as it reads port B between cells of the field, it gets the first selected mark and the
      `n` cells after it, in order, and nothing else, up to the byte that still waits; OUT2 is low
      until the `n`th cell after the mark and high from then on; and nothing is written. */
  lemma {:induction false} FieldIsRead(d: Disk, aux: Aux, n: nat, steps: seq<Step>)
    requires Hunting(d, aux, n) && AllAllowed(steps) && InTime(Looking(n), aux, steps)
    ensures var e := AfterSteps(d, steps);
            && Delivered(d, steps) + Waiting(e) == FieldOf(aux, n, CellsIn(steps))
            && (e.EndOfData() <==> FirstMark(aux, CellsIn(steps)) + n < |CellsIn(steps)|)
    ensures Written(d, steps) == []
  {
    var r := Looking(n);
    RunShows(d, aux, r, steps);
    ReaderIsPaid(r, aux, steps);
    ReaderEnds(r, aux, steps);
    ShowsEnd(AfterSteps(d, steps), aux, ReaderAfter(r, aux, steps));
  }

  // ---------------------------------------------------------------- the interrupts

  /** The disk inputs of the 3214. */
  predicate Connected(d: Disk, r: Requests)
    requires |r.inputs| == INPUT_COUNT
  {
    r.inputs[7] == d.Interrupt() && r.inputs[6] == d.latches.timeout && r.inputs[5] == d.EndOfData()
  }

  /** The 3214 has the three disk interrupts enabled and sees this controller. */
  ghost predicate Attentive(d: Disk, r: Requests) {
    WellFormed(r) && r.mask >= 3 && Connected(d, r)
  }

  /** A waiting data byte, vector 00h, comes before a timeout, 02h, and both before the end of the
      field, 04h. */
  lemma {:induction false} DataOutranksEnd(d: Disk, r: Requests)
    requires Attentive(d, r)
    ensures Vector(r) == 0x00 <==> d.Interrupt()
    ensures Vector(r) == 0x02 <==> !d.Interrupt() && d.latches.timeout
    ensures Vector(r) == 0x04 <==> !d.Interrupt() && !d.latches.timeout && d.EndOfData()
  {
    VectorIsHighest(r, 7);
    VectorIsHighest(r, 6);
    VectorIsHighest(r, 5);
  }

  /** The end of a field, from any point before its mark: from the last cell on OUT2 is high, but until
      the processor has read the last byte it is given 00h, the vector of the waiting byte, and after
      that 04h, that of the end of the field, or 02h if the timeout has come. */
  lemma {:induction false} DataComesBeforeEnd(d: Disk, aux: Aux, n: nat, steps: seq<Step>, e: Disk, r: Requests)
    requires Hunting(d, aux, n) && AllAllowed(steps) && InTime(Looking(n), aux, steps)
    requires FirstMark(aux, CellsIn(steps)) + n < |CellsIn(steps)|
    requires e == AfterSteps(d, steps) && Attentive(e, r)
    ensures e.EndOfData() && n <= |Delivered(d, steps)| <= n + 1
    ensures Vector(r) == if |Delivered(d, steps)| == n then 0x00 else if e.latches.timeout then 0x02 else 0x04
  {
    FieldIsRead(d, aux, n, steps);
    RunShows(d, aux, Looking(n), steps);
    ShowsEnd(e, aux, ReaderAfter(Looking(n), aux, steps));
    DataOutranksEnd(e, r);
  }
}
