/** Fields on the whole machine: what the processor is given by its reads of the data port while a
    track turns under the head, and what its filling of port A leaves on the medium. */
module FieldRuns {
  import opened Bytes
  import opened FloppyTracks
  import opened FloppyDrives
  import opened FloppySubsystems
  import opened DiskController
  import opened DiskSteps
  import opened Scenes
  import opened MachineTime
  import opened MachineModel
  import opened DiskRuns
  import opened Interrupts3214
  import R = FieldRead
  import W = FieldWrite
  import Ppi = Ppi8255

  /** The run as steps of the controller. */
  ghost function StepsOf(m: MachineState, ops: seq<Op>): seq<Step>
    requires Fit(m)
  {
    StepsIn(SceneOf(m), ChunksOf(m, ops))
  }

  // ---------------------------------------------------------------- what the processor is given

  /** IN 21h and its mirrors: a read of port B of the data 8255. */
  predicate ReadsPortB(op: Op) {
    op.Perform? && !op.access.output && op.access.port / 16 % 8 == 2 && op.access.port % 256 % 4 == 1
  }

  /** What it gives, when the port asks for it to be taken. */
  function ByteRead(m: MachineState, op: Op): seq<nat>
    requires Fit(m)
  {
    if ReadsPortB(op) && m.disks.disk.data.b.intr then [IoValue(m, op.access.port)] else []
  }

  /** All of them. */
  ghost function BytesRead(m: MachineState, ops: seq<Op>): seq<nat>
    requires Fit(m)
    decreases ops
  {
    if ops == [] then [] else ByteRead(m, ops[0]) + BytesRead(AfterOp(m, ops[0]), ops[1..])
  }

  lemma {:induction false} PortBStep(m: MachineState, op: Op, step: Step)
    requires Fit(m) && step == StepIn(SceneOf(m), ChunkOf(m, op))
    ensures R.TakesByte(step) <==> ReadsPortB(op)
    ensures ReadsPortB(op) ==> step == Step.DataRead(op.access.port % 256)
  {
    if op.Perform? && op.access.output {
      assert step == WriteStep(m, op.access.port, op.access.value);
    }
  }

  lemma {:induction false} DataValue(m: MachineState, port: nat)
    requires Fit(m) && port / 16 % 8 == 2
    ensures IoValue(m, port) == Ppi.ReadValue(m.disks.disk.data, port % 256)
  {
  }

  lemma {:induction false} ReadIsTaken(m: MachineState, op: Op, step: Step)
    requires Fit(m) && step == StepIn(SceneOf(m), ChunkOf(m, op))
    ensures ByteRead(m, op) == R.Taken(m.disks.disk, step)
  {
    PortBStep(m, op, step);
    if ReadsPortB(op) {
      DataValue(m, op.access.port);
    }
  }

  /** What the processor reads is what the controller delivers. */
  ghost predicate GivenAsDelivered(m: MachineState, ops: seq<Op>) {
    match m
    case MachineState(_, _, _, _, _, _) => Fit(m) && BytesRead(m, ops) == R.Delivered(m.disks.disk, StepsOf(m, ops))
  }

  lemma {:induction false} FirstGiven(m: MachineState, ops: seq<Op>, n: MachineState)
    requires Fit(m) && ops != [] && n == AfterOp(m, ops[0]) && Follows(m, n, ChunkOf(m, ops[0]))
    requires GivenAsDelivered(n, ops[1..])
    ensures GivenAsDelivered(m, ops)
  {
    ReadIsTaken(m, ops[0], StepIn(SceneOf(m), ChunkOf(m, ops[0])));
    FirstStepOfRun(m, SceneOf(m), ops, n, SceneOf(n));
    assert StepsOf(m, ops)[1..] == StepsOf(n, ops[1..]);
  }

  lemma {:induction false} GivenIsDelivered(m: MachineState, ops: seq<Op>)
    requires Playable(m, ops)
    ensures GivenAsDelivered(m, ops)
    decreases ops
  {
    if ops != [] {
      var n := AfterOp(m, ops[0]);
      FirstPlayed(m, ops, n);
      GivenIsDelivered(n, ops[1..]);
      FirstGiven(m, ops, n);
    }
  }

  // ---------------------------------------------------------------- reading a field

  /** The controller looks for the mark of a field of `n`, and the processor reads port B between any
      two cells of the field.  Beside that it may do what does not interfere, for any time. */
  ghost predicate ReadsField(m: MachineState, aux: Aux, n: nat, ops: seq<Op>) {
    match m
    case MachineState(disks, _, _, _, _, _) =>
      && Fit(m) && Gentle(m, SceneOf(m), ops) && R.Hunting(disks.disk, aux, n) && R.InTime(R.Looking(n), aux, StepsOf(m, ops))
  }

  /** The cells that pass under the head during the run. */
  ghost function CellsPassed(m: MachineState, ops: seq<Op>): Cells
    requires Fit(m)
  {
    Stream(SceneOf(m), CyclesIn(ops) * TICKS_PER_CYCLE)
  }

  /** The field and nothing else has been read, and the medium is as it was. */
  ghost predicate FieldRead(m: MachineState, aux: Aux, n: nat, ops: seq<Op>, e: MachineState, cells: Cells)
    requires Fit(m)
  {
    match e
    case MachineState(_, _, _, _, _, _) =>
      && Fit(e) && BytesRead(m, ops) + R.Waiting(e.disks.disk) == R.FieldOf(aux, n, cells)
      && (e.disks.disk.EndOfData() <==> R.FirstMark(aux, cells) + n < |cells|)
      && Selected(e.disks.bay).image == Selected(m.disks.bay).image
  }

  lemma {:induction false} SilentRun(m: MachineState, ops: seq<Op>, s: Scene, chunks: seq<Chunk>)
    requires Steady(m) && CalmRun(ops) && s == SceneOf(m) && chunks == ChunksOf(m, ops)
    requires Written(s.d, StepsIn(s, chunks)) == []
    ensures Playable(m, ops) && AllWrites(s, chunks) == []
    ensures CellsIn(StepsIn(s, chunks)) == CellsPassed(m, ops) && PlayedAll(s, chunks).cells == s.cells
  {
    SceneWrites(s, chunks);
    SilenceLands(m.disks.bay, s, chunks);
    RunActsOnly(m, ops);
    RunTakesTime(m, ops);
    SilentSceneStreams(s, chunks);
  }

  lemma {:induction false} TrackUnchanged(b: Bay, c: Bay, cells: Cells)
    requires BayOk(b) && BayOk(c) && TrackOnly(b, c, cells) && cells == UnderHead(Selected(b))
    ensures Selected(c).image == Selected(b).image
  {
    SameBay(b);
  }

  /** The run of the machine is a run of the controller over the cells that pass. */
  ghost predicate RunIsSteps(m: MachineState, aux: Aux, n: nat, ops: seq<Op>, e: MachineState) {
    match e
    case MachineState(_, _, _, _, _, _) =>
      && Fit(m) && Fit(e) && R.Hunting(m.disks.disk, aux, n)
      && AllAllowed(StepsOf(m, ops)) && R.InTime(R.Looking(n), aux, StepsOf(m, ops))
      && e.disks.disk == AfterSteps(m.disks.disk, StepsOf(m, ops)) && CellsIn(StepsOf(m, ops)) == CellsPassed(m, ops)
      && BytesRead(m, ops) == R.Delivered(m.disks.disk, StepsOf(m, ops))
      && Selected(e.disks.bay).image == Selected(m.disks.bay).image
  }

  lemma {:induction false} ReadingRun(m: MachineState, aux: Aux, n: nat, ops: seq<Op>, e: MachineState)
    requires ReadsField(m, aux, n, ops) && e == AfterOps(m, ops)
    ensures RunIsSteps(m, aux, n, ops, e)
  {
    var s, chunks, steps := SceneOf(m), ChunksOf(m, ops), StepsOf(m, ops);
    RunIsAllowed(m, s, ops);
    R.FieldIsRead(s.d, aux, n, steps);
    SilentRun(m, ops, s, chunks);
    MachinePlaysScene(m, ops);
    SceneTakesSteps(s, chunks);
    GivenIsDelivered(m, ops);
    TrackUnchanged(m.disks.bay, e.disks.bay, s.cells);
  }

  /** A processor that reads port B of the data port between cells is given the first selected mark
      that comes under the head and the `n` cells behind it, in order, and nothing else, up to the byte
      that still waits; OUT2 is high exactly when the last of them has passed; and the medium is as it
      was.  The stretch may be of any length, and cross the index any number of times. */
  lemma {:induction false} MachineReadsField(m: MachineState, aux: Aux, n: nat, ops: seq<Op>, e: MachineState)
    requires ReadsField(m, aux, n, ops) && e == AfterOps(m, ops)
    ensures FieldRead(m, aux, n, ops, e, CellsPassed(m, ops))
  {
    ReadingRun(m, aux, n, ops, e);
    R.FieldIsRead(m.disks.disk, aux, n, StepsOf(m, ops));
  }

  /** The 3214 sees the sources of this machine, with the disk inputs enabled. */
  ghost predicate Sees(r: Requests, e: MachineState) {
    match r
    case Requests(_, _) => WellFormed(r) && r.mask >= 3 && r.inputs == Sources(e)
  }

  lemma {:induction false} SeesDisk(r: Requests, e: MachineState)
    requires Sees(r, e)
    ensures R.Attentive(e.disks.disk, r)
  {
  }

  /** At the end of the field the machine's 3214 gives 00h, the vector of the waiting byte, until the
      processor has read it, and only then 04h, that of the end of the field, or 02h if the timeout has
      come. */
  lemma {:induction false} MachineSeesDataFirst(m: MachineState, aux: Aux, n: nat, ops: seq<Op>, e: MachineState, r: Requests)
    requires ReadsField(m, aux, n, ops) && e == AfterOps(m, ops)
    requires R.FirstMark(aux, CellsPassed(m, ops)) + n < |CellsPassed(m, ops)|
    requires Sees(r, e)
    ensures n <= |BytesRead(m, ops)| <= n + 1
    ensures Vector(r) == if |BytesRead(m, ops)| == n then 0x00 else if e.disks.disk.latches.timeout then 0x02 else 0x04
  {
    ReadingRun(m, aux, n, ops, e);
    SeesDisk(r, e);
    R.DataComesBeforeEnd(m.disks.disk, aux, n, StepsOf(m, ops), e.disks.disk, r);
  }

  // ---------------------------------------------------------------- writing a field

  /** WRE is set and OUT1 has not risen; the head is loaded on a writable medium; and the processor
      has filled port A when the next cell is to be written, at any time since the last one was.
      Beside that it may do what does not interfere, for any time. */
  ghost predicate WritesField(m: MachineState, w: W.Writer, ops: seq<Op>) {
    match m
    case MachineState(disks, _, _, _, _, _) =>
      && Fit(m) && Gentle(m, SceneOf(m), ops) && Writable(disks.bay) && W.Armed(disks.disk, w) && !w.started
      && W.InTime(w, StepsOf(m, ops))
  }

  ghost function FieldOf(m: MachineState, w: W.Writer, ops: seq<Op>): Cells
    requires Fit(m)
  {
    W.Field(w, StepsOf(m, ops))
  }

  /** The track under the head is overlaid with these cells, and nothing else on the medium is
      changed; OUT2 is high once all of the field has been written. */
  predicate FieldWritten(m: MachineState, w: W.Writer, e: MachineState, field: Cells)
    requires Fit(m)
  {
    match e
    case MachineState(_, _, _, _, _, _) =>
      && Fit(e) && TrackOnly(m.disks.bay, e.disks.bay, Overlaid(SceneOf(m).cells, field))
      && |field| <= w.left && (e.disks.disk.EndOfData() <==> |field| == w.left)
  }

  lemma {:induction false} RunIsOverlay(m: MachineState, ops: seq<Op>, field: Cells)
    requires Playable(m, ops) && field == AllWrites(SceneOf(m), ChunksOf(m, ops))
    ensures PlayedBy(m, ops).cells == Overlaid(SceneOf(m).cells, field)
  {
    SceneTurns(SceneOf(m), ChunksOf(m, ops));
  }

  lemma {:induction false} RunHandsOver(m: MachineState, w: W.Writer, ops: seq<Op>, field: Cells)
    requires WritesField(m, w, ops) && field == FieldOf(m, w, ops)
    ensures AllWrites(SceneOf(m), ChunksOf(m, ops)) == field && |field| <= w.left
    ensures PlayedBy(m, ops).d.EndOfData() <==> |field| == w.left
  {
    var s, chunks := SceneOf(m), ChunksOf(m, ops);
    RunIsAllowed(m, s, ops);
    W.FieldIsWritten(s.d, w, StepsOf(m, ops));
    SceneWrites(s, chunks);
    SceneTakesSteps(s, chunks);
  }

  lemma {:induction false} RunIsPlayable(m: MachineState, w: W.Writer, ops: seq<Op>, field: Cells)
    requires WritesField(m, w, ops) && field == AllWrites(SceneOf(m), ChunksOf(m, ops)) && InPlace(SceneOf(m).cells, field)
    ensures Playable(m, ops)
  {
    WritesLand(m.disks.bay, SceneOf(m), ChunksOf(m, ops));
  }

  // ---------------------------------------------------------------- where it lands

  ghost predicate AllAmong(ticks: seq<nat>, places: seq<nat>) {
    forall i :: 0 <= i < |ticks| ==> ticks[i] in places
  }

  lemma {:induction false} PutAmong(w: W.Writer, step: Step, places: seq<nat>)
    requires w.started && AllAmong(Ticks(CellsOf(step)), places)
    ensures AllAmong(Ticks(W.Put(w, step)), places)
  {
    var cells := CellsOf(step);
    if cells != [] {
      assert Ticks(cells)[|cells| - 1] == cells[|cells| - 1].tick;
    }
  }

  lemma {:induction false} AmongParts(a: Cells, b: Cells, places: seq<nat>)
    ensures AllAmong(Ticks(a + b), places) <==> AllAmong(Ticks(a), places) && AllAmong(Ticks(b), places)
  {
    TicksConcat(a, b);
    var ticks := Ticks(a) + Ticks(b);
    assert forall i :: 0 <= i < |a| ==> ticks[i] == Ticks(a)[i];
    assert forall i :: 0 <= i < |b| ==> ticks[|a| + i] == Ticks(b)[i];
  }

  /** Once OUT1 has risen only cells that pass are written. */
  lemma {:induction false} SerialAmong(w: W.Writer, steps: seq<Step>, places: seq<nat>)
    requires w.started && AllAmong(Ticks(CellsIn(steps)), places)
    ensures AllAmong(Ticks(W.Field(w, steps)), places)
    decreases steps
  {
    if steps != [] {
      AmongParts(CellsOf(steps[0]), CellsIn(steps[1..]), places);
      PutAmong(w, steps[0], places);
      SerialAmong(W.Next(w, steps[0]), steps[1..], places);
      AmongParts(W.Put(w, steps[0]), W.Field(W.Next(w, steps[0]), steps[1..]), places);
    }
  }

  lemma {:induction false} LaterAmong(steps: seq<Step>, r: nat, places: seq<nat>)
    requires r <= |steps| && AllAmong(Ticks(CellsIn(steps)), places)
    ensures AllAmong(Ticks(CellsIn(steps[r..])), places)
  {
    assert steps == steps[..r] + steps[r..];
    CellsConcat(steps[..r], steps[r..]);
    AmongParts(CellsIn(steps[..r]), CellsIn(steps[r..]), places);
  }

  /** The first cell to be written is one of these: the one last passed when OUT1 rises. */
  ghost predicate FirstAmong(w: W.Writer, steps: seq<Step>, places: seq<nat>) {
    var r := W.Rise(w, steps);
    r < |steps| ==> W.LastTick(w.tick, steps[..r + 1]) in places
  }

  lemma {:induction false} FieldAmong(w: W.Writer, steps: seq<Step>, places: seq<nat>)
    requires !w.started && FirstAmong(w, steps, places) && AllAmong(Ticks(CellsIn(steps)), places)
    ensures AllAmong(Ticks(W.Field(w, steps)), places)
  {
    var r := W.Rise(w, steps);
    if r == |steps| {
      W.NothingBeforeRise(w, steps);
    } else if w.left > 0 {
      W.FieldInOrder(w, steps, r);
      var v := W.Risen(w, steps, r);
      LaterAmong(steps, r + 1, places);
      SerialAmong(v, steps[r + 1..], places);
      AmongParts(W.Field(w, steps)[..1], W.Field(v, steps[r + 1..]), places);
    } else {
      W.FieldIsCounted(w, steps);
    }
  }

  /** Only cells of the track pass. */
  lemma {:induction false} PassedAmong(m: MachineState, ops: seq<Op>)
    requires Fit(m)
    ensures AllAmong(Ticks(CellsIn(StepsOf(m, ops))), Ticks(SceneOf(m).cells))
  {
    var s, chunks := SceneOf(m), ChunksOf(m, ops);
    RunActsOnly(m, ops);
    SceneStreams(s, chunks);
    var stream := Stream(s, TotalTicks(chunks));
    PassingAmong(s.cells, s.phase, TotalTicks(chunks));
    forall i | 0 <= i < |stream|
      ensures Ticks(stream)[i] in Ticks(s.cells)
    {
      assert stream[i] in s.cells;
      var j :| 0 <= j < |s.cells| && s.cells[j] == stream[i];
      assert Ticks(s.cells)[j] == stream[i].tick;
    }
  }

  lemma {:induction false} AmongIsInPlace(cells: Cells, writes: Cells)
    requires AllAmong(Ticks(writes), Ticks(cells))
    ensures InPlace(cells, writes)
  {
    forall i | 0 <= i < |writes|
      ensures HasTick(cells, writes[i].tick)
    {
      assert Ticks(writes)[i] in Ticks(cells);
      var j :| 0 <= j < |cells| && Ticks(cells)[j] == Ticks(writes)[i];
      assert cells[j].tick == writes[i].tick;
    }
  }

  /** A processor that fills port A between transfers writes exactly the cells of the specification to
      the track, in the places of cells that the track has, and at most as many as counter 2 was loaded
      with.  The first is the cell last passed when OUT1 rises; it must be one of this track. */
  lemma {:induction false} MachineWritesField(m: MachineState, w: W.Writer, ops: seq<Op>, e: MachineState, field: Cells)
    requires WritesField(m, w, ops) && e == AfterOps(m, ops) && field == FieldOf(m, w, ops)
    requires FirstAmong(w, StepsOf(m, ops), Ticks(SceneOf(m).cells))
    ensures InPlace(SceneOf(m).cells, field) && FieldWritten(m, w, e, field)
  {
    PassedAmong(m, ops);
    FieldAmong(w, StepsOf(m, ops), Ticks(SceneOf(m).cells));
    AmongIsInPlace(SceneOf(m).cells, field);
    RunHandsOver(m, w, ops, field);
    RunIsPlayable(m, w, ops, field);
    MachinePlaysScene(m, ops);
    RunIsOverlay(m, ops, field);
  }
}
