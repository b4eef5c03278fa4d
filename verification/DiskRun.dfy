/** Runs of the whole machine beside the disk: time steps, and accesses of the processor that do not
    disturb a transfer.  The machine plays the scene of its selected drive, so what is proved of steps
    of the controller holds of these runs. */
module DiskRuns {
  import opened Bytes
  import opened FloppyTracks
  import opened FloppyDrives
  import opened FloppySubsystems
  import opened DiskController
  import opened DiskSteps
  import opened Scenes
  import opened MachineTime
  import opened MachineModel
  import Ppi = Ppi8255
  import Pit = Pit8253

  // ---------------------------------------------------------------- the wires always hold

  /** The selected drive is the one that port C of the data 8255 selects. */
  predicate SelectionHolds(m: MachineState)
    requires Fit(m)
  {
    Selecting(m.disks.bay, SelectionPins(m.disks.disk.data)) == m.disks.bay
  }

  /** The cable carries what port C of the control 8255 says. */
  predicate CableHolds(m: MachineState)
    requires Fit(m)
  {
    Controlled(m.disks.bay, m.disks.control.ports.outC, !m.disks.control.b.lowerInput) == m.disks.bay
  }

  /** The disk timing is what port A of the control 8255 says. */
  predicate TimingHolds(m: MachineState) {
    m.disks.disk.latches.timing == TimingOf(m.disks.control)
  }

  predicate WiresHold(m: MachineState) {
    match m
    case MachineState(_, _, _, _, _, _) => Fit(m) && SelectionHolds(m) && CableHolds(m) && TimingHolds(m)
  }

  /** Port C of the data 8255 is as it was. */
  predicate SamePins(s: Ppi.PpiState, t: Ppi.PpiState) {
    t.ports.outC == s.ports.outC && t.a.upperInput == s.a.upperInput
  }

  /** The control 8255 drives the same lines. */
  predicate SameOutputs(s: Ppi.PpiState, t: Ppi.PpiState) {
    && t.ports.outC == s.ports.outC && t.ports.outA == s.ports.outA && t.b.lowerInput == s.b.lowerInput
    && t.a.input == s.a.input && t.a.mode == s.a.mode
  }

  lemma {:induction false} RefreshKeepsData(d: Disk)
    ensures Refreshed(d).data == d.data && Refreshed(d).latches.timing == d.latches.timing
  {
  }

  lemma {:induction false} PulsesKeepPins(s: Ppi.PpiState, value: byte)
    ensures SamePins(s, Ppi.PulseAckA(s)) && SamePins(s, Ppi.PulseStrobeB(s, value))
  {
  }

  lemma {:induction false} TransferKeepsPins(d: Disk, controlA: byte, tick: nat)
    ensures SamePins(d.data, Transferred(d, controlA, tick).data)
  {
    PulsesKeepPins(d.data, 0);
    RefreshKeepsData(d.(pending := d.pending + [Outgoing(d, controlA, tick)], data := Ppi.PulseAckA(d.data)));
  }

  lemma {:induction false} SeenKeepsPins(d: Disk, cell: TimedFmByte)
    ensures SamePins(d.data, Seen(d, cell).data)
  {
    PulsesKeepPins(d.data, cell.data);
    var e := if d.latches.sync then d else Synchronized(d);
    RefreshKeepsData(e.(data := Ppi.PulseStrobeB(e.data, cell.data)));
  }

  lemma {:induction false} PassedKeepsPins(d: Disk, controlA: byte, cell: TimedFmByte)
    ensures SamePins(d.data, Passed(d, controlA, cell).data)
  {
    var e := DiskController.Armed(At(d, cell), cell);
    TransferKeepsPins(e, controlA, cell.tick);
    SeenKeepsPins(e, cell);
    SeenKeepsPins(Transferred(e, controlA, cell.tick), Outgoing(e, controlA, cell.tick));
    var f := At(d, cell).(aux := AUX_CLEAR,
                          latches := d.latches.(sync := false, ordinary := false, format := false));
    RefreshKeepsData(Gate1(f, false));
  }

  lemma {:induction false} CellsKeepPins(d: Disk, controlA: byte, cells: Cells)
    ensures SamePins(d.data, AllPassed(d, controlA, cells).data)
    decreases cells
  {
    if cells != [] {
      CellsKeepPins(d, controlA, cells[..|cells| - 1]);
      PassedKeepsPins(AllPassed(d, controlA, cells[..|cells| - 1]), controlA, cells[|cells| - 1]);
    }
  }

  lemma {:induction false} TimeKeepsPins(d: Disk, controlA: byte, cells: Cells, clocks: nat)
    ensures SamePins(d.data, After(d, TimePasses(controlA, cells, clocks)).data)
  {
    CellsKeepPins(d, controlA, cells);
    var e := AllPassed(d, controlA, cells);
    var rises := Pit.RisingEdges(e.one.element, clocks) != 0;
    var f := TimedOut(ClockedOne(e, clocks), rises);
    TransferKeepsPins(f.(latches := f.latches.(ordinary := true)), controlA, f.detector.lastTick);
    RefreshKeepsData(Flushed(Elapsed(d, controlA, cells, clocks)));
  }

  lemma {:induction false} ReadKeepsPins(s: Ppi.PpiState, register: byte)
    ensures SamePins(s, Ppi.AfterRead(s, register)) && SameOutputs(s, Ppi.AfterRead(s, register))
  {
  }

  lemma {:induction false} ControlledTwice(b: Bay, output: byte, lowerEnabled: bool)
    requires BayOk(b)
    ensures Controlled(Controlled(b, output, lowerEnabled), output, lowerEnabled) == Controlled(b, output, lowerEnabled)
  {
  }

  lemma {:induction false} WriteKeepsWires(m: MachineState, port: nat, value: byte)
    requires WiresHold(m)
    ensures WiresHold(WriteDispatched(m, port, value))
  {
    match port / 16 % 8
    case 6 =>
      var control := Ppi.Written(m.disks.control, port % 256, value);
      ControlledTwice(m.disks.bay, control.ports.outC, !control.b.lowerInput);
    case _ =>
  }

  lemma {:induction false} ReadKeepsWires(m: MachineState, port: nat)
    requires WiresHold(m)
    ensures WiresHold(ReadDispatched(m, port))
  {
    ReadKeepsPins(m.disks.disk.data, port % 256);
    ReadKeepsPins(WithStatus(m.disks.control, m.disks.bay), port % 256);
  }

  lemma {:induction false} SettlingKeepsWires(m: MachineState)
    requires WiresHold(m)
    ensures WiresHold(Settled(m))
  {
    RefreshKeepsData(m.disks.disk);
  }

  lemma {:induction false} AccessKeepsWires(m: MachineState, a: Access)
    requires WiresHold(m)
    ensures WiresHold(Accessed(m, a))
  {
    if a.output {
      WriteKeepsWires(m, a.port, a.value);
      SettlingKeepsWires(WriteDispatched(m, a.port, a.value));
    } else {
      ReadKeepsWires(m, a.port);
      SettlingKeepsWires(ReadDispatched(m, a.port));
    }
  }

  lemma {:induction false} StoringKeepsCable(b: Bay, writes: Cells)
    requires BayOk(b)
    ensures StoredAll(b, writes).selected == b.selected && StoredAll(b, writes).cable == b.cable
    decreases writes
  {
    if writes != [] {
      StoringKeepsCable(b, writes[..|writes| - 1]);
    }
  }

  /** The same cable and selection on another bay. */
  lemma {:induction false} SameCable(b: Bay, c: Bay, output: byte, lowerEnabled: bool, pins: byte)
    requires BayOk(b) && BayOk(c) && c.selected == b.selected && c.cable == b.cable
    requires Controlled(b, output, lowerEnabled) == b && Selecting(b, pins) == b
    ensures Controlled(c, output, lowerEnabled) == c && Selecting(c, pins) == c
  {
  }

  lemma {:induction false} TimeKeepsWires(m: MachineState, cycles: nat)
    requires Sound(m) && WiresHold(m)
    ensures WiresHold(TimePassed(m, cycles))
  {
    var ticks, outA := cycles * TICKS_PER_CYCLE, m.disks.control.ports.outA;
    var visited, clocks := Visited(Selected(m.disks.bay), ticks), TimerClocks(m.clock, cycles);
    TimeIsStep(m, cycles);
    TimeKeepsPins(m.disks.disk, outA, visited, clocks);
    ElapsedSettles(m.disks.disk, outA, visited, clocks);
    StoringKeepsCable(Spun(m.disks.bay, ticks), Elapsed(m.disks.disk, outA, visited, clocks).pending);
    SameCable(m.disks.bay, TimePassed(m, cycles).disks.bay, m.disks.control.ports.outC, !m.disks.control.b.lowerInput,
              SelectionPins(m.disks.disk.data));
  }

  lemma {:induction false} OpKeepsWires(m: MachineState, op: Op, n: MachineState)
    requires Sound(m) && WiresHold(m) && n == AfterOp(m, op)
    ensures Sound(n) && WiresHold(n)
  {
    OpKeeps(m, op);
    match op
    case Pass(cycles) =>
      PassTakesTime(m, cycles);
      TimeKeepsWires(m, cycles);
    case Perform(a) =>
      AccessIsPerformed(m, a);
      AccessKeepsWires(m, a);
  }

  lemma {:induction false} PowerUpWires()
    ensures Sound(POWER_UP) && WiresHold(POWER_UP)
  {
    ResetIsConsistent();
  }

  /** From power-up on, whatever the processor does, the drive, the cable and the timing follow the
      ports. */
  lemma {:induction false} WiresStay(m: MachineState, ops: seq<Op>)
    requires Sound(m) && WiresHold(m)
    ensures Sound(AfterOps(m, ops)) && WiresHold(AfterOps(m, ops))
    decreases ops
  {
    if ops != [] {
      var n := AfterOp(m, ops[0]);
      OpKeepsWires(m, ops[0], n);
      FirstOp(m, ops, n);
      WiresStay(n, ops[1..]);
    } else {
      NoOps(m, ops);
    }
  }

  // ---------------------------------------------------------------- calm accesses

  /** An access that disturbs no transfer: all reads; every write to the printer, keyboard, serial, mask
      and video ports and to the memory map; writes to ports A and B of the data 8255; counter 0; the
      scroll register, and port A of the control port with the disk timing left on. */
  predicate CalmAccess(a: Access) {
    var register: byte := a.port % 256;
    match a.port / 16 % 8
    case 1 => !a.output || SparesCounters(register, a.value)
    case 2 => !a.output || register % 4 <= 1
    case 5 => !a.output
    case 6 => !a.output || register % 4 == 1 || (register % 4 == 0 && !HasBit(a.value, 0x40))
    case _ => true
  }

  predicate CalmRun(ops: seq<Op>) {
    forall k :: 0 <= k < |ops| && ops[k].Perform? ==> CalmAccess(ops[k].access)
  }

  /** The disk timing is on, a disk is in the selected drive, and the wires hold. */
  predicate Steady(m: MachineState) {
    match m
    case MachineState(disks, _, _, _, _, _) =>
      Sound(m) && WiresHold(m) && disks.disk.latches.timing && Selected(disks.bay).image.Some?
  }

  function SceneOf(m: MachineState): (s: Scene)
    requires Fit(m)
    ensures OnTrack(s)
  {
    SceneIn(m.disks.disk, m.disks.bay)
  }

  function AccessStep(m: MachineState, a: Access): Step {
    if a.output then WriteStep(m, a.port, a.value) else ReadStep(m, a.port)
  }

  /** What an operation is for the scene. */
  function ChunkOf(m: MachineState, op: Op): Chunk {
    match op
    case Pass(cycles) => Turns(cycles * TICKS_PER_CYCLE, m.disks.control.ports.outA, TimerClocks(m.clock, cycles))
    case Perform(a) => Acts(AccessStep(m, a))
  }

  ghost function ChunksOf(m: MachineState, ops: seq<Op>): seq<Chunk>
    requires Fit(m)
    decreases ops
  {
    if ops == [] then [] else [ChunkOf(m, ops[0])] + ChunksOf(AfterOp(m, ops[0]), ops[1..])
  }

  /** Switching the clock patterns leaves the timing on. */
  lemma {:induction false} TimingStaysOn(m: MachineState, register: byte, value: byte)
    requires TimingOf(m.disks.control)
    requires register % 4 == 1 || (register % 4 == 0 && !HasBit(value, 0x40))
    ensures TimingOf(Ppi.Written(m.disks.control, register, value))
    ensures Ppi.Written(m.disks.control, register, value).ports.outC == m.disks.control.ports.outC
    ensures Ppi.Written(m.disks.control, register, value).b.lowerInput == m.disks.control.b.lowerInput
  {
  }

  lemma {:induction false} CalmIsCalm(m: MachineState, a: Access)
    requires Steady(m) && CalmAccess(a)
    ensures Calm(AccessStep(m, a))
  {
    if a.output && a.port / 16 % 8 == 6 {
      TimingStaysOn(m, a.port % 256, a.value);
    }
  }

  lemma {:induction false} FillKeepsPins(s: Ppi.PpiState, register: byte, value: byte)
    requires register % 4 <= 1
    ensures SamePins(s, Ppi.Written(s, register, value))
  {
  }

  /** A calm access does not touch the drives. */
  lemma {:induction false} CalmKeepsBay(m: MachineState, a: Access)
    requires Steady(m) && CalmAccess(a)
    ensures Accessed(m, a).disks.bay == m.disks.bay
  {
    var register: byte := a.port % 256;
    if a.output && a.port / 16 % 8 == 6 {
      TimingStaysOn(m, register, a.value);
    } else if a.output && a.port / 16 % 8 == 2 {
      FillKeepsPins(m.disks.disk.data, register, a.value);
    }
  }

  lemma {:induction false} AccessTakesStep(m: MachineState, a: Access)
    requires Sound(m)
    ensures Accessed(m, a).disks.disk == After(m.disks.disk, AccessStep(m, a))
  {
    if a.output {
      WriteIsStep(m, a.port, a.value);
    } else {
      ReadIsStep(m, a.port);
    }
  }

  // ---------------------------------------------------------------- one operation

  /** From bay to bay only the track under the head has changed. */
  predicate TrackOnly(b: Bay, c: Bay, cells: Cells)
    requires BayOk(b) && BayOk(c)
  {
    && c.selected == b.selected && c.cable == b.cable && Selected(c).head == Selected(b).head
    && Selected(b).image.Some? && Selected(c).image.Some? && Selected(c).access == Selected(b).access
    && Selected(c).image.value == Selected(b).image.value[Selected(b).head := cells]
  }

  lemma {:induction false} TrackOnlyTwice(b: Bay, c: Bay, d: Bay, cells: Cells, cells': Cells)
    requires BayOk(b) && BayOk(c) && BayOk(d) && TrackOnly(b, c, cells) && TrackOnly(c, d, cells')
    ensures TrackOnly(b, d, cells')
  {
    var image, h := Selected(b).image.value, Selected(b).head;
    assert image[h := cells][h := cells'] == image[h := cells'];
  }

  lemma {:induction false} SameBay(b: Bay)
    requires BayOk(b) && Selected(b).image.Some?
    ensures TrackOnly(b, b, UnderHead(Selected(b)))
  {
    var image, h := Selected(b).image.value, Selected(b).head;
    assert image[h := image[h]] == image;
  }

  /** From `m` to `n` this chunk has been played. */
  predicate Follows(m: MachineState, n: MachineState, chunk: Chunk)
    requires Fit(m)
  {
    match n
    case MachineState(_, _, _, _, _, _) =>
      Fit(n) && SceneOf(n) == Played(SceneOf(m), chunk) && TrackOnly(m.disks.bay, n.disks.bay, SceneOf(n).cells)
  }

  /** What is written by a chunk reaches places the track has, or nothing is. */
  predicate ChunkLands(b: Bay, s: Scene, chunk: Chunk)
    requires BayOk(b) && OnTrack(s)
  {
    Lands(b, s.cells, WritesOf(s, chunk))
  }

  lemma {:induction false} StoringIsTrackOnly(b: Bay, ticks: nat, writes: Cells)
    requires BayOk(b) && Selected(b).image.Some? && Lands(b, UnderHead(Selected(b)), writes)
    ensures Spaced(Overlaid(UnderHead(Selected(b)), writes))
    ensures TrackOnly(b, StoredAll(Spun(b, ticks), writes), Overlaid(UnderHead(Selected(b)), writes))
  {
    var cells := UnderHead(Selected(b));
    OverlaidKeepsTiming(cells, writes);
    SpunKeeps(b, ticks);
    if writes == [] {
      NothingLands(Spun(b, ticks), writes);
      OverlaidByNothing(cells, writes);
      SameBay(b);
    } else {
      StoredInPlace(Spun(b, ticks), writes);
    }
  }

  lemma {:induction false} PassFollows(m: MachineState, cycles: nat, chunk: Chunk)
    requires Steady(m) && chunk == ChunkOf(m, Pass(cycles)) && ChunkLands(m.disks.bay, SceneOf(m), chunk)
    ensures Follows(m, TimePassed(m, cycles), chunk)
  {
    TimeIsStep(m, cycles);
    BayPlaysScene(m.disks.disk, m.disks.bay, chunk);
    StoringIsTrackOnly(m.disks.bay, chunk.ticks, WritesOf(SceneOf(m), chunk));
  }

  lemma {:induction false} ActStandsStill(s: Scene, step: Step)
    requires OnTrack(s) && !step.TimePasses?
    ensures Played(s, Acts(step)) == s.(d := After(s.d, step))
  {
    OverlaidByNothing(s.cells, WritesOf(s, Acts(step)));
  }

  lemma {:induction false} AccessFollows(m: MachineState, a: Access)
    requires Steady(m) && CalmAccess(a)
    ensures Follows(m, Accessed(m, a), ChunkOf(m, Perform(a)))
  {
    AccessTakesStep(m, a);
    CalmKeepsBay(m, a);
    ActStandsStill(SceneOf(m), AccessStep(m, a));
    SameBay(m.disks.bay);
  }

  lemma {:induction false} TimeKeepsTiming(m: MachineState, cycles: nat)
    requires Sound(m)
    ensures TimePassed(m, cycles).disks.disk.latches.timing == m.disks.disk.latches.timing
  {
    TimeIsStep(m, cycles);
    ElapsedSettles(m.disks.disk, m.disks.control.ports.outA, Visited(Selected(m.disks.bay), cycles * TICKS_PER_CYCLE),
                   TimerClocks(m.clock, cycles));
  }

  lemma {:induction false} AccessKeepsTiming(m: MachineState, a: Access)
    requires Steady(m) && CalmAccess(a)
    ensures Accessed(m, a).disks.disk.latches.timing
  {
    AccessTakesStep(m, a);
    CalmIsCalm(m, a);
    CalmKeepsTiming(m.disks.disk, AccessStep(m, a));
  }

  lemma {:induction false} CalmKeepsTiming(d: Disk, step: Step)
    requires Consistent(d) && d.latches.timing && Calm(step)
    ensures After(d, step).latches.timing
  {
    match step
    case DataRead(register) => RefreshKeepsData(d.(data := Ppi.AfterRead(d.data, register)));
    case DataWrite(register, value) => RefreshKeepsData(d.(data := Ppi.Written(d.data, register, value)));
    case _ => BystanderStands(d, step);
  }

  lemma {:induction false} StoringKeepsImage(b: Bay, writes: Cells)
    requires BayOk(b)
    ensures Selected(StoredAll(b, writes)).image.Some? <==> Selected(b).image.Some?
    decreases writes
  {
    if writes != [] {
      StoringKeepsImage(b, writes[..|writes| - 1]);
    }
  }

  lemma {:induction false} TimeKeepsImage(m: MachineState, cycles: nat)
    requires Sound(m)
    ensures Selected(TimePassed(m, cycles).disks.bay).image.Some? <==> Selected(m.disks.bay).image.Some?
  {
    var ticks, outA := cycles * TICKS_PER_CYCLE, m.disks.control.ports.outA;
    TimeIsStep(m, cycles);
    SpunKeeps(m.disks.bay, ticks);
    StoringKeepsImage(Spun(m.disks.bay, ticks),
                      Elapsed(m.disks.disk, outA, Visited(Selected(m.disks.bay), ticks), TimerClocks(m.clock, cycles)).pending);
  }

  lemma {:induction false} OpKeepsSteady(m: MachineState, op: Op, n: MachineState)
    requires Steady(m) && n == AfterOp(m, op) && (op.Perform? ==> CalmAccess(op.access))
    ensures Steady(n)
  {
    OpKeepsWires(m, op, n);
    match op
    case Pass(cycles) =>
      PassTakesTime(m, cycles);
      TimeKeepsTiming(m, cycles);
      TimeKeepsImage(m, cycles);
    case Perform(a) =>
      AccessIsPerformed(m, a);
      AccessKeepsTiming(m, a);
      CalmKeepsBay(m, a);
  }

  lemma {:induction false} OpFollows(m: MachineState, op: Op, n: MachineState)
    requires Steady(m) && n == AfterOp(m, op) && (op.Perform? ==> CalmAccess(op.access))
    requires ChunkLands(m.disks.bay, SceneOf(m), ChunkOf(m, op))
    ensures Follows(m, n, ChunkOf(m, op)) && Steady(n)
  {
    OpKeepsSteady(m, op, n);
    match op
    case Pass(cycles) =>
      PassTakesTime(m, cycles);
      PassFollows(m, cycles, ChunkOf(m, op));
    case Perform(a) =>
      AccessIsPerformed(m, a);
      AccessFollows(m, a);
  }

  // ---------------------------------------------------------------- whole runs

  ghost predicate AllLand(b: Bay, s: Scene, chunks: seq<Chunk>)
    requires BayOk(b) && OnTrack(s)
    decreases chunks
  {
    chunks == [] || (ChunkLands(b, s, chunks[0]) && AllLand(b, Played(s, chunks[0]), chunks[1..]))
  }

  /** The run as a scene. */
  ghost function PlayedBy(m: MachineState, ops: seq<Op>): Scene
    requires Fit(m)
  {
    PlayedAll(SceneOf(m), ChunksOf(m, ops))
  }

  ghost predicate RunLands(m: MachineState, ops: seq<Op>)
    requires Fit(m)
  {
    AllLand(m.disks.bay, SceneOf(m), ChunksOf(m, ops))
  }

  lemma {:induction false} FirstOfRun(m: MachineState, ops: seq<Op>, n: MachineState)
    requires Fit(m) && ops != [] && n == AfterOp(m, ops[0])
    ensures ChunksOf(m, ops) == [ChunkOf(m, ops[0])] + ChunksOf(n, ops[1..])
  {
  }

  lemma {:induction false} FirstLands(m: MachineState, ops: seq<Op>)
    requires Fit(m) && ops != [] && RunLands(m, ops)
    ensures ChunkLands(m.disks.bay, SceneOf(m), ChunkOf(m, ops[0]))
  {
    FirstOfRun(m, ops, AfterOp(m, ops[0]));
  }

  lemma {:induction false} StillLands(b: Bay, c: Bay, s: Scene, chunks: seq<Chunk>)
    requires BayOk(b) && BayOk(c) && OnTrack(s) && AllLand(b, s, chunks) && (Writable(b) ==> Writable(c))
    ensures AllLand(c, s, chunks)
    decreases chunks
  {
    if chunks != [] {
      StillLands(b, c, Played(s, chunks[0]), chunks[1..]);
    }
  }

  lemma {:induction false} RestLands(m: MachineState, ops: seq<Op>, n: MachineState)
    requires Fit(m) && ops != [] && RunLands(m, ops) && n == AfterOp(m, ops[0]) && Follows(m, n, ChunkOf(m, ops[0]))
    ensures RunLands(n, ops[1..]) && PlayedBy(m, ops) == PlayedBy(n, ops[1..])
  {
    FirstOfRun(m, ops, n);
    assert ChunksOf(m, ops)[0] == ChunkOf(m, ops[0]) && ChunksOf(m, ops)[1..] == ChunksOf(n, ops[1..]);
    StillLands(m.disks.bay, n.disks.bay, SceneOf(n), ChunksOf(n, ops[1..]));
  }

  lemma {:induction false} InPlaceOf(a: Cells, b: Cells, writes: Cells)
    requires SameTiming(a, b) && InPlace(a, writes)
    ensures InPlace(b, writes)
  {
    forall w | 0 <= w < |writes|
      ensures HasTick(b, writes[w].tick)
    {
      var i :| 0 <= i < |a| && a[i].tick == writes[w].tick;
      assert b[i].tick == a[i].tick;
    }
  }

  lemma {:induction false} InPlaceParts(cells: Cells, a: Cells, b: Cells)
    requires InPlace(cells, a + b)
    ensures InPlace(cells, a) && InPlace(cells, b)
  {
    assert forall w :: 0 <= w < |b| ==> (a + b)[|a| + w] == b[w];
    assert forall w :: 0 <= w < |a| ==> (a + b)[w] == a[w];
  }

  /** Writes to places the track has, whenever they come, land. */
  lemma {:induction false} WritesLand(b: Bay, s: Scene, chunks: seq<Chunk>)
    requires BayOk(b) && OnTrack(s) && Writable(b) && InPlace(s.cells, AllWrites(s, chunks))
    ensures AllLand(b, s, chunks)
    decreases chunks
  {
    if chunks != [] {
      var t := Played(s, chunks[0]);
      FirstChunk(s, chunks, t);
      InPlaceParts(s.cells, WritesOf(s, chunks[0]), AllWrites(t, chunks[1..]));
      InPlaceOf(s.cells, t.cells, AllWrites(t, chunks[1..]));
      WritesLand(b, t, chunks[1..]);
    }
  }

  /** Where nothing is written, nothing needs to land. */
  lemma {:induction false} SilenceLands(b: Bay, s: Scene, chunks: seq<Chunk>)
    requires BayOk(b) && OnTrack(s) && AllWrites(s, chunks) == []
    ensures AllLand(b, s, chunks)
    decreases chunks
  {
    if chunks != [] {
      SilenceLands(b, Played(s, chunks[0]), chunks[1..]);
    }
  }

  /** From `m` to `n` a scene has been played to its end `s`, and nothing else on the medium has
      changed. */
  predicate PlayedTo(m: MachineState, n: MachineState, s: Scene)
    requires Fit(m)
  {
    match n
    case MachineState(_, _, _, _, _, _) => Steady(n) && SceneOf(n) == s && TrackOnly(m.disks.bay, n.disks.bay, s.cells)
  }

  lemma {:induction false} NothingPlayed(m: MachineState, none: seq<Op>)
    requires Steady(m) && none == []
    ensures PlayedTo(m, AfterOps(m, none), PlayedBy(m, none))
  {
    NoOps(m, none);
    SameBay(m.disks.bay);
  }

  lemma {:induction false} PlayedOn(m: MachineState, n: MachineState, chunk: Chunk, last: MachineState, s: Scene)
    requires Fit(m) && Follows(m, n, chunk) && PlayedTo(n, last, s)
    ensures PlayedTo(m, last, s)
  {
    TrackOnlyTwice(m.disks.bay, n.disks.bay, last.disks.bay, SceneOf(n).cells, s.cells);
  }

  /** `m` is ready to play these operations. */
  ghost predicate Playable(m: MachineState, ops: seq<Op>) {
    match m
    case MachineState(_, _, _, _, _, _) => Steady(m) && CalmRun(ops) && RunLands(m, ops)
  }

  lemma {:induction false} FirstPlayed(m: MachineState, ops: seq<Op>, n: MachineState)
    requires Playable(m, ops) && ops != [] && n == AfterOp(m, ops[0])
    ensures Follows(m, n, ChunkOf(m, ops[0])) && Playable(n, ops[1..]) && PlayedBy(m, ops) == PlayedBy(n, ops[1..])
  {
    FirstLands(m, ops);
    OpFollows(m, ops[0], n);
    RestLands(m, ops, n);
  }

  /** The machine plays the scene of the selected drive, operation by operation. */
  lemma {:induction false} MachinePlaysScene(m: MachineState, ops: seq<Op>)
    requires Playable(m, ops)
    ensures PlayedTo(m, AfterOps(m, ops), PlayedBy(m, ops))
    decreases ops
  {
    if ops != [] {
      var n := AfterOp(m, ops[0]);
      FirstOp(m, ops, n);
      FirstPlayed(m, ops, n);
      MachinePlaysScene(n, ops[1..]);
      PlayedOn(m, n, ChunkOf(m, ops[0]), AfterOps(n, ops[1..]), PlayedBy(n, ops[1..]));
    } else {
      NothingPlayed(m, ops);
    }
  }

  lemma {:induction false} RunTakesTime(m: MachineState, ops: seq<Op>)
    requires Fit(m)
    ensures TotalTicks(ChunksOf(m, ops)) == CyclesIn(ops) * TICKS_PER_CYCLE
    decreases ops
  {
    if ops != [] {
      RunTakesTime(AfterOp(m, ops[0]), ops[1..]);
    }
  }

  lemma {:induction false} RunActsOnly(m: MachineState, ops: seq<Op>)
    requires Fit(m)
    ensures AllActOnly(ChunksOf(m, ops))
    decreases ops
  {
    if ops != [] {
      var n := AfterOp(m, ops[0]);
      RunActsOnly(n, ops[1..]);
      FirstOfRun(m, ops, n);
      assert ActsOnly(ChunkOf(m, ops[0]));
    }
  }

  // ---------------------------------------------------------------- at most one cell at a time

  const CYCLES_PER_CELL: nat := 128

  /** No time step is longer than a cell. */
  predicate ShortSteps(ops: seq<Op>) {
    forall k :: 0 <= k < |ops| && ops[k].Pass? ==> ops[k].cycles <= CYCLES_PER_CELL
  }

  /** Two cells are at least a cell apart, either way round. */
  lemma {:induction false} CellsApart(cells: Cells, i: nat, j: nat)
    requires Spaced(cells) && i < j < |cells|
    ensures BYTE_TICKS <= cells[j].tick - cells[i].tick <= REVOLUTION_TICKS - BYTE_TICKS
  {
    assert CircularDistance(cells[i].tick, cells[j].tick) >= BYTE_TICKS;
  }

  lemma {:induction false} OneInInterval(cells: Cells, from: nat, to: nat)
    requires Spaced(cells) && from <= to <= from + BYTE_TICKS
    ensures |Between(cells, from, to)| <= 1
  {
    var first, end := Before(cells, from), Before(cells, to);
    BeforeIsLowerBound(cells, from);
    BeforeIsLowerBound(cells, to);
    BeforeMonotone(cells, from, to);
    if first + 1 < end {
      CellsApart(cells, first, first + 1);
    }
  }

  lemma {:induction false} OneAcrossIndex(cells: Cells, phase: nat, rest: nat, revolution: nat)
    requires Spaced(cells) && phase < revolution == REVOLUTION_TICKS && revolution - phase + rest <= BYTE_TICKS
    ensures |Between(cells, phase, revolution)| + |Between(cells, 0, rest)| <= 1
  {
    OneInInterval(cells, phase, revolution);
    OneInInterval(cells, 0, rest);
    BeforeIsLowerBound(cells, phase);
    BeforeIsLowerBound(cells, 0);
    BeforeIsLowerBound(cells, rest);
    BeforeIsLowerBound(cells, revolution);
    BeforeMonotone(cells, phase, revolution);
    BeforeMonotone(cells, 0, rest);
    var i, j := Before(cells, phase), Before(cells, 0);
    if j < i < |cells| {
      CellsApart(cells, j, i);
    }
  }

  lemma {:induction false} OnePasses(cells: Cells, phase: nat, ticks: nat, revolution: nat)
    requires Spaced(cells) && phase < revolution == REVOLUTION_TICKS && ticks <= BYTE_TICKS
    ensures |Passing(cells, phase, ticks)| <= 1
  {
    if phase + ticks <= revolution {
      PassingInterval(cells, phase, ticks);
      OneInInterval(cells, phase, phase + ticks);
    } else {
      var rest := phase + ticks - revolution;
      PassingConcat(cells, phase, revolution - phase, rest);
      assert FloppyDrives.Advanced(phase, revolution - phase) == 0;
      PassingInterval(cells, phase, revolution - phase);
      PassingInterval(cells, 0, rest);
      OneAcrossIndex(cells, phase, rest, revolution);
    }
  }

  lemma {:induction false} ChunkIsAllowed(m: MachineState, s: Scene, op: Op)
    requires Steady(m) && OnTrack(s)
    requires if op.Pass? then op.cycles <= CYCLES_PER_CELL else CalmAccess(op.access)
    ensures Allowed(StepIn(s, ChunkOf(m, op)))
  {
    match op
    case Pass(cycles) => OnePasses(s.cells, s.phase, cycles * TICKS_PER_CYCLE, REVOLUTION_TICKS);
    case Perform(a) => CalmIsCalm(m, a);
  }

  lemma {:induction false} FirstStepOfRun(m: MachineState, s: Scene, ops: seq<Op>, n: MachineState, t: Scene)
    requires Fit(m) && OnTrack(s) && ops != [] && n == AfterOp(m, ops[0]) && t == Played(s, ChunkOf(m, ops[0]))
    ensures StepsIn(s, ChunksOf(m, ops)) == [StepIn(s, ChunkOf(m, ops[0]))] + StepsIn(t, ChunksOf(n, ops[1..]))
  {
    FirstOfRun(m, ops, n);
    assert ChunksOf(m, ops)[1..] == ChunksOf(n, ops[1..]);
    FirstChunk(s, ChunksOf(m, ops), t);
  }

  lemma {:induction false} OneMoreAllowed(first: Step, rest: seq<Step>)
    requires Allowed(first) && AllAllowed(rest)
    ensures AllAllowed([first] + rest)
  {
  }

  /** Calm accesses and short time steps from here on. */
  predicate Gentle(m: MachineState, s: Scene, ops: seq<Op>) {
    match m
    case MachineState(_, _, _, _, _, _) => Steady(m) && OnTrack(s) && CalmRun(ops) && ShortSteps(ops)
  }

  /** The steps of a run are such as the field lemmas allow. */
  ghost predicate RunAllowed(m: MachineState, s: Scene, ops: seq<Op>) {
    match m
    case MachineState(_, _, _, _, _, _) => Fit(m) && OnTrack(s) && AllAllowed(StepsIn(s, ChunksOf(m, ops)))
  }

  lemma {:induction false} StillGentle(m: MachineState, s: Scene, ops: seq<Op>, n: MachineState, t: Scene)
    requires Gentle(m, s, ops) && ops != [] && n == AfterOp(m, ops[0]) && t == Played(s, ChunkOf(m, ops[0]))
    ensures Gentle(n, t, ops[1..])
  {
    OpKeepsSteady(m, ops[0], n);
  }

  lemma {:induction false} RunStillAllowed(m: MachineState, s: Scene, ops: seq<Op>, n: MachineState, t: Scene)
    requires Gentle(m, s, ops) && ops != [] && n == AfterOp(m, ops[0]) && t == Played(s, ChunkOf(m, ops[0]))
    requires RunAllowed(n, t, ops[1..])
    ensures RunAllowed(m, s, ops)
  {
    ChunkIsAllowed(m, s, ops[0]);
    FirstStepOfRun(m, s, ops, n, t);
    OneMoreAllowed(StepIn(s, ChunkOf(m, ops[0])), StepsIn(t, ChunksOf(n, ops[1..])));
  }

  /** Calm accesses and short time steps make such steps. */
  lemma {:induction false} RunIsAllowed(m: MachineState, s: Scene, ops: seq<Op>)
    requires Gentle(m, s, ops)
    ensures RunAllowed(m, s, ops)
    decreases ops
  {
    if ops != [] {
      var n, t := AfterOp(m, ops[0]), Played(s, ChunkOf(m, ops[0]));
      StillGentle(m, s, ops, n, t);
      RunIsAllowed(n, t, ops[1..]);
      RunStillAllowed(m, s, ops, n, t);
    }
  }
}
