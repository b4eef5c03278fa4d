/** Formatting on the whole machine: whatever the processor does beside it that does not interfere,
    exactly one revolution of the track in the bay is overwritten. */
module FormatRuns {
  import opened Bytes
  import opened FloppyTracks
  import opened FloppyDrives
  import opened FloppySubsystems
  import opened DiskController
  import opened DiskSteps
  import opened Scenes
  import opened FormatTrack
  import opened MachineTime
  import opened MachineModel
  import opened DiskRuns

  /** The processor does not interfere from here on. */
  predicate Undisturbed(m: MachineState, ops: seq<Op>) {
    match m
    case MachineState(_, _, _, _, _, _) => Steady(m) && CalmRun(ops)
  }

  ghost predicate RunIsCalm(m: MachineState, ops: seq<Op>) {
    match m
    case MachineState(_, _, _, _, _, _) => Fit(m) && AllCalm(ChunksOf(m, ops))
  }

  lemma {:induction false} StillUndisturbed(m: MachineState, ops: seq<Op>, n: MachineState)
    requires Undisturbed(m, ops) && ops != [] && n == AfterOp(m, ops[0])
    ensures Undisturbed(n, ops[1..])
  {
    OpKeepsSteady(m, ops[0], n);
  }

  lemma {:induction false} ChunkIsCalm(m: MachineState, op: Op, chunk: Chunk)
    requires Steady(m) && chunk == ChunkOf(m, op) && (op.Perform? ==> CalmAccess(op.access))
    ensures chunk.Acts? ==> Calm(chunk.step)
  {
    if op.Perform? {
      CalmIsCalm(m, op.access);
    }
  }

  lemma {:induction false} CalmFirst(first: Chunk, rest: seq<Chunk>)
    requires (first.Acts? ==> Calm(first.step)) && AllCalm(rest)
    ensures AllCalm([first] + rest)
  {
  }

  lemma {:induction false} OneMoreCalm(m: MachineState, ops: seq<Op>, n: MachineState)
    requires Undisturbed(m, ops) && ops != [] && n == AfterOp(m, ops[0]) && RunIsCalm(n, ops[1..])
    ensures RunIsCalm(m, ops)
  {
    FirstOfRun(m, ops, n);
    ChunkIsCalm(m, ops[0], ChunkOf(m, ops[0]));
    CalmFirst(ChunkOf(m, ops[0]), ChunksOf(n, ops[1..]));
  }

  lemma {:induction false} CalmRunIsCalm(m: MachineState, ops: seq<Op>)
    requires Undisturbed(m, ops)
    ensures RunIsCalm(m, ops)
    decreases ops
  {
    if ops != [] {
      var n := AfterOp(m, ops[0]);
      StillUndisturbed(m, ops, n);
      CalmRunIsCalm(n, ops[1..]);
      OneMoreCalm(m, ops, n);
    }
  }

  // ---------------------------------------------------------------- the format

  /** FOR is set and the first index still to come; the head is loaded on a writable medium with a cell
      at the index; nothing else writes. */
  predicate AboutToFormat(m: MachineState) {
    match m
    case MachineState(disks, _, _, _, _, _) =>
      && Steady(m) && Writable(disks.bay) && Underway(disks.disk) && ModeOf(disks.disk) == Awaiting
      && HasIndexCell(UnderHead(Selected(disks.bay)))
  }

  /** OUT2 stays low. */
  ghost predicate LowThroughout(m: MachineState, ops: seq<Op>)
    requires Fit(m)
  {
    AllLow(SceneOf(m), ChunksOf(m, ops))
  }

  lemma {:induction false} FirstTicksInPlace(cells: Cells, writes: Cells)
    requires Ticks(writes) <= Ticks(cells)
    ensures InPlace(cells, writes)
  {
    forall w | 0 <= w < |writes|
      ensures HasTick(cells, writes[w].tick)
    {
      assert Ticks(writes)[w] == Ticks(cells)[w];
      assert cells[w].tick == writes[w].tick;
    }
  }

  /** What the format writes lands on the medium. */
  lemma {:induction false} FormatLands(m: MachineState, ops: seq<Op>, writes: Cells)
    requires AboutToFormat(m) && writes == AllWrites(SceneOf(m), ChunksOf(m, ops)) && Ticks(writes) <= Ticks(SceneOf(m).cells)
    ensures RunLands(m, ops)
  {
    FirstTicksInPlace(SceneOf(m).cells, writes);
    WritesLand(m.disks.bay, SceneOf(m), ChunksOf(m, ops));
  }

  /** A format has been done from `m` to `n`, or as far as this many ticks go. */
  predicate FormatDone(m: MachineState, n: MachineState, ticks: nat, writes: Cells)
    requires Fit(m)
  {
    match n
    case MachineState(_, _, _, _, _, _) =>
      && Fit(n) && TrackOnly(m.disks.bay, n.disks.bay, SceneOf(n).cells)
      && SameTiming(SceneOf(m).cells, SceneOf(n).cells) && Ticks(writes) <= Ticks(SceneOf(m).cells)
      && (ticks > ToIndex(SceneOf(m).phase) + REVOLUTION_TICKS ==> Formatted(SceneOf(m), writes, SceneOf(n)))
  }

  /** With FOR set, OUT2 low, the head loaded on a writable medium with a cell at the index, and a
      processor that may poll the handshake, read the data port or the counters, fill port A, switch
      clock patterns and do anything else that is not the disk's business: the machine overwrites
      exactly one revolution of the track in the bay and nothing else.  The timing of the track stays,
      and when the second index has passed every cell has been overwritten once, in order, and FOR is
      clear. */
  lemma {:induction false} MachineFormatsTrack(m: MachineState, ops: seq<Op>, n: MachineState, ticks: nat, writes: Cells)
    requires AboutToFormat(m) && CalmRun(ops) && LowThroughout(m, ops)
    requires n == AfterOps(m, ops) && ticks == CyclesIn(ops) * TICKS_PER_CYCLE
    requires writes == AllWrites(SceneOf(m), ChunksOf(m, ops))
    ensures FormatDone(m, n, ticks, writes)
  {
    RunTakesTime(m, ops);
    CalmRunIsCalm(m, ops);
    FormatIsOneRevolution(SceneOf(m), ChunksOf(m, ops), REVOLUTION_TICKS);
    FormatLands(m, ops, writes);
    MachinePlaysScene(m, ops);
  }
}
