/** Rewriting a sector through the controller: a burst that a processor sends to port A while the track
    turns leaves a disk on which exactly one sector is replaced, and reading it gives the new data. */
module SectorRewrites {
  import opened Bytes
  import opened Wrappers
  import opened FloppyTracks
  import opened FloppyDrives
  import opened FloppySubsystems
  import opened SectorImages
  import opened DiskRefinement
  import opened DiskWrites
  import opened Scenes
  import opened MachineTime
  import opened MachineModel
  import opened DiskRuns
  import opened FieldRuns
  import opened SectorFields
  import D = DiskController
  import Steps = DiskSteps
  import W = FieldWrite

  // ---------------------------------------------------------------- the burst on a track

  /** The cells of a burst in the places of the cells from `from` on. */
  function BurstCells(cells: Cells, from: nat, burst: SectorBurst): (writes: Cells)
    requires IsBurst(burst) && from + BURST_CELLS <= |cells|
    ensures |writes| == BURST_CELLS
  {
    seq(BURST_CELLS, j requires 0 <= j < BURST_CELLS =>
      TimedFmByte(cells[from + j].tick, BurstFm(burst, j).0, BurstFm(burst, j).1))
  }

  lemma {:induction false} NoWrite(cell: TimedFmByte, writes: Cells)
    requires forall j :: 0 <= j < |writes| ==> writes[j].tick != cell.tick
    ensures LastWrite(cell, writes) == cell
    decreases writes
  {
    if writes != [] {
      NoWrite(cell, writes[..|writes| - 1]);
    }
  }

  lemma {:induction false} BurstOverCell(cells: Cells, from: nat, burst: SectorBurst, writes: Cells, i: nat)
    requires Spaced(cells) && IsBurst(burst) && from + BURST_CELLS <= |cells| && i < |cells|
    requires writes == BurstCells(cells, from, burst)
    ensures LastWrite(cells[i], writes) == if from <= i < from + BURST_CELLS then writes[i - from] else cells[i]
  {
    if from <= i < from + BURST_CELLS {
      OnlyWrite(cells[i], writes, i - from);
    } else {
      NoWrite(cells[i], writes);
    }
  }

  /** A burst laid over a track is the track with the burst recorded. */
  lemma {:induction false} BurstIsRecorded(cells: Cells, from: nat, burst: SectorBurst)
    requires Spaced(cells) && IsBurst(burst) && from + BURST_CELLS <= |cells|
    ensures Overlaid(cells, BurstCells(cells, from, burst)) == Record(cells, from, burst, BURST_CELLS)
  {
    var writes := BurstCells(cells, from, burst);
    forall i | 0 <= i < |cells|
      ensures LastWrite(cells[i], writes) == Record(cells, from, burst, BURST_CELLS)[i]
    {
      BurstOverCell(cells, from, burst, writes, i);
    }
  }

  // ---------------------------------------------------------------- where the head stands

  /** Cells with the ticks of a full track, one place after another from `next` on. */
  ghost predicate Follow(cells: Cells, next: nat, passed: Cells) {
    && |cells| == MAXIMUM_CELLS
    && forall i :: 0 <= i < |passed| ==> passed[i].tick == cells[(next + i) % MAXIMUM_CELLS].tick
  }

  lemma {:induction false} StreamFollows(s: Scene, ticks: nat, shown: Cells)
    requires OnTrack(s) && |s.cells| == MAXIMUM_CELLS && Ticks(shown) == Timing(s, ticks)
    ensures Follow(s.cells, NextCell(s), shown)
  {
    forall i: nat | i < |shown|
      ensures shown[i].tick == s.cells[(NextCell(s) + i) % MAXIMUM_CELLS].tick
    {
      assert Ticks(shown)[i] == Timing(s, ticks)[i];
      ShownAt(s, ticks, i);
    }
  }

  /** The cells that pass during a run are such. */
  lemma {:induction false} ShownFollow(m: MachineState, ops: seq<Op>, shown: Cells)
    requires Fit(m) && |SceneOf(m).cells| == MAXIMUM_CELLS && shown == Steps.CellsIn(StepsOf(m, ops))
    ensures Follow(SceneOf(m).cells, NextCell(SceneOf(m)), shown)
  {
    RunActsOnly(m, ops);
    SceneStreams(SceneOf(m), ChunksOf(m, ops));
    StreamFollows(SceneOf(m), TotalTicks(ChunksOf(m, ops)), shown);
  }

  /** Once these have passed, the head stands between cell `from` and the next one; if none has, cell
      `from` is the one that passed before. */
  predicate StandsOver(cells: Cells, next: nat, passed: Cells, tick: nat, from: nat) {
    && |cells| == MAXIMUM_CELLS && from + 1 < MAXIMUM_CELLS
    && (next + |passed|) % MAXIMUM_CELLS == from + 1 && (passed == [] ==> tick == cells[from].tick)
  }

  lemma {:induction false} OneBefore(n: nat, from: nat)
    requires n > 0 && n % MAXIMUM_CELLS == from + 1
    ensures (n - 1) % MAXIMUM_CELLS == from
  {
  }

  lemma {:induction false} FirstTick(cells: Cells, next: nat, passed: Cells, tick: nat, from: nat)
    requires Follow(cells, next, passed) && StandsOver(cells, next, passed, tick, from)
    ensures W.TickAfter(tick, passed) == cells[from].tick
  {
    if passed != [] {
      OneBefore(next + |passed|, from);
      assert next + (|passed| - 1) == next + |passed| - 1;
    }
  }

  lemma {:induction false} FollowFirst(cells: Cells, next: nat, passed: Cells, later: Cells)
    requires Follow(cells, next, passed + later)
    ensures Follow(cells, next, passed)
  {
    assert forall i :: 0 <= i < |passed| ==> (passed + later)[i] == passed[i];
  }

  lemma {:induction false} FurtherAlong(n: nat, at: nat, i: nat)
    requires n % MAXIMUM_CELLS == at && at + i < MAXIMUM_CELLS
    ensures (n + i) % MAXIMUM_CELLS == at + i
  {
  }

  lemma {:induction false} LaterTick(cells: Cells, next: nat, passed: Cells, later: Cells, at: nat, i: nat)
    requires Follow(cells, next, passed + later) && (next + |passed|) % MAXIMUM_CELLS == at
    requires i < |later| && at + i < MAXIMUM_CELLS
    ensures later[i].tick == cells[at + i].tick
  {
    FurtherAlong(next + |passed|, at, i);
    assert (passed + later)[|passed| + i] == later[i];
    assert next + (|passed| + i) == next + |passed| + i;
  }

  // ---------------------------------------------------------------- what the processor sends

  /** The byte in port A and the clocks chosen when the `i`th cell of these steps passes. */
  ghost predicate SendsCell(pa: byte, steps: seq<D.Step>, i: nat, fm: (byte, byte)) {
    var p := W.Place(steps, i);
    p < |steps| && fm == (W.PortAfter(pa, steps[..p]), D.WrittenClockMask(steps[p].controlA))
  }

  /** The processor sends this burst: when OUT1 rises in step `r` and then when each of 136 cells
      passes, port A holds the next byte of the burst, and its clocks are chosen. */
  ghost predicate SendsBurst(w: W.Writer, steps: seq<D.Step>, r: nat, burst: SectorBurst) {
    && IsBurst(burst) && w.left == BURST_CELLS && r == W.Rise(w, steps) < |steps|
    && BURST_CELLS - 1 <= |Steps.CellsIn(steps[r + 1..])|
    && BurstFm(burst, 0) == (W.PortAfter(w.pa, steps[..r]), D.WrittenClockMask(steps[r].controlA))
    && forall j :: 1 <= j < BURST_CELLS ==> SendsCell(W.PortAfter(w.pa, steps[..r]), steps[r + 1..], j - 1, BurstFm(burst, j))
  }

  lemma {:induction false} BurstCell(v: W.Writer, rest: seq<D.Step>, i: nat, fm: (byte, byte))
    requires v.started && Steps.AllAllowed(rest) && i < v.left && i < |Steps.CellsIn(rest)| && SendsCell(v.pa, rest, i, fm)
    ensures i < |W.Field(v, rest)| && W.Field(v, rest)[i] == TimedFmByte(Steps.CellsIn(rest)[i].tick, fm.0, fm.1)
  {
    W.SerialInOrder(v, rest, i);
  }

  lemma {:induction false} ShownInParts(steps: seq<D.Step>, r: nat)
    requires r < |steps|
    ensures Steps.CellsIn(steps) == Steps.CellsIn(steps[..r + 1]) + Steps.CellsIn(steps[r + 1..])
  {
    assert steps == steps[..r + 1] + steps[r + 1..];
    Steps.CellsConcat(steps[..r + 1], steps[r + 1..]);
  }

  /** Once OUT1 has risen with the head over cell `at - 1`, the rest of the burst goes to the places
      from `at` on. */
  lemma {:induction false} RestIsField(v: W.Writer, rest: seq<D.Step>, cells: Cells, next: nat, passed: Cells, at: nat,
                                       burst: SectorBurst)
    requires v.started && v.left == BURST_CELLS - 1 && IsBurst(burst) && at + v.left <= MAXIMUM_CELLS
    requires Steps.AllAllowed(rest) && v.left <= |Steps.CellsIn(rest)|
    requires Follow(cells, next, passed + Steps.CellsIn(rest)) && (next + |passed|) % MAXIMUM_CELLS == at
    requires forall j :: 1 <= j < BURST_CELLS ==> SendsCell(v.pa, rest, j - 1, BurstFm(burst, j))
    ensures |W.Field(v, rest)| == v.left
    ensures forall j :: 1 <= j < BURST_CELLS ==>
              W.Field(v, rest)[j - 1] == TimedFmByte(cells[at + j - 1].tick, BurstFm(burst, j).0, BurstFm(burst, j).1)
  {
    W.SerialIsCounted(v, rest);
    forall j: nat | 1 <= j < BURST_CELLS
      ensures W.Field(v, rest)[j - 1] == TimedFmByte(cells[at + j - 1].tick, BurstFm(burst, j).0, BurstFm(burst, j).1)
    {
      BurstCell(v, rest, j - 1, BurstFm(burst, j));
      LaterTick(cells, next, passed, Steps.CellsIn(rest), at, j - 1);
    }
  }

  lemma {:induction false} BurstInParts(cells: Cells, from: nat, burst: SectorBurst, field: Cells, rest: Cells)
    requires IsBurst(burst) && from + BURST_CELLS <= |cells| && |rest| == BURST_CELLS - 1
    requires field == [TimedFmByte(cells[from].tick, BurstFm(burst, 0).0, BurstFm(burst, 0).1)] + rest
    requires forall j :: 1 <= j < BURST_CELLS ==>
               rest[j - 1] == TimedFmByte(cells[from + 1 + j - 1].tick, BurstFm(burst, j).0, BurstFm(burst, j).1)
    ensures field == BurstCells(cells, from, burst)
  {
    var writes := BurstCells(cells, from, burst);
    forall j | 0 <= j < BURST_CELLS
      ensures field[j] == writes[j]
    {
    }
  }

  /** The field the controller writes is the burst, in the places from `from` on. */
  lemma {:induction false} BurstIsField(w: W.Writer, steps: seq<D.Step>, r: nat, cells: Cells, next: nat, from: nat,
                                        burst: SectorBurst)
    requires Steps.AllAllowed(steps) && Follow(cells, next, Steps.CellsIn(steps))
    requires !w.started && SendsBurst(w, steps, r, burst) && from + BURST_CELLS <= MAXIMUM_CELLS
    requires StandsOver(cells, next, Steps.CellsIn(steps[..r + 1]), w.tick, from)
    ensures W.Field(w, steps) == BurstCells(cells, from, burst)
  {
    var v, rest, passed := W.Risen(w, steps, r), steps[r + 1..], Steps.CellsIn(steps[..r + 1]);
    ShownInParts(steps, r);
    FollowFirst(cells, next, passed, Steps.CellsIn(rest));
    FirstTick(cells, next, passed, w.tick, from);
    W.FieldInOrder(w, steps, r);
    RestIsField(v, rest, cells, next, passed, from + 1, burst);
    BurstInParts(cells, from, burst, W.Field(w, steps), W.Field(v, rest));
  }

  // ---------------------------------------------------------------- on the medium

  /** The head loaded on a writable medium, WRE set and counter 2 loaded with 137: the processor sends a
      burst, and OUT1 rises in step `r` with the head over cell `from`. */
  ghost predicate Rewrites(m: MachineState, w: W.Writer, ops: seq<Op>, r: nat, from: nat, burst: SectorBurst) {
    match m
    case MachineState(_, _, _, _, _, _) =>
      && Fit(m) && WritesField(m, w, ops) && SendsBurst(w, StepsOf(m, ops), r, burst) && from + BURST_CELLS <= MAXIMUM_CELLS
      && StandsOver(SceneOf(m).cells, NextCell(SceneOf(m)), Steps.CellsIn(StepsOf(m, ops)[..r + 1]), w.tick, from)
  }

  /** The burst has been recorded from `from` on, and nothing else has changed. */
  ghost predicate BurstRecorded(m: MachineState, e: MachineState, from: nat, burst: SectorBurst) {
    match e
    case MachineState(_, _, _, _, _, _) =>
      && Fit(m) && Fit(e) && IsBurst(burst) && from + BURST_CELLS <= |SceneOf(m).cells|
      && TrackOnly(m.disks.bay, e.disks.bay, Record(SceneOf(m).cells, from, burst, BURST_CELLS))
      && e.disks.disk.EndOfData()
  }

  lemma {:induction false} RunSendsBurst(m: MachineState, w: W.Writer, ops: seq<Op>, r: nat, from: nat, burst: SectorBurst)
    requires Rewrites(m, w, ops, r, from, burst)
    ensures FieldOf(m, w, ops) == BurstCells(SceneOf(m).cells, from, burst)
    ensures FirstAmong(w, StepsOf(m, ops), Ticks(SceneOf(m).cells))
  {
    var steps, cells, next := StepsOf(m, ops), SceneOf(m).cells, NextCell(SceneOf(m));
    RunIsAllowed(m, SceneOf(m), ops);
    ShownFollow(m, ops, Steps.CellsIn(steps));
    BurstIsField(w, steps, r, cells, next, from, burst);
    ShownInParts(steps, r);
    FollowFirst(cells, next, Steps.CellsIn(steps[..r + 1]), Steps.CellsIn(steps[r + 1..]));
    FirstTick(cells, next, Steps.CellsIn(steps[..r + 1]), w.tick, from);
    assert Ticks(cells)[from] == cells[from].tick;
  }

  lemma {:induction false} MachineRecordsBurst(m: MachineState, w: W.Writer, ops: seq<Op>, e: MachineState, r: nat,
                                               from: nat, burst: SectorBurst)
    requires Rewrites(m, w, ops, r, from, burst) && e == AfterOps(m, ops)
    ensures BurstRecorded(m, e, from, burst)
  {
    var cells := SceneOf(m).cells;
    RunSendsBurst(m, w, ops, r, from, burst);
    MachineWritesField(m, w, ops, e, BurstCells(cells, from, burst));
    BurstIsRecorded(cells, from, burst);
  }

  /** The disk represents these sectors. */
  ghost predicate Held(disk: seq<Cells>, shadow: Shadow) {
    match shadow
    case Shadow(_, _, _) => Represents(disk, shadow)
  }

  /** So does the one in the selected drive. */
  ghost predicate Holds(m: MachineState, shadow: Shadow) {
    match m
    case MachineState(disks, _, _, _, _, _) =>
      Fit(m) && Selected(disks.bay).image.Some? && Held(Selected(disks.bay).image.value, shadow)
  }

  /** There is such a sector and such a burst. */
  ghost predicate Sensible(shadow: Shadow, track: nat, k: nat, burst: SectorBurst) {
    match shadow
    case Shadow(_, _, _) => WellFormed(shadow) && track < TRACK_COUNT && k < SECTORS_PER_TRACK && IsBurst(burst)
  }

  /** The sectors with the one in slot `k` of a track replaced. */
  ghost function Rewritten(shadow: Shadow, track: nat, k: nat, start: nat, burst: SectorBurst): Shadow
    requires Sensible(shadow, track, k, burst)
  {
    Meaning(shadow, RewriteSector(track, k, start, burst))
  }

  /** The sector may be rewritten from `start` cells after its ID mark on. */
  ghost predicate MayRewrite(m: MachineState, shadow: Shadow, track: nat, k: nat, start: nat, burst: SectorBurst) {
    match m
    case MachineState(disks, _, _, _, _, _) =>
      && Holds(m, shadow) && Sensible(shadow, track, k, burst) && track == Selected(disks.bay).head
      && BurstAllowed(Selected(disks.bay).image.value[track], shadow.marks[track], k, start)
  }

  /** The medium once the burst is on its track. */
  lemma {:induction false} RecordedIsApplied(b: Bay, c: Bay, cells: Cells, disk: seq<Cells>, write: DiskWrite,
                                             track: nat, from: nat)
    requires BayOk(b) && BayOk(c) && TrackOnly(b, c, cells) && Selected(b).image == Some(disk) && track == Selected(b).head
    requires write.RewriteSector? && write.track == track && IsBurst(write.burst)
    requires from == IdAt(write.slot) + write.start && from + BURST_CELLS <= |disk[track]|
    requires cells == Record(disk[track], from, write.burst, BURST_CELLS)
    ensures Selected(c).image == Some(Apply(disk, write))
  {
  }

  lemma {:induction false} RewriteFits(disk: seq<Cells>, shadow: Shadow, track: nat, k: nat, start: nat)
    requires Held(disk, shadow) && track < TRACK_COUNT && BurstAllowed(disk[track], shadow.marks[track], k, start)
    ensures IdAt(k) + start + BURST_CELLS <= |disk[track]|
  {
    assert TrackHolds(disk[track], track, shadow.order, shadow.marks[track], shadow.image);
    SlotsApart(k, SECTORS_PER_TRACK);
  }

  lemma {:induction false} RewriteRefines(disk: seq<Cells>, shadow: Shadow, write: DiskWrite, track: nat, k: nat,
                                          start: nat, burst: SectorBurst)
    requires Sensible(shadow, track, k, burst) && write == RewriteSector(track, k, start, burst)
    requires Held(disk, shadow) && BurstAllowed(disk[track], shadow.marks[track], k, start)
    requires IdAt(k) + start + BURST_CELLS <= |disk[track]|
    ensures Held(Apply(disk, write), Rewritten(shadow, track, k, start, burst))
  {
    assert Allowed(disk, shadow, write);
    WriteRefines(disk, shadow, write);
  }

  lemma {:induction false} DiskHolds(m: MachineState, e: MachineState, shadow: Shadow, track: nat, k: nat, start: nat,
                                     burst: SectorBurst,
                                     from: nat, disk: seq<Cells>)
    requires MayRewrite(m, shadow, track, k, start, burst) && from == IdAt(k) + start && BurstRecorded(m, e, from, burst)
    requires Selected(m.disks.bay).image == Some(disk)
    ensures Holds(e, Rewritten(shadow, track, k, start, burst))
  {
    var write := RewriteSector(track, k, start, burst);
    RewriteFits(disk, shadow, track, k, start);
    RecordedIsApplied(m.disks.bay, e.disks.bay, Record(disk[track], from, burst, BURST_CELLS), disk, write, track, from);
    RewriteRefines(disk, shadow, write, track, k, start, burst);
  }

  /** The sector has been replaced, and the write is over. */
  ghost predicate SectorWritten(e: MachineState, shadow: Shadow, track: nat, k: nat, start: nat, burst: SectorBurst) {
    match e
    case MachineState(disks, _, _, _, _, _) =>
      && Sensible(shadow, track, k, burst) && Holds(e, Rewritten(shadow, track, k, start, burst)) && disks.disk.EndOfData()
  }

  lemma {:induction false} RecordedHolds(m: MachineState, e: MachineState, shadow: Shadow, track: nat, k: nat,
                                         start: nat, burst: SectorBurst,
                                         from: nat)
    requires MayRewrite(m, shadow, track, k, start, burst) && from == IdAt(k) + start && BurstRecorded(m, e, from, burst)
    ensures SectorWritten(e, shadow, track, k, start, burst)
  {
    DiskHolds(m, e, shadow, track, k, start, burst, from, Selected(m.disks.bay).image.value);
  }

  /** On a disk with any history, a burst sent where the sector may be rewritten leaves a disk that
      represents the old sectors with exactly this one replaced. */
  lemma {:induction false} SectorIsWritten(m: MachineState, w: W.Writer, ops: seq<Op>, e: MachineState, r: nat, from: nat,
                                           shadow: Shadow, track: nat, k: nat, start: nat, burst: SectorBurst)
    requires Rewrites(m, w, ops, r, from, burst) && from == IdAt(k) + start && e == AfterOps(m, ops)
    requires MayRewrite(m, shadow, track, k, start, burst)
    ensures SectorWritten(e, shadow, track, k, start, burst)
  {
    MachineRecordsBurst(m, w, ops, e, r, from, burst);
    RecordedHolds(m, e, shadow, track, k, start, burst, from);
  }

  lemma {:induction false} FreshBurstAllowed(cells: Cells, image: seq<byte>, order: seq<byte>, track: nat, k: nat, start: nat)
    requires |image| == IMAGE_SIZE && IsSectorOrder(order) && track < TRACK_COUNT && k < SECTORS_PER_TRACK
    requires Formatted(cells, image, order, track) && 4 <= start <= FRESH_MARK
    ensures BurstAllowed(cells, FreshMarks()[track], k, start)
  {
    FormattedSlot(cells, image, order, track, k);
  }

  /** On a disk just formatted, a sector may be rewritten from four to twenty-four cells after its ID
      mark on. */
  lemma {:induction false} FreshMayBeRewritten(m: MachineState, disk: seq<Cells>, image: seq<byte>, order: seq<byte>,
                                               track: nat, k: nat,
                                               start: nat, burst: SectorBurst)
    requires Fit(m) && Selected(m.disks.bay).image == Some(disk) && track == Selected(m.disks.bay).head
    requires |image| == IMAGE_SIZE && IsSectorOrder(order) && FormattedDisk(disk, image, order)
    requires k < SECTORS_PER_TRACK && 4 <= start <= FRESH_MARK && IsBurst(burst)
    ensures MayRewrite(m, Shadow(order, FreshMarks(), image), track, k, start, burst)
  {
    FormattedRepresents(disk, image, order);
    FreshBurstAllowed(disk[track], image, order, track, k, start);
  }

  /** So the export is the old image with exactly this sector replaced. */
  lemma {:induction false} RewrittenExport(e: MachineState, shadow: Shadow, track: nat, k: nat, start: nat, burst: SectorBurst)
    requires Sensible(shadow, track, k, burst)
    requires Holds(e, Rewritten(shadow, track, k, start, burst))
    ensures Complete(Selected(e.disks.bay).image.value)
    ensures forall image :: IsImageOf(image, Selected(e.disks.bay).image.value) <==>
                              image == ReplaceSector(shadow.image, track, shadow.order[k], burst.data)
    ensures SectorReplaced(shadow.image, ReplaceSector(shadow.image, track, shadow.order[k], burst.data),
                           track, shadow.order[k], burst.data)
  {
    ReplacedInPlace(shadow.image, track, shadow.order[k], burst.data);
    ExportOf(Selected(e.disks.bay).image.value, Rewritten(shadow, track, k, start, burst));
  }

  lemma {:induction false} RewrittenData(shadow: Shadow, after: Shadow, track: nat, k: nat, start: nat, burst: SectorBurst)
    requires Sensible(shadow, track, k, burst)
    requires after == Rewritten(shadow, track, k, start, burst)
    ensures after.marks[track][k] == start + 6 && SectorData(after.image, track, after.order[k]) == burst.data
  {
    ReplacedSector(shadow.image, track, shadow.order[k], burst.data, track, shadow.order[k]);
  }

  /** The head stands between the ID field of slot `k` and a data mark, and the processor reads the
      field behind it. */
  ghost predicate ReadsBehindId(m: MachineState, aux: D.Aux, ops: seq<Op>, k: nat, mark: nat) {
    match m
    case MachineState(_, _, _, _, _, _) =>
      && ReadsField(m, aux, DATA_LENGTH, ops) && aux.dataMark && Reaches(m, IdAt(k) + mark, DATA_LENGTH, ops)
      && k < SECTORS_PER_TRACK && IdAt(k) + 7 <= NextCell(SceneOf(m)) <= IdAt(k) + mark
  }

  /** A disk that represents these sectors is under the head, with these data in slot `k`, and the data
      mark so far behind its ID mark. */
  ghost predicate HoldsData(m: MachineState, shadow: Shadow, track: nat, k: nat, mark: nat, data: seq<byte>) {
    match m
    case MachineState(disks, _, _, _, _, _) =>
      && Holds(m, shadow) && track == Selected(disks.bay).head && k < SECTORS_PER_TRACK
      && mark == shadow.marks[track][k] && data == SectorData(shadow.image, track, shadow.order[k])
  }

  lemma {:induction false} HeldIsHeld(m: MachineState, shadow: Shadow, track: nat, k: nat, mark: nat, data: seq<byte>,
                                      aux: D.Aux, ops: seq<Op>)
    requires HoldsData(m, shadow, track, k, mark, data) && ReadsBehindId(m, aux, ops, k, mark)
    ensures ReadsHeld(m, aux, ops, shadow, track, k)
  {
  }

  lemma {:induction false} HeldIsRead(m: MachineState, shadow: Shadow, track: nat, k: nat, mark: nat, data: seq<byte>,
                                      aux: D.Aux, ops: seq<Op>, e: MachineState)
    requires HoldsData(m, shadow, track, k, mark, data) && ReadsBehindId(m, aux, ops, k, mark) && e == AfterOps(m, ops)
    ensures GivesSector(m, ops, e, data)
  {
    HeldIsHeld(m, shadow, track, k, mark, data, aux, ops);
    HeldSectorIsRead(m, aux, ops, e, shadow, track, k);
  }

  /** This medium is under the head, with a sector that has been rewritten. */
  ghost predicate HoldsRewritten(m: MachineState, shadow: Shadow, track: nat, k: nat, start: nat, burst: SectorBurst) {
    match m
    case MachineState(disks, _, _, _, _, _) =>
      && Sensible(shadow, track, k, burst) && Holds(m, Rewritten(shadow, track, k, start, burst))
      && track == Selected(disks.bay).head
  }

  lemma {:induction false} RewrittenIsHeld(m: MachineState, shadow: Shadow, after: Shadow, track: nat, k: nat,
                                           start: nat, burst: SectorBurst)
    requires HoldsRewritten(m, shadow, track, k, start, burst) && after == Rewritten(shadow, track, k, start, burst)
    ensures HoldsData(m, after, track, k, start + 6, burst.data)
  {
    RewrittenData(shadow, after, track, k, start, burst);
  }

  /** A sector written through the controller is read back through it: on the same medium, with the head
      between the ID field and the new data mark, the processor is given the data it has sent. */
  lemma {:induction false} RewrittenIsReadBack(m: MachineState, shadow: Shadow, track: nat, k: nat, start: nat,
                                               burst: SectorBurst,
                                               aux: D.Aux, ops: seq<Op>, e: MachineState)
    requires HoldsRewritten(m, shadow, track, k, start, burst) && ReadsBehindId(m, aux, ops, k, start + 6)
    requires e == AfterOps(m, ops)
    ensures GivesSector(m, ops, e, burst.data)
  {
    var after := Rewritten(shadow, track, k, start, burst);
    RewrittenIsHeld(m, shadow, after, track, k, start, burst);
    HeldIsRead(m, after, track, k, start + 6, burst.data, aux, ops, e);
  }
}
