/** Sectors through the controller: what a processor reads off a track, wherever the head stands when
    it begins to look. */
module SectorFields {
  import opened Bytes
  import opened FloppyTracks
  import opened FloppyDrives
  import opened FloppySubsystems
  import opened SectorImages
  import opened DiskRefinement
  import Splice = SpliceTolerance
  import opened Scenes
  import opened MachineTime
  import opened MachineModel
  import opened DiskRuns
  import opened FieldRuns
  import D = DiskController
  import R = FieldRead
  import Crc16

  // ---------------------------------------------------------------- what a field holds

  const DATA_LENGTH: nat := 130
  const ID_LENGTH: nat := 6

  function DataAt(k: nat): nat { IdAt(k) + FRESH_MARK }

  lemma {:induction false} DataFieldStands(cells: Cells, image: seq<byte>, order: seq<byte>, track: nat, k: nat)
    requires |image| == IMAGE_SIZE && track < TRACK_COUNT && IsSectorOrder(order) && k < SECTORS_PER_TRACK
    requires Formatted(cells, image, order, track)
    ensures DataAt(k) + DATA_LENGTH < |cells|
    ensures FieldData(cells, DataAt(k), DATA_LENGTH + 1) == DataBytes(SectorData(image, track, order[k]))
  {
    var data := SectorData(image, track, order[k]);
    assert SlotPart(cells, SlotStart(k), track, order[k], data, SLOT_CELLS);
    DataCellsCheck(cells, SlotStart(k), track, order[k], data, IdAt(k), DataBytes(data));
  }

  lemma {:induction false} IdFieldStands(cells: Cells, image: seq<byte>, order: seq<byte>, track: nat, k: nat)
    requires |image| == IMAGE_SIZE && track < TRACK_COUNT && IsSectorOrder(order) && k < SECTORS_PER_TRACK
    requires Formatted(cells, image, order, track)
    ensures IdAt(k) + ID_LENGTH < |cells|
    ensures FieldData(cells, IdAt(k), ID_LENGTH + 1) == IdBytes(track, order[k])
  {
    var data := SectorData(image, track, order[k]);
    assert SlotPart(cells, SlotStart(k), track, order[k], data, SLOT_CELLS);
    IdCellsCheck(cells, SlotStart(k), track, order[k], data, IdAt(k), IdBytes(track, order[k]));
  }

  // ---------------------------------------------------------------- the mark that comes next

  /** How many cells pass before the one at `at` does, when cell `b` is the next to pass. */
  function Distance(b: nat, at: nat): (n: nat)
    requires b <= MAXIMUM_CELLS && at < MAXIMUM_CELLS
    ensures n < MAXIMUM_CELLS && (b + n) % MAXIMUM_CELLS == at
  {
    (at + MAXIMUM_CELLS - b) % MAXIMUM_CELLS
  }

  lemma {:induction false} DistanceTo(b: nat, i: nat, at: nat)
    requires b <= MAXIMUM_CELLS && i < MAXIMUM_CELLS && at == (b + i) % MAXIMUM_CELLS
    ensures Distance(b, at) == i
  {
  }

  /** Of all marks the controller selects, the one at `f` is the next to pass. */
  ghost predicate ComesFirst(aux: D.Aux, cells: Cells, b: nat, f: nat) {
    && |cells| == MAXIMUM_CELLS && b <= MAXIMUM_CELLS && f < MAXIMUM_CELLS && D.Selects(aux, cells[f])
    && forall i :: 0 <= i < MAXIMUM_CELLS && D.Selects(aux, cells[i]) ==> Distance(b, f) <= Distance(b, i)
  }

  /** The cell that passes next. */
  function NextCell(s: Scene): nat
    requires OnTrack(s)
  {
    Before(s.cells, s.phase)
  }

  lemma {:induction false} ShownAt(s: Scene, ticks: nat, i: nat)
    requires OnTrack(s) && |s.cells| == MAXIMUM_CELLS && i < |Stream(s, ticks)|
    ensures Stream(s, ticks)[i] == s.cells[(NextCell(s) + i) % MAXIMUM_CELLS]
  {
    PassingAt(s.cells, s.phase, ticks, i);
  }

  lemma {:induction false} FirstMarkIs(aux: D.Aux, stream: Cells, p: nat)
    requires p < |stream| && D.Selects(aux, stream[p]) && forall i :: 0 <= i < p ==> !D.Selects(aux, stream[i])
    ensures R.FirstMark(aux, stream) == p
  {
  }

  /** The mark that comes first is the one the controller finds. */
  lemma {:induction false} FirstMarkComes(aux: D.Aux, s: Scene, ticks: nat, f: nat, p: nat)
    requires OnTrack(s) && ComesFirst(aux, s.cells, NextCell(s), f) && p == Distance(NextCell(s), f) < |Stream(s, ticks)|
    ensures R.FirstMark(aux, Stream(s, ticks)) == p
  {
    var stream := Stream(s, ticks);
    ShownAt(s, ticks, p);
    forall i | 0 <= i < p
      ensures !D.Selects(aux, stream[i])
    {
      ShownAt(s, ticks, i);
      DistanceTo(NextCell(s), i, (NextCell(s) + i) % MAXIMUM_CELLS);
    }
    FirstMarkIs(aux, stream, p);
  }

  lemma {:induction false} FieldOfStream(n: nat, cells: Cells, p: nat, bytes: seq<byte>)
    requires p + n < |cells| && |bytes| == n + 1 && forall j :: 0 <= j < n + 1 ==> cells[p + j].data == bytes[j]
    ensures R.Data(R.UpTo(n + 1, cells[p..])) == bytes
  {
    assert R.UpTo(n + 1, cells[p..]) == cells[p..p + n + 1];
  }

  lemma {:induction false} FurtherOn(b: nat, f: nat, p: nat, j: nat)
    requires b <= MAXIMUM_CELLS && f < MAXIMUM_CELLS && p == Distance(b, f) && f + j < MAXIMUM_CELLS
    ensures (b + (p + j)) % MAXIMUM_CELLS == f + j
  {
  }

  lemma {:induction false} FieldCellComes(s: Scene, ticks: nat, f: nat, p: nat, j: nat)
    requires OnTrack(s) && |s.cells| == MAXIMUM_CELLS && f + j < MAXIMUM_CELLS && NextCell(s) <= MAXIMUM_CELLS
    requires p == Distance(NextCell(s), f) && p + j < |Stream(s, ticks)|
    ensures Stream(s, ticks)[p + j] == s.cells[f + j]
  {
    ShownAt(s, ticks, p + j);
    FurtherOn(NextCell(s), f, p, j);
  }

  /** And the field that follows it is that of the track. */
  lemma {:induction false} FieldComes(aux: D.Aux, s: Scene, ticks: nat, f: nat, p: nat, n: nat)
    requires OnTrack(s) && ComesFirst(aux, s.cells, NextCell(s), f) && p == Distance(NextCell(s), f)
    requires p + n < |Stream(s, ticks)| && f + n < MAXIMUM_CELLS
    ensures R.FirstMark(aux, Stream(s, ticks)) == p
    ensures R.FieldOf(aux, n, Stream(s, ticks)) == FieldData(s.cells, f, n + 1)
  {
    var stream, bytes := Stream(s, ticks), FieldData(s.cells, f, n + 1);
    FirstMarkComes(aux, s, ticks, f, p);
    forall j: nat | j < n + 1
      ensures stream[p + j].data == bytes[j]
    {
      FieldCellComes(s, ticks, f, p, j);
    }
    FieldOfStream(n, stream, p, bytes);
  }

  // ---------------------------------------------------------------- reading it

  /** Behind its mark, the field holds the bytes of this sector of the image: 3,328 bytes a track, 128 a
      sector. */
  predicate HoldsBytes(field: seq<byte>, image: seq<byte>, track: nat, sector: nat) {
    && |field| == 131 && track < 77 && 1 <= sector <= 26 && |image| == 256_256
    && forall i :: 1 <= i < 129 ==> field[i] == image[3328 * track + 128 * (sector - 1) + (i - 1)]
  }

  lemma {:induction false} FieldHoldsBytes(image: seq<byte>, track: nat, sector: nat)
    requires |image| == IMAGE_SIZE && track < TRACK_COUNT && 1 <= sector <= SECTORS_PER_TRACK
    ensures HoldsBytes(DataBytes(SectorData(image, track, sector)), image, track, sector)
  {
    SectorBytes(image, track, sector);
  }

  /** The processor has been given exactly these bytes, the last of which may still wait in port B; the
      field is over, and the medium is as it was. */
  ghost predicate Gives(m: MachineState, ops: seq<Op>, e: MachineState, bytes: seq<byte>)
    requires Fit(m)
  {
    match e
    case MachineState(_, _, _, _, _, _) =>
      && Fit(e) && BytesRead(m, ops) + R.Waiting(e.disks.disk) == bytes && e.disks.disk.EndOfData()
      && Selected(e.disks.bay).image == Selected(m.disks.bay).image
  }

  /** The mark of the field comes first, and all of the field passes during the run. */
  ghost predicate FieldPasses(m: MachineState, aux: D.Aux, n: nat, ops: seq<Op>, f: nat)
    requires Fit(m)
  {
    && ComesFirst(aux, SceneOf(m).cells, NextCell(SceneOf(m)), f) && f + n < MAXIMUM_CELLS
    && Distance(NextCell(SceneOf(m)), f) + n < |CellsPassed(m, ops)|
  }

  /** Wherever the head stands, and however often the index passes: the processor reads the field whose
      mark comes first. */
  lemma {:induction false} FieldOfTrack(m: MachineState, aux: D.Aux, n: nat, ops: seq<Op>, e: MachineState, f: nat,
                                        bytes: seq<byte>)
    requires ReadsField(m, aux, n, ops) && e == AfterOps(m, ops) && FieldPasses(m, aux, n, ops, f)
    requires bytes == FieldData(SceneOf(m).cells, f, n + 1)
    ensures Gives(m, ops, e, bytes)
  {
    FieldComes(aux, SceneOf(m), CyclesIn(ops) * TICKS_PER_CYCLE, f, Distance(NextCell(SceneOf(m)), f), n);
    MachineReadsField(m, aux, n, ops, e);
  }

  // ---------------------------------------------------------------- on a formatted track

  /** The mark that the controller selects in slot `k`. */
  function MarkAt(aux: D.Aux, k: nat): nat {
    if aux.dataMark then DataAt(k) else IdAt(k)
  }

  /** It is nearer than that of any other slot. */
  ghost predicate IsNext(aux: D.Aux, b: nat, k: nat) {
    && b <= MAXIMUM_CELLS && k < SECTORS_PER_TRACK && MarkAt(aux, k) < MAXIMUM_CELLS
    && forall j :: 0 <= j < SECTORS_PER_TRACK && MarkAt(aux, j) < MAXIMUM_CELLS ==>
         Distance(b, MarkAt(aux, k)) <= Distance(b, MarkAt(aux, j))
  }

  lemma {:induction false} OnlyMarks(aux: D.Aux, cells: Cells, image: seq<byte>, order: seq<byte>, track: nat,
                                     i: nat) returns (k: nat)
    requires |image| == IMAGE_SIZE && track < TRACK_COUNT && IsSectorOrder(order)
    requires Formatted(cells, image, order, track) && i < |cells| && D.Selects(aux, cells[i])
    ensures k < SECTORS_PER_TRACK && i == MarkAt(aux, k)
  {
    k := Splice.FormattedMark(cells, image, order, track, i);
  }

  lemma {:induction false} MarkStands(aux: D.Aux, cells: Cells, image: seq<byte>, order: seq<byte>, track: nat, k: nat)
    requires |image| == IMAGE_SIZE && track < TRACK_COUNT && IsSectorOrder(order)
    requires Formatted(cells, image, order, track) && k < SECTORS_PER_TRACK
    ensures MarkAt(aux, k) < |cells| && D.Selects(aux, cells[MarkAt(aux, k)])
  {
    FormattedSlot(cells, image, order, track, k);
  }

  lemma {:induction false} NextComesFirst(aux: D.Aux, cells: Cells, image: seq<byte>, order: seq<byte>, track: nat,
                                          b: nat, k: nat)
    requires |image| == IMAGE_SIZE && track < TRACK_COUNT && IsSectorOrder(order)
    requires Formatted(cells, image, order, track) && IsNext(aux, b, k)
    ensures ComesFirst(aux, cells, b, MarkAt(aux, k))
  {
    MarkStands(aux, cells, image, order, track, k);
    forall i | 0 <= i < MAXIMUM_CELLS && D.Selects(aux, cells[i])
      ensures Distance(b, MarkAt(aux, k)) <= Distance(b, i)
    {
      var j := OnlyMarks(aux, cells, image, order, track, i);
    }
  }

  /** The track under the head is formatted with this image, and slot `k` is the next to come with a
      mark that is looked for. */
  ghost predicate NextSlot(m: MachineState, aux: D.Aux, image: seq<byte>, order: seq<byte>, track: nat, k: nat)
    requires |image| == IMAGE_SIZE && track < TRACK_COUNT && IsSectorOrder(order)
  {
    match m
    case MachineState(disks, _, _, _, _, _) =>
      && Fit(m) && track == Selected(disks.bay).head && Formatted(SceneOf(m).cells, image, order, track)
      && IsNext(aux, NextCell(SceneOf(m)), k)
  }

  /** All of the field passes. */
  ghost predicate Reaches(m: MachineState, at: nat, n: nat, ops: seq<Op>) {
    && Fit(m) && NextCell(SceneOf(m)) <= MAXIMUM_CELLS && at < MAXIMUM_CELLS
    && Distance(NextCell(SceneOf(m)), at) + n < |CellsPassed(m, ops)|
  }

  /** Counter 2 loaded with 130 and RDM set, the head anywhere: as a formatted track turns, the
      processor reads the next data field, across the index where need be.  It is the data of the sector
      in that slot of the image, its checksum comes out as zero, and OUT2 rises with the last byte. */
  lemma {:induction false} SectorIsRead(m: MachineState, aux: D.Aux, ops: seq<Op>, e: MachineState,
                                        image: seq<byte>, order: seq<byte>, track: nat, k: nat)
    requires |image| == IMAGE_SIZE && track < TRACK_COUNT && IsSectorOrder(order)
    requires ReadsField(m, aux, DATA_LENGTH, ops) && aux.dataMark && e == AfterOps(m, ops)
    requires NextSlot(m, aux, image, order, track, k) && Reaches(m, DataAt(k), DATA_LENGTH, ops)
    ensures Gives(m, ops, e, DataBytes(SectorData(image, track, order[k])))
    ensures Crc16.Checksum(DataBytes(SectorData(image, track, order[k]))) == Crc16.ZERO
    ensures HoldsBytes(DataBytes(SectorData(image, track, order[k])), image, track, order[k])
  {
    FieldHoldsBytes(image, track, order[k]);
    var cells := SceneOf(m).cells;
    NextComesFirst(aux, cells, image, order, track, NextCell(SceneOf(m)), k);
    DataFieldStands(cells, image, order, track, k);
    FieldOfTrack(m, aux, DATA_LENGTH, ops, e, DataAt(k), DataBytes(SectorData(image, track, order[k])));
    DataChecks(SectorData(image, track, order[k]), DataBytes(SectorData(image, track, order[k])));
  }

  /** The same for an identification field, which names the track and the sector. */
  lemma {:induction false} IdIsRead(m: MachineState, aux: D.Aux, ops: seq<Op>, e: MachineState,
                                    image: seq<byte>, order: seq<byte>, track: nat, k: nat)
    requires |image| == IMAGE_SIZE && track < TRACK_COUNT && IsSectorOrder(order)
    requires ReadsField(m, aux, ID_LENGTH, ops) && !aux.dataMark && e == AfterOps(m, ops)
    requires NextSlot(m, aux, image, order, track, k) && Reaches(m, IdAt(k), ID_LENGTH, ops)
    ensures Gives(m, ops, e, IdBytes(track, order[k]))
    ensures Crc16.Checksum(IdBytes(track, order[k])) == Crc16.ZERO
  {
    var cells := SceneOf(m).cells;
    NextComesFirst(aux, cells, image, order, track, NextCell(SceneOf(m)), k);
    IdFieldStands(cells, image, order, track, k);
    FieldOfTrack(m, aux, ID_LENGTH, ops, e, IdAt(k), IdBytes(track, order[k]));
    IdChecks(track, order[k], IdBytes(track, order[k]));
  }

  // ---------------------------------------------------------------- on any disk that holds sectors

  /** The head stands behind the ID field of slot `k` and before its data mark, on a disk that holds
      these sectors, however often they have been rewritten. */
  ghost predicate BehindId(m: MachineState, shadow: Shadow, k: nat) {
    match m
    case MachineState(disks, _, _, _, _, _) =>
      && Fit(m) && Selected(disks.bay).image.Some? && Represents(Selected(disks.bay).image.value, shadow)
      && k < SECTORS_PER_TRACK
      && IdAt(k) + 7 <= NextCell(SceneOf(m)) <= IdAt(k) + shadow.marks[Selected(disks.bay).head][k]
  }

  /** Mark, data and checksum of a sector with these data. */
  predicate IsFieldOf(bytes: seq<byte>, data: seq<byte>) {
    |bytes| == DATA_LENGTH + 1 && |data| == BYTES_PER_SECTOR && bytes[1..BYTES_PER_SECTOR + 1] == data
  }

  lemma {:induction false} HeldFieldStands(cells: Cells, track: nat, shadow: Shadow, k: nat)
    requires WellFormed(shadow) && track < TRACK_COUNT && k < SECTORS_PER_TRACK
    requires TrackHolds(cells, track, shadow.order, shadow.marks[track], shadow.image)
    ensures var f := IdAt(k) + shadow.marks[track][k];
            && f + DATA_LENGTH < |cells| == MAXIMUM_CELLS
            && IsFieldOf(FieldData(cells, f, DATA_LENGTH + 1), SectorData(shadow.image, track, shadow.order[k]))
  {
    assert SlotReads(cells, track, k, shadow.order[k], shadow.marks[track][k]);
    assert SlotData(cells, k, shadow.marks[track][k]) == SectorData(shadow.image, track, shadow.order[k]);
  }

  lemma {:induction false} HeldMarkComesFirst(aux: D.Aux, cells: Cells, track: nat, shadow: Shadow, k: nat, b: nat)
    requires WellFormed(shadow) && track < TRACK_COUNT && k < SECTORS_PER_TRACK && aux.dataMark
    requires TrackHolds(cells, track, shadow.order, shadow.marks[track], shadow.image)
    requires IdAt(k) + 7 <= b <= IdAt(k) + shadow.marks[track][k]
    ensures ComesFirst(aux, cells, b, IdAt(k) + shadow.marks[track][k])
  {
    var f := IdAt(k) + shadow.marks[track][k];
    assert SlotReads(cells, track, k, shadow.order[k], shadow.marks[track][k]);
    forall i | 0 <= i < MAXIMUM_CELLS && D.Selects(aux, cells[i])
      ensures Distance(b, f) <= Distance(b, i)
    {
      assert !(b <= i < f);
    }
  }

  /** The processor has been given a field with these data, the last byte of which may still wait in
      port B; the field is over, and the medium is as it was. */
  ghost predicate GivesSector(m: MachineState, ops: seq<Op>, e: MachineState, data: seq<byte>) {
    match e
    case MachineState(_, _, _, _, _, _) => Fit(m) && exists bytes :: Gives(m, ops, e, bytes) && IsFieldOf(bytes, data)
  }

  /** The head stands there, the processor reads, and all of the field passes. */
  ghost predicate ReadsHeld(m: MachineState, aux: D.Aux, ops: seq<Op>, shadow: Shadow, track: nat, k: nat) {
    match m
    case MachineState(disks, _, _, _, _, _) =>
      && ReadsField(m, aux, DATA_LENGTH, ops) && aux.dataMark && BehindId(m, shadow, k) && track == Selected(disks.bay).head
      && Reaches(m, IdAt(k) + shadow.marks[track][k], DATA_LENGTH, ops)
  }

  /** On a disk with any history of sector writes: a processor that looks for the data mark once the ID
      field has passed reads the data that the disk represents for that sector. */
  lemma {:induction false} HeldSectorIsRead(m: MachineState, aux: D.Aux, ops: seq<Op>, e: MachineState, shadow: Shadow,
                                            track: nat, k: nat)
    requires ReadsHeld(m, aux, ops, shadow, track, k) && e == AfterOps(m, ops)
    ensures GivesSector(m, ops, e, SectorData(shadow.image, track, shadow.order[k]))
  {
    var cells, f := SceneOf(m).cells, IdAt(k) + shadow.marks[track][k];
    HeldMarkComesFirst(aux, cells, track, shadow, k, NextCell(SceneOf(m)));
    HeldFieldStands(cells, track, shadow, k);
    FieldOfTrack(m, aux, DATA_LENGTH, ops, e, f, FieldData(cells, f, DATA_LENGTH + 1));
  }
}
