/** Writing to a represented disk: single cells, and whole sectors recorded as 137 consecutive
    cells somewhere near the old ones. */
module DiskWrites {
  import opened Bytes
  import opened FloppyTracks
  import opened SectorImages
  import opened DiskRefinement

  /** Six sync cells, the mark, the data and its two CRC cells. */
  const BURST_CELLS: nat := 137

  datatype SectorBurst = SectorBurst(mark: byte, data: seq<byte>, crcHigh: byte, crcLow: byte)

  ghost predicate IsBurst(burst: SectorBurst) {
    (burst.mark == 0xFB || burst.mark == 0xF8) && |burst.data| == BYTES_PER_SECTOR
  }

  /** Data and clocks of the `j`th cell of a burst. */
  function BurstFm(burst: SectorBurst, j: nat): (byte, byte)
    requires IsBurst(burst) && j < BURST_CELLS
  {
    if j < 6 then (0x00, ORDINARY_CLOCKS)
    else if j == 6 then (burst.mark, SECTOR_MARK_CLOCKS)
    else if j < 135 then (burst.data[j - 7], ORDINARY_CLOCKS)
    else if j == 135 then (burst.crcHigh, ORDINARY_CLOCKS)
    else (burst.crcLow, ORDINARY_CLOCKS)
  }

  /** The track after the first `n` cells of a burst have been recorded from `from` on, each in
      the place of an old cell. */
  function Record(cells: Cells, from: nat, burst: SectorBurst, n: nat): (after: Cells)
    requires IsBurst(burst) && n <= BURST_CELLS && from + n <= |cells|
    ensures |after| == |cells|
    ensures forall i :: 0 <= i < |cells| && !(from <= i < from + n) ==> after[i] == cells[i]
    ensures forall i :: from <= i < from + n ==>
              after[i] == TimedFmByte(cells[i].tick, BurstFm(burst, i - from).0, BurstFm(burst, i - from).1)
  {
    if n == 0 then cells
    else
      var i := from + n - 1;
      Record(cells, from, burst, n - 1)[i := TimedFmByte(cells[i].tick, BurstFm(burst, n - 1).0, BurstFm(burst, n - 1).1)]
  }

  /** The burst as the drive performs it: 137 timed writes to the track object. */
  method RecordBurst(track: FloppyTrack, from: nat, burst: SectorBurst)
    requires track.Valid() && IsBurst(burst) && from + BURST_CELLS <= |track.bytes|
    modifies track
    ensures track.Valid()
    ensures track.bytes == Record(old(track.bytes), from, burst, BURST_CELLS)
  {
    for j := 0 to BURST_CELLS
      invariant track.Valid()
      invariant track.bytes == Record(old(track.bytes), from, burst, j)
    {
      var cell := TimedFmByte(track.bytes[from + j].tick, BurstFm(burst, j).0, BurstFm(burst, j).1);
      RecordedInPlace(track.bytes, cell, from + j);
      var ok := track.WriteByte(cell);
    }
  }

  // ---------------------------------------------------------------- operations

  datatype DiskWrite =
    | WriteCell(track: nat, index: nat, data: byte, clocks: byte)
    | RewriteSector(track: nat, slot: nat, start: int, burst: SectorBurst)

  function Apply(disk: seq<Cells>, write: DiskWrite): seq<Cells>
    requires write.track < |disk|
    requires write.WriteCell? ==> write.index < |disk[write.track]|
    requires write.RewriteSector? ==>
               (&& IsBurst(write.burst) && IdAt(write.slot) + write.start >= 0
                && IdAt(write.slot) + write.start + BURST_CELLS <= |disk[write.track]|)
  {
    var cells := disk[write.track];
    match write
    case WriteCell(t, i, data, clocks) =>
      disk[t := cells[i := TimedFmByte(cells[i].tick, data, clocks)]]
    case RewriteSector(t, k, start, burst) =>
      disk[t := Record(cells, IdAt(k) + start, burst, BURST_CELLS)]
  }

  function SlotOf(index: nat): nat
    requires IdAt(0) <= index
  {
    (index - IdAt(0)) / SLOT_CELLS
  }

  /** May this cell be written here?  An identification and a data mark stay as they are, no
      address mark appears in a gap, and anything at all may be written into data and CRC
      cells. */
  ghost predicate CellAllowed(marks: seq<nat>, index: nat, cell: TimedFmByte)
    requires |marks| == SECTORS_PER_TRACK
  {
    if index < IdAt(0) || index >= IdAt(SECTORS_PER_TRACK) then !IsIdMark(cell)
    else
      var k := SlotOf(index);
      var r, m := index - IdAt(k), marks[k];
      if r <= 4 then false
      else if r <= 6 then true
      else if r < m then !IsIdMark(cell) && !IsDataMark(cell)
      else if r == m then IsDataMark(cell)
      else if r <= m + BYTES_PER_SECTOR + 2 then true
      else !IsIdMark(cell)
  }

  /** May this sector be rewritten from `start` on, counted from its ID mark?  The burst must
      begin after the sector number, no later than the present data mark, and end before the
      next ID mark; old data cells it leaves behind must not look like ID marks. */
  ghost predicate BurstAllowed(cells: Cells, marks: seq<nat>, k: nat, start: int)
    requires |marks| == SECTORS_PER_TRACK && |cells| == MAXIMUM_CELLS
  {
    && k < SECTORS_PER_TRACK
    && 4 <= start <= marks[k] && start <= SLOT_CELLS - BURST_CELLS
    && (start + 6 < marks[k] <= 57 ==>
          NoIdMarks(cells, IdAt(k) + start + BURST_CELLS, IdAt(k) + marks[k] + BYTES_PER_SECTOR + 3))
  }

  ghost predicate Allowed(disk: seq<Cells>, shadow: Shadow, write: DiskWrite)
    requires Represents(disk, shadow)
  {
    && write.track < TRACK_COUNT
    && match write
       case WriteCell(t, i, data, clocks) =>
         i < MAXIMUM_CELLS && CellAllowed(shadow.marks[t], i, TimedFmByte(BYTE_TICKS * i, data, clocks))
       case RewriteSector(t, k, start, burst) =>
         assert TrackHolds(disk[t], t, shadow.order, shadow.marks[t], shadow.image);
         IsBurst(burst) && BurstAllowed(disk[t], shadow.marks[t], k, start)
  }

  function ReplaceSector(image: seq<byte>, track: nat, sector: nat, data: seq<byte>): (after: seq<byte>)
    requires |image| == IMAGE_SIZE && track < TRACK_COUNT && 1 <= sector <= SECTORS_PER_TRACK
    requires |data| == BYTES_PER_SECTOR
    ensures |after| == IMAGE_SIZE
  {
    image[..SectorOffset(track, sector)] + data + image[SectorOffset(track, sector) + BYTES_PER_SECTOR..]
  }

  /** What a write means for the sector array. */
  ghost function Meaning(shadow: Shadow, write: DiskWrite): (after: Shadow)
    requires WellFormed(shadow) && write.track < TRACK_COUNT
    requires write.RewriteSector? ==> IsBurst(write.burst) && write.slot < SECTORS_PER_TRACK && write.start >= 0
    ensures WellFormed(after)
  {
    match write
    case WriteCell(t, i, data, clocks) =>
      if i < IdAt(0) || i >= IdAt(SECTORS_PER_TRACK) then shadow
      else
        var k := SlotOf(i);
        var r, m := i - IdAt(k), shadow.marks[t][k];
        if m < r <= m + BYTES_PER_SECTOR
        then shadow.(image := shadow.image[SectorOffset(t, shadow.order[k]) + (r - m - 1) := data])
        else shadow
    case RewriteSector(t, k, start, burst) =>
      var mark: nat := start + 6;
      var trackMarks: seq<nat> := shadow.marks[t][k := mark];
      Shadow(shadow.order, shadow.marks[t := trackMarks],
             ReplaceSector(shadow.image, t, shadow.order[k], burst.data))
  }

  // ---------------------------------------------------------------- sectors do not overlap

  lemma {:induction false} ReplacedSector(image: seq<byte>, track: nat, sector: nat, data: seq<byte>, t: nat, s: nat)
    requires |image| == IMAGE_SIZE && track < TRACK_COUNT && 1 <= sector <= SECTORS_PER_TRACK
    requires |data| == BYTES_PER_SECTOR && t < TRACK_COUNT && 1 <= s <= SECTORS_PER_TRACK
    ensures SectorData(ReplaceSector(image, track, sector, data), t, s)
         == if t == track && s == sector then data else SectorData(image, t, s)
  {
    var after := ReplaceSector(image, track, sector, data);
    var at := SectorOffset(track, sector);
    assert forall i :: 0 <= i < IMAGE_SIZE ==>
             after[i] == if at <= i < at + BYTES_PER_SECTOR then data[i - at] else image[i];
    if t != track {
      assert t < track || t > track;
    }
    assert SectorOffset(t, s) == at || SectorOffset(t, s) + BYTES_PER_SECTOR <= at
        || at + BYTES_PER_SECTOR <= SectorOffset(t, s);
  }

  lemma {:induction false} UpdatedByte(image: seq<byte>, track: nat, sector: nat, j: nat, data: byte)
    requires |image| == IMAGE_SIZE && track < TRACK_COUNT && 1 <= sector <= SECTORS_PER_TRACK
    requires j < BYTES_PER_SECTOR
    ensures image[SectorOffset(track, sector) + j := data]
         == ReplaceSector(image, track, sector, SectorData(image, track, sector)[j := data])
  {
  }

  // ---------------------------------------------------------------- one track is written

  /** Slots and ends of a track whose cells did not change still read the same. */
  lemma {:induction false} SlotUntouched(before: Cells, after: Cells, track: nat, k: nat, sector: byte, m: nat)
    requires SlotReads(before, track, k, sector, m) && |after| == |before|
    requires forall i :: IdAt(k) <= i < IdAt(k) + SLOT_CELLS ==> after[i] == before[i]
    ensures SlotReads(after, track, k, sector, m)
    ensures SlotData(after, k, m) == SlotData(before, k, m)
  {
  }

  /** The data of slot `k` after `value` has been written to cell `index`. */
  function CellData(data: seq<byte>, m: nat, k: nat, index: nat, value: byte): (after: seq<byte>)
    requires |data| == BYTES_PER_SECTOR
    ensures |after| == BYTES_PER_SECTOR
  {
    var r := index - IdAt(k);
    if m < r <= m + BYTES_PER_SECTOR && r < SLOT_CELLS then data[r - m - 1 := value] else data
  }

  lemma {:induction false} SlotAfterCell(before: Cells, track: nat, k: nat, sector: byte, marks: seq<nat>,
                                         index: nat, cell: TimedFmByte)
    requires |marks| == SECTORS_PER_TRACK && k < SECTORS_PER_TRACK
    requires SlotReads(before, track, k, sector, marks[k])
    requires IdAt(k) <= index < IdAt(k) + SLOT_CELLS && CellAllowed(marks, index, cell)
    ensures SlotReads(before[index := cell], track, k, sector, marks[k])
    ensures SlotData(before[index := cell], k, marks[k])
         == CellData(SlotData(before, k, marks[k]), marks[k], k, index, cell.data)
  {
    assert SlotOf(index) == k;
  }

  lemma {:induction false} SlotAfterBurst(before: Cells, track: nat, k: nat, sector: byte, marks: seq<nat>,
                                          start: nat, burst: SectorBurst)
    requires |marks| == SECTORS_PER_TRACK && |before| == MAXIMUM_CELLS && IsBurst(burst)
    requires k < SECTORS_PER_TRACK && SlotReads(before, track, k, sector, marks[k])
    requires BurstAllowed(before, marks, k, start)
    ensures var after := Record(before, IdAt(k) + start, burst, BURST_CELLS);
            && SlotReads(after, track, k, sector, start + 6)
            && SlotData(after, k, start + 6) == burst.data
  {
    var from := IdAt(k) + start;
    var after := Record(before, from, burst, BURST_CELLS);
    assert after[from + 6] == TimedFmByte(before[from + 6].tick, burst.mark, SECTOR_MARK_CLOCKS);
    assert forall i :: from <= i < from + BURST_CELLS && i != from + 6 ==> after[i].clocks == ORDINARY_CLOCKS;
    assert forall i :: from + 7 <= i < from + 135 ==> after[i].data == burst.data[i - from - 7];
    if start == 4 {
      assert after[from].data == 0x00;
    }
  }

  lemma {:induction false} CellKeepsTrack(cells: Cells, track: nat, order: seq<byte>, marks: seq<nat>, image: seq<byte>,
                       index: nat, cell: TimedFmByte, image': seq<byte>)
    requires IsSectorOrder(order) && |image| == |image'| == IMAGE_SIZE && track < TRACK_COUNT
    requires TrackHolds(cells, track, order, marks, image) && index < MAXIMUM_CELLS
    requires cell.tick == BYTE_TICKS * index && CellAllowed(marks, index, cell)
    requires forall k :: 0 <= k < SECTORS_PER_TRACK ==>
               SectorData(image', track, order[k])
               == CellData(SectorData(image, track, order[k]), marks[k], k, index, cell.data)
    ensures TrackHolds(cells[index := cell], track, order, marks, image')
  {
    var after := cells[index := cell];
    forall k | 0 <= k < SECTORS_PER_TRACK
      ensures SlotReads(after, track, k, order[k], marks[k])
      ensures SlotData(after, k, marks[k]) == SectorData(image', track, order[k])
    {
      assert SlotReads(cells, track, k, order[k], marks[k]);
      if IdAt(k) <= index < IdAt(k) + SLOT_CELLS {
        SlotAfterCell(cells, track, k, order[k], marks, index, cell);
      } else {
        SlotUntouched(cells, after, track, k, order[k], marks[k]);
      }
    }
    EndsAfterCell(cells, marks, index, cell);
  }

  lemma {:induction false} EndsAfterCell(cells: Cells, marks: seq<nat>, index: nat, cell: TimedFmByte)
    requires |cells| == MAXIMUM_CELLS && |marks| == SECTORS_PER_TRACK && index < |cells|
    requires CellAllowed(marks, index, cell)
    requires NoIdMarks(cells, 0, IdAt(0)) && NoIdMarks(cells, IdAt(SECTORS_PER_TRACK), |cells|)
    ensures var after := cells[index := cell];
            NoIdMarks(after, 0, IdAt(0)) && NoIdMarks(after, IdAt(SECTORS_PER_TRACK), |after|)
  {
  }

  lemma {:induction false} RewrittenSlot(cells: Cells, track: nat, order: seq<byte>, marks: seq<nat>, image: seq<byte>,
                        k: nat, start: nat, burst: SectorBurst)
    requires IsSectorOrder(order) && |image| == IMAGE_SIZE && track < TRACK_COUNT
    requires TrackHolds(cells, track, order, marks, image) && IsBurst(burst)
    requires BurstAllowed(cells, marks, k, start)
    ensures var mark: nat := start + 6;
            var after := Record(cells, IdAt(k) + start, burst, BURST_CELLS);
            && SlotReads(after, track, k, order[k], mark)
            && SlotData(after, k, mark) == SectorData(ReplaceSector(image, track, order[k], burst.data), track, order[k])
  {
    assert SlotReads(cells, track, k, order[k], marks[k]);
    ReplacedSector(image, track, order[k], burst.data, track, order[k]);
    SlotAfterBurst(cells, track, k, order[k], marks, start, burst);
  }

  lemma {:induction false} OtherSlot(cells: Cells, track: nat, order: seq<byte>, marks: seq<nat>, image: seq<byte>,
                        k: nat, start: nat, burst: SectorBurst, n: nat)
    requires IsSectorOrder(order) && |image| == IMAGE_SIZE && track < TRACK_COUNT
    requires TrackHolds(cells, track, order, marks, image) && IsBurst(burst)
    requires BurstAllowed(cells, marks, k, start) && n < SECTORS_PER_TRACK && n != k
    ensures var after := Record(cells, IdAt(k) + start, burst, BURST_CELLS);
            && SlotReads(after, track, n, order[n], marks[n])
            && SlotData(after, n, marks[n]) == SectorData(ReplaceSector(image, track, order[k], burst.data), track, order[n])
  {
    assert SlotReads(cells, track, n, order[n], marks[n]);
    ReplacedSector(image, track, order[k], burst.data, track, order[n]);
    SlotsApart(n, k);
    SlotUntouched(cells, Record(cells, IdAt(k) + start, burst, BURST_CELLS), track, n, order[n], marks[n]);
  }

  lemma {:induction false} BurstKeepsTrack(cells: Cells, track: nat, order: seq<byte>, marks: seq<nat>, image: seq<byte>,
                        k: nat, start: nat, burst: SectorBurst)
    requires IsSectorOrder(order) && |image| == IMAGE_SIZE && track < TRACK_COUNT
    requires TrackHolds(cells, track, order, marks, image) && IsBurst(burst)
    requires BurstAllowed(cells, marks, k, start)
    ensures var mark: nat := start + 6;
            TrackHolds(Record(cells, IdAt(k) + start, burst, BURST_CELLS), track, order, marks[k := mark],
                       ReplaceSector(image, track, order[k], burst.data))
  {
    var after := Record(cells, IdAt(k) + start, burst, BURST_CELLS);
    var image' := ReplaceSector(image, track, order[k], burst.data);
    var mark: nat := start + 6;
    var marks': seq<nat> := marks[k := mark];
    forall n | 0 <= n < SECTORS_PER_TRACK
      ensures SlotReads(after, track, n, order[n], marks'[n])
      ensures SlotData(after, n, marks'[n]) == SectorData(image', track, order[n])
    {
      if n == k {
        RewrittenSlot(cells, track, order, marks, image, k, start, burst);
      } else {
        OtherSlot(cells, track, order, marks, image, k, start, burst, n);
      }
    }
    BurstStaysInside(cells, k, start, burst);
  }

  /** Neither the gap before the first sector nor the one after the last is touched. */
  lemma {:induction false} BurstStaysInside(cells: Cells, k: nat, start: nat, burst: SectorBurst)
    requires |cells| == MAXIMUM_CELLS && IsBurst(burst) && k < SECTORS_PER_TRACK
    requires start <= SLOT_CELLS - BURST_CELLS && Regular(cells)
    requires NoIdMarks(cells, 0, IdAt(0)) && NoIdMarks(cells, IdAt(SECTORS_PER_TRACK), |cells|)
    ensures var after := Record(cells, IdAt(k) + start, burst, BURST_CELLS);
            Regular(after) && NoIdMarks(after, 0, IdAt(0)) && NoIdMarks(after, IdAt(SECTORS_PER_TRACK), |after|)
  {
    SlotsApart(0, k);
    SlotsApart(k, SECTORS_PER_TRACK);
  }

  lemma {:induction false} SlotsApart(n: nat, k: nat)
    ensures n < k ==> IdAt(n) + SLOT_CELLS <= IdAt(k)
    ensures k < n ==> IdAt(k) + SLOT_CELLS <= IdAt(n)
  {
  }

  // ---------------------------------------------------------------- the refinement

  /** One sector of the image has been replaced: 3,328 bytes a track, 128 a sector. */
  ghost predicate SectorReplaced(before: seq<byte>, after: seq<byte>, track: nat, sector: nat, data: seq<byte>) {
    && |before| == |after| == 256_256 && |data| == 128 && 1 <= sector
    && forall n :: 0 <= n < 256_256 ==>
         after[n] == if 3328 * track + 128 * (sector - 1) <= n < 3328 * track + 128 * sector
                     then data[n - 3328 * track - 128 * (sector - 1)] else before[n]
  }

  /** One byte of a sector has been replaced. */
  ghost predicate ByteReplaced(before: seq<byte>, after: seq<byte>, track: nat, sector: nat, j: nat, value: byte) {
    && |before| == 256_256 && track < 77 && 1 <= sector <= 26 && j < 128
    && after == before[3328 * track + 128 * (sector - 1) + j := value]
  }

  /** The cell at index `i` holds byte `j` of the sector in slot `k`: an ID mark every 188 cells from
      cell 79 on, the data mark as far behind it as `marks` says, and the data behind that. */
  predicate HoldsByte(marks: seq<nat>, i: nat, k: nat, j: nat) {
    k < 26 == |marks| && j < 128 && i == 79 + 188 * k + marks[k] + 1 + j
  }

  ghost predicate HoldsNothing(marks: seq<nat>, i: nat) {
    forall k: nat, j: nat :: !HoldsByte(marks, i, k, j)
  }

  /** A cell that holds a byte of a sector changes that byte, and any other cell none. */
  ghost predicate CellChanges(shadow: Shadow, t: nat, i: nat, data: byte, after: seq<byte>)
    requires WellFormed(shadow) && t < TRACK_COUNT
  {
    && (forall k: nat, j: nat :: HoldsByte(shadow.marks[t], i, k, j) ==>
          ByteReplaced(shadow.image, after, t, shadow.order[k], j, data))
    && (HoldsNothing(shadow.marks[t], i) ==> after == shadow.image)
  }

  /** What a write makes of the image, byte by byte. */
  ghost predicate Changes(shadow: Shadow, write: DiskWrite, after: seq<byte>)
    requires WellFormed(shadow) && write.track < TRACK_COUNT
  {
    match write
    case RewriteSector(t, k, _, burst) =>
      k < |shadow.order| && SectorReplaced(shadow.image, after, t, shadow.order[k], burst.data)
    case WriteCell(t, i, data, _) => CellChanges(shadow, t, i, data, after)
  }

  lemma {:induction false} ReplacedInPlace(image: seq<byte>, track: nat, sector: nat, data: seq<byte>)
    requires |image| == IMAGE_SIZE && track < TRACK_COUNT && 1 <= sector <= SECTORS_PER_TRACK && |data| == BYTES_PER_SECTOR
    ensures SectorReplaced(image, ReplaceSector(image, track, sector, data), track, sector, data)
  {
  }

  /** Which byte a cell holds is a matter of its index. */
  lemma {:induction false} HoldsOne(marks: seq<nat>, i: nat, k: nat, j: nat)
    requires HoldsByte(marks, i, k, j) && 7 <= marks[k] <= 57
    ensures IdAt(0) <= i < IdAt(SECTORS_PER_TRACK) && k == SlotOf(i) && j == i - IdAt(k) - marks[k] - 1
  {
    SlotsApart(k, SECTORS_PER_TRACK);
  }

  lemma {:induction false} ByteIsReplaced(image: seq<byte>, track: nat, sector: nat, j: nat, value: byte)
    requires |image| == IMAGE_SIZE && track < TRACK_COUNT && 1 <= sector <= SECTORS_PER_TRACK && j < BYTES_PER_SECTOR
    ensures ByteReplaced(image, image[SectorOffset(track, sector) + j := value], track, sector, j, value)
  {
  }

  lemma {:induction false} CellMeans(shadow: Shadow, write: DiskWrite)
    requires WellFormed(shadow) && write.WriteCell? && write.track < TRACK_COUNT
    requires forall k :: 0 <= k < SECTORS_PER_TRACK ==> 7 <= shadow.marks[write.track][k] <= 57
    ensures Changes(shadow, write, Meaning(shadow, write).image)
  {
    var t, i := write.track, write.index;
    var marks := shadow.marks[t];
    forall k: nat, j: nat | HoldsByte(marks, i, k, j)
      ensures ByteReplaced(shadow.image, Meaning(shadow, write).image, t, shadow.order[k], j, write.data)
    {
      HoldsOne(marks, i, k, j);
      ByteIsReplaced(shadow.image, t, shadow.order[k], j, write.data);
    }
    if IdAt(0) <= i < IdAt(SECTORS_PER_TRACK) {
      var k := SlotOf(i);
      var r, m := i - IdAt(k), marks[k];
      if m < r <= m + BYTES_PER_SECTOR {
        assert HoldsByte(marks, i, k, r - m - 1);
      }
    }
  }

  lemma {:induction false} MarksInRange(disk: seq<Cells>, shadow: Shadow, t: nat)
    requires Represents(disk, shadow) && t < TRACK_COUNT
    ensures forall k :: 0 <= k < SECTORS_PER_TRACK ==> 7 <= shadow.marks[t][k] <= 57
  {
    assert TrackHolds(disk[t], t, shadow.order, shadow.marks[t], shadow.image);
    forall k | 0 <= k < SECTORS_PER_TRACK
      ensures 7 <= shadow.marks[t][k] <= 57
    {
      assert SlotReads(disk[t], t, k, shadow.order[k], shadow.marks[t][k]);
    }
  }

  /** Every allowed write keeps the disk in step with its sector array, and changes exactly the bytes it
      should. */
  lemma {:induction false} WriteRefines(disk: seq<Cells>, shadow: Shadow, write: DiskWrite)
    requires Represents(disk, shadow) && Allowed(disk, shadow, write)
    ensures Represents(Apply(disk, write), Meaning(shadow, write))
    ensures Changes(shadow, write, Meaning(shadow, write).image)
  {
    RefinesWrite(disk, shadow, write);
    match write
    case RewriteSector(t, k, _, burst) => ReplacedInPlace(shadow.image, t, shadow.order[k], burst.data);
    case WriteCell(t, _, _, _) =>
      MarksInRange(disk, shadow, t);
      CellMeans(shadow, write);
  }

  lemma {:induction false} RefinesWrite(disk: seq<Cells>, shadow: Shadow, write: DiskWrite)
    requires Represents(disk, shadow) && Allowed(disk, shadow, write)
    ensures Represents(Apply(disk, write), Meaning(shadow, write))
  {
    var after := Meaning(shadow, write);
    forall t | 0 <= t < TRACK_COUNT
      ensures TrackHolds(Apply(disk, write)[t], t, after.order, after.marks[t], after.image)
    {
      assert TrackHolds(disk[t], t, shadow.order, shadow.marks[t], shadow.image);
      if t == write.track {
        TrackWritten(disk, shadow, write);
      } else {
        OtherTrack(disk[t], t, shadow, write);
      }
    }
  }

  lemma {:induction false} OtherTrack(cells: Cells, t: nat, shadow: Shadow, write: DiskWrite)
    requires WellFormed(shadow) && t < TRACK_COUNT && write.track < TRACK_COUNT && t != write.track
    requires TrackHolds(cells, t, shadow.order, shadow.marks[t], shadow.image)
    requires write.RewriteSector? ==> IsBurst(write.burst) && write.slot < SECTORS_PER_TRACK && write.start >= 0
    ensures TrackHolds(cells, t, shadow.order, Meaning(shadow, write).marks[t], Meaning(shadow, write).image)
  {
    forall k | 0 <= k < SECTORS_PER_TRACK
      ensures SectorData(Meaning(shadow, write).image, t, shadow.order[k]) == SectorData(shadow.image, t, shadow.order[k])
    {
      match write
      case RewriteSector(u, n, start, burst) =>
        ReplacedSector(shadow.image, u, shadow.order[n], burst.data, t, shadow.order[k]);
      case WriteCell(u, i, data, clocks) =>
        if Meaning(shadow, write) != shadow {
          var n := SlotOf(i);
          var j := i - IdAt(n) - shadow.marks[u][n] - 1;
          UpdatedByte(shadow.image, u, shadow.order[n], j, data);
          ReplacedSector(shadow.image, u, shadow.order[n],
                         SectorData(shadow.image, u, shadow.order[n])[j := data], t, shadow.order[k]);
        }
    }
  }

  lemma {:induction false} TrackWritten(disk: seq<Cells>, shadow: Shadow, write: DiskWrite)
    requires Represents(disk, shadow) && Allowed(disk, shadow, write)
    ensures var t, after := write.track, Meaning(shadow, write);
            TrackHolds(Apply(disk, write)[t], t, after.order, after.marks[t], after.image)
  {
    var t := write.track;
    assert TrackHolds(disk[t], t, shadow.order, shadow.marks[t], shadow.image);
    match write
    case RewriteSector(_, n, start, burst) =>
      BurstKeepsTrack(disk[t], t, shadow.order, shadow.marks[t], shadow.image, n, start, burst);
    case WriteCell(_, _, _, _) => CellWriteKeeps(disk, shadow, write);
  }

  lemma {:induction false} CellWriteKeeps(disk: seq<Cells>, shadow: Shadow, write: DiskWrite)
    requires Represents(disk, shadow) && Allowed(disk, shadow, write) && write.WriteCell?
    ensures var t, after := write.track, Meaning(shadow, write);
            TrackHolds(Apply(disk, write)[t], t, after.order, after.marks[t], after.image)
  {
    var t, i := write.track, write.index;
    assert TrackHolds(disk[t], t, shadow.order, shadow.marks[t], shadow.image);
    CellMeaning(shadow, write);
    CellKeepsTrack(disk[t], t, shadow.order, shadow.marks[t], shadow.image,
                   i, TimedFmByte(disk[t][i].tick, write.data, write.clocks), Meaning(shadow, write).image);
  }

  lemma {:induction false} CellMeaning(shadow: Shadow, write: DiskWrite)
    requires WellFormed(shadow) && write.WriteCell? && write.track < TRACK_COUNT
    ensures var t, order := write.track, shadow.order;
            forall k :: 0 <= k < SECTORS_PER_TRACK ==>
              SectorData(Meaning(shadow, write).image, t, order[k])
              == CellData(SectorData(shadow.image, t, order[k]), shadow.marks[t][k], k, write.index, write.data)
  {
    var t, i := write.track, write.index;
    forall k | 0 <= k < SECTORS_PER_TRACK
      ensures SectorData(Meaning(shadow, write).image, t, shadow.order[k])
              == CellData(SectorData(shadow.image, t, shadow.order[k]), shadow.marks[t][k], k, i, write.data)
    {
      if IdAt(0) <= i < IdAt(SECTORS_PER_TRACK) {
        var n := SlotOf(i);
        var r, m := i - IdAt(n), shadow.marks[t][n];
        assert 0 <= r < SLOT_CELLS;
        SlotsApart(n, k);
        if m < r <= m + BYTES_PER_SECTOR {
          var j := r - m - 1;
          UpdatedByte(shadow.image, t, shadow.order[n], j, write.data);
          ReplacedSector(shadow.image, t, shadow.order[n],
                         SectorData(shadow.image, t, shadow.order[n])[j := write.data], t, shadow.order[k]);
        }
      }
    }
  }

  // ---------------------------------------------------------------- whole histories

  /** Every write of the history is allowed at its turn. */
  ghost predicate AllAllowed(disk: seq<Cells>, shadow: Shadow, writes: seq<DiskWrite>)
    requires Represents(disk, shadow)
    decreases writes
  {
    writes == [] ||
    (&& Allowed(disk, shadow, writes[0])
     && (WriteRefines(disk, shadow, writes[0]);
         AllAllowed(Apply(disk, writes[0]), Meaning(shadow, writes[0]), writes[1..])))
  }

  ghost function AfterAll(disk: seq<Cells>, shadow: Shadow, writes: seq<DiskWrite>): (seq<Cells>, Shadow)
    requires Represents(disk, shadow) && AllAllowed(disk, shadow, writes)
    decreases writes
  {
    if writes == [] then (disk, shadow)
    else
      WriteRefines(disk, shadow, writes[0]);
      AfterAll(Apply(disk, writes[0]), Meaning(shadow, writes[0]), writes[1..])
  }

  /** After any history of allowed writes an export succeeds and is the sector array with the
      same history applied to it. */
  lemma {:induction false} HistoryRefines(disk: seq<Cells>, shadow: Shadow, writes: seq<DiskWrite>)
    requires Represents(disk, shadow) && AllAllowed(disk, shadow, writes)
    ensures var (disk', shadow') := AfterAll(disk, shadow, writes);
            && Represents(disk', shadow')
            && Complete(disk')
            && forall image :: IsImageOf(image, disk') <==> image == shadow'.image
    decreases writes
  {
    if writes == [] {
      ExportOf(disk, shadow);
    } else {
      WriteRefines(disk, shadow, writes[0]);
      HistoryRefines(Apply(disk, writes[0]), Meaning(shadow, writes[0]), writes[1..]);
    }
  }
}
