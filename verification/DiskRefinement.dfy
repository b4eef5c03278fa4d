/** A disk of timed FM cells refines an array of sectors.

    `Represents` ties a disk to the sector image it holds and to the place of the data mark in
    every sector slot.  Formatting establishes it, single cell writes and sector rewrites keep
    it, and it fixes what an export returns. */
module DiskRefinement {
  import opened Bytes
  import opened Wrappers
  import opened FloppyTracks
  import opened SectorImages

  type Cells = seq<TimedFmByte>

  // ---------------------------------------------------------------- a readable track

  /** Where the ID mark of slot `k` stands; `IdAt(26)` is where a next one would. */
  function IdAt(k: nat): nat {
    SlotStart(k) + 6
  }

  ghost predicate NoIdMarks(cells: Cells, from: nat, to: nat)
    requires to <= |cells|
  {
    forall i :: from <= i < to ==> !IsIdMark(cells[i])
  }

  ghost predicate NoMarks(cells: Cells, from: nat, to: nat)
    requires to <= |cells|
  {
    forall i :: from <= i < to ==> !IsIdMark(cells[i]) && !IsDataMark(cells[i])
  }

  /** Slot `k` names `sector` and its data mark stands `m` cells after the ID mark.  Nothing is
      said about the CRC cells or the data cells. */
  ghost predicate SlotReads(cells: Cells, track: nat, k: nat, sector: byte, m: nat) {
    var f := IdAt(k);
    && f + SLOT_CELLS <= |cells| && 7 <= m <= 57
    && IsIdMark(cells[f]) && cells[f + 1].data == track && cells[f + 2].data == 0
    && cells[f + 3].data == sector && cells[f + 4].data == 0
    && NoMarks(cells, f + 7, f + m)
    && IsDataMark(cells[f + m])
    && NoIdMarks(cells, f + m + BYTES_PER_SECTOR + 3, f + SLOT_CELLS)
  }

  function SlotData(cells: Cells, k: nat, m: nat): (data: seq<byte>)
    requires IdAt(k) + SLOT_CELLS <= |cells| && m <= 57
    ensures |data| == BYTES_PER_SECTOR
  {
    FieldData(cells, IdAt(k) + m + 1, BYTES_PER_SECTOR)
  }

  ghost predicate Readable(cells: Cells, track: nat, order: seq<byte>, marks: seq<nat>)
    requires IsSectorOrder(order)
  {
    && |cells| == MAXIMUM_CELLS && |marks| == SECTORS_PER_TRACK
    && NoIdMarks(cells, 0, IdAt(0))
    && (forall k :: 0 <= k < SECTORS_PER_TRACK ==> SlotReads(cells, track, k, order[k], marks[k]))
    && NoIdMarks(cells, IdAt(SECTORS_PER_TRACK), |cells|)
  }

  // ---------------------------------------------------------------- what the scanner reads

  lemma {:induction false} SkipPlain(cells: Cells, track: nat, from: nat, to: nat, pending: Option<nat>,
                                     found: map<nat, seq<byte>>)
    requires from <= to <= |cells| && NoMarks(cells, from, to)
    ensures Scan(cells, track, from, pending, found) == Scan(cells, track, to, pending, found)
    decreases |cells| - from
  {
    if from < to {
      SkipPlain(cells, track, from + 1, to, pending, found);
    }
  }

  lemma {:induction false} SkipIdle(cells: Cells, track: nat, from: nat, to: nat, found: map<nat, seq<byte>>)
    requires from <= to <= |cells| && NoIdMarks(cells, from, to)
    ensures Scan(cells, track, from, None, found) == Scan(cells, track, to, None, found)
    decreases |cells| - from
  {
    if from < to {
      SkipIdle(cells, track, from + 1, to, found);
    }
  }

  /** One slot: its sector is read, and the scan stands before the next ID mark. */
  lemma {:induction false} ScanSlot(cells: Cells, track: nat, k: nat, sector: byte, m: nat, found: map<nat, seq<byte>>)
    requires SlotReads(cells, track, k, sector, m) && 1 <= sector <= SECTORS_PER_TRACK
    ensures Scan(cells, track, IdAt(k), None, found)
         == Scan(cells, track, IdAt(k) + SLOT_CELLS, None, found[sector := SlotData(cells, k, m)])
  {
    var f := IdAt(k);
    SkipPlain(cells, track, f + 7, f + m, Some(sector), found);
    SkipIdle(cells, track, f + m + BYTES_PER_SECTOR + 3, f + SLOT_CELLS, found[sector := SlotData(cells, k, m)]);
  }

  /** The sectors of the first `n` slots. */
  ghost function SlotMap(cells: Cells, order: seq<byte>, marks: seq<nat>, n: nat): map<nat, seq<byte>>
    requires n <= |order| && n <= |marks| && IdAt(n) <= |cells| && forall k :: 0 <= k < n ==> marks[k] <= 57
  {
    if n == 0 then map[]
    else SlotMap(cells, order, marks, n - 1)[order[n - 1] := SlotData(cells, n - 1, marks[n - 1])]
  }

  lemma {:induction false} ScanSlots(cells: Cells, track: nat, order: seq<byte>, marks: seq<nat>, n: nat)
    requires IsSectorOrder(order) && n <= SECTORS_PER_TRACK && n <= |marks| && IdAt(n) <= |cells|
    requires NoIdMarks(cells, 0, IdAt(0))
    requires forall k :: 0 <= k < n ==> marks[k] <= 57
    requires forall k :: 0 <= k < n ==> SlotReads(cells, track, k, order[k], marks[k])
    ensures Sectors(cells, track) == Scan(cells, track, IdAt(n), None, SlotMap(cells, order, marks, n))
  {
    if n == 0 {
      SkipIdle(cells, track, 0, IdAt(0), map[]);
    } else {
      ScanSlots(cells, track, order, marks, n - 1);
      ScanSlot(cells, track, n - 1, order[n - 1], marks[n - 1], SlotMap(cells, order, marks, n - 1));
    }
  }

  lemma {:induction false} SlotMapEntries(cells: Cells, order: seq<byte>, marks: seq<nat>, n: nat)
    requires IsSectorOrder(order) && n <= SECTORS_PER_TRACK && n <= |marks| && IdAt(n) <= |cells|
    requires forall k :: 0 <= k < n ==> marks[k] <= 57
    ensures forall k :: 0 <= k < n ==>
              && order[k] in SlotMap(cells, order, marks, n)
              && SlotMap(cells, order, marks, n)[order[k]] == SlotData(cells, k, marks[k])
  {
    if n > 0 {
      SlotMapEntries(cells, order, marks, n - 1);
    }
  }

  /** A readable track yields, for every slot, the data after its mark. */
  lemma {:induction false} ReadableSectors(cells: Cells, track: nat, order: seq<byte>, marks: seq<nat>)
    requires IsSectorOrder(order) && Readable(cells, track, order, marks)
    ensures forall k :: 0 <= k < SECTORS_PER_TRACK ==>
              order[k] in Sectors(cells, track)
              && Sectors(cells, track)[order[k]] == SlotData(cells, k, marks[k])
  {
    ScanSlots(cells, track, order, marks, SECTORS_PER_TRACK);
    SkipIdle(cells, track, IdAt(SECTORS_PER_TRACK), |cells|, SlotMap(cells, order, marks, SECTORS_PER_TRACK));
    SlotMapEntries(cells, order, marks, SECTORS_PER_TRACK);
  }

  // ---------------------------------------------------------------- the represented image

  /** The sector array a disk stands for, with the place of each data mark. */
  datatype Shadow = Shadow(order: seq<byte>, marks: seq<seq<nat>>, image: seq<byte>)

  ghost predicate WellFormed(shadow: Shadow) {
    && IsSectorOrder(shadow.order)
    && |shadow.marks| == TRACK_COUNT
    && (forall t :: 0 <= t < TRACK_COUNT ==> |shadow.marks[t]| == SECTORS_PER_TRACK)
    && |shadow.image| == IMAGE_SIZE
  }

  ghost predicate TrackHolds(cells: Cells, track: nat, order: seq<byte>, marks: seq<nat>, image: seq<byte>)
    requires IsSectorOrder(order) && |image| == IMAGE_SIZE && track < TRACK_COUNT
  {
    && Regular(cells)
    && Readable(cells, track, order, marks)
    && (forall k :: 0 <= k < SECTORS_PER_TRACK ==>
          SlotData(cells, k, marks[k]) == SectorData(image, track, order[k]))
  }

  ghost predicate Represents(disk: seq<Cells>, shadow: Shadow) {
    && WellFormed(shadow)
    && |disk| == TRACK_COUNT
    && forall t :: 0 <= t < TRACK_COUNT ==>
         TrackHolds(disk[t], t, shadow.order, shadow.marks[t], shadow.image)
  }

  lemma {:induction false} SameSectorsSameImage(a: seq<byte>, b: seq<byte>)
    requires |a| == |b| == IMAGE_SIZE
    requires forall t, s :: 0 <= t < TRACK_COUNT && 1 <= s <= SECTORS_PER_TRACK ==>
               SectorData(a, t, s) == SectorData(b, t, s)
    ensures a == b
  {
    forall i | 0 <= i < IMAGE_SIZE
      ensures a[i] == b[i]
    {
      var t, s, j := i / TRACK_BYTES, i / BYTES_PER_SECTOR % SECTORS_PER_TRACK + 1, i % BYTES_PER_SECTOR;
      assert SectorOffset(t, s) + j == i;
      assert SectorData(a, t, s)[j] == a[i] && SectorData(b, t, s)[j] == b[i];
    }
  }

  /** The export of a disk is the image it represents, and no other. */
  lemma {:induction false} ExportOf(disk: seq<Cells>, shadow: Shadow)
    requires Represents(disk, shadow)
    ensures Complete(disk)
    ensures forall image :: IsImageOf(image, disk) <==> image == shadow.image
  {
    forall t, s | 0 <= t < TRACK_COUNT && 1 <= s <= SECTORS_PER_TRACK
      ensures s in Sectors(disk[t], t) && Sectors(disk[t], t)[s] == SectorData(shadow.image, t, s)
    {
      assert TrackHolds(disk[t], t, shadow.order, shadow.marks[t], shadow.image);
      ReadableSectors(disk[t], t, shadow.order, shadow.marks[t]);
      var number: byte := s;
      assert number in shadow.order;
      var k :| 0 <= k < |shadow.order| && shadow.order[k] == s;
    }
    forall image | IsImageOf(image, disk)
      ensures image == shadow.image
    {
      SameSectorsSameImage(image, shadow.image);
    }
  }

  // ---------------------------------------------------------------- formatting establishes it

  const FRESH_MARK: nat := 24

  ghost function FreshTrackMarks(): (marks: seq<nat>)
    ensures |marks| == SECTORS_PER_TRACK && forall k :: 0 <= k < |marks| ==> marks[k] == FRESH_MARK
  {
    seq(SECTORS_PER_TRACK, _ => FRESH_MARK)
  }

  ghost function FreshMarks(): (marks: seq<seq<nat>>)
    ensures |marks| == TRACK_COUNT && forall t :: 0 <= t < |marks| ==> marks[t] == FreshTrackMarks()
  {
    seq(TRACK_COUNT, _ => FreshTrackMarks())
  }

  ghost predicate FormattedDisk(disk: seq<Cells>, image: seq<byte>, order: seq<byte>)
    requires |image| == IMAGE_SIZE && IsSectorOrder(order)
  {
    && |disk| == TRACK_COUNT
    && forall t :: 0 <= t < TRACK_COUNT ==> Formatted(disk[t], image, order, t)
  }

  /** The two marks of a slot, its identification and its data; every other clock is
      ordinary. */
  lemma {:induction false} SlotFmShape(track: nat, sector: byte, data: seq<byte>, o: nat)
    requires track < TRACK_COUNT && |data| == BYTES_PER_SECTOR && o < SLOT_CELLS
    ensures var (d, c) := SlotFm(track, sector, data, o);
            && (o == 6 ==> d == 0xFE && c == SECTOR_MARK_CLOCKS)
            && (o == 30 ==> d == 0xFB && c == SECTOR_MARK_CLOCKS)
            && (o != 6 && o != 30 ==> c == ORDINARY_CLOCKS)
            && (7 <= o < 11 ==> d == [track, 0, sector, 0][o - 7])
            && (31 <= o < 159 ==> d == data[o - 31])
  {
  }

  lemma {:induction false} FormattedSlot(cells: Cells, image: seq<byte>, order: seq<byte>, track: nat, k: nat)
    requires |image| == IMAGE_SIZE && track < TRACK_COUNT && IsSectorOrder(order)
    requires Formatted(cells, image, order, track) && k < SECTORS_PER_TRACK
    ensures SlotReads(cells, track, k, order[k], FRESH_MARK)
    ensures SlotData(cells, k, FRESH_MARK) == SectorData(image, track, order[k])
    ensures NoIdMarks(cells, SlotStart(k), IdAt(k)) && NoMarks(cells, IdAt(k) + 1, IdAt(k) + FRESH_MARK)
    ensures NoMarks(cells, IdAt(k) + FRESH_MARK + 1, SlotStart(k + 1))
  {
    var data, start := SectorData(image, track, order[k]), SlotStart(k);
    assert SlotPart(cells, start, track, order[k], data, SLOT_CELLS);
    forall i | start <= i < start + SLOT_CELLS
      ensures i == start + 6 ==> IsIdMark(cells[i])
      ensures i == start + 30 ==> IsDataMark(cells[i])
      ensures i != start + 6 && i != start + 30 ==> cells[i].clocks == ORDINARY_CLOCKS
      ensures start + 7 <= i < start + 11 ==> cells[i].data == [track, 0, order[k], 0][i - start - 7]
      ensures start + 31 <= i < start + 159 ==> cells[i].data == data[i - start - 31]
    {
      SlotFmShape(track, order[k], data, i - start);
    }
    AfterSlot(cells, image, order, track, k);
  }

  lemma {:induction false} AfterSlot(cells: Cells, image: seq<byte>, order: seq<byte>, track: nat, k: nat)
    requires |image| == IMAGE_SIZE && track < TRACK_COUNT && IsSectorOrder(order)
    requires Formatted(cells, image, order, track) && k < SECTORS_PER_TRACK
    ensures IdAt(k + 1) <= |cells| && NoIdMarks(cells, SlotStart(k + 1), IdAt(k + 1))
  {
    if k + 1 < SECTORS_PER_TRACK {
      assert SlotPart(cells, SlotStart(k + 1), track, order[k + 1], SectorData(image, track, order[k + 1]), SLOT_CELLS);
    }
  }

  lemma {:induction false} FormattedTrackHolds(cells: Cells, image: seq<byte>, order: seq<byte>, track: nat)
    requires |image| == IMAGE_SIZE && track < TRACK_COUNT && IsSectorOrder(order)
    requires Formatted(cells, image, order, track)
    ensures TrackHolds(cells, track, order, FreshTrackMarks(), image)
  {
    FormattedIsRegular(cells, image, order, track);
    assert SlotPart(cells, SlotStart(0), track, order[0], SectorData(image, track, order[0]), SLOT_CELLS);
    forall k | 0 <= k < SECTORS_PER_TRACK
      ensures SlotReads(cells, track, k, order[k], FRESH_MARK)
      ensures SlotData(cells, k, FRESH_MARK) == SectorData(image, track, order[k])
    {
      FormattedSlot(cells, image, order, track, k);
    }
  }

  lemma {:induction false} FormattedRepresents(disk: seq<Cells>, image: seq<byte>, order: seq<byte>)
    requires |image| == IMAGE_SIZE && IsSectorOrder(order)
    requires FormattedDisk(disk, image, order)
    ensures Represents(disk, Shadow(order, FreshMarks(), image))
  {
    forall t | 0 <= t < TRACK_COUNT
      ensures TrackHolds(disk[t], t, order, FreshMarks()[t], image)
    {
      FormattedTrackHolds(disk[t], image, order, t);
    }
  }

  /** Every image of the right size, under every skew the program accepts, survives expansion
      and export unchanged. */
  method RoundTrip(image: seq<byte>, skew: byte) returns (result: Option<seq<byte>>)
    ensures |image| == IMAGE_SIZE && AcceptsSkew(skew) ==> result == Some(image)
    ensures !(|image| == IMAGE_SIZE && AcceptsSkew(skew)) ==> result == None
  {
    var disk, order := Import(image, skew);
    if disk == null {
      return None;
    }
    result := ExportImage(disk);
    FormattedRepresents(disk.Contents(), image, order);
    ExportOf(disk.Contents(), Shadow(order, FreshMarks(), image));
  }
}
