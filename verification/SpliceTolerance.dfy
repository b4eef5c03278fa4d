/** How far a rewritten sector may lie from the one it replaces on a freshly formatted disk: exactly
    from fourteen cells before to six cells after, and nowhere else around the track. */
module SpliceTolerance {
  import opened Bytes
  import opened Wrappers
  import opened FloppyTracks
  import opened SectorImages
  import opened DiskRefinement
  import opened DiskWrites

  /** There is an ID field for `sector` at cell `j`. */
  ghost predicate Names(cells: Cells, track: nat, j: nat, sector: nat) {
    && j + 6 < |cells|
    && IsIdMark(cells[j])
    && NamedSector(cells, track, j) == Some(sector)
  }

  /** A sector that no ID field names is not read. */
  lemma {:induction false} UnnamedIsMissing(cells: Cells, track: nat, i: nat, pending: Option<nat>,
                                            found: map<nat, seq<byte>>, sector: nat)
    requires sector !in found && pending != Some(sector)
    requires forall j :: i <= j < |cells| ==> !Names(cells, track, j, sector)
    ensures sector !in Scan(cells, track, i, pending, found)
    decreases |cells| - i
  {
    if i < |cells| {
      assert !Names(cells, track, i, sector);
      if IsIdMark(cells[i]) {
        if i + 6 >= |cells| {
          UnnamedIsMissing(cells, track, i + 1, None, found, sector);
        } else {
          UnnamedIsMissing(cells, track, i + 7, NamedSector(cells, track, i), found, sector);
        }
      } else if IsDataMark(cells[i]) && pending.Some? {
        if i + BYTES_PER_SECTOR + 2 >= |cells| {
          UnnamedIsMissing(cells, track, i + 1, None, found, sector);
        } else {
          UnnamedIsMissing(cells, track, i + BYTES_PER_SECTOR + 3, None,
                           found[pending.value := FieldData(cells, i + 1, BYTES_PER_SECTOR)], sector);
        }
      } else {
        UnnamedIsMissing(cells, track, i + 1, pending, found, sector);
      }
    }
  }

  /** A sector once read and never named again keeps its data. */
  lemma {:induction false} UnnamedIsKept(cells: Cells, track: nat, i: nat, pending: Option<nat>,
                                         found: map<nat, seq<byte>>, sector: nat)
    requires sector in found && pending != Some(sector)
    requires forall j :: i <= j < |cells| ==> !Names(cells, track, j, sector)
    ensures sector in Scan(cells, track, i, pending, found)
    ensures Scan(cells, track, i, pending, found)[sector] == found[sector]
    decreases |cells| - i
  {
    if i < |cells| {
      assert !Names(cells, track, i, sector);
      if IsIdMark(cells[i]) {
        if i + 6 >= |cells| {
          UnnamedIsKept(cells, track, i + 1, None, found, sector);
        } else {
          UnnamedIsKept(cells, track, i + 7, NamedSector(cells, track, i), found, sector);
        }
      } else if IsDataMark(cells[i]) && pending.Some? {
        if i + BYTES_PER_SECTOR + 2 >= |cells| {
          UnnamedIsKept(cells, track, i + 1, None, found, sector);
        } else {
          UnnamedIsKept(cells, track, i + BYTES_PER_SECTOR + 3, None,
                        found[pending.value := FieldData(cells, i + 1, BYTES_PER_SECTOR)], sector);
        }
      } else {
        UnnamedIsKept(cells, track, i + 1, pending, found, sector);
      }
    }
  }

  /** A formatted track has no other marks than the two of each of its slots. */
  lemma {:induction false} FormattedMark(cells: Cells, image: seq<byte>, order: seq<byte>, track: nat, i: nat) returns (k: nat)
    requires |image| == IMAGE_SIZE && track < TRACK_COUNT && IsSectorOrder(order)
    requires Formatted(cells, image, order, track) && i < |cells| && (IsIdMark(cells[i]) || IsDataMark(cells[i]))
    ensures k < SECTORS_PER_TRACK
    ensures if IsIdMark(cells[i]) then i == IdAt(k) && i + 3 < |cells| && cells[i + 3].data == order[k]
            else i == IdAt(k) + FRESH_MARK
  {
    k := (i - HEADER_CELLS) / SLOT_CELLS;
    FormattedSlot(cells, image, order, track, k);
  }

  // ---------------------------------------------------------------- a burst around the track

  /** How far cell `i` lies behind cell `from`, around the track. */
  function Behind(from: nat, i: nat): (j: nat)
    requires from < MAXIMUM_CELLS && i < MAXIMUM_CELLS
    ensures j < MAXIMUM_CELLS
  {
    (i + MAXIMUM_CELLS - from) % MAXIMUM_CELLS
  }

  /** The burst covers this cell. */
  predicate Covers(from: nat, i: nat)
    requires from < MAXIMUM_CELLS && i < MAXIMUM_CELLS
  {
    Behind(from, i) < BURST_CELLS
  }

  /** The track with a burst recorded from cell `from` on, across the index if it does not end
      before. */
  ghost function Around(cells: Cells, from: nat, burst: SectorBurst): (after: Cells)
    requires IsBurst(burst) && |cells| == MAXIMUM_CELLS && from < MAXIMUM_CELLS
    ensures |after| == MAXIMUM_CELLS
    ensures forall i :: 0 <= i < MAXIMUM_CELLS && !Covers(from, i) ==> after[i] == cells[i]
    ensures forall i :: 0 <= i < MAXIMUM_CELLS && Covers(from, i) ==>
              after[i] == TimedFmByte(cells[i].tick, BurstFm(burst, Behind(from, i)).0, BurstFm(burst, Behind(from, i)).1)
  {
    seq(MAXIMUM_CELLS, i requires 0 <= i < MAXIMUM_CELLS =>
      if Covers(from, i)
      then TimedFmByte(cells[i].tick, BurstFm(burst, Behind(from, i)).0, BurstFm(burst, Behind(from, i)).1)
      else cells[i])
  }

  /** A burst that ends before the index is recorded cell after cell. */
  lemma {:induction false} AroundIsRecord(cells: Cells, from: nat, burst: SectorBurst)
    requires IsBurst(burst) && |cells| == MAXIMUM_CELLS && from + BURST_CELLS <= MAXIMUM_CELLS
    ensures Around(cells, from, burst) == Record(cells, from, burst, BURST_CELLS)
  {
    var a, b := Around(cells, from, burst), Record(cells, from, burst, BURST_CELLS);
    forall i | 0 <= i < MAXIMUM_CELLS
      ensures a[i] == b[i]
    {
      assert Covers(from, i) <==> from <= i < from + BURST_CELLS;
    }
  }

  ghost predicate Spliced(cells: Cells, after: Cells, from: nat, burst: SectorBurst) {
    IsBurst(burst) && |cells| == MAXIMUM_CELLS && from < MAXIMUM_CELLS && after == Around(cells, from, burst)
  }

  /** No cell of a burst is an ID mark. */
  lemma {:induction false} MarkIsUntouched(cells: Cells, from: nat, burst: SectorBurst, after: Cells, j: nat)
    requires Spliced(cells, after, from, burst) && j < MAXIMUM_CELLS && IsIdMark(after[j])
    ensures !Covers(from, j) && after[j] == cells[j]
  {
  }

  /** Nor is one of its first cells a sector number. */
  lemma {:induction false} NumberIsUntouched(cells: Cells, from: nat, burst: SectorBurst, after: Cells, j: nat)
    requires Spliced(cells, after, from, burst) && j + 3 < MAXIMUM_CELLS && !Covers(from, j) && after[j + 3].data != 0
    ensures !Covers(from, j + 3) && after[j + 3] == cells[j + 3]
  {
    assert Behind(from, j + 3) < 3 || !Covers(from, j + 3);
  }

  lemma {:induction false} OrderDecides(order: seq<byte>, n: nat, k: nat)
    requires IsSectorOrder(order) && n < SECTORS_PER_TRACK && k < SECTORS_PER_TRACK && order[n] == order[k]
    ensures n == k && order[k] != 0
  {
  }

  /** After a splice, an ID field that still names a sector is an untouched one of its slot. */
  lemma {:induction false} SplicedNames(cells: Cells, image: seq<byte>, order: seq<byte>, track: nat,
                     from: nat, burst: SectorBurst, after: Cells, k: nat, j: nat)
    requires |image| == IMAGE_SIZE && track < TRACK_COUNT && IsSectorOrder(order)
    requires Formatted(cells, image, order, track) && Spliced(cells, after, from, burst)
    requires k < SECTORS_PER_TRACK && Names(after, track, j, order[k])
    ensures j == IdAt(k) && !Covers(from, j) && !Covers(from, j + 3)
  {
    OrderDecides(order, k, k);
    MarkIsUntouched(cells, from, burst, after, j);
    NumberIsUntouched(cells, from, burst, after, j);
    var n := FormattedMark(cells, image, order, track, j);
    OrderDecides(order, n, k);
  }

  /** The burst hits the ID field of slot `k`, its mark or its sector number. */
  predicate HitsId(from: nat, k: nat)
    requires from < MAXIMUM_CELLS && k < SECTORS_PER_TRACK
  {
    IdAt(k) + 3 < MAXIMUM_CELLS && (Covers(from, IdAt(k)) || Covers(from, IdAt(k) + 3))
  }

  /** Then the field is lost, and the sector with it. */
  lemma {:induction false} TooEarly(cells: Cells, image: seq<byte>, order: seq<byte>, track: nat,
                 k: nat, from: nat, burst: SectorBurst, after: Cells)
    requires |image| == IMAGE_SIZE && track < TRACK_COUNT && IsSectorOrder(order) && k < SECTORS_PER_TRACK
    requires Formatted(cells, image, order, track) && Spliced(cells, after, from, burst) && HitsId(from, k)
    ensures order[k] !in Sectors(after, track)
  {
    forall j | 0 <= j < |after|
      ensures !Names(after, track, j, order[k])
    {
      if Names(after, track, j, order[k]) {
        SplicedNames(cells, image, order, track, from, burst, after, k, j);
      }
    }
    UnnamedIsMissing(after, track, 0, None, map[], order[k]);
  }

  /** The scanner does not skip over cell `f`, whatever it finds before. */
  ghost predicate NothingSkips(cells: Cells, f: nat)
    requires f <= |cells|
  {
    forall i :: 0 <= i < f ==>
      (IsIdMark(cells[i]) ==> i + 7 <= f) && (IsDataMark(cells[i]) ==> i + BYTES_PER_SECTOR + 3 <= f)
  }

  lemma {:induction false} Arrives(cells: Cells, track: nat, i: nat, f: nat, pending: Option<nat>, found: map<nat, seq<byte>>)
    returns (pending': Option<nat>, found': map<nat, seq<byte>>)
    requires i <= f < |cells| && NothingSkips(cells, f)
    ensures Scan(cells, track, i, pending, found) == Scan(cells, track, f, pending', found')
    decreases f - i
  {
    if i == f {
      pending', found' := pending, found;
    } else if IsIdMark(cells[i]) {
      pending', found' := Arrives(cells, track, i + 7, f, NamedSector(cells, track, i), found);
    } else if IsDataMark(cells[i]) && pending.Some? {
      pending', found' := Arrives(cells, track, i + BYTES_PER_SECTOR + 3, f, None,
                                  found[pending.value := FieldData(cells, i + 1, BYTES_PER_SECTOR)]);
    } else {
      pending', found' := Arrives(cells, track, i + 1, f, pending, found);
    }
  }

  /** The burst touches neither the ID field of slot `k` nor the data mark behind it, nor anything
      between them. */
  ghost predicate Misses(from: nat, k: nat)
    requires from < MAXIMUM_CELLS
  {
    IdAt(k) + SLOT_CELLS <= MAXIMUM_CELLS && forall i :: IdAt(k) <= i <= IdAt(k) + FRESH_MARK ==> !Covers(from, i)
  }

  lemma {:induction false} MarkEndsBefore(from: nat, k: nat, i: nat)
    requires from < MAXIMUM_CELLS && i < IdAt(k) && Misses(from, k) && Behind(from, i) == 6
    ensures i + BYTES_PER_SECTOR + 3 <= IdAt(k)
  {
    assert !Covers(from, IdAt(k));
  }

  lemma {:induction false} MissedNothingSkips(cells: Cells, image: seq<byte>, order: seq<byte>, track: nat,
                                              k: nat, from: nat, burst: SectorBurst, after: Cells)
    requires |image| == IMAGE_SIZE && track < TRACK_COUNT && IsSectorOrder(order) && k < SECTORS_PER_TRACK
    requires Formatted(cells, image, order, track) && Spliced(cells, after, from, burst) && Misses(from, k)
    ensures NothingSkips(after, IdAt(k))
  {
    forall i | 0 <= i < IdAt(k)
      ensures IsIdMark(after[i]) ==> i + 7 <= IdAt(k)
      ensures IsDataMark(after[i]) ==> i + BYTES_PER_SECTOR + 3 <= IdAt(k)
    {
      if Covers(from, i) {
        if IsDataMark(after[i]) {
          MarkEndsBefore(from, k, i);
        }
      } else if IsIdMark(cells[i]) || IsDataMark(cells[i]) {
        var n := FormattedMark(cells, image, order, track, i);
        SlotsApart(n, k);
      }
    }
  }

  lemma {:induction false} ReadOneField(cells: Cells, after: Cells, track: nat, k: nat, sector: byte,
                                        pending: Option<nat>, found: map<nat, seq<byte>>)
    requires SlotReads(cells, track, k, sector, FRESH_MARK) && |after| == |cells|
    requires 1 <= sector <= SECTORS_PER_TRACK
    requires forall i :: IdAt(k) <= i <= IdAt(k) + FRESH_MARK ==> after[i] == cells[i]
    ensures Scan(after, track, IdAt(k), pending, found)
         == Scan(after, track, IdAt(k) + FRESH_MARK + BYTES_PER_SECTOR + 3, None,
                 found[sector := SlotData(after, k, FRESH_MARK)])
  {
    SkipPlain(after, track, IdAt(k) + 7, IdAt(k) + FRESH_MARK, Some(sector), found);
  }

  lemma {:induction false} NotNamedAgain(cells: Cells, image: seq<byte>, order: seq<byte>, track: nat,
                                         k: nat, from: nat, burst: SectorBurst, after: Cells, rest: nat)
    requires |image| == IMAGE_SIZE && track < TRACK_COUNT && IsSectorOrder(order) && k < SECTORS_PER_TRACK
    requires Formatted(cells, image, order, track) && Spliced(cells, after, from, burst)
    requires rest > IdAt(k)
    ensures forall j :: rest <= j < |after| ==> !Names(after, track, j, order[k])
  {
    forall j | rest <= j < |after|
      ensures !Names(after, track, j, order[k])
    {
      if Names(after, track, j, order[k]) {
        SplicedNames(cells, image, order, track, from, burst, after, k, j);
      }
    }
  }

  lemma {:induction false} CoveredJustBehind(from: nat, k: nat, at: nat)
    requires from < MAXIMUM_CELLS && Misses(from, k) && at == IdAt(k) + FRESH_MARK + 1
    ensures Covers(from, at) <==> from == at
  {
    assert !Covers(from, at - 1);
  }

  lemma {:induction false} ByteJustBehind(cells: Cells, from: nat, burst: SectorBurst, after: Cells, k: nat, at: nat)
    requires Spliced(cells, after, from, burst) && Misses(from, k) && at == IdAt(k) + FRESH_MARK + 1
    ensures after[at].data == if from == at then 0x00 else cells[at].data
  {
    CoveredJustBehind(from, k, at);
  }

  /** The data behind the old data mark change only if the burst starts right there. */
  lemma {:induction false} OldDataStay(cells: Cells, image: seq<byte>, order: seq<byte>, track: nat,
                                       k: nat, from: nat, burst: SectorBurst, after: Cells)
    requires |image| == IMAGE_SIZE && track < TRACK_COUNT && IsSectorOrder(order) && k < SECTORS_PER_TRACK
    requires Formatted(cells, image, order, track) && Spliced(cells, after, from, burst) && Misses(from, k)
    ensures SlotReads(cells, track, k, order[k], FRESH_MARK)
    ensures SlotData(after, k, FRESH_MARK)[0]
         == if from == IdAt(k) + FRESH_MARK + 1 then 0x00 else SectorData(image, track, order[k])[0]
  {
    FormattedSlot(cells, image, order, track, k);
    assert SlotData(cells, k, FRESH_MARK)[0] == SectorData(image, track, order[k])[0];
    ByteJustBehind(cells, from, burst, after, k, IdAt(k) + FRESH_MARK + 1);
  }

  /** A burst that misses the fields of a sector: the scanner reads the cells behind the old data
      mark. */
  lemma {:induction false} OldSectorIsRead(cells: Cells, image: seq<byte>, order: seq<byte>, track: nat,
                k: nat, from: nat, burst: SectorBurst, after: Cells)
    requires |image| == IMAGE_SIZE && track < TRACK_COUNT && IsSectorOrder(order) && k < SECTORS_PER_TRACK
    requires Formatted(cells, image, order, track) && Spliced(cells, after, from, burst) && Misses(from, k)
    ensures order[k] in Sectors(after, track)
    ensures Sectors(after, track)[order[k]] == SlotData(after, k, FRESH_MARK)
    ensures SlotData(after, k, FRESH_MARK)[0]
         == if from == IdAt(k) + FRESH_MARK + 1 then 0x00 else SectorData(image, track, order[k])[0]
  {
    OldDataStay(cells, image, order, track, k, from, burst, after);
    MissedNothingSkips(cells, image, order, track, k, from, burst, after);
    var pending, found := Arrives(after, track, 0, IdAt(k), None, map[]);
    ReadOneField(cells, after, track, k, order[k], pending, found);
    var rest := IdAt(k) + FRESH_MARK + BYTES_PER_SECTOR + 3;
    NotNamedAgain(cells, image, order, track, k, from, burst, after, rest);
    UnnamedIsKept(after, track, rest, None, found[order[k] := SlotData(after, k, FRESH_MARK)], order[k]);
  }

  // ---------------------------------------------------------------- the exact tolerance

  ghost predicate ExportsAs(disk: seq<Cells>, image: seq<byte>) {
    Complete(disk) && IsImageOf(image, disk)
  }

  /** The disk with a burst recorded on one track. */
  ghost function Burnt(disk: seq<Cells>, track: nat, from: nat, burst: SectorBurst): seq<Cells>
    requires track < |disk| && |disk[track]| == MAXIMUM_CELLS && from < MAXIMUM_CELLS && IsBurst(burst)
  {
    disk[track := Around(disk[track], from, burst)]
  }

  /** Whatever is recorded, the export is the old image with exactly this sector replaced. */
  ghost predicate Tolerated(disk: seq<Cells>, image: seq<byte>, order: seq<byte>, track: nat, k: nat, from: nat)
    requires |image| == IMAGE_SIZE && IsSectorOrder(order) && FormattedDisk(disk, image, order)
    requires track < TRACK_COUNT && k < SECTORS_PER_TRACK && from < MAXIMUM_CELLS
  {
    FormattedIsRegular(disk[track], image, order, track);
    forall burst | IsBurst(burst) ::
      ExportsAs(Burnt(disk, track, from, burst), ReplaceSector(image, track, order[k], burst.data))
  }

  /** From the fourth to the twenty-fourth cell after the ID mark. */
  predicate Inside(from: nat, k: nat) {
    IdAt(k) + 4 <= from <= IdAt(k) + FRESH_MARK
  }

  lemma {:induction false} OutsideHitsOrMisses(from: nat, k: nat)
    requires from < MAXIMUM_CELLS && k < SECTORS_PER_TRACK && !Inside(from, k)
    ensures HitsId(from, k) || Misses(from, k)
  {
    SlotsApart(k, SECTORS_PER_TRACK);
  }

  /** Data that differ from the old in the first byte, and are not zero there. */
  function Probe(first: byte): SectorBurst {
    var x: byte := if first == 1 then 2 else 1;
    SectorBurst(0xFB, seq<byte>(BYTES_PER_SECTOR, _ => x), 0, 0)
  }

  lemma {:induction false} OutsideIsNotTolerated(disk: seq<Cells>, image: seq<byte>, order: seq<byte>, track: nat,
                                                 k: nat, from: nat)
    requires |image| == IMAGE_SIZE && IsSectorOrder(order) && FormattedDisk(disk, image, order)
    requires track < TRACK_COUNT && k < SECTORS_PER_TRACK && from < MAXIMUM_CELLS && !Inside(from, k)
    ensures !Tolerated(disk, image, order, track, k, from)
  {
    var cells := disk[track];
    FormattedIsRegular(cells, image, order, track);
    var burst := Probe(SectorData(image, track, order[k])[0]);
    var disk' := Burnt(disk, track, from, burst);
    var image' := ReplaceSector(image, track, order[k], burst.data);
    OutsideHitsOrMisses(from, k);
    if HitsId(from, k) {
      TooEarly(cells, image, order, track, k, from, burst, disk'[track]);
      assert !Complete(disk');
    } else {
      OldSectorIsRead(cells, image, order, track, k, from, burst, disk'[track]);
      ReplacedSector(image, track, order[k], burst.data, track, order[k]);
      assert SectorData(image', track, order[k])[0] == burst.data[0];
      assert !IsImageOf(image', disk');
    }
    assert !ExportsAs(disk', image');
  }

  lemma {:induction false} InsideIsAllowed(disk: seq<Cells>, image: seq<byte>, order: seq<byte>, write: DiskWrite)
    requires |image| == IMAGE_SIZE && IsSectorOrder(order) && FormattedDisk(disk, image, order)
    requires write.RewriteSector? && write.track < TRACK_COUNT && write.slot < SECTORS_PER_TRACK
    requires 4 <= write.start <= FRESH_MARK && IsBurst(write.burst)
    ensures Represents(disk, Shadow(order, FreshMarks(), image)) && Allowed(disk, Shadow(order, FreshMarks(), image), write)
  {
    FormattedRepresents(disk, image, order);
    FormattedSlot(disk[write.track], image, order, write.track, write.slot);
  }

  lemma {:induction false} AppliedExports(disk: seq<Cells>, image: seq<byte>, order: seq<byte>, write: DiskWrite)
    requires |image| == IMAGE_SIZE && IsSectorOrder(order) && FormattedDisk(disk, image, order)
    requires write.RewriteSector? && write.track < TRACK_COUNT && write.slot < SECTORS_PER_TRACK
    requires 4 <= write.start <= FRESH_MARK && IsBurst(write.burst)
    requires IdAt(write.slot) + write.start + BURST_CELLS <= |disk[write.track]|
    ensures ExportsAs(Apply(disk, write), ReplaceSector(image, write.track, order[write.slot], write.burst.data))
  {
    var shadow := Shadow(order, FreshMarks(), image);
    InsideIsAllowed(disk, image, order, write);
    WriteRefines(disk, shadow, write);
    ExportOf(Apply(disk, write), Meaning(shadow, write));
  }

  lemma {:induction false} BurntIsApplied(disk: seq<Cells>, track: nat, k: nat, from: nat, burst: SectorBurst)
    requires track < |disk| && |disk[track]| == MAXIMUM_CELLS && IsBurst(burst)
    requires IdAt(k) <= from && from + BURST_CELLS <= MAXIMUM_CELLS
    ensures Burnt(disk, track, from, burst) == Apply(disk, RewriteSector(track, k, from - IdAt(k), burst))
  {
    AroundIsRecord(disk[track], from, burst);
  }

  lemma {:induction false} InsideIsTolerated(disk: seq<Cells>, image: seq<byte>, order: seq<byte>, track: nat, k: nat,
                                             from: nat)
    requires |image| == IMAGE_SIZE && IsSectorOrder(order) && FormattedDisk(disk, image, order)
    requires track < TRACK_COUNT && k < SECTORS_PER_TRACK && from < MAXIMUM_CELLS && Inside(from, k)
    ensures Tolerated(disk, image, order, track, k, from)
  {
    FormattedIsRegular(disk[track], image, order, track);
    SlotsApart(k, SECTORS_PER_TRACK);
    forall burst | IsBurst(burst)
      ensures ExportsAs(Burnt(disk, track, from, burst), ReplaceSector(image, track, order[k], burst.data))
    {
      BurntIsApplied(disk, track, k, from, burst);
      AppliedExports(disk, image, order, RewriteSector(track, k, from - IdAt(k), burst));
    }
  }

  /** Wherever it is recorded around the track, across the index too: a burst replaces a sector of a
      formatted disk exactly when it begins from four to twenty-four cells after the ID mark of the
      sector.  The old sync field begins at 18. */
  lemma {:induction false} ToleranceIsExact(disk: seq<Cells>, image: seq<byte>, order: seq<byte>, track: nat, k: nat, from: nat)
    requires |image| == IMAGE_SIZE && IsSectorOrder(order) && FormattedDisk(disk, image, order)
    requires track < TRACK_COUNT && k < SECTORS_PER_TRACK && from < MAXIMUM_CELLS
    ensures Tolerated(disk, image, order, track, k, from) <==> IdAt(k) + 4 <= from <= IdAt(k) + FRESH_MARK
  {
    if Inside(from, k) {
      InsideIsTolerated(disk, image, order, track, k, from);
    } else {
      OutsideIsNotTolerated(disk, image, order, track, k, from);
    }
  }
}
