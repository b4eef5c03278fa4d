/** The sector image of an 8-inch IBM 3740 disk, its expansion into timed FM tracks (`Import`)
    and the scanner that reads the sectors back (`ExportImage`).

    The expansion is specified by a table that says what cell stands at each place of a track;
    the program builds the same track by appending field after field.  The scanner is specified
    by a recursive function from a track to the sectors it reads off it. */
module SectorImages {
  import opened Bytes
  import opened Wrappers
  import opened FloppyTracks
  import Crc16

  const SECTORS_PER_TRACK: nat := 26
  const BYTES_PER_SECTOR: nat := 128
  const IMAGE_SIZE: nat := 256_256
  const HEADER_CELLS: nat := 73
  const SLOT_CELLS: nat := 188

  const ORDINARY_CLOCKS: byte := 0xFF
  const INDEX_MARK_CLOCKS: byte := 0xD7
  const SECTOR_MARK_CLOCKS: byte := 0xC7

  // ---------------------------------------------------------------- sector order

  function NextPosition(position: nat, skew: nat): nat {
    if position + skew >= SECTORS_PER_TRACK then position + skew - (SECTORS_PER_TRACK - 1)
    else position + skew
  }

  /** Where sector `n + 1` goes. */
  function Position(skew: nat, n: nat): nat {
    if n == 0 then 0 else NextPosition(Position(skew, n - 1), skew)
  }

  /** The first `n` sectors have places of their own. */
  ghost predicate Placeable(skew: nat, n: nat) {
    && (forall i :: 0 <= i < n ==> Position(skew, i) < SECTORS_PER_TRACK)
    && (forall i, j :: 0 <= i < j < n ==> Position(skew, i) != Position(skew, j))
  }

  ghost predicate AcceptsSkew(skew: nat) {
    Placeable(skew, SECTORS_PER_TRACK)
  }

  /** `order[p]` is the number of the sector at physical place `p`. */
  ghost predicate IsSectorOrder(order: seq<byte>) {
    && |order| == SECTORS_PER_TRACK
    && (forall p :: 0 <= p < |order| ==> 1 <= order[p] <= SECTORS_PER_TRACK)
    && (forall p, q :: 0 <= p < q < |order| ==> order[p] != order[q])
    && (forall s: nat :: 1 <= s <= SECTORS_PER_TRACK ==> s in order)
  }

  ghost predicate IsSkewed(order: seq<byte>, skew: nat) {
    && |order| == SECTORS_PER_TRACK
    && forall n :: 0 <= n < SECTORS_PER_TRACK ==> SectorAt(order, skew, n)
  }

  ghost predicate SectorAt(order: seq<byte>, skew: nat, n: nat) {
    Position(skew, n) < |order| && order[Position(skew, n)] == n + 1
  }

  // ---------------------------------------------------------------- track layout

  function SectorOffset(track: nat, sector: nat): int {
    (track * SECTORS_PER_TRACK + (sector - 1)) * BYTES_PER_SECTOR
  }

  function SectorData(image: seq<byte>, track: nat, sector: nat): (data: seq<byte>)
    requires |image| == IMAGE_SIZE && track < TRACK_COUNT && 1 <= sector <= SECTORS_PER_TRACK
    ensures |data| == BYTES_PER_SECTOR
  {
    image[SectorOffset(track, sector)..SectorOffset(track, sector) + BYTES_PER_SECTOR]
  }

  /** Byte `i` of a sector in the image: 3,328 bytes a track, 128 a sector, the sectors counted from
      one. */
  lemma {:induction false} SectorBytes(image: seq<byte>, track: nat, sector: nat)
    requires |image| == IMAGE_SIZE && track < TRACK_COUNT && 1 <= sector <= SECTORS_PER_TRACK
    ensures 0 <= 3328 * track + 128 * (sector - 1) && 3328 * track + 128 * (sector - 1) + 128 <= |image|
    ensures forall i :: 0 <= i < 128 ==> SectorData(image, track, sector)[i] == image[3328 * track + 128 * (sector - 1) + i]
  {
  }

  function IdField(track: nat, sector: byte): seq<byte>
    requires track < TRACK_COUNT
  {
    [0xFE, track as byte, 0x00, sector, 0x00]
  }

  /** What stands at offset `o` of a sector slot: the data byte and its clocks. */
  function SlotFm(track: nat, sector: byte, data: seq<byte>, o: nat): (byte, byte)
    requires track < TRACK_COUNT && |data| == BYTES_PER_SECTOR && o < SLOT_CELLS
  {
    if o < 6 then (0x00, ORDINARY_CLOCKS)
    else if o == 6 then (0xFE, SECTOR_MARK_CLOCKS)
    else if o < 11 then (IdField(track, sector)[o - 6], ORDINARY_CLOCKS)
    else if o == 11 then (Crc16.High(Crc16.Checksum(IdField(track, sector))), ORDINARY_CLOCKS)
    else if o == 12 then (Crc16.Low(Crc16.Checksum(IdField(track, sector))), ORDINARY_CLOCKS)
    else if o < 24 then (0xFF, ORDINARY_CLOCKS)
    else if o < 30 then (0x00, ORDINARY_CLOCKS)
    else if o == 30 then (0xFB, SECTOR_MARK_CLOCKS)
    else if o < 159 then (data[o - 31], ORDINARY_CLOCKS)
    else if o == 159 then (Crc16.High(Crc16.Checksum([0xFB] + data)), ORDINARY_CLOCKS)
    else if o == 160 then (Crc16.Low(Crc16.Checksum([0xFB] + data)), ORDINARY_CLOCKS)
    else (0xFF, ORDINARY_CLOCKS)
  }

  /** What stands before the first slot: the index gap and the index address mark. */
  function HeaderFm(i: nat): (byte, byte)
    requires i < HEADER_CELLS
  {
    if i < 40 then (0xFF, ORDINARY_CLOCKS)
    else if i < 46 then (0x00, ORDINARY_CLOCKS)
    else if i == 46 then (0xFC, INDEX_MARK_CLOCKS)
    else (0xFF, ORDINARY_CLOCKS)
  }

  /** The first cell of slot `k`. */
  function SlotStart(k: nat): nat {
    HEADER_CELLS + SLOT_CELLS * k
  }

  function At(i: nat, fm: (byte, byte)): TimedFmByte {
    TimedFmByte(BYTE_TICKS * i, fm.0, fm.1)
  }

  /** The cells from `start` on are the first `count` cells of a slot. */
  ghost predicate SlotPart(cells: seq<TimedFmByte>, start: nat, track: nat, sector: byte, data: seq<byte>, count: nat)
    requires track < TRACK_COUNT && |data| == BYTES_PER_SECTOR && count <= SLOT_CELLS
  {
    && start + count <= |cells|
    && forall i :: start <= i < start + count ==> cells[i] == At(i, SlotFm(track, sector, data, i - start))
  }

  /** `cells` begins with the header and the first `n` slots of a formatted track. */
  ghost predicate FormattedUpTo(cells: seq<TimedFmByte>, image: seq<byte>, order: seq<byte>, track: nat, n: nat)
    requires |image| == IMAGE_SIZE && track < TRACK_COUNT && IsSectorOrder(order) && n <= SECTORS_PER_TRACK
  {
    && |cells| >= SlotStart(n)
    && (forall i :: 0 <= i < HEADER_CELLS ==> cells[i] == At(i, HeaderFm(i)))
    && (forall k :: 0 <= k < n ==>
          SlotPart(cells, SlotStart(k), track, order[k], SectorData(image, track, order[k]), SLOT_CELLS))
  }

  /** A whole formatted track: header, twenty-six slots, and ones up to the index. */
  ghost predicate Formatted(cells: seq<TimedFmByte>, image: seq<byte>, order: seq<byte>, track: nat)
    requires |image| == IMAGE_SIZE && track < TRACK_COUNT && IsSectorOrder(order)
  {
    && |cells| == MAXIMUM_CELLS
    && FormattedUpTo(cells, image, order, track, SECTORS_PER_TRACK)
    && (forall i :: SlotStart(SECTORS_PER_TRACK) <= i < |cells| ==> cells[i] == At(i, (0xFF, ORDINARY_CLOCKS)))
  }

  /** An ID field for this track and sector stands at cell `j`, a data mark 24 cells behind it, and
      behind that the bytes of the sector in the image. */
  ghost predicate StandsAt(cells: seq<TimedFmByte>, image: seq<byte>, track: nat, sector: nat, j: nat) {
    && |image| == 256_256 && track < 77 && 1 <= sector <= 26 && j + 152 < |cells|
    && cells[j].data == 0xFE && cells[j].clocks == 0xC7
    && cells[j + 1].data == track && cells[j + 2].data == 0 && cells[j + 3].data == sector && cells[j + 4].data == 0
    && cells[j + 24].data == 0xFB && cells[j + 24].clocks == 0xC7
    && forall i :: j + 25 <= i < j + 153 ==> cells[i].data == image[3328 * track + 128 * (sector - 1) + (i - j - 25)]
  }

  ghost predicate Stands(cells: seq<TimedFmByte>, image: seq<byte>, track: nat, sector: nat) {
    exists j :: StandsAt(cells, image, track, sector, j)
  }

  /** These bytes with ordinary clocks. */
  ghost predicate Plain(cells: seq<TimedFmByte>, from: nat, to: nat, value: byte) {
    to <= |cells| && forall i :: from <= i < to ==> cells[i].data == value && cells[i].clocks == 0xFF
  }

  /** Around the ID mark at cell `j`: six zeros before it, eleven ones and six zeros between the fields,
      twenty-seven ones behind the data; both fields end with their checksum; and all other clocks are
      ordinary. */
  ghost predicate LaidOut(cells: seq<TimedFmByte>, j: nat) {
    && 6 <= j && j + 182 <= |cells|
    && Plain(cells, j - 6, j, 0x00) && Plain(cells, j + 7, j + 18, 0xFF) && Plain(cells, j + 18, j + 24, 0x00)
    && Plain(cells, j + 155, j + 182, 0xFF)
    && (forall i :: j < i < j + 182 && i != j + 24 ==> cells[i].clocks == 0xFF)
    && Crc16.Checksum(FieldData(cells, j, 7)) == Crc16.ZERO && Crc16.Checksum(FieldData(cells, j + 24, 131)) == Crc16.ZERO
  }

  /** The cells from the index on: forty ones, six zeros, the index mark, twenty-six ones; and 247 ones at
      the end. */
  ghost predicate Ends(cells: seq<TimedFmByte>) {
    && |cells| == 5_208 && (forall i :: 0 <= i < |cells| ==> cells[i].tick == 384 * i)
    && Plain(cells, 0, 40, 0xFF) && Plain(cells, 40, 46, 0x00) && cells[46].data == 0xFC && cells[46].clocks == 0xD7
    && Plain(cells, 47, 73, 0xFF) && Plain(cells, 4_961, 5_208, 0xFF)
  }

  /** Every sector of the track stands somewhere, and where an ID mark stands, one of them does, laid out
      as it should be. */
  ghost predicate SectorsInPlace(cells: seq<TimedFmByte>, image: seq<byte>, track: nat) {
    && Ends(cells)
    && (forall s :: 1 <= s <= 26 ==> Stands(cells, image, track, s))
    && (forall j :: 0 <= j < |cells| && cells[j].data == 0xFE && cells[j].clocks == 0xC7 ==>
          j + 3 < |cells| && StandsAt(cells, image, track, cells[j + 3].data, j) && LaidOut(cells, j))
  }

  lemma {:induction false} SlotStands(cells: seq<TimedFmByte>, image: seq<byte>, order: seq<byte>, track: nat, k: nat, j: nat)
    requires |image| == IMAGE_SIZE && track < TRACK_COUNT && IsSectorOrder(order)
    requires Formatted(cells, image, order, track) && k < SECTORS_PER_TRACK && j == SlotStart(k) + 6
    ensures StandsAt(cells, image, track, order[k], j)
  {
    var data := SectorData(image, track, order[k]);
    SectorBytes(image, track, order[k]);
    assert SlotPart(cells, SlotStart(k), track, order[k], data, SLOT_CELLS);
  }

  /** An ID mark stands only in a slot. */
  lemma {:induction false} IdMarkInSlot(cells: seq<TimedFmByte>, image: seq<byte>, order: seq<byte>, track: nat, j: nat)
    returns (k: nat)
    requires |image| == IMAGE_SIZE && track < TRACK_COUNT && IsSectorOrder(order)
    requires Formatted(cells, image, order, track) && j < |cells| && cells[j].data == 0xFE && cells[j].clocks == 0xC7
    ensures k < SECTORS_PER_TRACK && j == SlotStart(k) + 6
  {
    assert HEADER_CELLS <= j < SlotStart(SECTORS_PER_TRACK);
    k := (j - HEADER_CELLS) / SLOT_CELLS;
    assert SlotPart(cells, SlotStart(k), track, order[k], SectorData(image, track, order[k]), SLOT_CELLS);
    assert cells[j] == At(j, SlotFm(track, order[k], SectorData(image, track, order[k]), j - SlotStart(k)));
  }

  lemma {:induction false} IdChecks(track: nat, sector: byte, field: seq<byte>)
    requires track < TRACK_COUNT
    requires var crc := Crc16.Checksum(IdField(track, sector));
             field == IdField(track, sector) + [Crc16.High(crc), Crc16.Low(crc)]
    ensures Crc16.Checksum(field) == Crc16.ZERO
  {
    var crc := Crc16.Checksum(IdField(track, sector));
    Crc16.ResidueIsZero(IdField(track, sector), Crc16.High(crc), Crc16.Low(crc));
  }

  lemma {:induction false} DataChecks(data: seq<byte>, field: seq<byte>)
    requires var crc := Crc16.Checksum([0xFB] + data); field == [0xFB] + data + [Crc16.High(crc), Crc16.Low(crc)]
    ensures Crc16.Checksum(field) == Crc16.ZERO
  {
    var crc := Crc16.Checksum([0xFB] + data);
    Crc16.ResidueIsZero([0xFB] + data, Crc16.High(crc), Crc16.Low(crc));
  }

  /** The cells of one slot, by their offset. */
  ghost predicate IsSlot(cells: seq<TimedFmByte>, start: nat, track: nat, sector: byte, data: seq<byte>) {
    && track < TRACK_COUNT && |data| == BYTES_PER_SECTOR && start + SLOT_CELLS <= |cells|
    && forall i :: start <= i < start + SLOT_CELLS ==> cells[i] == At(i, SlotFm(track, sector, data, i - start))
  }

  lemma {:induction false} SlotGaps(cells: seq<TimedFmByte>, start: nat, track: nat, sector: byte, data: seq<byte>, j: nat)
    requires IsSlot(cells, start, track, sector, data) && j == start + 6
    ensures Plain(cells, j - 6, j, 0x00) && Plain(cells, j + 7, j + 18, 0xFF) && Plain(cells, j + 18, j + 24, 0x00)
    ensures Plain(cells, j + 155, j + 182, 0xFF)
    ensures forall i :: j < i < j + 182 && i != j + 24 ==> cells[i].clocks == 0xFF
  {
  }

  lemma {:induction false} SlotCell(cells: seq<TimedFmByte>, start: nat, track: nat, sector: byte, data: seq<byte>, o: nat)
    requires IsSlot(cells, start, track, sector, data) && o < SLOT_CELLS
    ensures cells[start + o].data == SlotFm(track, sector, data, o).0
  {
    assert cells[start + o] == At(start + o, SlotFm(track, sector, data, start + o - start));
  }

  /** The bytes of the ID field with its checksum. */
  function IdBytes(track: nat, sector: byte): (field: seq<byte>)
    requires track < TRACK_COUNT
    ensures |field| == 7
  {
    var crc := Crc16.Checksum(IdField(track, sector));
    IdField(track, sector) + [Crc16.High(crc), Crc16.Low(crc)]
  }

  function DataBytes(data: seq<byte>): (field: seq<byte>)
    requires |data| == BYTES_PER_SECTOR
    ensures |field| == 131
  {
    var crc := Crc16.Checksum([0xFB] + data);
    [0xFB] + data + [Crc16.High(crc), Crc16.Low(crc)]
  }

  lemma {:induction false} IdByte(track: nat, sector: byte, data: seq<byte>, o: nat)
    requires track < TRACK_COUNT && |data| == BYTES_PER_SECTOR && o < 7
    ensures SlotFm(track, sector, data, 6 + o).0 == IdBytes(track, sector)[o]
  {
  }

  lemma {:induction false} DataByte(track: nat, sector: byte, data: seq<byte>, o: nat)
    requires track < TRACK_COUNT && |data| == BYTES_PER_SECTOR && o < 131
    ensures SlotFm(track, sector, data, 30 + o).0 == DataBytes(data)[o]
  {
  }

  lemma {:induction false} IdCellsCheck(cells: seq<TimedFmByte>, start: nat, track: nat, sector: byte,
                                        data: seq<byte>, j: nat, field: seq<byte>)
    requires IsSlot(cells, start, track, sector, data) && j == start + 6 && field == IdBytes(track, sector)
    ensures FieldData(cells, j, 7) == field && Crc16.Checksum(field) == Crc16.ZERO
  {
    forall o: nat | o < 7
      ensures FieldData(cells, j, 7)[o] == field[o]
    {
      SlotCell(cells, start, track, sector, data, 6 + o);
      IdByte(track, sector, data, o);
    }
    IdChecks(track, sector, field);
  }

  lemma {:induction false} DataCellsCheck(cells: seq<TimedFmByte>, start: nat, track: nat, sector: byte,
                                          data: seq<byte>, j: nat, field: seq<byte>)
    requires IsSlot(cells, start, track, sector, data) && j == start + 6 && field == DataBytes(data)
    ensures FieldData(cells, j + 24, 131) == field && Crc16.Checksum(field) == Crc16.ZERO
  {
    forall o: nat | o < 131
      ensures FieldData(cells, j + 24, 131)[o] == field[o]
    {
      SlotCell(cells, start, track, sector, data, 30 + o);
      DataByte(track, sector, data, o);
    }
    DataChecks(data, field);
  }

  lemma {:induction false} SlotIsLaidOut(cells: seq<TimedFmByte>, image: seq<byte>, order: seq<byte>,
                                         track: nat, k: nat, j: nat)
    requires |image| == IMAGE_SIZE && track < TRACK_COUNT && IsSectorOrder(order)
    requires Formatted(cells, image, order, track) && k < SECTORS_PER_TRACK && j == SlotStart(k) + 6
    ensures LaidOut(cells, j)
  {
    var data := SectorData(image, track, order[k]);
    assert SlotPart(cells, SlotStart(k), track, order[k], data, SLOT_CELLS);
    SlotGaps(cells, SlotStart(k), track, order[k], data, j);
    IdCellsCheck(cells, SlotStart(k), track, order[k], data, j, IdBytes(track, order[k]));
    DataCellsCheck(cells, SlotStart(k), track, order[k], data, j, DataBytes(data));
  }

  /** A formatted track has the bytes of the image in their places. */
  lemma {:induction false} FormattedInPlace(cells: seq<TimedFmByte>, image: seq<byte>, order: seq<byte>, track: nat)
    requires |image| == IMAGE_SIZE && track < TRACK_COUNT && IsSectorOrder(order)
    requires Formatted(cells, image, order, track)
    ensures SectorsInPlace(cells, image, track)
  {
    FormattedIsRegular(cells, image, order, track);
    forall s: nat | 1 <= s <= 26
      ensures Stands(cells, image, track, s)
    {
      assert s in order;
      var k :| 0 <= k < |order| && order[k] == s;
      SlotStands(cells, image, order, track, k, SlotStart(k) + 6);
    }
    forall j | 0 <= j < |cells| && cells[j].data == 0xFE && cells[j].clocks == 0xC7
      ensures j + 3 < |cells| && StandsAt(cells, image, track, cells[j + 3].data, j) && LaidOut(cells, j)
    {
      var k := IdMarkInSlot(cells, image, order, track, j);
      SlotStands(cells, image, order, track, k, j);
      SlotIsLaidOut(cells, image, order, track, k, j);
    }
  }

  // ---------------------------------------------------------------- the track builder

  ghost predicate Extends(longer: seq<TimedFmByte>, track: seq<TimedFmByte>) {
    && |track| <= |longer|
    && forall i :: 0 <= i < |track| ==> longer[i] == track[i]
  }

  method Append(track: seq<TimedFmByte>, value: byte, clocks: byte) returns (longer: seq<TimedFmByte>)
    ensures |longer| == |track| + 1 && Extends(longer, track)
    ensures longer[|track|] == At(|track|, (value, clocks))
  {
    longer := track + [TimedFmByte(|track| * BYTE_TICKS, value, clocks)];
  }

  method AppendRepeat(track: seq<TimedFmByte>, count: nat, value: byte) returns (longer: seq<TimedFmByte>)
    ensures |longer| == |track| + count && Extends(longer, track)
    ensures forall i :: |track| <= i < |longer| ==> longer[i] == At(i, (value, ORDINARY_CLOCKS))
  {
    longer := track;
    for index := 0 to count
      invariant |longer| == |track| + index && Extends(longer, track)
      invariant forall i :: |track| <= i < |longer| ==> longer[i] == At(i, (value, ORDINARY_CLOCKS))
    {
      longer := Append(longer, value, ORDINARY_CLOCKS);
    }
  }

  method AppendBytes(track: seq<TimedFmByte>, bytes: seq<byte>) returns (longer: seq<TimedFmByte>)
    ensures |longer| == |track| + |bytes| && Extends(longer, track)
    ensures forall i :: |track| <= i < |longer| ==> longer[i] == At(i, (bytes[i - |track|], ORDINARY_CLOCKS))
  {
    longer := track;
    for index := 0 to |bytes|
      invariant |longer| == |track| + index && Extends(longer, track)
      invariant forall i :: |track| <= i < |longer| ==> longer[i] == At(i, (bytes[i - |track|], ORDINARY_CLOCKS))
    {
      longer := Append(longer, bytes[index], ORDINARY_CLOCKS);
    }
  }

  method AppendCrc(track: seq<TimedFmByte>, bytes: seq<byte>) returns (longer: seq<TimedFmByte>)
    ensures |longer| == |track| + 2 && Extends(longer, track)
    ensures longer[|track|] == At(|track|, (Crc16.High(Crc16.Checksum(bytes)), ORDINARY_CLOCKS))
    ensures longer[|track| + 1] == At(|track| + 1, (Crc16.Low(Crc16.Checksum(bytes)), ORDINARY_CLOCKS))
  {
    var crc := Crc16.Crc(bytes);
    longer := Append(track, Crc16.High(crc), ORDINARY_CLOCKS);
    longer := Append(longer, Crc16.Low(crc), ORDINARY_CLOCKS);
  }

  method AppendHeader() returns (track: seq<TimedFmByte>)
    ensures |track| == HEADER_CELLS
    ensures forall i :: 0 <= i < HEADER_CELLS ==> track[i] == At(i, HeaderFm(i))
  {
    track := AppendRepeat([], 40, 0xFF);
    track := AppendRepeat(track, 6, 0x00);
    track := Append(track, 0xFC, INDEX_MARK_CLOCKS);
    track := AppendRepeat(track, 26, 0xFF);
  }

  /** Sync, mark, identification, CRC and gap. */
  method AppendIdField(track: seq<TimedFmByte>, trackNumber: nat, sector: byte, ghost data: seq<byte>)
    returns (longer: seq<TimedFmByte>)
    requires trackNumber < TRACK_COUNT && |data| == BYTES_PER_SECTOR
    ensures |longer| == |track| + 24 && Extends(longer, track)
    ensures SlotPart(longer, |track|, trackNumber, sector, data, 24)
  {
    ghost var start := |track|;
    longer := AppendSyncAndMark(track, trackNumber, sector, data);
    var idField := IdField(trackNumber, sector);
    ghost var before := longer;
    longer := AppendBytes(longer, idField[1..]);
    SlotGrows(before, longer, start, trackNumber, sector, data, 7, 11);
    before := longer;
    longer := AppendCrc(longer, idField);
    SlotGrows(before, longer, start, trackNumber, sector, data, 11, 13);
    before := longer;
    longer := AppendRepeat(longer, 11, 0xFF);
    SlotGrows(before, longer, start, trackNumber, sector, data, 13, 24);
  }

  method AppendSyncAndMark(track: seq<TimedFmByte>, ghost trackNumber: nat, ghost sector: byte, ghost data: seq<byte>)
    returns (longer: seq<TimedFmByte>)
    requires trackNumber < TRACK_COUNT && |data| == BYTES_PER_SECTOR
    ensures |longer| == |track| + 7 && Extends(longer, track)
    ensures SlotPart(longer, |track|, trackNumber, sector, data, 7)
  {
    longer := AppendRepeat(track, 6, 0x00);
    longer := Append(longer, 0xFE, SECTOR_MARK_CLOCKS);
  }

  /** Sync, mark, data, CRC and gap. */
  method AppendDataField(track: seq<TimedFmByte>, ghost start: nat, ghost trackNumber: nat,
                         ghost sector: byte, data: seq<byte>)
    returns (longer: seq<TimedFmByte>)
    requires trackNumber < TRACK_COUNT && |data| == BYTES_PER_SECTOR
    requires |track| == start + 24 && SlotPart(track, start, trackNumber, sector, data, 24)
    ensures |longer| == start + SLOT_CELLS && Extends(longer, track)
    ensures SlotPart(longer, start, trackNumber, sector, data, SLOT_CELLS)
  {
    longer := AppendDataMark(track, start, trackNumber, sector, data);
    ghost var before := longer;
    longer := AppendBytes(longer, data);
    SlotGrows(before, longer, start, trackNumber, sector, data, 31, 159);
    longer := AppendDataCrc(longer, start, trackNumber, sector, data);
    before := longer;
    longer := AppendRepeat(longer, 27, 0xFF);
    SlotGrows(before, longer, start, trackNumber, sector, data, 161, 188);
  }

  method AppendDataCrc(track: seq<TimedFmByte>, ghost start: nat, ghost trackNumber: nat, ghost sector: byte, data: seq<byte>)
    returns (longer: seq<TimedFmByte>)
    requires trackNumber < TRACK_COUNT && |data| == BYTES_PER_SECTOR
    requires |track| == start + 159 && SlotPart(track, start, trackNumber, sector, data, 159)
    ensures |longer| == start + 161 && Extends(longer, track)
    ensures SlotPart(longer, start, trackNumber, sector, data, 161)
  {
    longer := AppendCrc(track, [0xFB] + data);
    DataCrcCells(trackNumber, sector, data);
    SlotGrowsByTwo(track, longer, start, trackNumber, sector, data, 159);
  }

  lemma {:induction false} DataCrcCells(track: nat, sector: byte, data: seq<byte>)
    requires track < TRACK_COUNT && |data| == BYTES_PER_SECTOR
    ensures SlotFm(track, sector, data, 159) == (Crc16.High(Crc16.Checksum([0xFB] + data)), ORDINARY_CLOCKS)
    ensures SlotFm(track, sector, data, 160) == (Crc16.Low(Crc16.Checksum([0xFB] + data)), ORDINARY_CLOCKS)
  {
  }

  lemma {:induction false} SlotGrowsByTwo(before: seq<TimedFmByte>, after: seq<TimedFmByte>, start: nat,
                                          track: nat, sector: byte,
                                          data: seq<byte>, a: nat)
    requires track < TRACK_COUNT && |data| == BYTES_PER_SECTOR && a + 2 <= SLOT_CELLS
    requires SlotPart(before, start, track, sector, data, a) && |before| == start + a
    requires Extends(after, before) && |after| == start + a + 2
    requires after[start + a] == At(start + a, SlotFm(track, sector, data, a))
    requires after[start + a + 1] == At(start + a + 1, SlotFm(track, sector, data, a + 1))
    ensures SlotPart(after, start, track, sector, data, a + 2)
  {
  }

  method AppendDataMark(track: seq<TimedFmByte>, ghost start: nat, ghost trackNumber: nat, ghost sector: byte,
                        ghost data: seq<byte>)
    returns (longer: seq<TimedFmByte>)
    requires trackNumber < TRACK_COUNT && |data| == BYTES_PER_SECTOR
    requires |track| == start + 24 && SlotPart(track, start, trackNumber, sector, data, 24)
    ensures |longer| == start + 31 && Extends(longer, track)
    ensures SlotPart(longer, start, trackNumber, sector, data, 31)
  {
    longer := AppendRepeat(track, 6, 0x00);
    longer := Append(longer, 0xFB, SECTOR_MARK_CLOCKS);
  }

  /** The part of a slot grows by the cells that should come next. */
  lemma {:induction false} SlotGrows(before: seq<TimedFmByte>, after: seq<TimedFmByte>, start: nat, track: nat, sector: byte,
                                     data: seq<byte>, a: nat, b: nat)
    requires track < TRACK_COUNT && |data| == BYTES_PER_SECTOR && a <= b <= SLOT_CELLS
    requires SlotPart(before, start, track, sector, data, a) && |before| == start + a
    requires Extends(after, before) && |after| == start + b
    requires forall i :: start + a <= i < start + b ==> after[i] == At(i, SlotFm(track, sector, data, i - start))
    ensures SlotPart(after, start, track, sector, data, b)
  {
  }

  method BuildTrack(image: seq<byte>, order: seq<byte>, trackNumber: nat) returns (track: seq<TimedFmByte>)
    requires |image| == IMAGE_SIZE && trackNumber < TRACK_COUNT && IsSectorOrder(order)
    ensures Formatted(track, image, order, trackNumber) && SectorsInPlace(track, image, trackNumber)
  {
    track := AppendHeader();
    for sectorIndex := 0 to SECTORS_PER_TRACK
      invariant |track| == SlotStart(sectorIndex)
      invariant FormattedUpTo(track, image, order, trackNumber, sectorIndex)
    {
      var sector := order[sectorIndex];
      ghost var before := track;
      var data := SectorData(image, trackNumber, sector);
      track := AppendIdField(track, trackNumber, sector, data);
      track := AppendDataField(track, SlotStart(sectorIndex), trackNumber, sector, data);
      KeepSlots(before, track, image, order, trackNumber, sectorIndex);
    }
    ghost var slots := track;
    track := AppendRepeat(track, 247, 0xFF);
    KeepSlots(slots, track, image, order, trackNumber, SECTORS_PER_TRACK);
    FormattedInPlace(track, image, order, trackNumber);
  }

  lemma {:induction false} KeepSlots(before: seq<TimedFmByte>, after: seq<TimedFmByte>,
                  image: seq<byte>, order: seq<byte>, track: nat, n: nat)
    requires |image| == IMAGE_SIZE && track < TRACK_COUNT && IsSectorOrder(order) && n <= SECTORS_PER_TRACK
    requires FormattedUpTo(before, image, order, track, n) && |before| == SlotStart(n)
    requires Extends(after, before)
    ensures FormattedUpTo(after, image, order, track, n)
  {
    forall k | 0 <= k < n
      ensures SlotPart(after, SlotStart(k), track, order[k], SectorData(image, track, order[k]), SLOT_CELLS)
    {
      assert SlotStart(k) + SLOT_CELLS <= SlotStart(n);
      assert SlotPart(before, SlotStart(k), track, order[k], SectorData(image, track, order[k]), SLOT_CELLS);
    }
  }

  // ---------------------------------------------------------------- import

  /** The sector map, or nothing when the skew sends two sectors to one place or a sector off the
      track. */
  method SectorMap(skew: byte) returns (result: Option<seq<byte>>)
    ensures result.Some? <==> AcceptsSkew(skew)
    ensures result.Some? ==> IsSkewed(result.value, skew) && IsSectorOrder(result.value)
  {
    var sectorMap := new byte[SECTORS_PER_TRACK](_ => 0);
    var occupied := new bool[SECTORS_PER_TRACK](_ => false);
    var mapIndex: nat := 0;
    for n := 0 to SECTORS_PER_TRACK
      invariant mapIndex == Position(skew, n)
      invariant Placeable(skew, n)
      invariant forall p :: 0 <= p < SECTORS_PER_TRACK ==> (occupied[p] <==> Taken(skew, n, p))
      invariant forall i :: 0 <= i < n ==> SectorAt(sectorMap[..], skew, i)
    {
      if mapIndex >= SECTORS_PER_TRACK || occupied[mapIndex] {
        return None;
      }
      ghost var before := sectorMap[..];
      sectorMap[mapIndex] := n + 1;
      occupied[mapIndex] := true;
      OneMoreSector(before, sectorMap[..], skew, n);
      forall p: nat | p < SECTORS_PER_TRACK
        ensures occupied[p] <==> Taken(skew, n + 1, p)
      {
        TakenNext(skew, n, p);
      }
      mapIndex := mapIndex + skew;
      if mapIndex >= SECTORS_PER_TRACK {
        mapIndex := mapIndex - (SECTORS_PER_TRACK - 1);
      }
    }
    SkewedIsOrder(sectorMap[..], skew);
    return Some(sectorMap[..]);
  }

  lemma {:induction false} OneMoreSector(before: seq<byte>, after: seq<byte>, skew: nat, n: nat)
    requires n < SECTORS_PER_TRACK && Placeable(skew, n)
    requires Position(skew, n) < |before| == SECTORS_PER_TRACK && !Taken(skew, n, Position(skew, n))
    requires after == before[Position(skew, n) := n + 1]
    requires forall i :: 0 <= i < n ==> SectorAt(before, skew, i)
    ensures Placeable(skew, n + 1)
    ensures forall i :: 0 <= i < n + 1 ==> SectorAt(after, skew, i)
  {
    forall i | 0 <= i < n
      ensures Position(skew, i) != Position(skew, n) && SectorAt(after, skew, i)
    {
      assert SectorAt(before, skew, i);
      assert 0 <= i < n && Position(skew, i) == Position(skew, i);
      assert Taken(skew, n, Position(skew, i));
    }
  }

  lemma {:induction false} TakenNext(skew: nat, n: nat, p: nat)
    ensures Taken(skew, n + 1, p) <==> Taken(skew, n, p) || p == Position(skew, n)
  {
    if Taken(skew, n, p) {
      var i :| 0 <= i < n && Position(skew, i) == p;
      assert 0 <= i < n + 1 && Position(skew, i) == p;
    }
    if p == Position(skew, n) {
      assert 0 <= n < n + 1 && Position(skew, n) == p;
    }
    if Taken(skew, n + 1, p) && p != Position(skew, n) {
      var i :| 0 <= i < n + 1 && Position(skew, i) == p;
      assert 0 <= i < n && Position(skew, i) == p;
    }
  }

  ghost predicate Taken(skew: nat, n: nat, p: nat) {
    exists i :: 0 <= i < n && Position(skew, i) == p
  }

  lemma {:induction false} SkewedIsOrder(order: seq<byte>, skew: nat)
    requires AcceptsSkew(skew) && IsSkewed(order, skew)
    ensures IsSectorOrder(order)
  {
    forall s: nat | 1 <= s <= SECTORS_PER_TRACK
      ensures s in order
    {
      assert SectorAt(order, skew, s - 1);
    }
    forall p | 0 <= p < |order|
      ensures Taken(skew, SECTORS_PER_TRACK, p) && 1 <= order[p] <= SECTORS_PER_TRACK
    {
      PositionsCover(skew, p);
      var n :| 0 <= n < SECTORS_PER_TRACK && Position(skew, n) == p;
      assert SectorAt(order, skew, n);
    }
    forall p, q | 0 <= p < q < |order|
      ensures order[p] != order[q]
    {
      assert Taken(skew, SECTORS_PER_TRACK, p) && Taken(skew, SECTORS_PER_TRACK, q);
      var m :| 0 <= m < SECTORS_PER_TRACK && Position(skew, m) == p;
      var n :| 0 <= n < SECTORS_PER_TRACK && Position(skew, n) == q;
      assert SectorAt(order, skew, m) && SectorAt(order, skew, n);
    }
  }

  ghost function Below(n: nat): (s: set<nat>)
    ensures |s| == n && forall p: nat :: p in s <==> p < n
  {
    if n == 0 then {} else Below(n - 1) + {n - 1}
  }

  ghost function PositionSet(skew: nat, n: nat): set<nat> {
    if n == 0 then {} else PositionSet(skew, n - 1) + {Position(skew, n - 1)}
  }

  lemma {:induction false} PositionSetHas(skew: nat, n: nat, p: nat)
    ensures p in PositionSet(skew, n) <==> Taken(skew, n, p)
  {
    if n > 0 {
      PositionSetHas(skew, n - 1, p);
      TakenNext(skew, n - 1, p);
    }
  }

  lemma {:induction false} NewPlace(skew: nat, n: nat)
    requires Placeable(skew, n + 1)
    ensures Placeable(skew, n) && !Taken(skew, n, Position(skew, n))
  {
  }

  lemma {:induction false} OneMoreMember(s: set<nat>, p: nat)
    requires p !in s
    ensures |s + {p}| == |s| + 1
  {
  }

  lemma {:induction false} PositionSetSize(skew: nat, n: nat)
    requires Placeable(skew, n)
    ensures |PositionSet(skew, n)| == n
  {
    if n > 0 {
      NewPlace(skew, n - 1);
      PositionSetSize(skew, n - 1);
      PositionSetHas(skew, n - 1, Position(skew, n - 1));
      OneMoreMember(PositionSet(skew, n - 1), Position(skew, n - 1));
    }
  }

  /** Twenty-six different places among twenty-six are all of them. */
  lemma {:induction false} PositionsCover(skew: nat, p: nat)
    requires AcceptsSkew(skew) && p < SECTORS_PER_TRACK
    ensures Taken(skew, SECTORS_PER_TRACK, p)
  {
    PlacesCover(skew, SECTORS_PER_TRACK, p);
  }

  lemma {:induction false} PlacesCover(skew: nat, n: nat, p: nat)
    requires Placeable(skew, n) && p < n && forall i :: 0 <= i < n ==> Position(skew, i) < n
    ensures Taken(skew, n, p)
  {
    var used, all := PositionSet(skew, n), Below(n);
    PositionSetSize(skew, n);
    forall q | q in used
      ensures q in all
    {
      PositionSetHas(skew, n, q);
    }
    PositionSetHas(skew, n, p);
    if p !in used {
      assert |used + {p}| == |used| + 1;
      SubsetSize(used + {p}, all);
    }
  }

  lemma {:induction false} SubsetSize(a: set<nat>, b: set<nat>)
    requires a <= b
    ensures |a| <= |b|
  {
    assert a + (b - a) == b;
    assert |a + (b - a)| == |a| + |b - a|;
  }

  /** The disk made from a sector image: every track formatted, with the sectors in skewed
      order. */
  method Import(image: seq<byte>, skew: byte) returns (disk: FloppyDiskImage?, ghost order: seq<byte>)
    ensures disk != null <==> |image| == IMAGE_SIZE && AcceptsSkew(skew)
    ensures disk != null ==>
              && fresh(disk) && disk.Valid()
              && IsSectorOrder(order) && IsSkewed(order, skew)
              && forall t :: 0 <= t < TRACK_COUNT ==>
                   && Formatted(disk.Contents()[t], image, order, t) && Regular(disk.Contents()[t])
                   && SectorsInPlace(disk.Contents()[t], image, t)
  {
    order := [];
    if |image| != IMAGE_SIZE {
      return null, order;
    }
    var map? := SectorMap(skew);
    if map?.None? {
      return null, order;
    }
    var sectorMap := map?.value;
    order := sectorMap;

    disk := new FloppyDiskImage();
    for trackNumber := 0 to TRACK_COUNT
      invariant disk.Valid() && fresh(disk) && fresh(disk.tracks)
      invariant forall t :: 0 <= t < trackNumber ==>
                  && Formatted(disk.Contents()[t], image, order, t) && Regular(disk.Contents()[t])
                  && SectorsInPlace(disk.Contents()[t], image, t)
    {
      var track := BuildTrack(image, sectorMap, trackNumber);
      FormattedIsRegular(track, image, order, trackNumber);
      RegularIsSpaced(track);
      var ok := disk.SetTrack(trackNumber, track);
      if !ok {
        assert false;
        return null, order;
      }
    }
  }

  lemma {:induction false} FormattedIsRegular(cells: seq<TimedFmByte>, image: seq<byte>, order: seq<byte>, track: nat)
    requires |image| == IMAGE_SIZE && track < TRACK_COUNT && IsSectorOrder(order)
    requires Formatted(cells, image, order, track)
    ensures Regular(cells)
  {
    forall i | 0 <= i < |cells|
      ensures cells[i].tick == BYTE_TICKS * i
    {
      if HEADER_CELLS <= i < SlotStart(SECTORS_PER_TRACK) {
        var k := (i - HEADER_CELLS) / SLOT_CELLS;
        assert SlotStart(k) <= i < SlotStart(k) + SLOT_CELLS;
        assert SlotPart(cells, SlotStart(k), track, order[k], SectorData(image, track, order[k]), SLOT_CELLS);
      }
    }
  }

  // ---------------------------------------------------------------- the scanner

  predicate IsIdMark(cell: TimedFmByte) {
    cell.data == 0xFE && cell.clocks == SECTOR_MARK_CLOCKS
  }

  predicate IsDataMark(cell: TimedFmByte) {
    (cell.data == 0xFB || cell.data == 0xF8) && cell.clocks == SECTOR_MARK_CLOCKS
  }

  /** The sector an ID field at `index` names, when it belongs on this track. */
  function NamedSector(cells: seq<TimedFmByte>, track: nat, index: nat): Option<nat>
    requires index + 6 < |cells|
  {
    var sector := cells[index + 3].data;
    if cells[index + 1].data == track && cells[index + 2].data == 0
       && 1 <= sector <= SECTORS_PER_TRACK && cells[index + 4].data == 0
    then Some(sector) else None
  }

  function FieldData(cells: seq<TimedFmByte>, from: nat, count: nat): (data: seq<byte>)
    requires from + count <= |cells|
    ensures |data| == count && forall i :: 0 <= i < count ==> data[i] == cells[from + i].data
  {
    seq<byte>(count, i requires 0 <= i < count => cells[from + i].data)
  }

  /** The sectors read off a track from `index` on, a later copy of a sector replacing an earlier
      one.  An ID field is skipped as a whole, and so is a data field that follows one. */
  function Scan(cells: seq<TimedFmByte>, track: nat, index: nat, pending: Option<nat>,
                found: map<nat, seq<byte>>): map<nat, seq<byte>>
    decreases |cells| - index
  {
    if index >= |cells| then found
    else if IsIdMark(cells[index]) then
      if index + 6 >= |cells| then Scan(cells, track, index + 1, None, found)
      else Scan(cells, track, index + 7, NamedSector(cells, track, index), found)
    else if IsDataMark(cells[index]) && pending.Some? then
      if index + BYTES_PER_SECTOR + 2 >= |cells| then Scan(cells, track, index + 1, None, found)
      else Scan(cells, track, index + BYTES_PER_SECTOR + 3, None,
                found[pending.value := FieldData(cells, index + 1, BYTES_PER_SECTOR)])
    else Scan(cells, track, index + 1, pending, found)
  }

  function Sectors(cells: seq<TimedFmByte>, track: nat): map<nat, seq<byte>> {
    Scan(cells, track, 0, None, map[])
  }

  /** Every sector of every track can be read. */
  ghost predicate Complete(disk: seq<seq<TimedFmByte>>) {
    forall t, s: nat :: 0 <= t < |disk| && 1 <= s <= SECTORS_PER_TRACK ==> s in Sectors(disk[t], t)
  }

  /** The image is what the scanner reads, sector by sector. */
  ghost predicate IsImageOf(image: seq<byte>, disk: seq<seq<TimedFmByte>>) {
    && |image| == IMAGE_SIZE
    && forall t, s: nat :: 0 <= t < |disk| && t < TRACK_COUNT && s in Sectors(disk[t], t) && 1 <= s <= SECTORS_PER_TRACK ==>
         SectorData(image, t, s) == Sectors(disk[t], t)[s]
  }

  /** Byte `n` of the image is byte `n % 128` of sector `n / 128 % 26 + 1` as read off track
      `n / 3328`. */
  ghost predicate ReadAt(image: seq<byte>, disk: seq<seq<TimedFmByte>>, n: nat) {
    && n < 256_256 == |image| && |disk| == 77
    && var (t, s) := (n / 3328, n / 128 % 26 + 1);
       && s in Sectors(disk[t], t) && |Sectors(disk[t], t)[s]| == 128
       && image[n] == Sectors(disk[t], t)[s][n % 128]
  }

  lemma {:induction false} ImageByte(image: seq<byte>, disk: seq<seq<TimedFmByte>>, n: nat)
    requires |disk| == TRACK_COUNT && Complete(disk) && IsImageOf(image, disk) && n < 256_256
    ensures ReadAt(image, disk, n)
  {
    var t, s := n / 3328, n / 128 % 26 + 1;
    SectorBytes(image, t, s);
    assert s in Sectors(disk[t], t) && SectorData(image, t, s) == Sectors(disk[t], t)[s];
    BytePlace(n, t, s);
  }

  lemma {:induction false} BytePlace(n: nat, t: nat, s: nat)
    requires n < 256_256 && t == n / 3328 && s == n / 128 % 26 + 1
    ensures t < 77 && n == 3328 * t + 128 * (s - 1) + n % 128
  {
    assert n / 128 / 26 == t;
  }

  // ---------------------------------------------------------------- export

  const TRACK_BYTES: nat := SECTORS_PER_TRACK * BYTES_PER_SECTOR

  function FlagIndex(track: nat, sector: nat): int {
    track * SECTORS_PER_TRACK + (sector - 1)
  }

  /** What has been stored of the sectors `found` on one track, in the flat arrays. */
  ghost predicate Stored(image: seq<byte>, read: seq<bool>, track: nat, found: map<nat, seq<byte>>) {
    && |image| == IMAGE_SIZE && |read| == TRACK_COUNT * SECTORS_PER_TRACK && track < TRACK_COUNT
    && (forall s :: 1 <= s <= SECTORS_PER_TRACK ==> (read[FlagIndex(track, s)] <==> s in found))
    && (forall s :: 1 <= s <= SECTORS_PER_TRACK && s in found ==> SectorData(image, track, s) == found[s])
  }

  /** Only the part of the arrays that belongs to `track` may differ. */
  ghost predicate SameElsewhere(image: seq<byte>, read: seq<bool>, image': seq<byte>, read': seq<bool>, track: nat) {
    && |image'| == |image| == IMAGE_SIZE && |read'| == |read| == TRACK_COUNT * SECTORS_PER_TRACK
    && (forall i :: 0 <= i < |image| && !(TRACK_BYTES * track <= i < TRACK_BYTES * (track + 1)) ==>
          image'[i] == image[i])
    && (forall i :: 0 <= i < |read| && !(SECTORS_PER_TRACK * track <= i < SECTORS_PER_TRACK * (track + 1)) ==>
          read'[i] == read[i])
  }

  method ScanTrack(cells: seq<TimedFmByte>, track: nat, sectorImage: array<byte>, found: array<bool>)
    requires track < TRACK_COUNT && sectorImage.Length == IMAGE_SIZE
    requires found.Length == TRACK_COUNT * SECTORS_PER_TRACK
    requires Stored(sectorImage[..], found[..], track, map[])
    modifies sectorImage, found
    ensures Stored(sectorImage[..], found[..], track, Sectors(cells, track))
    ensures SameElsewhere(old(sectorImage[..]), old(found[..]), sectorImage[..], found[..], track)
  {
    var pendingSector: Option<nat> := None;
    var index := 0;
    ghost var acc: map<nat, seq<byte>> := map[];
    while index < |cells|
      invariant Scan(cells, track, index, pendingSector, acc) == Sectors(cells, track)
      invariant pendingSector.Some? ==> 1 <= pendingSector.value <= SECTORS_PER_TRACK
      invariant Stored(sectorImage[..], found[..], track, acc)
      invariant SameElsewhere(old(sectorImage[..]), old(found[..]), sectorImage[..], found[..], track)
      decreases |cells| - index
    {
      if IsIdMark(cells[index]) {
        pendingSector := None;
        if index + 6 >= |cells| {
          index := index + 1;
          continue;
        }
        var cylinder := cells[index + 1].data;
        var head := cells[index + 2].data;
        var sector := cells[index + 3].data;
        var length := cells[index + 4].data;
        if cylinder == track && head == 0 && sector >= 1 && sector <= SECTORS_PER_TRACK && length == 0 {
          pendingSector := Some(sector);
        }
        index := index + 7;
        continue;
      }

      if IsDataMark(cells[index]) && pendingSector.Some? {
        if index + BYTES_PER_SECTOR + 2 >= |cells| {
          pendingSector := None;
          index := index + 1;
          continue;
        }
        StoreSector(cells, index + 1, track, pendingSector.value, sectorImage, found, acc);
        acc := acc[pendingSector.value := FieldData(cells, index + 1, BYTES_PER_SECTOR)];
        pendingSector := None;
        index := index + BYTES_PER_SECTOR + 2;
      }
      index := index + 1;
    }
  }

  /** The copy loop of one data field. */
  method StoreSector(cells: seq<TimedFmByte>, from: nat, track: nat, sector: nat,
                     sectorImage: array<byte>, found: array<bool>, ghost acc: map<nat, seq<byte>>)
    requires from + BYTES_PER_SECTOR <= |cells| && track < TRACK_COUNT && 1 <= sector <= SECTORS_PER_TRACK
    requires sectorImage.Length == IMAGE_SIZE && found.Length == TRACK_COUNT * SECTORS_PER_TRACK
    requires Stored(sectorImage[..], found[..], track, acc)
    modifies sectorImage, found
    ensures Stored(sectorImage[..], found[..], track, acc[sector := FieldData(cells, from, BYTES_PER_SECTOR)])
    ensures SameElsewhere(old(sectorImage[..]), old(found[..]), sectorImage[..], found[..], track)
    ensures forall n :: 3328 * track + 128 * (sector - 1) <= n < 3328 * track + 128 * sector ==>
              sectorImage[n] == cells[from + (n - 3328 * track - 128 * (sector - 1))].data
  {
    var rawOffset := (track * SECTORS_PER_TRACK + (sector - 1)) * BYTES_PER_SECTOR;
    for dataIndex := 0 to BYTES_PER_SECTOR
      invariant forall i :: rawOffset <= i < rawOffset + dataIndex ==>
                  sectorImage[i] == cells[from + (i - rawOffset)].data
      invariant forall i :: 0 <= i < IMAGE_SIZE && !(rawOffset <= i < rawOffset + BYTES_PER_SECTOR) ==>
                  sectorImage[i] == old(sectorImage[i])
      invariant found[..] == old(found[..])
    {
      sectorImage[rawOffset + dataIndex] := cells[from + dataIndex].data;
    }
    found[track * SECTORS_PER_TRACK + (sector - 1)] := true;
    SectorStored(old(sectorImage[..]), old(found[..]), sectorImage[..], found[..], track, sector, acc,
                 FieldData(cells, from, BYTES_PER_SECTOR));
  }

  lemma {:induction false} SectorStored(image: seq<byte>, read: seq<bool>, image': seq<byte>, read': seq<bool>,
                     track: nat, sector: nat, acc: map<nat, seq<byte>>, data: seq<byte>)
    requires Stored(image, read, track, acc) && 1 <= sector <= SECTORS_PER_TRACK
    requires |image'| == |image| && |data| == BYTES_PER_SECTOR
    requires read' == read[FlagIndex(track, sector) := true]
    requires forall i :: 0 <= i < BYTES_PER_SECTOR ==> image'[SectorOffset(track, sector) + i] == data[i]
    requires forall i ::
               (0 <= i < |image| && !(SectorOffset(track, sector) <= i < SectorOffset(track, sector) + BYTES_PER_SECTOR))
               ==> image'[i] == image[i]
    ensures Stored(image', read', track, acc[sector := data])
    ensures SameElsewhere(image, read, image', read', track)
  {
    assert SectorData(image', track, sector) == data;
    forall s | 1 <= s <= SECTORS_PER_TRACK && s != sector
      ensures SectorData(image', track, s) == SectorData(image, track, s)
      ensures read'[FlagIndex(track, s)] == read[FlagIndex(track, s)]
    {
    }
  }

  /** Tracks before `n` are stored, and nothing else is. */
  ghost predicate StoredUpTo(image: seq<byte>, read: seq<bool>, disk: seq<seq<TimedFmByte>>, n: nat) {
    && |image| == IMAGE_SIZE && |read| == TRACK_COUNT * SECTORS_PER_TRACK && n <= |disk| == TRACK_COUNT
    && (forall t :: 0 <= t < n ==> Stored(image, read, t, Sectors(disk[t], t)))
    && (forall i :: SECTORS_PER_TRACK * n <= i < |read| ==> !read[i])
  }

  /** Reads every track back; nothing unless each of the 77 x 26 sectors was found. */
  method ExportImage(disk: FloppyDiskImage) returns (result: Option<seq<byte>>)
    requires disk.Valid()
    ensures result.Some? <==> Complete(disk.Contents())
    ensures result.Some? ==> IsImageOf(result.value, disk.Contents())
    ensures result.Some? ==> forall n :: 0 <= n < 256_256 ==> ReadAt(result.value, disk.Contents(), n)
  {
    var sectorImage := new byte[IMAGE_SIZE](_ => 0);
    var found := new bool[TRACK_COUNT * SECTORS_PER_TRACK](_ => false);
    ghost var contents := disk.Contents();
    for physicalTrack := 0 to TRACK_COUNT
      invariant disk.Valid() && disk.Contents() == contents
      invariant StoredUpTo(sectorImage[..], found[..], contents, physicalTrack)
    {
      ghost var imageBefore, foundBefore := sectorImage[..], found[..];
      ScanTrack(disk.tracks[physicalTrack].bytes, physicalTrack, sectorImage, found);
      OneMoreTrack(imageBefore, foundBefore, sectorImage[..], found[..], contents, physicalTrack);
    }
    var allFound := AllOf(found);
    if !allFound {
      NotAllFound(sectorImage[..], found[..], contents);
      return None;
    }
    AllFound(sectorImage[..], found[..], contents);
    forall n: nat | n < 256_256
      ensures ReadAt(sectorImage[..], contents, n)
    {
      ImageByte(sectorImage[..], contents, n);
    }
    return Some(sectorImage[..]);
  }

  /** `std::all_of` over the flags. */
  method AllOf(flags: array<bool>) returns (all: bool)
    ensures all <==> forall i :: 0 <= i < flags.Length ==> flags[i]
  {
    for index := 0 to flags.Length
      invariant forall i :: 0 <= i < index ==> flags[i]
    {
      if !flags[index] {
        return false;
      }
    }
    return true;
  }

  lemma {:induction false} OneMoreTrack(image: seq<byte>, read: seq<bool>, image': seq<byte>, read': seq<bool>,
                     disk: seq<seq<TimedFmByte>>, n: nat)
    requires n < TRACK_COUNT && StoredUpTo(image, read, disk, n)
    requires SameElsewhere(image, read, image', read', n)
    requires Stored(image', read', n, Sectors(disk[n], n))
    ensures StoredUpTo(image', read', disk, n + 1)
  {
    forall t | 0 <= t < n
      ensures Stored(image', read', t, Sectors(disk[t], t))
    {
      forall s | 1 <= s <= SECTORS_PER_TRACK
        ensures SectorData(image', t, s) == SectorData(image, t, s)
        ensures read'[FlagIndex(t, s)] == read[FlagIndex(t, s)]
      {
      }
    }
  }

  lemma {:induction false} NotAllFound(image: seq<byte>, read: seq<bool>, disk: seq<seq<TimedFmByte>>)
    requires StoredUpTo(image, read, disk, TRACK_COUNT)
    requires exists i :: 0 <= i < |read| && !read[i]
    ensures !Complete(disk)
  {
    var i :| 0 <= i < |read| && !read[i];
    var t, s := i / SECTORS_PER_TRACK, i % SECTORS_PER_TRACK + 1;
    assert FlagIndex(t, s) == i;
    assert s !in Sectors(disk[t], t);
  }

  lemma {:induction false} AllFound(image: seq<byte>, read: seq<bool>, disk: seq<seq<TimedFmByte>>)
    requires StoredUpTo(image, read, disk, TRACK_COUNT)
    requires forall i :: 0 <= i < |read| ==> read[i]
    ensures Complete(disk) && IsImageOf(image, disk)
  {
    forall t, s | 0 <= t < |disk| && 1 <= s <= SECTORS_PER_TRACK
      ensures s in Sectors(disk[t], t) && SectorData(image, t, s) == Sectors(disk[t], t)[s]
    {
      assert Stored(image, read, t, Sectors(disk[t], t));
      assert read[FlagIndex(t, s)];
    }
  }
}
