/** Rotation of a drive: which cells pass under the head in a span of master ticks.

    The program visits whole intervals between index pulses at once.  The reference is the
    rotation itself, one tick after another. */
module FloppyDrives {
  import opened Bytes
  import opened FloppyTracks
  import opened Wrappers

  type Cells = seq<TimedFmByte>

  // ---------------------------------------------------------------- the rotation, tick by tick

  lemma {:induction false} BeforeMonotone(cells: Cells, from: nat, to: nat)
    requires Ascending(cells) && from <= to
    ensures Before(cells, from) <= Before(cells, to)
  {
    BeforeIsLowerBound(cells, from);
    BeforeIsLowerBound(cells, to);
    var n := Before(cells, to);
    assert n < |cells| ==> from <= to <= cells[n].tick;
  }

  /** The cells with a tick in `from..to`. */
  function Between(cells: Cells, from: nat, to: nat): Cells
    requires Ascending(cells) && from <= to
  {
    BeforeMonotone(cells, from, to);
    cells[Before(cells, from)..Before(cells, to)]
  }

  lemma {:induction false} BetweenConcat(cells: Cells, from: nat, middle: nat, to: nat)
    requires Ascending(cells) && from <= middle <= to
    ensures Between(cells, from, to) == Between(cells, from, middle) + Between(cells, middle, to)
  {
    BeforeMonotone(cells, from, middle);
    BeforeMonotone(cells, middle, to);
  }

  function Advanced(phase: nat, ticks: nat): (after: nat)
    ensures after < REVOLUTION_TICKS
  {
    (phase + ticks) % REVOLUTION_TICKS
  }

  lemma {:induction false} AdvancedTwice(phase: nat, a: nat, b: nat)
    ensures Advanced(Advanced(phase, a), b) == Advanced(phase, a + b)
  {
  }

  /** The cells that pass while the disk turns `ticks` ticks from `phase` on. */
  function Passing(cells: Cells, phase: nat, ticks: nat): Cells
    requires Ascending(cells) && phase < REVOLUTION_TICKS
    decreases ticks, cells
  {
    if ticks == 0 then []
    else Between(cells, phase, phase + 1) + Passing(cells, Advanced(phase, 1), ticks - 1)
  }

  /** Turning in two steps shows the same cells as turning at once. */
  lemma {:induction false} PassingConcat(cells: Cells, phase: nat, a: nat, b: nat)
    requires Ascending(cells) && phase < REVOLUTION_TICKS
    ensures Passing(cells, phase, a + b) == Passing(cells, phase, a) + Passing(cells, Advanced(phase, a), b)
    decreases a
  {
    if a == 0 {
      assert Passing(cells, phase, a) == [];
    } else {
      var first, next := Between(cells, phase, phase + 1), Advanced(phase, 1);
      PassingConcat(cells, next, a - 1, b);
      AdvancedTwice(phase, 1, a - 1);
      PassingFirst(cells, phase, a);
      PassingFirst(cells, phase, a + b);
      assert a + b - 1 == (a - 1) + b;
      Associates(first, Passing(cells, next, a - 1), Passing(cells, Advanced(phase, a), b));
    }
  }

  lemma {:induction false} Associates(a: Cells, b: Cells, c: Cells)
    ensures a + (b + c) == (a + b) + c
  {
  }

  lemma {:induction false} PassingFirst(cells: Cells, phase: nat, ticks: nat)
    requires Ascending(cells) && phase < REVOLUTION_TICKS && ticks > 0
    ensures Passing(cells, phase, ticks)
         == Between(cells, phase, phase + 1) + Passing(cells, Advanced(phase, 1), ticks - 1)
  {
  }

  /** Without crossing the index, the cells of the interval pass. */
  lemma {:induction false} PassingInterval(cells: Cells, phase: nat, ticks: nat)
    requires Ascending(cells) && phase < REVOLUTION_TICKS && phase + ticks <= REVOLUTION_TICKS
    ensures Passing(cells, phase, ticks) == Between(cells, phase, phase + ticks)
    decreases ticks
  {
    if ticks == 1 {
      assert Passing(cells, Advanced(phase, 1), 0) == [];
    } else if ticks != 0 {
      assert Advanced(phase, 1) == phase + 1;
      PassingInterval(cells, phase + 1, ticks - 1);
      BetweenConcat(cells, phase, phase + 1, phase + ticks);
    }
  }

  /** One pass of the visiting loop: up to the index, or to the end of the span. */
  lemma {:induction false} PassingStep(cells: Cells, phase: nat, interval: nat, remaining: nat, next: nat)
    requires Ascending(cells) && phase < REVOLUTION_TICKS
    requires interval <= remaining && phase + interval <= REVOLUTION_TICKS && next < REVOLUTION_TICKS
    requires interval == remaining || (phase + interval == REVOLUTION_TICKS && next == 0)
    ensures Passing(cells, phase, remaining)
         == Between(cells, phase, phase + interval) + Passing(cells, next, remaining - interval)
  {
    var rest: nat := remaining - interval;
    PassingConcat(cells, phase, interval, rest);
    PassingInterval(cells, phase, interval);
    if rest == 0 {
      assert Passing(cells, next, rest) == [] == Passing(cells, Advanced(phase, interval), rest);
    } else {
      assert Advanced(phase, interval) == next;
    }
  }

  /** Every cell passes exactly once in a revolution, whatever the phase. */
  lemma {:induction false} PassingRevolution(cells: Cells, phase: nat, revolution: nat)
    requires Spaced(cells) && phase < REVOLUTION_TICKS && revolution == REVOLUTION_TICKS
    ensures var n := Before(cells, phase);
            Passing(cells, phase, revolution) == cells[n..] + cells[..n]
  {
    PassingStep(cells, phase, revolution - phase, revolution, 0);
    PassingInterval(cells, 0, phase);
    TwoParts(cells, phase, revolution);
  }

  lemma {:induction false} TwoParts(cells: Cells, phase: nat, revolution: nat)
    requires Spaced(cells) && phase < REVOLUTION_TICKS && revolution == REVOLUTION_TICKS
    ensures Between(cells, phase, revolution) == cells[Before(cells, phase)..]
    ensures Between(cells, 0, phase) == cells[..Before(cells, phase)]
  {
    WholeTrack(cells, revolution);
  }

  lemma {:induction false} WholeTrack(cells: Cells, revolution: nat)
    requires Spaced(cells) && revolution == REVOLUTION_TICKS
    ensures Before(cells, revolution) == |cells| && Before(cells, 0) == 0
  {
    LowerBoundUnique(cells, revolution, |cells|);
    LowerBoundUnique(cells, 0, 0);
  }

  lemma {:induction false} AtMostOneAtATick(cells: Cells, tick: nat)
    requires Ascending(cells)
    ensures Before(cells, tick) <= Before(cells, tick + 1) <= Before(cells, tick) + 1
  {
    BeforeIsLowerBound(cells, tick);
    BeforeIsLowerBound(cells, tick + 1);
    BeforeMonotone(cells, tick, tick + 1);
    var b := Before(cells, tick);
    if b + 1 < |cells| {
      assert cells[b].tick < cells[b + 1].tick;
    }
  }

  /** The place of the `j`th cell that passes after a phase, around the track. */
  function PlaceAt(cells: Cells, phase: nat, j: nat): (i: nat)
    requires cells != []
    ensures i < |cells|
  {
    (Before(cells, phase) + j) % |cells|
  }

  lemma {:induction false} PlaceWraps(n: nat, j: nat)
    requires n > 0
    ensures (n + j) % n == j % n
  {
    DivModUnique(n + j, n, (n + j) / n, (n + j) % n);
    DivModUnique(n + j, n, j / n + 1, j % n);
  }

  /** The place of a cell does not depend on the tick it is looked for from. */
  lemma {:induction false} PlaceLater(cells: Cells, phase: nat, j: nat, k: nat)
    requires Spaced(cells) && cells != [] && phase < REVOLUTION_TICKS
    requires j == |Between(cells, phase, phase + 1)| + k
    ensures PlaceAt(cells, phase, j) == PlaceAt(cells, Advanced(phase, 1), k)
  {
    AtMostOneAtATick(cells, phase);
    if phase + 1 == REVOLUTION_TICKS {
      WholeTrack(cells, phase + 1);
      PlaceWraps(|cells|, k);
    }
  }

  /** The `j`th of these cells is the one `j` places on. */
  predicate ComesAt(cells: Cells, phase: nat, passing: Cells, j: nat) {
    j < |passing| ==> cells != [] && passing[j] == cells[PlaceAt(cells, phase, j)]
  }

  lemma {:induction false} FirstPlace(cells: Cells, phase: nat)
    requires Before(cells, phase) < |cells|
    ensures PlaceAt(cells, phase, 0) == Before(cells, phase)
  {
  }

  lemma {:induction false} ComesAtOnce(cells: Cells, phase: nat, rest: Cells, j: nat)
    requires Ascending(cells) && j < |Between(cells, phase, phase + 1)|
    ensures ComesAt(cells, phase, Between(cells, phase, phase + 1) + rest, j)
  {
    AtMostOneAtATick(cells, phase);
    FirstPlace(cells, phase);
  }

  lemma {:induction false} ComesLater(cells: Cells, phase: nat, rest: Cells, j: nat, k: nat)
    requires Spaced(cells) && phase < REVOLUTION_TICKS && j == |Between(cells, phase, phase + 1)| + k
    requires ComesAt(cells, Advanced(phase, 1), rest, k)
    ensures ComesAt(cells, phase, Between(cells, phase, phase + 1) + rest, j)
  {
    if cells != [] {
      PlaceLater(cells, phase, j, k);
    }
  }

  /** However long the track turns, the `j`th cell that passes is the one `j` places on. */
  lemma {:induction false} PassingAt(cells: Cells, phase: nat, ticks: nat, j: nat)
    requires Spaced(cells) && phase < REVOLUTION_TICKS
    ensures ComesAt(cells, phase, Passing(cells, phase, ticks), j)
    decreases ticks
  {
    if ticks != 0 {
      var first, next := |Between(cells, phase, phase + 1)|, Advanced(phase, 1);
      PassingFirst(cells, phase, ticks);
      if j < first {
        ComesAtOnce(cells, phase, Passing(cells, next, ticks - 1), j);
      } else {
        PassingAt(cells, next, ticks - 1, j - first);
        ComesLater(cells, phase, Passing(cells, next, ticks - 1), j, j - first);
      }
    }
  }

  /** What passes when time is cut into chunks. */
  ghost function PassingChunks(cells: Cells, phase: nat, chunks: seq<nat>): Cells
    requires Ascending(cells) && phase < REVOLUTION_TICKS
    decreases chunks
  {
    if chunks == [] then []
    else Passing(cells, phase, chunks[0]) + PassingChunks(cells, Advanced(phase, chunks[0]), chunks[1..])
  }

  /** How time is cut into chunks does not matter to the cells that pass. */
  lemma {:induction false} ChunksDoNotMatter(cells: Cells, phase: nat, chunks: seq<nat>)
    requires Ascending(cells) && phase < REVOLUTION_TICKS
    ensures PassingChunks(cells, phase, chunks) == Passing(cells, phase, Sum(chunks))
    decreases chunks
  {
    if chunks != [] {
      ChunksDoNotMatter(cells, Advanced(phase, chunks[0]), chunks[1..]);
      PassingConcat(cells, phase, chunks[0], Sum(chunks[1..]));
    }
  }

  /** The cells in `begin..end`, in order. */
  method VisitInterval(bytes: Cells, begin: nat, end: nat) returns (visited: Cells)
    requires Ascending(bytes) && begin <= end
    ensures visited == Between(bytes, begin, end)
  {
    var first := LowerBound(bytes, begin);
    LowerBoundUnique(bytes, begin, first);
    BeforeMonotone(bytes, begin, end);
    BeforeIsLowerBound(bytes, end);
    var index := first;
    visited := [];
    while index < |bytes| && bytes[index].tick < end
      invariant first <= index <= Before(bytes, end)
      invariant visited == bytes[first..index]
      decreases |bytes| - index
    {
      visited := visited + [bytes[index]];
      index := index + 1;
    }
  }

  /** The cells up to the next index, or until the time is over. */
  method VisitUpToIndex(bytes: Cells, phase: nat, remaining: nat) returns (part: Cells, interval: nat)
    requires Ascending(bytes) && phase < REVOLUTION_TICKS && remaining != 0
    ensures 0 < interval <= remaining
    ensures part + Passing(bytes, 0, remaining - interval) == Passing(bytes, phase, remaining)
  {
    interval := if remaining <= REVOLUTION_TICKS - phase then remaining else REVOLUTION_TICKS - phase;
    part := VisitInterval(bytes, phase, phase + interval);
    PassingStep(bytes, phase, interval, remaining, 0);
  }

  /** The cells of a span of time, from index to index. */
  method VisitTrack(bytes: Cells, rotationPhase: nat, masterTicks: nat) returns (visited: Cells)
    requires Ascending(bytes) && rotationPhase < REVOLUTION_TICKS
    ensures visited == Passing(bytes, rotationPhase, masterTicks)
  {
    visited := [];
    var remaining: nat, phase: nat := masterTicks, rotationPhase;
    ghost var all := Passing(bytes, rotationPhase, masterTicks);
    while remaining != 0
      invariant phase < REVOLUTION_TICKS
      invariant visited + Passing(bytes, phase, remaining) == all
    {
      var part, interval := VisitUpToIndex(bytes, phase, remaining);
      Associates(visited, part, Passing(bytes, 0, remaining - interval));
      visited := visited + part;
      remaining := remaining - interval;
      phase := 0;
    }
  }

  // ---------------------------------------------------------------- the drive as a value

  /** Ticks until the disk has turned from one place to another. */
  function Away(phase: nat, tick: nat): int {
    if tick >= phase then tick - phase else tick + 2_000_000 - phase
  }

  lemma {:induction false} OneTick(cells: Cells, tick: nat, cell: TimedFmByte)
    requires Ascending(cells)
    ensures cell in Between(cells, tick, tick + 1) <==> cell in cells && cell.tick == tick
  {
    BeforeIsLowerBound(cells, tick);
    BeforeIsLowerBound(cells, tick + 1);
    BeforeMonotone(cells, tick, tick + 1);
    var b, e := Before(cells, tick), Before(cells, tick + 1);
    if cell in cells && cell.tick == tick {
      var k :| 0 <= k < |cells| && cells[k] == cell;
      assert b <= k < e;
      assert cells[b..e][k - b] == cell;
    }
  }

  /** With a revolution of two million ticks, the cells that pass in a span of time are those whose tick comes up
      in it. */
  lemma {:induction false} AtItsTick(cells: Cells, phase: nat, ticks: nat, cell: TimedFmByte)
    requires Spaced(cells) && phase < 2_000_000
    ensures cell in Passing(cells, phase, ticks) <==> cell in cells && Away(phase, cell.tick) < ticks
    decreases ticks
  {
    if ticks > 0 {
      OneTick(cells, phase, cell);
      var next := Advanced(phase, 1);
      assert next == if phase == 1_999_999 then 0 else phase + 1;
      AtItsTick(cells, next, ticks - 1, cell);
      PassingFirst(cells, phase, ticks);
    }
  }

  datatype FloppyAccess = ReadOnly | ReadWrite

  const LAST_TRACK: nat := 76

  datatype DriveState = DriveState(image: Option<seq<Cells>>, access: FloppyAccess, revolutions: nat, phase: nat, head: nat)
  {
    /** Without a medium the drive reports itself protected. */
    predicate WriteProtected() { image.None? || access == ReadOnly }

    predicate IndexActive(pulseWidth: nat) { image.Some? && pulseWidth != 0 && phase < pulseWidth }

    /** Ticks the medium has turned since it was first inserted. */
    function Turned(): nat { revolutions * REVOLUTION_TICKS + phase }
  }

  const EMPTY_DRIVE := DriveState(None, ReadOnly, 0, 0, 0)

  predicate IsDisk(tracks: seq<Cells>) {
    |tracks| == TRACK_COUNT && forall t :: 0 <= t < |tracks| ==> Spaced(tracks[t])
  }

  predicate DriveOk(d: DriveState) {
    d.phase < REVOLUTION_TICKS && d.head <= LAST_TRACK && (d.image.Some? ==> IsDisk(d.image.value))
  }

  /** The cells of the track under the head. */
  function UnderHead(d: DriveState): (cells: Cells)
    requires DriveOk(d)
    ensures Spaced(cells)
  {
    if d.image.None? then [] else d.image.value[d.head]
  }

  /** What passes under the head in a span of time. */
  function Visited(d: DriveState, ticks: nat): Cells
    requires DriveOk(d)
  {
    if d.image.None? then [] else Passing(UnderHead(d), d.phase, ticks)
  }

  function Rotated(d: DriveState, ticks: nat): (after: DriveState)
    requires DriveOk(d)
    ensures DriveOk(after) && UnderHead(after) == UnderHead(d) && after.image == d.image
    ensures after.Turned() == d.Turned() + if d.image.Some? then ticks else 0
  {
    if d.image.None? then d
    else
      var sum := d.phase + ticks % REVOLUTION_TICKS;
      d.(revolutions := d.revolutions + ticks / REVOLUTION_TICKS + sum / REVOLUTION_TICKS,
         phase := sum % REVOLUTION_TICKS)
  }

  function CellWritten(d: DriveState, cell: TimedFmByte): (after: DriveState)
    requires DriveOk(d)
    ensures DriveOk(after)
  {
    if d.WriteProtected() then d
    else d.(image := Some(d.image.value[d.head := RecordedAs(UnderHead(d), cell)]))
  }

  /** By numbers: a disk in a drive turns once in two million ticks, and an empty drive shows nothing. */
  lemma {:induction false} Turns(d: DriveState, ticks: nat, cell: TimedFmByte)
    requires DriveOk(d)
    ensures var e := Rotated(d, ticks);
            && e == d.(phase := e.phase, revolutions := e.revolutions)
            && (d.image.None? ==> e == d && Visited(d, ticks) == [])
            && (d.image.Some? ==>
                  && e.phase == (d.phase + ticks) % 2_000_000 && e.revolutions == d.revolutions + (d.phase + ticks) / 2_000_000
                  && (cell in Visited(d, ticks) <==> cell in d.image.value[d.head] && Away(d.phase, cell.tick) < ticks))
  {
    if d.image.Some? {
      PhaseAfter(d, ticks);
      AtItsTick(d.image.value[d.head], d.phase, ticks, cell);
    }
  }

  /** A turning disk shows the same cells, and stands at the same angle after them, however time
      is cut. */
  lemma {:induction false} RotatedTwice(d: DriveState, a: nat, b: nat)
    requires DriveOk(d)
    ensures Rotated(Rotated(d, a), b) == Rotated(d, a + b)
    ensures Visited(d, a) + Visited(Rotated(d, a), b) == Visited(d, a + b)
  {
    var once, twice := Rotated(d, a + b), Rotated(Rotated(d, a), b);
    if d.image.Some? {
      assert once.Turned() == twice.Turned();
      DivModUnique(once.Turned(), REVOLUTION_TICKS, once.revolutions, once.phase);
      DivModUnique(twice.Turned(), REVOLUTION_TICKS, twice.revolutions, twice.phase);
      PassingConcat(UnderHead(d), d.phase, a, b);
      PhaseAfter(d, a);
    }
  }

  lemma {:induction false} PhaseAfter(d: DriveState, ticks: nat)
    requires DriveOk(d) && d.image.Some?
    ensures Rotated(d, ticks).phase == Advanced(d.phase, ticks)
  {
  }

  // ---------------------------------------------------------------- the drive

  class FloppyDrive {
    var image: FloppyDiskImage?
    var access: FloppyAccess
    var completedRevolutions: nat
    var rotationPhase: nat
    var headTrack: nat

    ghost function State(): (d: DriveState)
      requires Valid()
      reads this, image, if image != null then image.tracks else []
      ensures DriveOk(d) && UnderHead(d) == Cells()
    {
      DriveState(if image == null then None else Some(image.Contents()), access, completedRevolutions, rotationPhase, headTrack)
    }

    ghost predicate Valid()
      reads this, image, if image != null then image.tracks else []
    {
      && rotationPhase < REVOLUTION_TICKS
      && headTrack <= LAST_TRACK
      && (image != null ==> image.Valid())
    }

    /** The cells of the track under the head. */
    ghost function Cells(): (cells: Cells)
      requires Valid()
      reads this, image, if image != null then image.tracks else []
      ensures Spaced(cells)
    {
      if image == null then [] else image.tracks[headTrack].bytes
    }

    constructor ()
      ensures Valid() && State() == EMPTY_DRIVE
    {
      image, access, completedRevolutions, rotationPhase, headTrack := null, ReadOnly, 0, 0, 0;
    }

    method Insert(disk: FloppyDiskImage, mode: FloppyAccess)
      requires Valid() && disk.Valid()
      modifies this
      ensures Valid() && image == disk
      ensures State() == old(State()).(image := Some(disk.Contents()), access := mode)
    {
      image, access := disk, mode;
    }

    method Eject() returns (disk: FloppyDiskImage?)
      requires Valid()
      modifies this
      ensures Valid() && disk == old(image)
      ensures State() == old(State()).(image := None, access := ReadOnly)
    {
      disk := image;
      image, access := null, ReadOnly;
    }

    /** All cells the callback is given for a span of time. */
    method VisitBytes(masterTicks: nat) returns (visited: Cells)
      requires Valid()
      ensures visited == Visited(State(), masterTicks)
    {
      if image == null || masterTicks == 0 {
        return [];
      }
      var bytes := image.tracks[headTrack].bytes;
      if bytes == [] {
        NothingPasses(bytes, rotationPhase, masterTicks);
        return [];
      }
      visited := VisitTrack(bytes, rotationPhase, masterTicks);
    }

    method Advance(masterTicks: nat)
      requires Valid()
      modifies this
      ensures Valid() && image == old(image)
      ensures State() == Rotated(old(State()), masterTicks)
    {
      if image == null || masterTicks == 0 {
        return;
      }
      var wholeRevolutions := masterTicks / REVOLUTION_TICKS;
      var remainingTicks := masterTicks % REVOLUTION_TICKS;
      var phaseSum := rotationPhase + remainingTicks;
      completedRevolutions := completedRevolutions + wholeRevolutions + phaseSum / REVOLUTION_TICKS;
      rotationPhase := phaseSum % REVOLUTION_TICKS;
    }

    method WriteByte(cell: TimedFmByte) returns (ok: bool)
      requires Valid()
      modifies if image != null then image.tracks else []
      ensures Valid()
      ensures ok <==> !WriteProtected() && Accepts(old(Cells()), cell.tick)
      ensures State() == CellWritten(old(State()), cell)
    {
      if WriteProtected() {
        return false;
      }
      ghost var before := image.Contents();
      ok := image.tracks[headTrack].WriteByte(cell);
      assert image.Contents() == before[headTrack := RecordedAs(before[headTrack], cell)];
    }

    /** Without a medium the drive reports itself protected. */
    predicate WriteProtected()
      reads this
    {
      image == null || access == ReadOnly
    }

    predicate TrackZero()
      reads this
    {
      headTrack == 0
    }

    predicate IndexActive(pulseWidth: nat)
      reads this
    {
      image != null && pulseWidth != 0 && rotationPhase < pulseWidth
    }

    method StepTowardTrackZero()
      requires Valid()
      modifies this`headTrack
      ensures Valid()
      ensures State() == old(State()).(head := if old(headTrack) == 0 then 0 else old(headTrack) - 1)
    {
      if headTrack != 0 {
        headTrack := headTrack - 1;
      }
    }

    method StepTowardHigherTrack()
      requires Valid()
      modifies this`headTrack
      ensures Valid()
      ensures State() == old(State()).(head := if old(headTrack) < LAST_TRACK then old(headTrack) + 1 else LAST_TRACK)
    {
      if headTrack < LAST_TRACK {
        headTrack := headTrack + 1;
      }
    }
  }

  lemma {:induction false} NothingPasses(cells: Cells, phase: nat, ticks: nat)
    requires cells == [] && phase < REVOLUTION_TICKS
    ensures Passing(cells, phase, ticks) == []
    decreases ticks
  {
    if ticks != 0 {
      NothingPasses(cells, Advanced(phase, 1), ticks - 1);
    }
  }
}
