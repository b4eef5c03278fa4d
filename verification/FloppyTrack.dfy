/** One circular track of timed FM cells.

    A cell is a data byte with its clock mask at a tick of the revolution.  The writer looks only
    at the two neighbours of the place it writes to; the rule it has to keep is about all pairs
    of cells, around the circle. */
module FloppyTracks {
  import opened Bytes

  const BYTE_TICKS: nat := 384
  const REVOLUTION_TICKS: nat := 2_000_000
  const MAXIMUM_CELLS: nat := 5_208

  datatype TimedFmByte = TimedFmByte(tick: nat, data: byte, clocks: byte)

  // ---------------------------------------------------------------- the rule

  /** Distance between two ticks of the revolution, the short way around. */
  function CircularDistance(a: nat, b: nat): int {
    var d := if a <= b then b - a else a - b;
    if d <= REVOLUTION_TICKS - d then d else REVOLUTION_TICKS - d
  }

  predicate Ascending(cells: seq<TimedFmByte>) {
    forall i, j :: 0 <= i < j < |cells| ==> cells[i].tick < cells[j].tick
  }

  /** In order, within one revolution, and every two cells at least a byte time apart. */
  predicate Spaced(cells: seq<TimedFmByte>) {
    && Ascending(cells)
    && (forall i :: 0 <= i < |cells| ==> cells[i].tick < REVOLUTION_TICKS)
    && (forall i, j :: 0 <= i < j < |cells| ==>
          CircularDistance(cells[i].tick, cells[j].tick) >= BYTE_TICKS)
  }

  predicate HasTick(cells: seq<TimedFmByte>, tick: nat) {
    exists i :: 0 <= i < |cells| && cells[i].tick == tick
  }

  /** There is room for a cell: its tick is taken already, or no cell at all is too close. */
  predicate Accepts(cells: seq<TimedFmByte>, tick: nat) {
    && tick < REVOLUTION_TICKS
    && (|| HasTick(cells, tick)
        || forall i :: 0 <= i < |cells| ==> CircularDistance(cells[i].tick, tick) >= BYTE_TICKS)
  }

  /** `position` splits the cells into those before `tick` and the others. */
  ghost predicate IsLowerBound(cells: seq<TimedFmByte>, tick: nat, position: nat) {
    && position <= |cells|
    && (forall i :: 0 <= i < position ==> cells[i].tick < tick)
    && (forall i :: position <= i < |cells| ==> tick <= cells[i].tick)
  }

  /** `after` is `before` with `cell` recorded: exactly the cells of other ticks survive. */
  ghost predicate Recorded(before: seq<TimedFmByte>, cell: TimedFmByte, after: seq<TimedFmByte>) {
    forall c :: c in after <==> c == cell || (c in before && c.tick != cell.tick)
  }

  /** The number of cells before a tick. */
  function Before(cells: seq<TimedFmByte>, tick: nat): (n: nat)
    ensures n <= |cells|
  {
    if cells == [] then 0
    else Before(cells[..|cells| - 1], tick) + if cells[|cells| - 1].tick < tick then 1 else 0
  }

  lemma {:induction false} BeforeIsLowerBound(cells: seq<TimedFmByte>, tick: nat)
    requires Ascending(cells)
    ensures IsLowerBound(cells, tick, Before(cells, tick))
  {
    if cells != [] {
      BeforeIsLowerBound(cells[..|cells| - 1], tick);
    }
  }

  lemma {:induction false} LowerBoundUnique(cells: seq<TimedFmByte>, tick: nat, position: nat)
    requires Ascending(cells) && IsLowerBound(cells, tick, position)
    ensures position == Before(cells, tick)
  {
    BeforeIsLowerBound(cells, tick);
    var n := Before(cells, tick);
    assert position < |cells| ==> tick <= cells[position].tick;
    assert n < |cells| ==> tick <= cells[n].tick;
  }

  method LowerBound(cells: seq<TimedFmByte>, tick: nat) returns (position: nat)
    requires Ascending(cells)
    ensures IsLowerBound(cells, tick, position)
  {
    var low, high := 0, |cells|;
    while low < high
      invariant 0 <= low <= high <= |cells|
      invariant forall i :: 0 <= i < low ==> cells[i].tick < tick
      invariant forall i :: high <= i < |cells| ==> tick <= cells[i].tick
    {
      var middle := low + (high - low) / 2;
      if cells[middle].tick < tick {
        low := middle + 1;
      } else {
        high := middle;
      }
    }
    position := low;
  }

  /** The acceptance test of a whole track: order, range, neighbour gaps, and the gap across the
      index. */
  method WellSpaced(cells: seq<TimedFmByte>) returns (ok: bool)
    ensures ok <==> Spaced(cells)
  {
    var index := 1;
    while index < |cells|
      invariant 1 <= index && (cells != [] ==> index <= |cells|)
      invariant forall i, j :: 0 <= i < j < |cells| && j < index ==> cells[i].tick <= cells[j].tick
    {
      if cells[index].tick < cells[index - 1].tick {
        return false;
      }
      index := index + 1;
    }

    index := 0;
    while index < |cells|
      invariant 0 <= index <= |cells|
      invariant forall i :: 0 <= i < index ==> cells[i].tick < REVOLUTION_TICKS
      invariant forall i, j :: 0 <= i < j < index ==> cells[j].tick - cells[i].tick >= BYTE_TICKS
    {
      if cells[index].tick >= REVOLUTION_TICKS {
        return false;
      }
      if index != 0 && cells[index].tick - cells[index - 1].tick < BYTE_TICKS {
        assert CircularDistance(cells[index - 1].tick, cells[index].tick) < BYTE_TICKS;
        return false;
      }
      index := index + 1;
    }

    if |cells| > 1 {
      var wrapDistance := cells[0].tick + REVOLUTION_TICKS - cells[|cells| - 1].tick;
      if wrapDistance < BYTE_TICKS {
        assert CircularDistance(cells[0].tick, cells[|cells| - 1].tick) < BYTE_TICKS;
        return false;
      }
    }
    return true;
  }

  /** The look at the two neighbours of a free place. */
  method HasRoom(cells: seq<TimedFmByte>, tick: nat, position: nat) returns (room: bool)
    requires Spaced(cells) && tick < REVOLUTION_TICKS && IsLowerBound(cells, tick, position)
    requires position < |cells| ==> cells[position].tick != tick
    ensures room <==> Accepts(cells, tick)
  {
    if cells == [] {
      return true;
    }
    var previous := if position == 0 then cells[|cells| - 1] else cells[position - 1];
    var next := if position == |cells| then cells[0] else cells[position];
    var fromPrevious := tick + (if previous.tick > tick then REVOLUTION_TICKS else 0) - previous.tick;
    var toNext := next.tick + (if next.tick < tick then REVOLUTION_TICKS else 0) - tick;
    NeighboursDecide(cells, tick, position);
    return fromPrevious >= BYTE_TICKS && toNext >= BYTE_TICKS;
  }

  class FloppyTrack {
    var bytes: seq<TimedFmByte>

    ghost predicate Valid()
      reads this
    {
      Spaced(bytes)
    }

    constructor ()
      ensures Valid() && bytes == []
    {
      bytes := [];
    }

    method SetBytes(cells: seq<TimedFmByte>) returns (ok: bool)
      requires Valid()
      modifies this
      ensures Valid()
      ensures ok <==> Spaced(cells)
      ensures bytes == if ok then cells else old(bytes)
    {
      ok := WellSpaced(cells);
      if ok {
        bytes := cells;
      }
    }

    method WriteByte(cell: TimedFmByte) returns (ok: bool)
      requires Valid()
      modifies this
      ensures Valid()
      ensures ok <==> Accepts(old(bytes), cell.tick)
      ensures bytes == RecordedAs(old(bytes), cell)
    {
      if cell.tick >= REVOLUTION_TICKS {
        return false;
      }
      var position := LowerBound(bytes, cell.tick);
      if position != |bytes| && bytes[position].tick == cell.tick {
        RecordedInPlace(bytes, cell, position);
        bytes := bytes[position := cell];
        return true;
      }
      ok := HasRoom(bytes, cell.tick, position);
      if ok {
        RecordedBetween(bytes, cell, position);
        bytes := bytes[..position] + [cell] + bytes[position..];
      }
    }

    method Clear()
      modifies this
      ensures Valid() && bytes == []
    {
      bytes := [];
    }
  }

  const TRACK_COUNT: nat := 77

  /** A disk side: 77 tracks, each an object of its own. */
  class FloppyDiskImage {
    const tracks: seq<FloppyTrack>

    ghost predicate Valid()
      reads this, tracks
    {
      && |tracks| == TRACK_COUNT
      && (forall i, j :: 0 <= i < j < |tracks| ==> tracks[i] != tracks[j])
      && (forall i :: 0 <= i < |tracks| ==> tracks[i].Valid())
    }

    ghost function Contents(): (contents: seq<seq<TimedFmByte>>)
      reads tracks
      ensures |contents| == |tracks|
      ensures forall i :: 0 <= i < |tracks| ==> contents[i] == tracks[i].bytes
    {
      seq(|tracks|, i requires 0 <= i < |tracks| reads tracks => tracks[i].bytes)
    }

    constructor ()
      ensures Valid() && fresh(tracks)
      ensures forall i :: 0 <= i < TRACK_COUNT ==> Contents()[i] == []
    {
      var made: seq<FloppyTrack> := [];
      while |made| < TRACK_COUNT
        invariant |made| <= TRACK_COUNT
        invariant forall i :: 0 <= i < |made| ==> fresh(made[i]) && made[i].bytes == []
        invariant forall i, j :: 0 <= i < j < |made| ==> made[i] != made[j]
      {
        var track := new FloppyTrack();
        made := made + [track];
      }
      tracks := made;
    }

    method SetTrack(index: nat, cells: seq<TimedFmByte>) returns (ok: bool)
      requires Valid()
      modifies tracks
      ensures Valid()
      ensures ok <==> index < TRACK_COUNT && Spaced(cells)
      ensures Contents() == if ok then old(Contents())[index := cells] else old(Contents())
    {
      if index < |tracks| {
        ok := tracks[index].SetBytes(cells);
      } else {
        ok := false;
      }
    }
  }

  // ---------------------------------------------------------------- why two neighbours suffice

  /** A tick at least a byte time after its predecessor and before its successor, around the
      circle, is a byte time away from every cell of the track. */
  lemma {:induction false} NeighboursSuffice(cells: seq<TimedFmByte>, tick: nat, position: nat)
    requires Spaced(cells) && cells != [] && tick < REVOLUTION_TICKS
    requires IsLowerBound(cells, tick, position) && !HasTick(cells, tick)
    requires var previous := if position == 0 then cells[|cells| - 1].tick - REVOLUTION_TICKS
                             else cells[position - 1].tick;
             tick - previous >= BYTE_TICKS
    requires var next := if position == |cells| then cells[0].tick + REVOLUTION_TICKS
                         else cells[position].tick;
             next - tick >= BYTE_TICKS
    ensures forall i :: 0 <= i < |cells| ==> CircularDistance(cells[i].tick, tick) >= BYTE_TICKS
  {
    forall i | 0 <= i < |cells|
      ensures CircularDistance(cells[i].tick, tick) >= BYTE_TICKS
    {
      var last := |cells| - 1;
      assert cells[i].tick <= cells[last].tick && cells[0].tick <= cells[i].tick;
      if i < position {
        assert cells[i].tick <= cells[position - 1].tick;
        if position <= last {
          assert CircularDistance(cells[i].tick, cells[position].tick) >= BYTE_TICKS;
        }
      } else {
        assert cells[position].tick <= cells[i].tick;
        if position > 0 {
          assert CircularDistance(cells[position - 1].tick, cells[i].tick) >= BYTE_TICKS;
        }
      }
    }
  }

  /** Where the tick is not taken, the two gaps the writer looks at decide. */
  lemma {:induction false} NeighboursDecide(cells: seq<TimedFmByte>, tick: nat, position: nat)
    requires Spaced(cells) && cells != [] && tick < REVOLUTION_TICKS
    requires IsLowerBound(cells, tick, position)
    requires position < |cells| ==> cells[position].tick != tick
    ensures !HasTick(cells, tick)
    ensures var previous := if position == 0 then cells[|cells| - 1].tick else cells[position - 1].tick;
            var next := if position == |cells| then cells[0].tick else cells[position].tick;
            Accepts(cells, tick) <==>
              && tick + (if previous > tick then REVOLUTION_TICKS else 0) - previous >= BYTE_TICKS
              && next + (if next < tick then REVOLUTION_TICKS else 0) - tick >= BYTE_TICKS
  {
    var previous := if position == 0 then |cells| - 1 else position - 1;
    var next := if position == |cells| then 0 else position;
    if && tick + (if cells[previous].tick > tick then REVOLUTION_TICKS else 0) - cells[previous].tick >= BYTE_TICKS
       && cells[next].tick + (if cells[next].tick < tick then REVOLUTION_TICKS else 0) - tick >= BYTE_TICKS {
      NeighboursSuffice(cells, tick, position);
    } else {
      assert CircularDistance(cells[previous].tick, tick) < BYTE_TICKS
          || CircularDistance(cells[next].tick, tick) < BYTE_TICKS;
    }
  }

  lemma {:induction false} OverwriteKeepsRule(cells: seq<TimedFmByte>, cell: TimedFmByte, position: nat)
    requires Spaced(cells) && position < |cells| && cells[position].tick == cell.tick
    ensures Spaced(cells[position := cell])
    ensures Recorded(cells, cell, cells[position := cell])
    ensures forall i :: 0 <= i < |cells| && cells[i].tick == cell.tick ==> i == position
  {
    var after := cells[position := cell];
    assert forall i :: 0 <= i < |cells| ==> after[i].tick == cells[i].tick;
    forall c
      ensures c in after <==> c == cell || (c in cells && c.tick != cell.tick)
    {
      if c in cells && c.tick != cell.tick {
        var i :| 0 <= i < |cells| && cells[i] == c;
        assert after[i] == c;
      }
      assert after[position] == cell;
    }
  }

  lemma {:induction false} InsertKeepsRule(cells: seq<TimedFmByte>, cell: TimedFmByte, position: nat)
    requires Spaced(cells) && cell.tick < REVOLUTION_TICKS
    requires IsLowerBound(cells, cell.tick, position) && !HasTick(cells, cell.tick)
    requires forall i :: 0 <= i < |cells| ==> CircularDistance(cells[i].tick, cell.tick) >= BYTE_TICKS
    ensures var after := cells[..position] + [cell] + cells[position..];
            Spaced(after) && Recorded(cells, cell, after)
  {
    var after := cells[..position] + [cell] + cells[position..];
    InsertedSpacing(cells, cell, position, after);
    forall c
      ensures c in after <==> c == cell || (c in cells && c.tick != cell.tick)
    {
      assert cells == cells[..position] + cells[position..];
      assert after[position] == cell;
    }
  }

  lemma {:induction false} InsertedSpacing(cells: seq<TimedFmByte>, cell: TimedFmByte, position: nat, after: seq<TimedFmByte>)
    requires Spaced(cells) && cell.tick < REVOLUTION_TICKS
    requires IsLowerBound(cells, cell.tick, position) && !HasTick(cells, cell.tick)
    requires forall i :: 0 <= i < |cells| ==> CircularDistance(cells[i].tick, cell.tick) >= BYTE_TICKS
    requires after == cells[..position] + [cell] + cells[position..]
    ensures Spaced(after)
  {
    forall i, j | 0 <= i < j < |after|
      ensures after[i].tick < after[j].tick < REVOLUTION_TICKS
      ensures CircularDistance(after[i].tick, after[j].tick) >= BYTE_TICKS
    {
      var a, b := if i < position then i else i - 1, if j < position then j else j - 1;
      assert i == position || after[i] == cells[a];
      assert j == position || after[j] == cells[b];
      assert i == position || j == position
          || CircularDistance(cells[a].tick, cells[b].tick) >= BYTE_TICKS;
    }
    assert forall i :: 0 <= i < |after| ==> after[i] == cell || after[i] in cells;
  }

  /** A track after a cell has been written to it. */
  function RecordedAs(cells: seq<TimedFmByte>, cell: TimedFmByte): (after: seq<TimedFmByte>)
    requires Spaced(cells)
    ensures Spaced(after)
  {
    if !Accepts(cells, cell.tick) then cells
    else
      BeforeIsLowerBound(cells, cell.tick);
      var position := Before(cells, cell.tick);
      if position < |cells| && cells[position].tick == cell.tick then
        OverwriteKeepsRule(cells, cell, position);
        cells[position := cell]
      else
        InsertKeepsRule(cells, cell, position);
        cells[..position] + [cell] + cells[position..]
  }

  /** Exactly the cells of other ticks survive a write. */
  lemma {:induction false} OthersSurvive(cells: seq<TimedFmByte>, cell: TimedFmByte)
    requires Spaced(cells) && Accepts(cells, cell.tick)
    ensures Recorded(cells, cell, RecordedAs(cells, cell))
  {
    BeforeIsLowerBound(cells, cell.tick);
    var position := Before(cells, cell.tick);
    if position < |cells| && cells[position].tick == cell.tick {
      OverwriteKeepsRule(cells, cell, position);
    } else {
      InsertKeepsRule(cells, cell, position);
    }
  }

  /** Writing to a tick that is taken replaces that one cell. */
  lemma {:induction false} RecordedInPlace(cells: seq<TimedFmByte>, cell: TimedFmByte, i: nat)
    requires Spaced(cells) && i < |cells| && cells[i].tick == cell.tick
    ensures Accepts(cells, cell.tick) && RecordedAs(cells, cell) == cells[i := cell]
  {
    assert HasTick(cells, cell.tick);
    LowerBoundUnique(cells, cell.tick, i);
  }

  /** Writing where there is room inserts the cell in order. */
  lemma {:induction false} RecordedBetween(cells: seq<TimedFmByte>, cell: TimedFmByte, position: nat)
    requires Spaced(cells) && Accepts(cells, cell.tick) && IsLowerBound(cells, cell.tick, position)
    requires position < |cells| ==> cells[position].tick != cell.tick
    ensures RecordedAs(cells, cell) == cells[..position] + [cell] + cells[position..]
  {
    LowerBoundUnique(cells, cell.tick, position);
  }

  // ---------------------------------------------------------------- capacity

  lemma {:induction false} TicksGrow(cells: seq<TimedFmByte>, n: nat)
    requires Spaced(cells) && n < |cells|
    ensures cells[n].tick >= cells[0].tick + BYTE_TICKS * n
  {
    if n > 0 {
      TicksGrow(cells, n - 1);
      assert CircularDistance(cells[n - 1].tick, cells[n].tick) >= BYTE_TICKS;
    }
  }

  /** No sequence of writes can put more than 5,208 cells on a track. */
  lemma {:induction false} CapacityBound(cells: seq<TimedFmByte>)
    requires Spaced(cells)
    ensures |cells| <= MAXIMUM_CELLS
  {
    if |cells| > 1 {
      var last := |cells| - 1;
      TicksGrow(cells, last);
      assert CircularDistance(cells[0].tick, cells[last].tick) >= BYTE_TICKS;
    }
  }

  /** The timing of an imported track: 5,208 cells, one byte time apart, from the index on. */
  ghost predicate Regular(cells: seq<TimedFmByte>) {
    && |cells| == MAXIMUM_CELLS
    && forall i :: 0 <= i < |cells| ==> cells[i].tick == BYTE_TICKS * i
  }

  lemma {:induction false} RegularIsSpaced(cells: seq<TimedFmByte>)
    requires Regular(cells)
    ensures Spaced(cells)
  {
  }

  /** A regular track is saturated: the only ticks it accepts are those it already has, and
      writing there keeps its timing. */
  lemma {:induction false} RegularIsSaturated(cells: seq<TimedFmByte>, tick: nat)
    requires Regular(cells)
    ensures Accepts(cells, tick) <==> tick % BYTE_TICKS == 0 && tick / BYTE_TICKS < MAXIMUM_CELLS
  {
    var slot := tick / BYTE_TICKS;
    if tick % BYTE_TICKS == 0 && slot < MAXIMUM_CELLS {
      assert cells[slot].tick == tick;
    } else if tick < REVOLUTION_TICKS {
      assert tick == BYTE_TICKS * slot + tick % BYTE_TICKS;
      forall i | 0 <= i < |cells|
        ensures cells[i].tick != tick
      {
        assert cells[i].tick == BYTE_TICKS * i;
      }
      var near := if slot < MAXIMUM_CELLS then slot else MAXIMUM_CELLS - 1;
      if CircularDistance(cells[near].tick, tick) >= BYTE_TICKS {
        assert cells[0].tick == 0;
        assert CircularDistance(cells[0].tick, tick) < BYTE_TICKS;
      }
    }
  }
}
