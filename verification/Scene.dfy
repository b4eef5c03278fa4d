/** A head on a turning track, with the controller behind it: time steps in which the track turns and
    what is written reaches the medium, and steps of the processor in between. */
module Scenes {
  import opened Bytes
  import opened FloppyTracks
  import opened FloppyDrives
  import opened FloppySubsystems
  import opened DiskController
  import opened DiskSteps

  // ---------------------------------------------------------------- ticks

  function Ticks(cells: Cells): (ticks: seq<nat>)
    ensures |ticks| == |cells|
    ensures forall i :: 0 <= i < |ticks| ==> ticks[i] == cells[i].tick
  {
    seq(|cells|, i requires 0 <= i < |cells| => cells[i].tick)
  }

  lemma {:induction false} SameBefore(a: Cells, b: Cells, tick: nat)
    requires SameTiming(a, b)
    ensures Before(a, tick) == Before(b, tick)
    decreases a
  {
    if a != [] {
      SameBefore(a[..|a| - 1], b[..|b| - 1], tick);
    }
  }

  lemma {:induction false} SameSlice(a: Cells, b: Cells, low: nat, high: nat)
    requires SameTiming(a, b) && low <= high <= |a|
    ensures Ticks(a[low..high]) == Ticks(b[low..high])
  {
  }

  /** What passes depends on the contents of a track, when it passes only on its timing. */
  lemma {:induction false} SamePassing(a: Cells, b: Cells, phase: nat, ticks: nat)
    requires SameTiming(a, b) && Ascending(a) && Ascending(b) && phase < REVOLUTION_TICKS
    ensures Ticks(Passing(a, phase, ticks)) == Ticks(Passing(b, phase, ticks))
    decreases ticks
  {
    if ticks != 0 {
      var next := FloppyDrives.Advanced(phase, 1);
      SamePassing(a, b, next, ticks - 1);
      SameBefore(a, b, phase);
      SameBefore(a, b, phase + 1);
      var p, q := Between(a, phase, phase + 1), Between(b, phase, phase + 1);
      assert Passing(a, phase, ticks) == p + Passing(a, next, ticks - 1);
      assert Passing(b, phase, ticks) == q + Passing(b, next, ticks - 1);
      TicksConcat(p, Passing(a, next, ticks - 1));
      TicksConcat(q, Passing(b, next, ticks - 1));
      BeforeMonotone(a, phase, phase + 1);
      SameSlice(a, b, Before(a, phase), Before(a, phase + 1));
    }
  }

  lemma {:induction false} TicksConcat(a: Cells, b: Cells)
    ensures Ticks(a + b) == Ticks(a) + Ticks(b)
  {
  }

  lemma {:induction false} LastWriteTwice(cell: TimedFmByte, a: Cells, b: Cells)
    ensures LastWrite(LastWrite(cell, a), b) == LastWrite(cell, a + b)
    decreases b
  {
    LastWriteTick(cell, a);
    if b == [] {
      assert a + b == a;
    } else {
      LastWriteTwice(cell, a, b[..|b| - 1]);
      assert (a + b)[..|a + b| - 1] == a + b[..|b| - 1];
    }
  }

  lemma {:induction false} OverlaidTwice(cells: Cells, a: Cells, b: Cells)
    ensures Overlaid(Overlaid(cells, a), b) == Overlaid(cells, a + b)
  {
    forall i | 0 <= i < |cells|
      ensures Overlaid(Overlaid(cells, a), b)[i] == Overlaid(cells, a + b)[i]
    {
      LastWriteTwice(cells[i], a, b);
    }
  }

  lemma {:induction false} OverlaidByNothing(cells: Cells, none: Cells)
    requires none == []
    ensures Overlaid(cells, none) == cells
  {
  }

  lemma {:induction false} OnlyWrite(cell: TimedFmByte, writes: Cells, i: nat)
    requires i < |writes| && writes[i].tick == cell.tick
    requires forall j :: 0 <= j < |writes| && j != i ==> Ticks(writes)[j] != cell.tick
    ensures LastWrite(cell, writes) == writes[i]
    decreases writes
  {
    if i < |writes| - 1 {
      assert Ticks(writes)[|writes| - 1] != cell.tick;
      assert forall j :: 0 <= j < |writes| - 1 ==> Ticks(writes[..|writes| - 1])[j] == Ticks(writes)[j];
      OnlyWrite(cell, writes[..|writes| - 1], i);
    }
  }

  lemma {:induction false} PassingAmong(cells: Cells, phase: nat, ticks: nat)
    requires Ascending(cells) && phase < REVOLUTION_TICKS
    ensures forall cell :: cell in Passing(cells, phase, ticks) ==> cell in cells
    decreases ticks
  {
    if ticks != 0 {
      PassingAmong(cells, FloppyDrives.Advanced(phase, 1), ticks - 1);
    }
  }

  // ---------------------------------------------------------------- the scene

  datatype Scene = Scene(d: Disk, cells: Cells, phase: nat)

  /** The track turns for some time, while counter 1 is clocked; or the processor does something. */
  datatype Chunk = Turns(ticks: nat, controlA: byte, clocks: nat) | Acts(step: Step)

  predicate OnTrack(s: Scene) {
    Spaced(s.cells) && s.phase < REVOLUTION_TICKS
  }

  function TicksOf(chunk: Chunk): nat {
    if chunk.Turns? then chunk.ticks else 0
  }

  /** The cells that pass. */
  function PassingIn(s: Scene, chunk: Chunk): Cells
    requires OnTrack(s)
  {
    Passing(s.cells, s.phase, TicksOf(chunk))
  }

  /** What the chunk is to the controller. */
  function StepIn(s: Scene, chunk: Chunk): Step
    requires OnTrack(s)
  {
    match chunk
    case Turns(_, controlA, clocks) => TimePasses(controlA, PassingIn(s, chunk), clocks)
    case Acts(step) => step
  }

  function WritesOf(s: Scene, chunk: Chunk): Cells
    requires OnTrack(s)
  {
    HandedOver(s.d, StepIn(s, chunk))
  }

  /** The writes of a time step reach the medium at its end. */
  function Played(s: Scene, chunk: Chunk): (after: Scene)
    requires OnTrack(s)
    ensures OnTrack(after) && SameTiming(s.cells, after.cells)
  {
    var writes := WritesOf(s, chunk);
    OverlaidKeepsTiming(s.cells, writes);
    Scene(After(s.d, StepIn(s, chunk)), Overlaid(s.cells, writes), FloppyDrives.Advanced(s.phase, TicksOf(chunk)))
  }

  function PlayedAll(s: Scene, chunks: seq<Chunk>): (after: Scene)
    requires OnTrack(s)
    decreases chunks
  {
    if chunks == [] then s else PlayedAll(Played(s, chunks[0]), chunks[1..])
  }

  function AllWrites(s: Scene, chunks: seq<Chunk>): Cells
    requires OnTrack(s)
    decreases chunks
  {
    if chunks == [] then [] else WritesOf(s, chunks[0]) + AllWrites(Played(s, chunks[0]), chunks[1..])
  }

  /** The whole run as steps of the controller. */
  function StepsIn(s: Scene, chunks: seq<Chunk>): seq<Step>
    requires OnTrack(s)
    decreases chunks
  {
    if chunks == [] then [] else [StepIn(s, chunks[0])] + StepsIn(Played(s, chunks[0]), chunks[1..])
  }

  function TotalTicks(chunks: seq<Chunk>): nat {
    if chunks == [] then 0 else TicksOf(chunks[0]) + TotalTicks(chunks[1..])
  }

  /** The cells that pass under the head in so much time. */
  function Stream(s: Scene, ticks: nat): Cells
    requires OnTrack(s)
  {
    Passing(s.cells, s.phase, ticks)
  }

  // ---------------------------------------------------------------- whole runs

  /** The first chunk, and the rest of the run after it. */
  lemma {:induction false} FirstChunk(s: Scene, chunks: seq<Chunk>, t: Scene)
    requires OnTrack(s) && chunks != [] && t == Played(s, chunks[0])
    ensures PlayedAll(s, chunks) == PlayedAll(t, chunks[1..])
    ensures AllWrites(s, chunks) == WritesOf(s, chunks[0]) + AllWrites(t, chunks[1..])
    ensures StepsIn(s, chunks) == [StepIn(s, chunks[0])] + StepsIn(t, chunks[1..])
    ensures TotalTicks(chunks) == TicksOf(chunks[0]) + TotalTicks(chunks[1..])
  {
  }

  lemma {:induction false} FirstStep(d: Disk, step: Step, rest: seq<Step>)
    ensures AfterSteps(d, [step] + rest) == AfterSteps(After(d, step), rest)
    ensures CellsIn([step] + rest) == CellsOf(step) + CellsIn(rest)
  {
    assert ([step] + rest)[1..] == rest;
  }

  /** The controller of a scene takes the steps of the scene. */
  lemma {:induction false} SceneTakesSteps(s: Scene, chunks: seq<Chunk>)
    requires OnTrack(s)
    ensures PlayedAll(s, chunks).d == AfterSteps(s.d, StepsIn(s, chunks))
    decreases chunks
  {
    if chunks != [] {
      var t := Played(s, chunks[0]);
      SceneTakesSteps(t, chunks[1..]);
      FirstChunk(s, chunks, t);
      FirstStep(s.d, StepIn(s, chunks[0]), StepsIn(t, chunks[1..]));
    }
  }

  /** What the steps hand over is what the chunks write. */
  lemma {:induction false} SceneWrites(s: Scene, chunks: seq<Chunk>)
    requires OnTrack(s)
    ensures AllWrites(s, chunks) == Written(s.d, StepsIn(s, chunks))
    decreases chunks
  {
    if chunks != [] {
      var t := Played(s, chunks[0]);
      SceneWrites(t, chunks[1..]);
      FirstChunk(s, chunks, t);
      assert StepsIn(s, chunks)[1..] == StepsIn(t, chunks[1..]);
    }
  }

  /** The ticks of the cells that pass in so much time. */
  function Timing(s: Scene, ticks: nat): seq<nat>
    requires OnTrack(s)
  {
    Ticks(Stream(s, ticks))
  }

  lemma {:induction false} StreamConcat(s: Scene, chunk: Chunk, rest: nat, t: Scene, total: nat)
    requires OnTrack(s) && t == Played(s, chunk) && total == TicksOf(chunk) + rest
    ensures Timing(s, total) == Timing(s, TicksOf(chunk)) + Timing(t, rest)
  {
    PassingConcat(s.cells, s.phase, TicksOf(chunk), rest);
    TicksConcat(Passing(s.cells, s.phase, TicksOf(chunk)), Passing(s.cells, t.phase, rest));
    SamePassing(s.cells, t.cells, t.phase, rest);
  }

  /** From `s` to `t` the track has turned so far, and these cells have been written. */
  predicate TurnedTo(s: Scene, ticks: nat, writes: Cells, t: Scene) {
    && t.phase == FloppyDrives.Advanced(s.phase, ticks) && SameTiming(s.cells, t.cells)
    && t.cells == Overlaid(s.cells, writes)
  }

  lemma {:induction false} TurnedTwice(s: Scene, a: nat, v: Cells, t: Scene, b: nat, w: Cells, u: Scene, ticks: nat,
                                       writes: Cells)
    requires TurnedTo(s, a, v, t) && TurnedTo(t, b, w, u) && ticks == a + b && writes == v + w
    ensures TurnedTo(s, ticks, writes, u)
  {
    AdvancedTwice(s.phase, a, b);
    OverlaidTwice(s.cells, v, w);
  }

  lemma {:induction false} NotTurned(s: Scene, none: nat)
    requires OnTrack(s) && none == 0
    ensures TurnedTo(s, none, [], s)
  {
    OverlaidByNothing(s.cells, []);
  }

  lemma {:induction false} ChunkTurns(s: Scene, chunk: Chunk, t: Scene)
    requires OnTrack(s) && t == Played(s, chunk)
    ensures TurnedTo(s, TicksOf(chunk), WritesOf(s, chunk), t)
  {
  }

  predicate RunTurns(s: Scene, chunks: seq<Chunk>)
    requires OnTrack(s)
  {
    TurnedTo(s, TotalTicks(chunks), AllWrites(s, chunks), PlayedAll(s, chunks))
  }

  lemma {:induction false} RunTurnsOn(s: Scene, chunks: seq<Chunk>, t: Scene)
    requires OnTrack(s) && chunks != [] && t == Played(s, chunks[0]) && RunTurns(t, chunks[1..])
    ensures RunTurns(s, chunks)
  {
    var rest := chunks[1..];
    FirstChunk(s, chunks, t);
    ChunkTurns(s, chunks[0], t);
    TurnedTwice(s, TicksOf(chunks[0]), WritesOf(s, chunks[0]), t, TotalTicks(rest), AllWrites(t, rest), PlayedAll(t, rest),
                TotalTicks(chunks), AllWrites(s, chunks));
  }

  /** The track turns at its own speed, whatever is written to it. */
  lemma {:induction false} SceneTurns(s: Scene, chunks: seq<Chunk>)
    requires OnTrack(s)
    ensures RunTurns(s, chunks)
    decreases chunks
  {
    if chunks == [] {
      NotTurned(s, TotalTicks(chunks));
    } else {
      var t := Played(s, chunks[0]);
      SceneTurns(t, chunks[1..]);
      RunTurnsOn(s, chunks, t);
    }
  }

  /** The processor does not make time pass. */
  predicate ActsOnly(chunk: Chunk) {
    chunk.Acts? ==> !chunk.step.TimePasses?
  }

  predicate AllActOnly(chunks: seq<Chunk>) {
    forall i :: 0 <= i < |chunks| ==> ActsOnly(chunks[i])
  }

  lemma {:induction false} CellsOfChunk(s: Scene, chunk: Chunk)
    requires OnTrack(s) && ActsOnly(chunk)
    ensures CellsOf(StepIn(s, chunk)) == Stream(s, TicksOf(chunk))
  {
  }

  lemma {:induction false} NoStream(s: Scene, none: nat)
    requires OnTrack(s) && none == 0
    ensures Stream(s, none) == [] && Timing(s, none) == []
  {
  }

  /** The cells the controller sees during a run. */
  function Shown(s: Scene, chunks: seq<Chunk>): Cells
    requires OnTrack(s)
  {
    CellsIn(StepsIn(s, chunks))
  }

  lemma {:induction false} FirstShown(s: Scene, chunks: seq<Chunk>, t: Scene)
    requires OnTrack(s) && chunks != [] && ActsOnly(chunks[0]) && t == Played(s, chunks[0])
    ensures Shown(s, chunks) == Stream(s, TicksOf(chunks[0])) + Shown(t, chunks[1..])
  {
    FirstChunk(s, chunks, t);
    FirstStep(s.d, StepIn(s, chunks[0]), StepsIn(t, chunks[1..]));
    CellsOfChunk(s, chunks[0]);
  }

  /** The steps see a stream of cells with the timing of the turning track. */
  lemma {:induction false} SceneStreams(s: Scene, chunks: seq<Chunk>)
    requires OnTrack(s) && AllActOnly(chunks)
    ensures Ticks(Shown(s, chunks)) == Timing(s, TotalTicks(chunks))
    decreases chunks
  {
    if chunks == [] {
      NoStream(s, TotalTicks(chunks));
    } else {
      var t, rest := Played(s, chunks[0]), chunks[1..];
      SceneStreams(t, rest);
      FirstShown(s, chunks, t);
      StreamConcat(s, chunks[0], TotalTicks(rest), t, TotalTicks(chunks));
      TicksConcat(Stream(s, TicksOf(chunks[0])), Shown(t, rest));
    }
  }

  lemma {:induction false} SilentChunk(s: Scene, chunk: Chunk, rest: nat, t: Scene, total: nat)
    requires OnTrack(s) && t == Played(s, chunk) && WritesOf(s, chunk) == [] && total == TicksOf(chunk) + rest
    ensures t.cells == s.cells && Stream(s, total) == Stream(s, TicksOf(chunk)) + Stream(t, rest)
  {
    OverlaidByNothing(s.cells, WritesOf(s, chunk));
    PassingConcat(s.cells, s.phase, TicksOf(chunk), rest);
  }

  /** When nothing is written they see the track itself. */
  lemma {:induction false} SilentSceneStreams(s: Scene, chunks: seq<Chunk>)
    requires OnTrack(s) && AllActOnly(chunks) && AllWrites(s, chunks) == []
    ensures Shown(s, chunks) == Stream(s, TotalTicks(chunks)) && PlayedAll(s, chunks).cells == s.cells
    decreases chunks
  {
    if chunks == [] {
      NoStream(s, TotalTicks(chunks));
    } else {
      var t, rest := Played(s, chunks[0]), chunks[1..];
      FirstChunk(s, chunks, t);
      SilentSceneStreams(t, rest);
      FirstShown(s, chunks, t);
      SilentChunk(s, chunks[0], TotalTicks(rest), t, TotalTicks(chunks));
    }
  }

  // ---------------------------------------------------------------- in a drive

  /** The scene in the selected drive of a bay. */
  function SceneIn(d: Disk, b: Bay): (s: Scene)
    requires BayOk(b)
    ensures OnTrack(s)
  {
    Scene(d, UnderHead(Selected(b)), Selected(b).phase)
  }

  lemma {:induction false} WithTrackKeeps(b: Bay, cells: Cells)
    requires BayOk(b) && Writable(b) && Spaced(cells)
    ensures var after := WithTrack(b, cells);
            Writable(after) && UnderHead(Selected(after)) == cells && Selected(after).phase == Selected(b).phase
  {
  }

  /** Writes that do not reach the medium, or only places the track has. */
  predicate Lands(b: Bay, cells: Cells, writes: Cells)
    requires BayOk(b)
  {
    writes == [] || (Writable(b) && InPlace(cells, writes))
  }

  lemma {:induction false} NothingLands(b: Bay, none: Cells)
    requires BayOk(b) && none == []
    ensures StoredAll(b, none) == b
  {
  }

  lemma {:induction false} SpunKeeps(b: Bay, ticks: nat)
    requires BayOk(b)
    ensures var after := Spun(b, ticks);
            && UnderHead(Selected(after)) == UnderHead(Selected(b)) && after.selected == b.selected && after.cable == b.cable
            && Selected(after).head == Selected(b).head && Selected(after).image == Selected(b).image
            && (Writable(after) <==> Writable(b))
            && (Selected(b).image.Some? ==> Selected(after).phase == FloppyDrives.Advanced(Selected(b).phase, ticks))
  {
    if Selected(b).image.Some? {
      PhaseAfter(Selected(b), ticks);
    }
  }

  /** A time step of the bay plays the scene of its selected drive. */
  lemma {:induction false} BayPlaysScene(d: Disk, b: Bay, chunk: Chunk)
    requires BayOk(b) && Selected(b).image.Some? && chunk.Turns?
    requires Lands(b, UnderHead(Selected(b)), WritesOf(SceneIn(d, b), chunk))
    ensures PassingIn(SceneIn(d, b), chunk) == Visited(Selected(b), chunk.ticks)
    ensures var after := StoredAll(Spun(b, chunk.ticks), WritesOf(SceneIn(d, b), chunk));
            && SceneIn(After(d, StepIn(SceneIn(d, b), chunk)), after) == Played(SceneIn(d, b), chunk)
            && (Writable(after) <==> Writable(b)) && Selected(after).image.Some?
  {
    var s, spun := SceneIn(d, b), Spun(b, chunk.ticks);
    var writes := WritesOf(s, chunk);
    SpunKeeps(b, chunk.ticks);
    OverlaidKeepsTiming(s.cells, writes);
    if writes == [] {
      NothingLands(spun, writes);
      OverlaidByNothing(s.cells, writes);
    } else {
      StoredInPlace(spun, writes);
      WithTrackKeeps(spun, Overlaid(s.cells, writes));
    }
  }
}
