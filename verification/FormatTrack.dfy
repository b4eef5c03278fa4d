/** Formatting a track: with FOR set, OUT2 staying low and the head on a writable medium, every
    cell of the track is overwritten exactly once, from the first index to the second, however
    time is cut into steps. */
module FormatTrack {
  import opened Bytes
  import opened FloppyTracks
  import opened FloppyDrives
  import opened FloppySubsystems
  import opened DiskController
  import opened DiskSteps
  import opened Scenes
  import Ppi = Ppi8255

  // ---------------------------------------------------------------- what should be written

  datatype Mode = Awaiting | During | Over

  function Next(mode: Mode, tick: nat): Mode {
    if tick != 0 then mode else if mode == Awaiting then During else Over
  }

  predicate Overwrites(mode: Mode, tick: nat) {
    Next(mode, tick) == During
  }

  function ModeAfter(mode: Mode, ticks: seq<nat>): Mode {
    if ticks == [] then mode else Next(ModeAfter(mode, ticks[..|ticks| - 1]), ticks[|ticks| - 1])
  }

  /** The ticks of the cells that are overwritten while cells of these ticks pass. */
  function Overwritten(mode: Mode, ticks: seq<nat>): seq<nat> {
    if ticks == [] then []
    else
      var before, last := ticks[..|ticks| - 1], ticks[|ticks| - 1];
      Overwritten(mode, before) + if Overwrites(ModeAfter(mode, before), last) then [last] else []
  }

  lemma {:induction false} OverwrittenConcat(mode: Mode, a: seq<nat>, b: seq<nat>)
    ensures ModeAfter(mode, a + b) == ModeAfter(ModeAfter(mode, a), b)
    ensures Overwritten(mode, a + b) == Overwritten(mode, a) + Overwritten(ModeAfter(mode, a), b)
    decreases b
  {
    if b == [] {
      assert a + b == a;
    } else {
      var before, last := b[..|b| - 1], b[|b| - 1];
      assert (a + b)[..|a + b| - 1] == a + before;
      OverwrittenConcat(mode, a, before);
    }
  }

  lemma {:induction false} WithoutIndex(mode: Mode, ticks: seq<nat>)
    requires forall i :: 0 <= i < |ticks| ==> ticks[i] != 0
    ensures ModeAfter(mode, ticks) == mode
    ensures Overwritten(mode, ticks) == if mode == During then ticks else []
  {
    if ticks != [] {
      WithoutIndex(mode, ticks[..|ticks| - 1]);
      assert ticks == ticks[..|ticks| - 1] + [ticks[|ticks| - 1]];
    }
  }

  lemma {:induction false} NothingAfter(ticks: seq<nat>)
    ensures ModeAfter(Over, ticks) == Over && Overwritten(Over, ticks) == []
  {
    if ticks != [] {
      NothingAfter(ticks[..|ticks| - 1]);
    }
  }

  /** A track with a cell at the index, passing once from the index on. */
  lemma {:induction false} OneTurn(mode: Mode, ticks: seq<nat>)
    requires ticks != [] && ticks[0] == 0 && forall i :: 1 <= i < |ticks| ==> ticks[i] != 0
    ensures ModeAfter(mode, ticks) == if mode == Awaiting then During else Over
    ensures Overwritten(mode, ticks) == if mode == Awaiting then ticks else []
  {
    var first, rest := ticks[..1], ticks[1..];
    assert ticks == first + rest;
    assert first == [0] && first[..0] == [];
    assert ModeAfter(mode, first) == Next(mode, 0);
    WithoutIndex(Next(mode, 0), rest);
    OverwrittenConcat(mode, first, rest);
  }

  // ---------------------------------------------------------------- the controller, cell by cell

  function ModeOf(d: Disk): Mode {
    if !d.aux.format then Over else if d.latches.format then During else Awaiting
  }

  /** The controller while nothing but the format writes. */
  predicate Formatter(d: Disk) {
    && Consistent(d) && d.latches.timing && !d.aux.write && !d.latches.ordinary
    && (!d.aux.format ==> d.aux == AUX_CLEAR && !d.latches.format)
  }

  /** Unless OUT2 rises, the reading half keeps the register, the writing latches and what is
      pending. */
  lemma {:induction false} SeenKeeps(d: Disk, cell: TimedFmByte)
    requires Consistent(d) && !Seen(d, cell).EndOfData()
    ensures var e := Seen(d, cell);
            && e.aux == d.aux && e.latches == d.latches.(sync := e.latches.sync)
            && e.pending == d.pending && e.data.ports.outA == d.data.ports.outA
  {
    if d.aux.read {
      if d.latches.sync {
        DeserializedKeeps(d, cell);
      } else if Selects(d.aux, cell) {
        DeserializedKeeps(Synchronized(d), cell);
      }
    }
  }

  lemma {:induction false} DeserializedKeeps(d: Disk, cell: TimedFmByte)
    requires !Deserialized(d, cell).EndOfData()
    ensures var e := Deserialized(d, cell);
            && e.aux == d.aux && e.latches == d.latches
            && e.pending == d.pending && e.data.ports.outA == d.data.ports.outA
  {
  }

  lemma {:induction false} LowBefore(d: Disk, cell: TimedFmByte)
    requires Consistent(d) && !Seen(d, cell).EndOfData()
    ensures !d.EndOfData()
  {
  }

  lemma {:induction false} TransferKeeps(d: Disk, controlA: byte, tick: nat)
    requires Consistent(d) && !Transferred(d, controlA, tick).EndOfData()
    ensures var e := Transferred(d, controlA, tick);
            && e.aux == d.aux && e.latches == d.latches
            && e.pending == d.pending + [Outgoing(d, controlA, tick)] && e.data.ports.outA == d.data.ports.outA
  {
  }

  /** What one cell does. */
  predicate Advances(d: Disk, controlA: byte, cell: TimedFmByte, e: Disk) {
    && Formatter(e) && ModeOf(e) == Next(ModeOf(d), cell.tick)
    && e.data.ports.outA == d.data.ports.outA
    && e.pending == d.pending + if Overwrites(ModeOf(d), cell.tick) then [Outgoing(d, controlA, cell.tick)] else []
  }

  lemma {:induction false} OverPasses(d: Disk, controlA: byte, cell: TimedFmByte)
    requires Formatter(d) && ModeOf(d) == Over
    ensures Advances(d, controlA, cell, Passed(d, controlA, cell))
  {
    AtSettles(d, cell);
    assert Passed(d, controlA, cell) == At(d, cell);
  }

  lemma {:induction false} SecondIndex(d: Disk, controlA: byte, cell: TimedFmByte)
    requires Formatter(d) && ModeOf(d) == During && cell.tick == 0
    ensures Advances(d, controlA, cell, Passed(d, controlA, cell))
  {
    var e := At(d, cell);
    AtSettles(d, cell);
    FormatEndSettles(e);
    assert Passed(d, controlA, cell) == FormatEnded(e);
    assert FormatEnded(e).pending == d.pending;
  }

  lemma {:induction false} WaitsForIndex(d: Disk, controlA: byte, cell: TimedFmByte)
    requires Formatter(d) && ModeOf(d) == Awaiting && cell.tick != 0 && !Passed(d, controlA, cell).EndOfData()
    ensures Advances(d, controlA, cell, Passed(d, controlA, cell))
  {
    var e := At(d, cell);
    AtSettles(d, cell);
    PassedSettles(d, controlA, cell);
    assert Passed(d, controlA, cell) == Seen(e, cell);
    SeenKeeps(e, cell);
  }

  lemma {:induction false} CellIsOverwritten(d: Disk, controlA: byte, cell: TimedFmByte)
    requires Formatter(d) && Overwrites(ModeOf(d), cell.tick) && !Passed(d, controlA, cell).EndOfData()
    ensures Advances(d, controlA, cell, Passed(d, controlA, cell))
  {
    var e := At(d, cell);
    AtSettles(d, cell);
    ArmedSettles(e, cell);
    var f := Armed(e, cell);
    TransferSettles(f, controlA, cell.tick);
    var g := Transferred(f, controlA, cell.tick);
    PassedSettles(d, controlA, cell);
    assert Passed(d, controlA, cell) == Seen(g, Outgoing(f, controlA, cell.tick));
    LowBefore(g, Outgoing(f, controlA, cell.tick));
    SeenKeeps(g, Outgoing(f, controlA, cell.tick));
    TransferKeeps(f, controlA, cell.tick);
  }

  lemma {:induction false} OneCellPasses(d: Disk, controlA: byte, cell: TimedFmByte)
    requires Formatter(d) && !Passed(d, controlA, cell).EndOfData()
    ensures Advances(d, controlA, cell, Passed(d, controlA, cell))
  {
    if ModeOf(d) == Over {
      OverPasses(d, controlA, cell);
    } else if Overwrites(ModeOf(d), cell.tick) {
      CellIsOverwritten(d, controlA, cell);
    } else if cell.tick == 0 {
      SecondIndex(d, controlA, cell);
    } else {
      WaitsForIndex(d, controlA, cell);
    }
  }

  // ---------------------------------------------------------------- cells that pass in one time step

  /** OUT2 is low throughout. */
  predicate StaysLow(d: Disk, controlA: byte, cells: Cells) {
    forall k :: 0 <= k <= |cells| ==> !AllPassed(d, controlA, cells[..k]).EndOfData()
  }

  lemma {:induction false} StaysLowBefore(d: Disk, controlA: byte, cells: Cells)
    requires cells != [] && StaysLow(d, controlA, cells)
    ensures StaysLow(d, controlA, cells[..|cells| - 1]) && !AllPassed(d, controlA, cells).EndOfData()
  {
    var before := cells[..|cells| - 1];
    assert cells[..|cells|] == cells;
    forall k | 0 <= k <= |before|
      ensures !AllPassed(d, controlA, before[..k]).EndOfData()
    {
      assert before[..k] == cells[..k];
    }
  }

  /** The cells written while these pass. */
  predicate Yields(d: Disk, controlA: byte, cells: Cells, writes: Cells) {
    && Ticks(writes) == Overwritten(ModeOf(d), Ticks(cells))
    && forall i :: 0 <= i < |writes| ==> writes[i] == Outgoing(d, controlA, writes[i].tick)
  }

  lemma {:induction false} CellsPass(d: Disk, controlA: byte, cells: Cells)
    requires Formatter(d) && d.pending == [] && StaysLow(d, controlA, cells)
    ensures var e := AllPassed(d, controlA, cells);
            && Formatter(e) && ModeOf(e) == ModeAfter(ModeOf(d), Ticks(cells))
            && e.data.ports.outA == d.data.ports.outA
            && Yields(d, controlA, cells, e.pending)
    decreases cells
  {
    if cells != [] {
      var before, last := cells[..|cells| - 1], cells[|cells| - 1];
      StaysLowBefore(d, controlA, cells);
      CellsPass(d, controlA, before);
      var e := AllPassed(d, controlA, before);
      OneCellPasses(e, controlA, last);
      NextYield(d, controlA, before, last, e.pending, Outgoing(e, controlA, last.tick));
      assert before + [last] == cells;
    }
  }

  lemma {:induction false} NextYield(d: Disk, controlA: byte, before: Cells, last: TimedFmByte,
                                     writes: Cells, cell: TimedFmByte)
    requires Yields(d, controlA, before, writes) && cell == Outgoing(d, controlA, last.tick)
    ensures var mode := ModeAfter(ModeOf(d), Ticks(before));
            Yields(d, controlA, before + [last], writes + if Overwrites(mode, last.tick) then [cell] else [])
    ensures ModeAfter(ModeOf(d), Ticks(before + [last])) == Next(ModeAfter(ModeOf(d), Ticks(before)), last.tick)
  {
    assert Ticks(before + [last])[..|before|] == Ticks(before);
    assert Ticks(writes + [cell]) == Ticks(writes) + [cell.tick];
  }

  // ---------------------------------------------------------------- time steps and calm steps

  lemma {:induction false} ClocksOnly(d: Disk, controlA: byte, clocks: nat)
    requires Formatter(d)
    ensures var e := CounterOneRan(d, controlA, clocks);
            && e.two == d.two && e.aux == d.aux && e.latches == d.latches.(timeout := e.latches.timeout)
            && e.data == d.data && e.pending == d.pending
  {
  }

  /** Ready for the next step, with OUT2 low. */
  predicate Underway(d: Disk) {
    Formatter(d) && d.pending == [] && !d.EndOfData()
  }

  /** A write to port A or B takes an interrupt back, and raises none. */
  lemma {:induction false} FillAsksNothing(s: Ppi.PpiState, register: byte, value: byte)
    requires PortsSettled(s) && register % 4 <= 1
    ensures var t := Ppi.Written(s, register, value);
            PortsSettled(t) && (t.b.intr ==> s.b.intr) && (t.a.intr ==> s.a.intr)
  {
  }

  /** So does a read of any port. */
  lemma {:induction false} ReadAsksNothing(s: Ppi.PpiState, register: byte)
    requires PortsSettled(s)
    ensures var t := Ppi.AfterRead(s, register);
            PortsSettled(t) && (t.b.intr ==> s.b.intr) && (t.a.intr ==> s.a.intr)
  {
  }

  /** Nothing the processor does beside the format disturbs it. */
  lemma {:induction false} CalmKeepsFormat(d: Disk, step: Step)
    requires Underway(d) && Calm(step)
    ensures Underway(After(d, step)) && ModeOf(After(d, step)) == ModeOf(d)
  {
    match step
    case DataRead(register) =>
      ReadAsksNothing(d.data, register);
      DataMoves(d, Ppi.AfterRead(d.data, register));
    case DataWrite(register, value) =>
      FillAsksNothing(d.data, register, value);
      DataMoves(d, Ppi.Written(d.data, register, value));
    case _ => BystanderStands(d, step);
  }

  lemma {:induction false} TimePassesFormat(d: Disk, controlA: byte, cells: Cells, clocks: nat)
    requires Formatter(d) && d.pending == [] && StaysLow(d, controlA, cells)
    ensures var e := After(d, TimePasses(controlA, cells, clocks));
            Underway(e) && ModeOf(e) == ModeAfter(ModeOf(d), Ticks(cells))
    ensures Yields(d, controlA, cells, Elapsed(d, controlA, cells, clocks).pending)
  {
    CellsPass(d, controlA, cells);
    assert cells[..|cells|] == cells;
    ClocksOnly(AllPassed(d, controlA, cells), controlA, clocks);
    ElapsedSettles(d, controlA, cells, clocks);
  }

  // ---------------------------------------------------------------- whole runs

  predicate SceneOk(s: Scene) {
    OnTrack(s) && Underway(s.d)
  }

  /** The processor does not interfere. */
  predicate AllCalm(chunks: seq<Chunk>) {
    forall i :: 0 <= i < |chunks| && chunks[i].Acts? ==> Calm(chunks[i].step)
  }

  /** OUT2 is low throughout the chunk. */
  predicate LowDuring(s: Scene, chunk: Chunk)
    requires OnTrack(s)
  {
    chunk.Turns? ==> StaysLow(s.d, chunk.controlA, PassingIn(s, chunk))
  }

  predicate AllLow(s: Scene, chunks: seq<Chunk>)
    requires OnTrack(s)
    decreases chunks
  {
    chunks == [] || (LowDuring(s, chunks[0]) && AllLow(Played(s, chunks[0]), chunks[1..]))
  }

  /** From `s` to `t` these cells were written while a stream of these ticks passed. */
  predicate Plays(s: Scene, stream: seq<nat>, writes: Cells, t: Scene) {
    && SceneOk(t) && ModeOf(t.d) == ModeAfter(ModeOf(s.d), stream)
    && Ticks(writes) == Overwritten(ModeOf(s.d), stream)
    && t.cells == Overlaid(s.cells, writes)
  }

  lemma {:induction false} PlaysTwice(s: Scene, a: seq<nat>, v: Cells, t: Scene, b: seq<nat>, w: Cells, u: Scene)
    requires Plays(s, a, v, t) && Plays(t, b, w, u)
    ensures Plays(s, a + b, v + w, u)
  {
    OverwrittenConcat(ModeOf(s.d), a, b);
    TicksConcat(v, w);
    OverlaidTwice(s.cells, v, w);
  }

  lemma {:induction false} ChunkPlays(s: Scene, chunk: Chunk)
    requires SceneOk(s) && LowDuring(s, chunk) && (chunk.Acts? ==> Calm(chunk.step))
    ensures Plays(s, Timing(s, TicksOf(chunk)), WritesOf(s, chunk), Played(s, chunk))
  {
    match chunk
    case Turns(_, controlA, clocks) => TimePassesFormat(s.d, controlA, PassingIn(s, chunk), clocks);
    case Acts(step) =>
      CalmKeepsFormat(s.d, step);
      NothingPlays(s, TicksOf(chunk));
  }

  lemma {:induction false} NothingPlays(s: Scene, ticks: nat)
    requires SceneOk(s) && ticks == 0
    ensures Plays(s, Timing(s, ticks), [], s)
  {
    NoStream(s, ticks);
    OverlaidByNothing(s.cells, []);
  }

  predicate RunPlays(s: Scene, chunks: seq<Chunk>)
    requires OnTrack(s)
  {
    Plays(s, Timing(s, TotalTicks(chunks)), AllWrites(s, chunks), PlayedAll(s, chunks))
  }

  lemma {:induction false} RunPlaysOn(s: Scene, chunks: seq<Chunk>, t: Scene)
    requires OnTrack(s) && chunks != [] && t == Played(s, chunks[0])
    requires Plays(s, Timing(s, TicksOf(chunks[0])), WritesOf(s, chunks[0]), t)
    requires RunPlays(t, chunks[1..])
    ensures RunPlays(s, chunks)
  {
    var rest := chunks[1..];
    FirstChunk(s, chunks, t);
    StreamConcat(s, chunks[0], TotalTicks(rest), t, TotalTicks(chunks));
    PlaysTwice(s, Timing(s, TicksOf(chunks[0])), WritesOf(s, chunks[0]), t,
               Timing(t, TotalTicks(rest)), AllWrites(t, rest), PlayedAll(t, rest));
  }

  /** However time is cut, the writes are those of the whole stream, and the track ends up overlaid
      with them. */
  lemma {:induction false} ChunksPlay(s: Scene, chunks: seq<Chunk>)
    requires SceneOk(s) && AllCalm(chunks) && AllLow(s, chunks)
    ensures RunPlays(s, chunks)
    decreases chunks
  {
    if chunks == [] {
      NothingPlays(s, TotalTicks(chunks));
    } else {
      ChunkPlays(s, chunks[0]);
      ChunksPlay(Played(s, chunks[0]), chunks[1..]);
      RunPlaysOn(s, chunks, Played(s, chunks[0]));
    }
  }

  // ---------------------------------------------------------------- exactly one revolution

  /** From a phase to the next index. */
  function ToIndex(phase: nat): nat
    requires phase < REVOLUTION_TICKS
  {
    if phase == 0 then 0 else REVOLUTION_TICKS - phase
  }

  predicate HasIndexCell(cells: Cells) {
    Spaced(cells) && cells != [] && cells[0].tick == 0
  }

  lemma {:induction false} BetweenTicks(cells: Cells, from: nat, to: nat)
    requires Ascending(cells) && from <= to
    ensures forall i :: 0 <= i < |Between(cells, from, to)| ==> from <= Between(cells, from, to)[i].tick
  {
    BeforeIsLowerBound(cells, from);
    BeforeMonotone(cells, from, to);
    forall i | 0 <= i < |Between(cells, from, to)|
      ensures from <= Between(cells, from, to)[i].tick
    {
      assert Between(cells, from, to)[i] == cells[Before(cells, from) + i];
    }
  }

  lemma {:induction false} UpToIndex(cells: Cells, phase: nat)
    requires HasIndexCell(cells) && phase < REVOLUTION_TICKS
    ensures var passing := Passing(cells, phase, ToIndex(phase));
            forall i :: 0 <= i < |passing| ==> passing[i].tick != 0
  {
    if phase == 0 {
      assert Passing(cells, phase, ToIndex(phase)) == [];
    } else {
      PassingInterval(cells, phase, ToIndex(phase));
      BetweenTicks(cells, phase, phase + ToIndex(phase));
    }
  }

  lemma {:induction false} FromIndex(cells: Cells, revolution: nat)
    requires HasIndexCell(cells) && revolution == REVOLUTION_TICKS
    ensures Passing(cells, 0, revolution) == cells
  {
    PassingInterval(cells, 0, revolution);
    WholeTrack(cells, revolution);
  }

  lemma {:induction false} IndexPasses(cells: Cells, one: nat)
    requires HasIndexCell(cells) && one == 1
    ensures Ticks(Passing(cells, 0, one)) == [0]
  {
    PassingInterval(cells, 0, one);
    LowerBoundUnique(cells, 0, 0);
    LowerBoundUnique(cells, 1, 1);
  }

  /** What passes from any phase until just after the second index, and beyond. */
  lemma {:induction false} TwoIndexes(cells: Cells, phase: nat, more: nat, revolution: nat)
    requires HasIndexCell(cells) && phase < REVOLUTION_TICKS && more >= 1 && revolution == REVOLUTION_TICKS
    ensures Passing(cells, phase, ToIndex(phase) + (revolution + more))
         == Passing(cells, phase, ToIndex(phase)) + (cells + Passing(cells, 0, more))
  {
    PassingConcat(cells, phase, ToIndex(phase), revolution + more);
    assert FloppyDrives.Advanced(phase, ToIndex(phase)) == 0;
    PassingConcat(cells, 0, revolution, more);
    assert FloppyDrives.Advanced(0, revolution) == 0;
    FromIndex(cells, revolution);
  }

  lemma {:induction false} SecondTurn(cells: Cells, more: nat)
    requires HasIndexCell(cells) && more >= 1
    ensures ModeAfter(During, Ticks(Passing(cells, 0, more))) == Over
    ensures Overwritten(During, Ticks(Passing(cells, 0, more))) == []
  {
    var one: nat := 1;
    PassingConcat(cells, 0, one, more - one);
    var rest := Passing(cells, FloppyDrives.Advanced(0, one), more - one);
    IndexPasses(cells, one);
    TicksConcat(Passing(cells, 0, one), rest);
    IndexEnds([0], Ticks(rest));
  }

  lemma {:induction false} IndexEnds(first: seq<nat>, rest: seq<nat>)
    requires first == [0]
    ensures ModeAfter(During, first + rest) == Over && Overwritten(During, first + rest) == []
  {
    assert first[..0] == [];
    assert ModeAfter(During, first) == Next(During, 0);
    OverwrittenConcat(During, first, rest);
    NothingAfter(rest);
  }

  /** Over any stretch that reaches the second index, exactly the cells of the track are
      overwritten, in order. */
  lemma {:induction false} OneRevolution(cells: Cells, phase: nat, more: nat, revolution: nat)
    requires HasIndexCell(cells) && phase < REVOLUTION_TICKS && more >= 1 && revolution == REVOLUTION_TICKS
    ensures var stream := Ticks(Passing(cells, phase, ToIndex(phase) + (revolution + more)));
            ModeAfter(Awaiting, stream) == Over && Overwritten(Awaiting, stream) == Ticks(cells)
  {
    TwoIndexes(cells, phase, more, revolution);
    var a, c := Passing(cells, phase, ToIndex(phase)), Passing(cells, 0, more);
    TicksConcat(cells, c);
    TicksConcat(a, cells + c);
    UpToIndex(cells, phase);
    WithoutIndex(Awaiting, Ticks(a));
    OneTurn(Awaiting, Ticks(cells));
    SecondTurn(cells, more);
    OverwrittenConcat(Awaiting, Ticks(cells), Ticks(c));
    OverwrittenConcat(Awaiting, Ticks(a), Ticks(cells) + Ticks(c));
  }

  /** The ticks overwritten in so much time, from before the first index on. */
  function OverwrittenIn(cells: Cells, phase: nat, ticks: nat): seq<nat>
    requires Ascending(cells) && phase < REVOLUTION_TICKS
  {
    Overwritten(Awaiting, Ticks(Passing(cells, phase, ticks)))
  }

  lemma {:induction false} WholeRevolution(cells: Cells, phase: nat, more: nat, whole: nat)
    requires HasIndexCell(cells) && phase < REVOLUTION_TICKS && more >= 1
    requires whole == ToIndex(phase) + (REVOLUTION_TICKS + more)
    ensures OverwrittenIn(cells, phase, whole) == Ticks(cells)
  {
    OneRevolution(cells, phase, more, REVOLUTION_TICKS);
  }

  /** Over any stretch at all, the overwritten cells are the first ones of the track, none of them
      twice. */
  lemma {:induction false} AtMostOneRevolution(cells: Cells, phase: nat, ticks: nat)
    requires HasIndexCell(cells) && phase < REVOLUTION_TICKS
    ensures OverwrittenIn(cells, phase, ticks) <= Ticks(cells)
  {
    var whole := ToIndex(phase) + (REVOLUTION_TICKS + (ticks + 1));
    WholeRevolution(cells, phase, ticks + 1, whole);
    EarlierIsPrefix(cells, phase, ticks, whole);
  }

  /** What has been overwritten earlier is the beginning of what has been later. */
  lemma {:induction false} EarlierIsPrefix(cells: Cells, phase: nat, ticks: nat, whole: nat)
    requires Ascending(cells) && phase < REVOLUTION_TICKS && ticks <= whole
    ensures OverwrittenIn(cells, phase, ticks) <= OverwrittenIn(cells, phase, whole)
  {
    PassingConcat(cells, phase, ticks, whole - ticks);
    var first, rest := Passing(cells, phase, ticks), Passing(cells, FloppyDrives.Advanced(phase, ticks), whole - ticks);
    assert Passing(cells, phase, whole) == first + rest;
    TicksConcat(first, rest);
    OverwrittenConcat(Awaiting, Ticks(first), Ticks(rest));
  }

  lemma {:induction false} OverlaidByAll(cells: Cells, writes: Cells)
    requires Ascending(cells) && Ticks(writes) == Ticks(cells)
    ensures Overlaid(cells, writes) == writes
  {
    forall i | 0 <= i < |cells|
      ensures Overlaid(cells, writes)[i] == writes[i]
    {
      assert writes[i].tick == Ticks(writes)[i] == cells[i].tick;
      OnlyWrite(cells[i], writes, i);
    }
  }

  /** What a format has done when it is over: every cell has been overwritten exactly once, FOR is
      clear, and the controller no longer writes. */
  predicate Formatted(s: Scene, writes: Cells, t: Scene) {
    Ticks(writes) == Ticks(s.cells) && t.cells == writes && !t.d.aux.format && !t.d.latches.format
  }

  lemma {:induction false} PlayIsFormat(s: Scene, ticks: nat, writes: Cells, t: Scene, revolution: nat)
    requires HasIndexCell(s.cells) && s.phase < REVOLUTION_TICKS && ModeOf(s.d) == Awaiting
    requires Plays(s, Timing(s, ticks), writes, t) && revolution == REVOLUTION_TICKS
    ensures Ticks(writes) <= Ticks(s.cells) && SameTiming(s.cells, t.cells)
    ensures ticks > ToIndex(s.phase) + revolution ==> Formatted(s, writes, t)
  {
    AtMostOneRevolution(s.cells, s.phase, ticks);
    OverlaidKeepsTiming(s.cells, writes);
    if ticks > ToIndex(s.phase) + revolution {
      WholePlay(s, ticks - ToIndex(s.phase) - revolution, writes, t, revolution);
    }
  }

  lemma {:induction false} WholePlay(s: Scene, more: nat, writes: Cells, t: Scene, revolution: nat)
    requires HasIndexCell(s.cells) && s.phase < REVOLUTION_TICKS && ModeOf(s.d) == Awaiting
    requires more >= 1 && revolution == REVOLUTION_TICKS
    requires Plays(s, Timing(s, ToIndex(s.phase) + (revolution + more)), writes, t)
    ensures Formatted(s, writes, t)
  {
    OneRevolution(s.cells, s.phase, more, revolution);
    OverlaidByAll(s.cells, writes);
  }

  /** A format overwrites exactly one revolution.  On a track with a cell at the index, with FOR
      set, nothing else writing and OUT2 low, from any phase and for any time steps: the cells are
      overwritten in order from the index on, none twice, and the timing of the track stays.  Once
      the second index has passed, the whole track has been overwritten, and nothing is written any
      more. */
  lemma {:induction false} FormatIsOneRevolution(s: Scene, chunks: seq<Chunk>, revolution: nat)
    requires SceneOk(s) && HasIndexCell(s.cells) && ModeOf(s.d) == Awaiting
    requires AllCalm(chunks) && AllLow(s, chunks)
    requires revolution == REVOLUTION_TICKS
    ensures Ticks(AllWrites(s, chunks)) <= Ticks(s.cells)
    ensures SameTiming(s.cells, PlayedAll(s, chunks).cells)
    ensures TotalTicks(chunks) > ToIndex(s.phase) + revolution ==>
              Formatted(s, AllWrites(s, chunks), PlayedAll(s, chunks))
  {
    ChunksPlay(s, chunks);
    PlayIsFormat(s, TotalTicks(chunks), AllWrites(s, chunks), PlayedAll(s, chunks), revolution);
  }
}
