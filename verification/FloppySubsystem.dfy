/** Two drives on one cable: selection, stepping, head loading, and writing to the selected
    drive. */
module FloppySubsystems {
  import opened Bytes
  import opened FloppyTracks
  import opened FloppyDrives
  import opened Wrappers

  const DRIVE_A: nat := 0
  const DRIVE_B: nat := 1

  /** The cable signals the controller drives. */
  datatype Cable = Cable(step: bool, outward: bool, above43: bool, loaded: bool)

  const CABLE_RELEASED := Cable(false, false, false, false)

  datatype Bay = Bay(drives: seq<DriveState>, selected: nat, pulseWidth: nat, cable: Cable)

  predicate BayOk(b: Bay) {
    && |b.drives| == 2 && DriveOk(b.drives[0]) && DriveOk(b.drives[1])
    && b.selected < 2 && b.pulseWidth < REVOLUTION_TICKS
  }

  function Selected(b: Bay): (d: DriveState)
    requires BayOk(b)
    ensures DriveOk(d)
  {
    b.drives[b.selected]
  }

  function WithSelected(b: Bay, d: DriveState): (after: Bay)
    requires BayOk(b) && DriveOk(d)
    ensures BayOk(after) && Selected(after) == d
  {
    b.(drives := b.drives[b.selected := d])
  }

  // ---------------------------------------------------------------- operations

  /** Both disks turn. */
  function Spun(b: Bay, ticks: nat): (after: Bay)
    requires BayOk(b)
    ensures BayOk(after)
  {
    b.(drives := [Rotated(b.drives[0], ticks), Rotated(b.drives[1], ticks)])
  }

  function Inserted(b: Bay, index: nat, tracks: seq<Cells>, access: FloppyAccess): (after: Bay)
    requires BayOk(b) && IsDisk(tracks)
    ensures BayOk(after)
  {
    if index >= |b.drives| then b
    else b.(drives := b.drives[index := b.drives[index].(image := Some(tracks), access := access)])
  }

  function Ejected(b: Bay, index: nat): (after: Bay)
    requires BayOk(b)
    ensures BayOk(after)
  {
    if index >= |b.drives| then b
    else b.(drives := b.drives[index := b.drives[index].(image := None, access := ReadOnly)])
  }

  /** A write reaches the medium only with the head loaded. */
  function Stored(b: Bay, cell: TimedFmByte): (after: Bay)
    requires BayOk(b)
    ensures BayOk(after)
  {
    if b.cable.loaded then WithSelected(b, CellWritten(Selected(b), cell)) else b
  }

  function StoredAll(b: Bay, cells: Cells): (after: Bay)
    requires BayOk(b)
    ensures BayOk(after)
    decreases cells
  {
    if cells == [] then b else Stored(StoredAll(b, cells[..|cells| - 1]), cells[|cells| - 1])
  }

  function Selecting(b: Bay, portC: byte): (after: Bay)
    requires BayOk(b)
    ensures BayOk(after)
  {
    b.(selected := if HasBit(portC, 0x20) then DRIVE_B else DRIVE_A)
  }

  function Stepped(d: DriveState, outward: bool): (after: DriveState)
    requires DriveOk(d)
    ensures DriveOk(after)
  {
    d.(head := if outward then (if d.head < LAST_TRACK then d.head + 1 else d.head)
               else if d.head != 0 then d.head - 1 else d.head)
  }

  /** The head moves on the trailing edge of the step signal, in the direction given then. */
  function Controlled(b: Bay, output: byte, lowerEnabled: bool): (after: Bay)
    requires BayOk(b)
    ensures BayOk(after)
  {
    if !lowerEnabled then b.(cable := CABLE_RELEASED)
    else
      var cable := Cable(HasBit(output, 1), HasBit(output, 2), HasBit(output, 4), HasBit(output, 8));
      var moved := if b.cable.step && !cable.step then WithSelected(b, Stepped(Selected(b), cable.outward)) else b;
      moved.(cable := cable)
  }

  /** What the drive reports on control port C. */
  function StatusInputs(b: Bay): byte
    requires BayOk(b)
  {
    var d := Selected(b);
    0x40 + (if d.head == 0 then 0x10 else 0) + (if d.WriteProtected() then 0x20 else 0)
         + (if d.IndexActive(b.pulseWidth) then 0x80 else 0)
  }

  // ---------------------------------------------------------------- properties

  /** Time may be cut anywhere, for both disks. */
  lemma {:induction false} SpunTwice(b: Bay, first: nat, second: nat)
    requires BayOk(b)
    ensures Spun(Spun(b, first), second) == Spun(b, first + second)
    ensures Visited(Selected(b), first) + Visited(Selected(Spun(b, first)), second) == Visited(Selected(b), first + second)
  {
    DrivesTwice(b.drives[0], b.drives[1], first, second);
    RotatedTwice(Selected(b), first, second);
    SpunSelected(b, first);
  }

  lemma {:induction false} DrivesTwice(d: DriveState, e: DriveState, first: nat, second: nat)
    requires DriveOk(d) && DriveOk(e)
    ensures [Rotated(Rotated(d, first), second), Rotated(Rotated(e, first), second)]
         == [Rotated(d, first + second), Rotated(e, first + second)]
  {
    RotatedTwice(d, first, second);
    RotatedTwice(e, first, second);
  }

  lemma {:induction false} SpunSelected(b: Bay, ticks: nat)
    requires BayOk(b)
    ensures Selected(Spun(b, ticks)) == Rotated(Selected(b), ticks)
  {
  }

  /** Step pulses: PC0 up and down again, with the direction on PC1. */
  function Pulsed(b: Bay, outward: bool, loaded: bool, pulses: nat): (after: Bay)
    requires BayOk(b)
    ensures BayOk(after)
    decreases pulses, b
  {
    if pulses == 0 then b
    else
      var levels: byte := (if outward then 2 else 0) + if loaded then 8 else 0;
      Controlled(Controlled(Pulsed(b, outward, loaded, pulses - 1), levels + 1, true), levels, true)
  }

  /** Where a number of pulses takes a head: one track each, up to the end stop. */
  function Sought(head: nat, outward: bool, pulses: nat): nat {
    if outward then (if head + pulses <= LAST_TRACK then head + pulses else LAST_TRACK)
    else if pulses <= head then head - pulses else 0
  }

  /** The selected head has moved so many tracks, the other one not at all, and no step is under
      way. */
  predicate HeadMoved(b: Bay, after: Bay, outward: bool, pulses: nat)
    requires BayOk(b)
  {
    && !after.cable.step && after.selected == b.selected
    && after.drives == b.drives[b.selected := Selected(b).(head := Sought(Selected(b).head, outward, pulses))]
  }

  lemma {:induction false} HeadMovesOn(b: Bay, between: Bay, outward: bool, loaded: bool, pulses: nat)
    requires BayOk(b) && BayOk(between) && HeadMoved(b, between, outward, pulses)
    ensures var levels: byte := (if outward then 2 else 0) + if loaded then 8 else 0;
            HeadMoved(b, Controlled(Controlled(between, levels + 1, true), levels, true), outward, pulses + 1)
  {
    OnePulse(between, outward, loaded);
    SoughtNext(Selected(b), outward, pulses);
  }

  /** Pulses move the head of the selected drive, and the other drive not at all. */
  lemma {:induction false} PulsesCount(b: Bay, outward: bool, loaded: bool, pulses: nat)
    requires BayOk(b) && !b.cable.step
    ensures HeadMoved(b, Pulsed(b, outward, loaded, pulses), outward, pulses)
    decreases pulses
  {
    if pulses > 0 {
      PulsesCount(b, outward, loaded, pulses - 1);
      HeadMovesOn(b, Pulsed(b, outward, loaded, pulses - 1), outward, loaded, pulses - 1);
    }
  }

  lemma {:induction false} SoughtNext(d: DriveState, outward: bool, pulses: nat)
    requires DriveOk(d)
    ensures var there := d.(head := Sought(d.head, outward, pulses));
            DriveOk(there) && Stepped(there, outward) == d.(head := Sought(d.head, outward, pulses + 1))
  {
  }

  lemma {:induction false} OnePulse(b: Bay, outward: bool, loaded: bool)
    requires BayOk(b) && !b.cable.step
    ensures var levels: byte := (if outward then 2 else 0) + if loaded then 8 else 0;
            var after := Controlled(Controlled(b, levels + 1, true), levels, true);
            && !after.cable.step && after.selected == b.selected
            && after.drives == b.drives[b.selected := Stepped(Selected(b), outward)]
  {
  }

  /** Seventy-six pulses inwards find track zero from anywhere. */
  lemma {:induction false} RestoreFindsTrackZero(b: Bay, loaded: bool, pulses: nat)
    requires BayOk(b) && !b.cable.step && pulses >= LAST_TRACK
    ensures Selected(Pulsed(b, false, loaded, pulses)).head == 0
  {
    PulsesCount(b, false, loaded, pulses);
  }

  // ---------------------------------------------------------------- writing in place

  /** Every cell is meant for a place the track has. */
  predicate InPlace(cells: Cells, writes: Cells) {
    forall w :: 0 <= w < |writes| ==> HasTick(cells, writes[w].tick)
  }

  predicate SameTiming(a: Cells, b: Cells) {
    |a| == |b| && forall i :: 0 <= i < |a| ==> a[i].tick == b[i].tick
  }

  predicate Writable(b: Bay)
    requires BayOk(b)
  {
    b.cable.loaded && !Selected(b).WriteProtected()
  }

  /** The last write to a tick, or the cell itself. */
  function LastWrite(cell: TimedFmByte, writes: Cells): TimedFmByte {
    if writes == [] then cell
    else if writes[|writes| - 1].tick == cell.tick then writes[|writes| - 1]
    else LastWrite(cell, writes[..|writes| - 1])
  }

  /** A track after writes in place: each cell is the last one written to its tick. */
  function Overlaid(cells: Cells, writes: Cells): (after: Cells)
    ensures |after| == |cells|
  {
    seq(|cells|, i requires 0 <= i < |cells| => LastWrite(cells[i], writes))
  }

  function WithTrack(b: Bay, cells: Cells): (after: Bay)
    requires BayOk(b) && Selected(b).image.Some? && Spaced(cells)
    ensures BayOk(after) && UnderHead(Selected(after)) == cells
  {
    var d := Selected(b);
    WithSelected(b, d.(image := Some(d.image.value[d.head := cells])))
  }

  lemma {:induction false} OverlaidKeepsTiming(cells: Cells, writes: Cells)
    ensures SameTiming(cells, Overlaid(cells, writes))
    ensures Spaced(cells) ==> Spaced(Overlaid(cells, writes))
  {
    forall i | 0 <= i < |cells|
      ensures Overlaid(cells, writes)[i].tick == cells[i].tick
    {
      LastWriteTick(cells[i], writes);
    }
  }

  lemma {:induction false} LastWriteTick(cell: TimedFmByte, writes: Cells)
    ensures LastWrite(cell, writes).tick == cell.tick
  {
    if writes != [] {
      LastWriteTick(cell, writes[..|writes| - 1]);
    }
  }

  lemma {:induction false} OverlaidOnce(cells: Cells, writes: Cells, i: nat)
    requires Spaced(cells) && writes != [] && i < |cells| && cells[i].tick == writes[|writes| - 1].tick
    ensures Overlaid(cells, writes) == Overlaid(cells, writes[..|writes| - 1])[i := writes[|writes| - 1]]
  {
  }

  /** Writes in place, head loaded, medium writable: only the selected track changes, its ticks
      and its length do not, and every cell is the last one written to its tick. */
  lemma {:induction false} StoredInPlace(b: Bay, writes: Cells)
    requires BayOk(b) && Writable(b) && InPlace(UnderHead(Selected(b)), writes)
    ensures Spaced(Overlaid(UnderHead(Selected(b)), writes))
    ensures StoredAll(b, writes) == WithTrack(b, Overlaid(UnderHead(Selected(b)), writes))
    decreases writes
  {
    var cells := UnderHead(Selected(b));
    OverlaidKeepsTiming(cells, writes);
    if writes == [] {
      assert Overlaid(cells, writes) == cells;
      SameTrack(b);
    } else {
      var before, last := writes[..|writes| - 1], writes[|writes| - 1];
      StoredInPlace(b, before);
      assert HasTick(cells, writes[|writes| - 1].tick);
      var i :| 0 <= i < |cells| && cells[i].tick == last.tick;
      OverlaidOnce(cells, writes, i);
      OverlaidKeepsTiming(cells, before);
      StoreOne(b, Overlaid(cells, before), last, i);
    }
  }

  lemma {:induction false} StoreOne(b: Bay, cells: Cells, cell: TimedFmByte, i: nat)
    requires BayOk(b) && Writable(b) && Spaced(cells)
    requires i < |cells| && cells[i].tick == cell.tick
    ensures Spaced(cells[i := cell])
    ensures Stored(WithTrack(b, cells), cell) == WithTrack(b, cells[i := cell])
  {
    RecordedInPlace(cells, cell, i);
    var d, after := Selected(b), cells[i := cell];
    var tracks := d.image.value;
    assert tracks[d.head := cells][d.head := after] == tracks[d.head := after];
    var first, second := d.(image := Some(tracks[d.head := cells])), d.(image := Some(tracks[d.head := after]));
    assert b.drives[b.selected := first][b.selected := second] == b.drives[b.selected := second];
    assert CellWritten(first, cell) == second;
  }

  lemma {:induction false} SameTrack(b: Bay)
    requires BayOk(b) && Selected(b).image.Some?
    ensures WithTrack(b, UnderHead(Selected(b))) == b
  {
    var d := Selected(b);
    var tracks := d.image.value;
    assert tracks[d.head := tracks[d.head]] == tracks;
    assert b.drives[b.selected := b.drives[b.selected]] == b.drives;
  }

  /** With the head up or the medium protected nothing is written. */
  lemma {:induction false} NothingStored(b: Bay, writes: Cells)
    requires BayOk(b) && !Writable(b)
    ensures StoredAll(b, writes) == b
    decreases writes
  {
    if writes != [] {
      NothingStored(b, writes[..|writes| - 1]);
      assert WithSelected(b, Selected(b)) == b;
    }
  }

  // ---------------------------------------------------------------- the subsystem

  class FloppySubsystem {
    var drives: seq<DriveState>
    var selected: nat
    var pulseWidth: nat
    var cable: Cable

    ghost function State(): Bay
      reads this
    {
      Bay(drives, selected, pulseWidth, cable)
    }

    ghost predicate Valid()
      reads this
    {
      BayOk(State())
    }

    constructor ()
      ensures Valid() && State() == Bay([EMPTY_DRIVE, EMPTY_DRIVE], DRIVE_B, 0, CABLE_RELEASED)
    {
      drives, selected, pulseWidth, cable := [EMPTY_DRIVE, EMPTY_DRIVE], DRIVE_B, 0, CABLE_RELEASED;
    }

    /** A reset leaves the disks, their rotation and the heads alone. */
    method ResetController()
      requires Valid()
      modifies this
      ensures Valid() && State() == old(State()).(selected := DRIVE_B, cable := CABLE_RELEASED)
    {
      selected := DRIVE_B;
      cable := CABLE_RELEASED;
    }

    method Advance(masterTicks: nat) returns (visited: Cells)
      requires Valid()
      modifies this`drives
      ensures Valid() && State() == Spun(old(State()), masterTicks)
      ensures visited == Visited(Selected(old(State())), masterTicks)
    {
      var drive := drives[selected];
      visited := [];
      if drive.image.Some? {
        visited := VisitTrack(UnderHead(drive), drive.phase, masterTicks);
      }
      drives := [Rotated(drives[0], masterTicks), Rotated(drives[1], masterTicks)];
    }

    method Insert(index: nat, tracks: seq<Cells>, access: FloppyAccess) returns (ok: bool)
      requires Valid() && IsDisk(tracks)
      modifies this`drives
      ensures Valid() && (ok <==> index < 2)
      ensures State() == Inserted(old(State()), index, tracks, access)
    {
      if index >= |drives| {
        return false;
      }
      drives := drives[index := drives[index].(image := Some(tracks), access := access)];
      return true;
    }

    method Eject(index: nat) returns (image: Option<seq<Cells>>)
      requires Valid()
      modifies this`drives
      ensures Valid()
      ensures image == if index < 2 then old(drives)[index].image else None
      ensures State() == Ejected(old(State()), index)
    {
      if index >= |drives| {
        return None;
      }
      image := drives[index].image;
      drives := drives[index := drives[index].(image := None, access := ReadOnly)];
    }

    method WriteSelectedByte(cell: TimedFmByte) returns (ok: bool)
      requires Valid()
      modifies this`drives
      ensures Valid() && State() == Stored(old(State()), cell)
      ensures ok <==> Writable(old(State())) && Accepts(UnderHead(Selected(old(State()))), cell.tick)
    {
      if !cable.loaded {
        return false;
      }
      var drive := drives[selected];
      ok := !drive.WriteProtected() && Accepts(UnderHead(drive), cell.tick);
      drives := drives[selected := CellWritten(drive, cell)];
    }

    method SetIndexPulseWidth(masterTicks: nat) returns (ok: bool)
      requires Valid()
      modifies this`pulseWidth
      ensures Valid() && (ok <==> masterTicks < REVOLUTION_TICKS)
      ensures pulseWidth == if ok then masterTicks else old(pulseWidth)
    {
      if masterTicks >= REVOLUTION_TICKS {
        return false;
      }
      pulseWidth := masterTicks;
      return true;
    }

    method SelectFromDiskPpi(portC: byte)
      requires Valid()
      modifies this`selected
      ensures Valid() && State() == Selecting(old(State()), portC)
    {
      selected := if HasBit(portC, 0x20) then DRIVE_B else DRIVE_A;
    }

    method SetControlPortC(output: byte, lowerEnabled: bool)
      requires Valid()
      modifies this`drives, this`cable
      ensures Valid() && State() == Controlled(old(State()), output, lowerEnabled)
    {
      if !lowerEnabled {
        cable := CABLE_RELEASED;
        return;
      }
      var step := HasBit(output, 1);
      cable := cable.(outward := HasBit(output, 2), above43 := HasBit(output, 4), loaded := HasBit(output, 8));
      if cable.step && !step {
        drives := drives[selected := Stepped(drives[selected], cable.outward)];
      }
      cable := cable.(step := step);
    }
  }
}
