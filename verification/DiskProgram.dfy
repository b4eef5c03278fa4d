/** The disk controller from what a program writes: the bits of port 50h, the length of a field in counter
    2, and the three operations that begin with them. */
module DiskPrograms {
  import opened Bytes
  import opened Wrappers
  import opened FloppyTracks
  import opened FloppyDrives
  import opened FloppySubsystems
  import opened DiskController
  import opened DiskSteps
  import opened Scenes
  import opened MachineTime
  import opened MachineModel
  import opened DiskRuns
  import opened FieldRuns
  import opened FormatRuns
  import opened PitCounting
  import opened PitPrograms
  import FormatTrack
  import R = FieldRead
  import W = FieldWrite
  import Pit = Pit8253
  import Ppi = Ppi8255

  // ---------------------------------------------------------------- port 50h

  /** Bits 0, 1, 2 and 4 are RE, WRE, RDM and FOR, which only take effect with the timing on and OUT2
      low; without WRE an ordinary write ends, without FOR a format, and without both RE and FOR the
      timeout is acknowledged. */
  predicate AuxSet(d: Disk, v: byte, e: Disk) {
    var on := d.latches.timing && !d.EndOfData();
    && (e.aux.read <==> on && v % 2 == 1) && (e.aux.write <==> on && v / 2 % 2 == 1)
    && (e.aux.dataMark <==> on && v / 4 % 2 == 1) && (e.aux.format <==> on && v / 16 % 2 == 1)
    && (e.latches.ordinary <==> d.latches.ordinary && v / 2 % 2 == 1)
    && (e.latches.format <==> d.latches.format && v / 16 % 2 == 1)
    && (e.latches.timeout <==> d.latches.timeout && (v % 2 == 1 || v / 16 % 2 == 1))
    && e.latches.timing == d.latches.timing && e.latches.sync == d.latches.sync
    && e == d.(aux := e.aux, latches := e.latches)
  }

  lemma {:induction false} AuxIsSet(d: Disk, v: byte)
    requires Consistent(d)
    ensures AuxSet(d, v, Refreshed(WriteAux(d, v)))
  {
    if d.EndOfData() && d.latches.timing {
      GateStays(d.one);
    }
  }

  /** Port 50h has been written, and nothing else of the machine has changed. */
  predicate AuxWritten(m: MachineState, v: byte, n: MachineState) {
    match n
    case MachineState(disks, _, _, _, _, _) =>
      Sound(n) && AuxSet(m.disks.disk, v, disks.disk) && n == m.(disks := m.disks.(disk := disks.disk))
  }

  /** OUT 50h, by the bits of the byte written. */
  lemma {:induction false} AuxPort(m: MachineState, port: nat, v: byte)
    requires Sound(m) && port / 16 % 8 == 5
    ensures AuxWritten(m, v, IoWritten(m, port, v))
  {
    AuxIsSet(m.disks.disk, v);
    WriteIsStep(m, port, v);
  }

  // ---------------------------------------------------------------- the length of a field

  /** The gate of counter 2 is not moved by anything. */
  predicate SameGateTwo(d: Disk, e: Disk) {
    e.two.gate == d.two.gate
  }

  lemma {:induction false} RefreshKeepsGateTwo(d: Disk)
    ensures SameGateTwo(d, Refreshed(d))
  {
  }

  lemma {:induction false} TransferKeepsGateTwo(d: Disk, controlA: byte, tick: nat)
    ensures SameGateTwo(d, Transferred(d, controlA, tick))
  {
    RefreshKeepsGateTwo(d.(pending := d.pending + [Outgoing(d, controlA, tick)], data := Ppi.PulseAckA(d.data)));
  }

  lemma {:induction false} SeenKeepsGateTwo(d: Disk, cell: TimedFmByte)
    ensures SameGateTwo(d, Seen(d, cell))
  {
    var e := if d.latches.sync then d else Synchronized(d);
    RefreshKeepsGateTwo(e.(data := Ppi.PulseStrobeB(e.data, cell.data)));
  }

  lemma {:induction false} PassedKeepsGateTwo(d: Disk, controlA: byte, cell: TimedFmByte)
    ensures SameGateTwo(d, Passed(d, controlA, cell))
  {
    var e := Armed(At(d, cell), cell);
    TransferKeepsGateTwo(e, controlA, cell.tick);
    SeenKeepsGateTwo(e, cell);
    SeenKeepsGateTwo(Transferred(e, controlA, cell.tick), Outgoing(e, controlA, cell.tick));
    var f := At(d, cell).(aux := AUX_CLEAR,
                          latches := d.latches.(sync := false, ordinary := false, format := false));
    RefreshKeepsGateTwo(Gate1(f, false));
  }

  lemma {:induction false} TimeKeepsGateTwo(d: Disk, controlA: byte, cells: Cells, clocks: nat)
    ensures SameGateTwo(d, After(d, TimePasses(controlA, cells, clocks)))
  {
    CellsKeepGateTwo(d, controlA, cells);
    var e := AllPassed(d, controlA, cells);
    var rises := Pit.RisingEdges(e.one.element, clocks) != 0;
    var f := TimedOut(ClockedOne(e, clocks), rises);
    TransferKeepsGateTwo(f.(latches := f.latches.(ordinary := true)), controlA, f.detector.lastTick);
    RefreshKeepsGateTwo(Flushed(Elapsed(d, controlA, cells, clocks)));
  }

  lemma {:induction false} CellsKeepGateTwo(d: Disk, controlA: byte, cells: Cells)
    ensures SameGateTwo(d, AllPassed(d, controlA, cells))
    decreases cells
  {
    if cells != [] {
      CellsKeepGateTwo(d, controlA, cells[..|cells| - 1]);
      PassedKeepsGateTwo(AllPassed(d, controlA, cells[..|cells| - 1]), controlA, cells[|cells| - 1]);
    }
  }

  lemma {:induction false} CountersKeepGate(c: Pit.Counter, value: byte)
    ensures Pit.WriteCounter(c, value).gate == c.gate && Pit.Configure(c, value).gate == c.gate
    ensures Pit.LatchCounter(c).gate == c.gate && Pit.ReadCounter(c).1.gate == c.gate
  {
  }

  lemma {:induction false} TimerKeepsGateTwo(d: Disk, zero: Pit.Counter, register: byte, value: byte)
    ensures SameGateTwo(d, ReadTimer(d, zero, register)) && SameGateTwo(d, WriteTimer(d, zero, register, value))
  {
    CountersKeepGate(d.two, value);
  }

  lemma {:induction false} StepKeepsGateTwo(d: Disk, step: Step)
    ensures SameGateTwo(d, After(d, step))
  {
    match step
    case TimePasses(controlA, cells, clocks) => TimeKeepsGateTwo(d, controlA, cells, clocks);
    case DataRead(register) => RefreshKeepsGateTwo(d.(data := Ppi.AfterRead(d.data, register)));
    case DataWrite(register, value) => RefreshKeepsGateTwo(d.(data := Ppi.Written(d.data, register, value)));
    case TimerRead(register, zero) =>
      TimerKeepsGateTwo(d, zero, register, 0);
      RefreshKeepsGateTwo(ReadTimer(d, zero, register));
    case TimerWrite(register, value, zero) =>
      TimerKeepsGateTwo(d, zero, register, value);
      RefreshKeepsGateTwo(WriteTimer(d, zero, register, value));
    case AuxWrite(value) => RefreshKeepsGateTwo(WriteAux(d, value));
    case TimingSwitch(timing) => RefreshKeepsGateTwo(SwitchTiming(d, timing));
    case Elsewhere => RefreshKeepsGateTwo(d);
  }

  /** From power-up on GATE2 is high, over any run. */
  lemma {:induction false} GateTwoIsHigh(m: MachineState, ops: seq<Op>)
    requires Sound(m) && m.disks.disk.two.gate
    ensures AfterOps(m, ops).disks.disk.two.gate && POWER_UP.disks.disk.two.gate
    decreases ops
  {
    if ops == [] {
      NoOps(m, ops);
    } else {
      var n := AfterOp(m, ops[0]);
      OpKeeps(m, ops[0]);
      match ops[0] {
        case Pass(cycles) =>
          PassTakesTime(m, cycles);
          TimeIsStep(m, cycles);
          StepKeepsGateTwo(m.disks.disk, TimePasses(m.disks.control.ports.outA,
            Visited(Selected(m.disks.bay), cycles * TICKS_PER_CYCLE), TimerClocks(m.clock, cycles)));
        case Perform(a) =>
          AccessIsPerformed(m, a);
          AccessTakesStep(m, a);
          StepKeepsGateTwo(m.disks.disk, AccessStep(m, a));
      }
      FirstOp(m, ops, n);
      GateTwoIsHigh(n, ops[1..]);
    }
  }

  /** Only counter 2 has been written. */
  predicate TwoWritten(m: MachineState, n: MachineState, two: Pit.Counter) {
    match n
    case MachineState(_, _, _, _, _, _) => Sound(n) && n == m.(disks := m.disks.(disk := m.disks.disk.(two := two)))
  }

  lemma {:induction false} TwoWrittenTwice(m: MachineState, n: MachineState, e: MachineState, a: Pit.Counter, b: Pit.Counter)
    requires TwoWritten(m, n, a) && TwoWritten(n, e, b)
    ensures TwoWritten(m, e, b)
  {
  }

  /** OUT instructions, one after the other: port and value. */
  function Outs(writes: seq<(byte, byte)>): (ops: seq<Op>)
    ensures |ops| == |writes|
    ensures forall i :: 0 <= i < |writes| ==> ops[i] == Perform(Access(0, writes[i].0, true, writes[i].1))
  {
    seq(|writes|, i requires 0 <= i < |writes| => Perform(Access(0, writes[i].0, true, writes[i].1)))
  }

  /** What they make of the counters of the timer. */
  function Programmed(s: seq<Pit.Counter>, writes: seq<(byte, byte)>): (t: seq<Pit.Counter>)
    requires |s| == 3
    ensures |t| == 3
    decreases writes
  {
    if writes == [] then s else Programmed(Pit.Written(s, writes[0].0, writes[0].1), writes[1..])
  }

  /** A write to the timer that touches only counter 2, and leaves OUT2 low. */
  predicate OnlyTwo(s: seq<Pit.Counter>, write: (byte, byte))
    requires |s| == 3
  {
    match write
    case (port, value) =>
      var t := Pit.Written(s, port, value);
      port / 16 % 8 == 1 && t[0] == s[0] && t[1] == s[1] && !t[2].element.output && !ProgramsCounterOne(port, value)
  }

  predicate AllOnlyTwo(s: seq<Pit.Counter>, writes: seq<(byte, byte)>)
    requires |s| == 3
    decreases writes
  {
    writes == [] || (OnlyTwo(s, writes[0]) && AllOnlyTwo(Pit.Written(s, writes[0].0, writes[0].1), writes[1..]))
  }

  /** The counters of this machine. */
  predicate HasCounters(m: MachineState, s: seq<Pit.Counter>) {
    match m
    case MachineState(_, _, _, _, _, _) => Sound(m) && s == Counters(m.disks.disk, m.board.zero)
  }

  /** What such a write does to the controller. */
  lemma {:induction false} TimerOnDisk(d: Disk, zero: Pit.Counter, write: (byte, byte))
    requires Consistent(d) && OnlyTwo(Counters(d, zero), write)
    ensures Refreshed(WriteTimer(d, zero, write.0, write.1)) == d.(two := Pit.Written(Counters(d, zero), write.0, write.1)[2])
  {
  }

  lemma {:induction false} TimerAlone(m: MachineState, write: (byte, byte), n: MachineState)
    requires n == TimerWritten(m, write.0, write.1)
    requires Pit.Written(Counters(m.disks.disk, m.board.zero), write.0, write.1)[0] == m.board.zero
    ensures Settled(n) == m.(disks := m.disks.(disk := Refreshed(WriteTimer(m.disks.disk, m.board.zero, write.0, write.1))))
  {
  }

  lemma {:induction false} TimerDispatched(m: MachineState, write: (byte, byte), t: seq<Pit.Counter>, n: MachineState)
    requires Fit(m) && t == Pit.Written(Counters(m.disks.disk, m.board.zero), write.0, write.1)
    requires n == IoWritten(m, write.0, write.1) && write.0 / 16 % 8 == 1 && |t| == 3 && t[0] == m.board.zero
    ensures n == m.(disks := m.disks.(disk := Refreshed(WriteTimer(m.disks.disk, m.board.zero, write.0, write.1))))
  {
    TimerAlone(m, write, WriteDispatched(m, write.0, write.1));
  }

  lemma {:induction false} TimerPort(m: MachineState, write: (byte, byte), s: seq<Pit.Counter>, n: MachineState)
    requires HasCounters(m, s) && OnlyTwo(s, write) && n == IoWritten(m, write.0, write.1)
    ensures TwoWritten(m, n, n.disks.disk.two) && HasCounters(n, Pit.Written(s, write.0, write.1))
  {
    TimerOnDisk(m.disks.disk, m.board.zero, write);
    TimerDispatched(m, write, Pit.Written(s, write.0, write.1), n);
    WriteIsStep(m, write.0, write.1);
  }

  lemma {:induction false} FirstOut(m: MachineState, writes: seq<(byte, byte)>, n: MachineState)
    requires Fit(m) && writes != [] && n == IoWritten(m, writes[0].0, writes[0].1)
    ensures AfterOps(m, Outs(writes)) == AfterOps(n, Outs(writes[1..]))
  {
    var a := Access(0, writes[0].0, true, writes[0].1);
    assert Outs(writes)[1..] == Outs(writes[1..]) && Outs(writes)[0] == Perform(a);
    AccessIsPerformed(m, a);
    OutputIsWritten(m, a);
    FirstOp(m, Outs(writes), n);
  }

  /** Counter 2 has been given these writes, and nothing else of the machine has changed. */
  ghost predicate TwoProgrammed(m: MachineState, s: seq<Pit.Counter>, writes: seq<(byte, byte)>) {
    match m
    case MachineState(_, _, _, _, _, _) =>
      && Fit(m) && |s| == 3
      && var e := AfterOps(m, Outs(writes)); TwoWritten(m, e, e.disks.disk.two) && e.disks.disk.two == Programmed(s, writes)[2]
  }

  lemma {:induction false} NoOuts(m: MachineState, s: seq<Pit.Counter>, none: seq<(byte, byte)>)
    requires HasCounters(m, s) && none == []
    ensures TwoProgrammed(m, s, none)
  {
    assert Outs(none) == [];
    NoOps(m, Outs(none));
  }

  lemma {:induction false} OneOutMore(m: MachineState, s: seq<Pit.Counter>, writes: seq<(byte, byte)>, n: MachineState)
    requires HasCounters(m, s) && writes != [] && n == IoWritten(m, writes[0].0, writes[0].1)
    requires TwoWritten(m, n, n.disks.disk.two) && TwoProgrammed(n, Pit.Written(s, writes[0].0, writes[0].1), writes[1..])
    ensures TwoProgrammed(m, s, writes)
  {
    FirstOut(m, writes, n);
    TwoWrittenTwice(m, n, AfterOps(m, Outs(writes)), n.disks.disk.two, AfterOps(m, Outs(writes)).disks.disk.two);
  }

  lemma {:induction false} OutsProgramTwo(m: MachineState, s: seq<Pit.Counter>, writes: seq<(byte, byte)>)
    requires HasCounters(m, s) && AllOnlyTwo(s, writes)
    ensures TwoProgrammed(m, s, writes)
    decreases writes
  {
    if writes == [] {
      NoOuts(m, s, writes);
    } else {
      var n := IoWritten(m, writes[0].0, writes[0].1);
      TimerPort(m, writes[0], s, n);
      OutsProgramTwo(n, Pit.Written(s, writes[0].0, writes[0].1), writes[1..]);
      OneOutMore(m, s, writes, n);
    }
  }

  /** The length that two bytes stand for. */
  function LengthOf(low: byte, high: byte): (n: nat)
    ensures n >= 1
  {
    if low == 0 && high == 0 then 65_536 else low + 256 * high
  }

  /** The three writes that program counter 2 for a field: its control word B0h, and two bytes. */
  function LengthOuts(low: byte, high: byte): seq<(byte, byte)> {
    [(0x13, 0xB0), (0x12, low), (0x12, high)]
  }

  lemma {:induction false} ThreeWrites(s: seq<Pit.Counter>, u: (byte, byte), v: (byte, byte), w: (byte, byte),
                                       a: seq<Pit.Counter>, b: seq<Pit.Counter>, c: seq<Pit.Counter>)
    requires |s| == 3 && a == Pit.Written(s, u.0, u.1) && b == Pit.Written(a, v.0, v.1) && c == Pit.Written(b, w.0, w.1)
    ensures Programmed(s, [u, v, w]) == c
    ensures OnlyTwo(s, u) && OnlyTwo(a, v) && OnlyTwo(b, w) ==> AllOnlyTwo(s, [u, v, w])
  {
    var writes := [u, v, w];
    assert writes[1..] == [v, w] && [v, w][1..] == [w] && [w][1..] == [];
    assert Programmed(c, []) == c && Programmed(b, [w]) == c && Programmed(a, [v, w]) == c;
    assert AllOnlyTwo(c, []);
    assert OnlyTwo(b, w) ==> AllOnlyTwo(b, [w]);
    assert OnlyTwo(a, v) && OnlyTwo(b, w) ==> AllOnlyTwo(a, [v, w]);
  }

  lemma {:induction false} LengthCounts(s: seq<Pit.Counter>, low: byte, high: byte, n: nat, c: seq<Pit.Counter>)
    requires |s| == 3 && s[2].gate && n == LengthOf(low, high) && c == Program(s, 0xB0, low, high)
    ensures CountingDown(c[2].element, n) && c[2].element.mode == 0
  {
    ProgramIsReady(s, 0xB0, low, high);
    assert c[2].gate;
  }

  lemma {:induction false} LengthProgram(s: seq<Pit.Counter>, low: byte, high: byte, n: nat)
    requires |s| == 3 && s[2].gate && n == LengthOf(low, high)
    ensures AllOnlyTwo(s, LengthOuts(low, high))
    ensures CountingDown(Programmed(s, LengthOuts(low, high))[2].element, n)
              && Programmed(s, LengthOuts(low, high))[2].element.mode == 0
  {
    var a := Pit.Written(s, 0x13, 0xB0);
    var b := Pit.Written(a, 0x12, low);
    var c := Pit.Written(b, 0x12, high);
    ThreeWrites(s, (0x13, 0xB0), (0x12, low), (0x12, high), a, b, c);
    LengthCounts(s, low, high, n, c);
  }

  /** Counter 2 has been loaded with a length, and nothing else of the machine is changed. */
  predicate Loaded(m: MachineState, e: MachineState, n: nat) {
    match e
    case MachineState(disks, _, _, _, _, _) =>
      TwoWritten(m, e, disks.disk.two) && CountingDown(disks.disk.two.element, n) && disks.disk.two.element.mode == 0
  }

  /** OUT 13h,B0h and two bytes to port 12h load counter 2 with this length. */
  lemma {:induction false} LengthIsWritten(m: MachineState, low: byte, high: byte, n: nat, e: MachineState)
    requires Sound(m) && m.disks.disk.two.gate && n == LengthOf(low, high) && e == AfterOps(m, Outs(LengthOuts(low, high)))
    ensures Loaded(m, e, n)
  {
    var s := Counters(m.disks.disk, m.board.zero);
    LengthProgram(s, low, high, n);
    OutsProgramTwo(m, s, LengthOuts(low, high));
  }

  // ---------------------------------------------------------------- a read begins

  /** What port 50h has been written: this byte, and then the run. */
  function Begun(v: byte, offset: nat, ops: seq<Op>): seq<Op> {
    [Perform(Access(offset, 0x50, true, v))] + ops
  }

  lemma {:induction false} BegunRun(m: MachineState, v: byte, offset: nat, ops: seq<Op>)
    requires Fit(m)
    ensures AfterOps(m, Begun(v, offset, ops)) == AfterOps(AfterOp(m, Perform(Access(offset, 0x50, true, v))), ops)
  {
    assert Begun(v, offset, ops)[1..] == ops;
    FirstOp(m, Begun(v, offset, ops), AfterOp(m, Perform(Access(offset, 0x50, true, v))));
  }

  lemma {:induction false} OutIsWritten(m: MachineState, port: nat, v: byte, offset: nat)
    requires Fit(m)
    ensures AfterOp(m, Perform(Access(offset, port, true, v))) == IoWritten(m, port, v)
  {
    var a := Access(offset, port, true, v);
    AccessIsPerformed(m, a);
    OutputIsWritten(m, a);
  }

  lemma {:induction false} OutIs(m: MachineState, v: byte, offset: nat, m1: MachineState)
    requires Sound(m) && AuxWritten(m, v, m1)
    ensures AfterOp(m, Perform(Access(offset, 0x50, true, v))) == m1
  {
    OutIsWritten(m, 0x50, v, offset);
    AuxPort(m, 0x50, v);
    OneAuxWritten(m, v, m1, IoWritten(m, 0x50, v));
  }

  lemma {:induction false} OneAuxWritten(m: MachineState, v: byte, a: MachineState, b: MachineState)
    requires AuxWritten(m, v, a) && AuxWritten(m, v, b)
    ensures a == b
  {
  }

  /** A run that begins with OUT 50h goes on from the machine that the bits describe. */
  lemma {:induction false} BegunIs(m: MachineState, v: byte, offset: nat, ops: seq<Op>, m1: MachineState, e: MachineState)
    requires Sound(m) && AuxWritten(m, v, m1) && e == AfterOps(m, Begun(v, offset, ops))
    ensures e == AfterOps(m1, ops)
  {
    BegunRun(m, v, offset, ops);
    OutIs(m, v, offset, m1);
  }

  /** The timing is on and nothing is being written or has been found; counter 2 has been loaded with `n`,
      and port B of the data 8255 is set up to receive with its interrupt. */
  predicate Listening(d: Disk, n: nat) {
    && Consistent(d) && d.latches.timing && d.pending == [] && R.PortB(d.data, None) && !d.latches.sync && !Writing(d)
    && CountingDown(d.two.element, n) && d.two.element.mode == 0
  }

  predicate ReadyToRead(m: MachineState, n: nat) {
    match m
    case MachineState(disks, _, _, _, _, _) => Steady(m) && Listening(disks.disk, n)
  }

  lemma {:induction false} SteadyAfterAux(m: MachineState, v: byte, n: MachineState)
    requires Steady(m) && AuxWritten(m, v, n)
    ensures Steady(n) && SceneOf(n) == SceneOf(m).(d := n.disks.disk)
  {
  }

  lemma {:induction false} ArmsRead(d: Disk, v: byte, aux: Aux, n: nat, e: Disk)
    requires Listening(d, n) && (v == 0x01 || v == 0x05) && aux == Aux(true, false, v == 0x05, false)
    requires AuxSet(d, v, e) && Consistent(e)
    ensures R.Hunting(e, aux, n)
  {
  }

  /** OUT 50h,01h looks for an identification mark, OUT 50h,05h for a data mark. */
  lemma {:induction false} MarkLookedFor(v: byte, aux: Aux, cell: TimedFmByte)
    requires (v == 0x01 || v == 0x05) && aux == Aux(true, false, v == 0x05, false)
    ensures Selects(aux, cell) <==>
              cell.clocks == 0xC7 && if v == 0x05 then cell.data == 0xFB || cell.data == 0xF8 else cell.data == 0xFE
  {
  }

  lemma {:induction false} ReadIsArmed(m: MachineState, v: byte, aux: Aux, n: nat, e: MachineState)
    requires ReadyToRead(m, n) && (v == 0x01 || v == 0x05) && aux == Aux(true, false, v == 0x05, false)
    requires AuxWritten(m, v, e)
    ensures Steady(e) && R.Hunting(e.disks.disk, aux, n)
  {
    SteadyAfterAux(m, v, e);
    ArmsRead(m.disks.disk, v, aux, n, e.disks.disk);
  }

  /** From here on the processor reads in time. */
  ghost predicate ReadsOn(m: MachineState, aux: Aux, n: nat, ops: seq<Op>) {
    match m
    case MachineState(_, _, _, _, _, _) =>
      Fit(m) && Gentle(m, SceneOf(m), ops) && R.InTime(R.Looking(n), aux, StepsOf(m, ops))
  }

  /** The field has been read, of the cells that pass. */
  ghost predicate ReadDone(m: MachineState, aux: Aux, n: nat, ops: seq<Op>, e: MachineState) {
    match m
    case MachineState(_, _, _, _, _, _) => Fit(m) && FieldRead(m, aux, n, ops, e, CellsPassed(m, ops))
  }

  lemma {:induction false} ArmedReads(m: MachineState, v: byte, aux: Aux, n: nat, ops: seq<Op>,
                                      m1: MachineState, e: MachineState)
    requires ReadyToRead(m, n) && (v == 0x01 || v == 0x05) && aux == Aux(true, false, v == 0x05, false)
    requires AuxWritten(m, v, m1) && ReadsOn(m1, aux, n, ops) && e == AfterOps(m1, ops)
    ensures ReadDone(m1, aux, n, ops, e)
  {
    ReadIsArmed(m, v, aux, n, m1);
    MachineReadsField(m1, aux, n, ops, e);
  }

  /** A field read from its first OUT on: the processor is given the first mark that it asked for and the
      `n` cells behind it, and nothing else. */
  lemma {:induction false} ReadBegins(m: MachineState, v: byte, aux: Aux, n: nat, offset: nat, ops: seq<Op>,
                                      m1: MachineState, e: MachineState)
    requires ReadyToRead(m, n) && (v == 0x01 || v == 0x05) && aux == Aux(true, false, v == 0x05, false)
    requires AuxWritten(m, v, m1) && ReadsOn(m1, aux, n, ops) && e == AfterOps(m, Begun(v, offset, ops))
    ensures ReadDone(m1, aux, n, ops, e)
  {
    BegunIs(m, v, offset, ops, m1, e);
    ArmedReads(m, v, aux, n, ops, m1, e);
  }

  // ---------------------------------------------------------------- a write begins

  /** The timing is on and nothing is being written or has been found; counter 2 has been loaded, and port
      A of the data 8255 is set up to send with its interrupt. */
  predicate Holding(d: Disk, w: W.Writer) {
    && Consistent(d) && d.latches.timing && d.pending == [] && W.PortA(d.data, w.filled) && !Writing(d) && !d.detector.suppress
    && d.data.ports.outA == w.pa && d.detector.lastTick == w.tick && !w.started
    && CountingDown(d.two.element, w.left) && d.two.element.mode == 0
    && d.one.element == w.one.element && d.one.gate == w.one.gate
  }

  predicate ReadyToWrite(m: MachineState, w: W.Writer) {
    match m
    case MachineState(disks, _, _, _, _, _) => Steady(m) && Writable(disks.bay) && Holding(disks.disk, w)
  }

  lemma {:induction false} ArmsWrite(d: Disk, w: W.Writer, e: Disk)
    requires Holding(d, w) && AuxSet(d, 0x02, e) && Consistent(e)
    ensures W.Armed(e, w)
  {
  }

  /** OUT 50h,02h. */
  lemma {:induction false} WriteIsArmed(m: MachineState, w: W.Writer, e: MachineState)
    requires ReadyToWrite(m, w) && AuxWritten(m, 0x02, e)
    ensures Steady(e) && Writable(e.disks.bay) && W.Armed(e.disks.disk, w)
  {
    SteadyAfterAux(m, 0x02, e);
    ArmsWrite(m.disks.disk, w, e.disks.disk);
  }

  /** From here on the processor writes in time, and the first cell is one of the track. */
  ghost predicate WritesOn(m: MachineState, w: W.Writer, ops: seq<Op>) {
    match m
    case MachineState(_, _, _, _, _, _) =>
      && Fit(m) && Gentle(m, SceneOf(m), ops) && W.InTime(w, StepsOf(m, ops))
      && FirstAmong(w, StepsOf(m, ops), Ticks(SceneOf(m).cells))
  }

  ghost predicate WriteDone(m: MachineState, w: W.Writer, ops: seq<Op>, e: MachineState) {
    match m
    case MachineState(_, _, _, _, _, _) => Fit(m) && FieldWritten(m, w, e, FieldOf(m, w, ops))
  }

  lemma {:induction false} ArmedWrites(m: MachineState, w: W.Writer, ops: seq<Op>, m1: MachineState, e: MachineState)
    requires ReadyToWrite(m, w) && AuxWritten(m, 0x02, m1) && WritesOn(m1, w, ops) && e == AfterOps(m1, ops)
    ensures WriteDone(m1, w, ops, e)
  {
    WriteIsArmed(m, w, m1);
    MachineWritesField(m1, w, ops, e, FieldOf(m1, w, ops));
  }

  /** A field written from its OUT on: exactly the cells of the specification are laid over the track. */
  lemma {:induction false} WriteBegins(m: MachineState, w: W.Writer, offset: nat, ops: seq<Op>,
                                       m1: MachineState, e: MachineState)
    requires ReadyToWrite(m, w) && AuxWritten(m, 0x02, m1) && WritesOn(m1, w, ops)
    requires e == AfterOps(m, Begun(0x02, offset, ops))
    ensures WriteDone(m1, w, ops, e)
  {
    BegunIs(m, 0x02, offset, ops, m1, e);
    ArmedWrites(m, w, ops, m1, e);
  }

  // ---------------------------------------------------------------- a format begins

  /** Nothing is being written, OUT2 is low, and the head is loaded on a writable medium with a cell at the
      index. */
  predicate ReadyToFormat(m: MachineState) {
    match m
    case MachineState(disks, _, _, _, _, _) =>
      && Steady(m) && Writable(disks.bay) && !Writing(disks.disk) && !disks.disk.EndOfData()
      && FormatTrack.HasIndexCell(UnderHead(Selected(disks.bay)))
  }

  lemma {:induction false} ArmsFormat(d: Disk, v: byte, e: Disk)
    requires Consistent(d) && d.latches.timing && d.pending == [] && !Writing(d) && !d.EndOfData()
    requires (v == 0x10 || v == 0x11) && AuxSet(d, v, e) && Consistent(e)
    ensures FormatTrack.Underway(e) && FormatTrack.ModeOf(e) == FormatTrack.Awaiting
  {
  }

  /** OUT 50h,10h, or with RE too, OUT 50h,11h. */
  lemma {:induction false} FormatIsArmed(m: MachineState, v: byte, e: MachineState)
    requires ReadyToFormat(m) && (v == 0x10 || v == 0x11) && AuxWritten(m, v, e)
    ensures AboutToFormat(e)
  {
    SteadyAfterAux(m, v, e);
    ArmsFormat(m.disks.disk, v, e.disks.disk);
  }

  /** From here on the processor does not interfere, and OUT2 stays low. */
  ghost predicate FormatsOn(m: MachineState, ops: seq<Op>) {
    match m
    case MachineState(_, _, _, _, _, _) => Fit(m) && CalmRun(ops) && LowThroughout(m, ops)
  }

  ghost predicate FormatEnds(m: MachineState, ops: seq<Op>, e: MachineState) {
    match m
    case MachineState(_, _, _, _, _, _) =>
      Fit(m) && FormatDone(m, e, CyclesIn(ops) * TICKS_PER_CYCLE, AllWrites(SceneOf(m), ChunksOf(m, ops)))
  }

  lemma {:induction false} ArmedFormats(m: MachineState, v: byte, ops: seq<Op>, m1: MachineState, e: MachineState)
    requires ReadyToFormat(m) && (v == 0x10 || v == 0x11) && AuxWritten(m, v, m1) && FormatsOn(m1, ops)
              && e == AfterOps(m1, ops)
    ensures FormatEnds(m1, ops, e)
  {
    FormatIsArmed(m, v, m1);
    MachineFormatsTrack(m1, ops, e, CyclesIn(ops) * TICKS_PER_CYCLE, AllWrites(SceneOf(m1), ChunksOf(m1, ops)));
  }

  /** A format from its OUT on overwrites exactly one revolution. */
  lemma {:induction false} FormatBegins(m: MachineState, v: byte, offset: nat, ops: seq<Op>, m1: MachineState, e: MachineState)
    requires ReadyToFormat(m) && (v == 0x10 || v == 0x11) && AuxWritten(m, v, m1) && FormatsOn(m1, ops)
    requires e == AfterOps(m, Begun(v, offset, ops))
    ensures FormatEnds(m1, ops, e)
  {
    BegunIs(m, v, offset, ops, m1, e);
    ArmedFormats(m, v, ops, m1, e);
  }
}
