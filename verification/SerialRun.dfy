/** What a run of the machine does to the UART: counter 1 clocks it while time passes, and the
    processor reads and writes it in between.  The clock edges of a run are bounded by its time. */
module SerialRuns {
  import opened Bytes
  import opened Uart8251
  import opened MachineTime
  import opened MachineModel
  import Pit = Pit8253
  import PitCounting

  datatype UartStep = TxClock | RxClock | PortWrite(register: byte, value: byte) | PortRead(register: byte)

  function Stepped(s: UartState, step: UartStep): UartState {
    match step
    case TxClock => ClockedTransmit(s)
    case RxClock => ClockedReceive(s)
    case PortWrite(register, value) => Write(s, register, value)
    case PortRead(register) => AfterPortRead(s, register)
  }

  function AfterSteps(s: UartState, steps: seq<UartStep>): UartState
    decreases steps
  {
    if steps == [] then s else AfterSteps(Stepped(s, steps[0]), steps[1..])
  }

  lemma {:induction false} StepsConcat(s: UartState, a: seq<UartStep>, b: seq<UartStep>)
    ensures AfterSteps(s, a + b) == AfterSteps(AfterSteps(s, a), b)
    decreases a
  {
    if a == [] {
      assert a + b == b;
    } else {
      assert (a + b)[1..] == a[1..] + b;
      StepsConcat(Stepped(s, a[0]), a[1..], b);
    }
  }

  function TxClocks(steps: seq<UartStep>): nat {
    if steps == [] then 0 else (if steps[0].TxClock? then 1 else 0) + TxClocks(steps[1..])
  }

  lemma {:induction false} TxClocksConcat(a: seq<UartStep>, b: seq<UartStep>)
    ensures TxClocks(a + b) == TxClocks(a) + TxClocks(b)
    decreases a
  {
    if a == [] {
      assert a + b == b;
    } else {
      assert (a + b)[1..] == a[1..] + b;
      TxClocksConcat(a[1..], b);
    }
  }

  // ---------------------------------------------------------------- from time to clock edges

  function Times(step: UartStep, n: nat): seq<UartStep> {
    if n == 0 then [] else Times(step, n - 1) + [step]
  }

  /** Each rising edge of counter 1 clocks the transmitter, then each one the receiver. */
  function Edges(rising: nat): seq<UartStep> {
    Times(TxClock, rising) + Times(RxClock, rising)
  }

  function AccessSteps(a: Access): seq<UartStep> {
    if a.port / 16 % 8 != 4 then []
    else if a.output then [PortWrite(a.port % 256, a.value)]
    else [PortRead(a.port % 256)]
  }

  /** The steps of one operation, with counter 1 as it is when its pulses come. */
  function OpSteps(c: Clock, op: Op, one: Pit.Element): seq<UartStep> {
    match op
    case Pass(cycles) => Edges(Pit.RisingEdges(one, TimerClocks(c, cycles)))
    case Perform(a) => AccessSteps(a)
  }

  function ClockAfterOp(c: Clock, op: Op): Clock {
    if op.Pass? then Later(c, op.cycles) else c
  }

  function UartSteps(c: Clock, ops: seq<Op>, ones: seq<Pit.Element>): seq<UartStep>
    requires |ones| == |ops|
    decreases ops
  {
    if ops == [] then [] else OpSteps(c, ops[0], ones[0]) + UartSteps(ClockAfterOp(c, ops[0]), ops[1..], ones[1..])
  }

  lemma {:induction false} TimesClock(step: UartStep, n: nat)
    ensures TxClocks(Times(step, n)) == if step.TxClock? then n else 0
  {
    if n > 0 {
      TimesClock(step, n - 1);
      TxClocksConcat(Times(step, n - 1), [step]);
      assert [step][1..] == [];
    }
  }

  /** Counter 1 cannot rise more often than it is clocked, whatever its mode and count. */
  lemma {:induction false} OpClocks(c: Clock, op: Op, one: Pit.Element)
    ensures TxClocks(OpSteps(c, op, one)) <= if op.Pass? then TimerClocks(c, op.cycles) else 0
  {
    match op
    case Pass(cycles) =>
      var rising := Pit.RisingEdges(one, TimerClocks(c, cycles));
      TimesClock(TxClock, rising);
      TimesClock(RxClock, rising);
      TxClocksConcat(Times(TxClock, rising), Times(RxClock, rising));
      PitCounting.EdgeBalance(one, TimerClocks(c, cycles));
    case Perform(a) =>
      assert AccessSteps(a) != [] ==> AccessSteps(a)[1..] == [];
  }

  /** A run clocks the transmitter at most once per pulse of counter 1. */
  lemma {:induction false} RunClocks(c: Clock, ops: seq<Op>, ones: seq<Pit.Element>)
    requires |ones| == |ops|
    ensures TxClocks(UartSteps(c, ops, ones)) <= TimerClocksOf(c, ops)
    decreases ops
  {
    if ops != [] {
      OpClocks(c, ops[0], ones[0]);
      RunClocks(ClockAfterOp(c, ops[0]), ops[1..], ones[1..]);
      TxClocksConcat(OpSteps(c, ops[0], ones[0]), UartSteps(ClockAfterOp(c, ops[0]), ops[1..], ones[1..]));
    }
  }

  // ---------------------------------------------------------------- the machine does just that

  lemma {:induction false} TimesTransmit(s: UartState, n: nat)
    ensures AfterSteps(s, Times(TxClock, n)) == TransmitEdges(s, n)
  {
    if n > 0 {
      TimesTransmit(s, n - 1);
      StepsConcat(s, Times(TxClock, n - 1), [TxClock]);
      OneStep(TransmitEdges(s, n - 1), TxClock);
    }
  }

  lemma {:induction false} TimesReceive(s: UartState, n: nat)
    ensures AfterSteps(s, Times(RxClock, n)) == ReceiveEdges(s, n)
  {
    if n > 0 {
      TimesReceive(s, n - 1);
      StepsConcat(s, Times(RxClock, n - 1), [RxClock]);
      OneStep(ReceiveEdges(s, n - 1), RxClock);
    }
  }

  lemma {:induction false} OneStep(s: UartState, step: UartStep)
    ensures AfterSteps(s, [step]) == Stepped(s, step)
  {
    assert [step][1..] == [];
    assert AfterSteps(Stepped(s, step), []) == Stepped(s, step);
  }

  /** Counter 1 of a machine when the pulses of an operation come: the cells that pass in the same
      span of time come before them, and may open or close its gate. */
  function CounterOne(m: MachineState, op: Op): Pit.Element
    requires Fit(m)
  {
    if op.Pass? then DisksTurned(m, op.cycles * TICKS_PER_CYCLE).disks.disk.one.element else m.disks.disk.one.element
  }

  ghost function CountersOne(m: MachineState, ops: seq<Op>): (ones: seq<Pit.Element>)
    requires Fit(m)
    ensures |ones| == |ops|
    decreases ops
  {
    if ops == [] then [] else [CounterOne(m, ops[0])] + CountersOne(AfterOp(m, ops[0]), ops[1..])
  }

  lemma {:induction false} TimeDrivesUart(m: MachineState, cycles: nat)
    requires Fit(m)
    ensures TimePassed(m, cycles).serial.uart
         == AfterSteps(m.serial.uart, OpSteps(m.clock, Pass(cycles), CounterOne(m, Pass(cycles))))
  {
    var rising := Pit.RisingEdges(CounterOne(m, Pass(cycles)), TimerClocks(m.clock, cycles));
    StepsConcat(m.serial.uart, Times(TxClock, rising), Times(RxClock, rising));
    TimesTransmit(m.serial.uart, rising);
    TimesReceive(TransmitEdges(m.serial.uart, rising), rising);
  }

  lemma {:induction false} AccessDrivesUart(m: MachineState, a: Access)
    requires Fit(m)
    ensures Accessed(m, a).serial.uart == AfterSteps(m.serial.uart, AccessSteps(a))
  {
    if a.port / 16 % 8 == 4 {
      OneStep(m.serial.uart, AccessSteps(a)[0]);
    }
  }

  lemma {:induction false} TimeKeepsConnection(m: MachineState, cycles: nat)
    requires Fit(m)
    ensures TimePassed(m, cycles).clock == Later(m.clock, cycles)
    ensures TimePassed(m, cycles).serial == m.serial.(uart := TimePassed(m, cycles).serial.uart)
  {
  }

  lemma {:induction false} AccessKeepsConnection(m: MachineState, a: Access)
    requires Fit(m)
    ensures Accessed(m, a).clock == m.clock
    ensures Accessed(m, a).serial == m.serial.(uart := Accessed(m, a).serial.uart)
  {
  }

  /** The machine's own record of the connection is not the processor's to change. */
  lemma {:induction false} OpKeepsConnection(m: MachineState, op: Op)
    requires Fit(m)
    ensures AfterOp(m, op).clock == ClockAfterOp(m.clock, op)
    ensures AfterOp(m, op).serial == m.serial.(uart := AfterOp(m, op).serial.uart)
  {
    match op
    case Pass(cycles) => TimeKeepsConnection(m, cycles);
    case Perform(a) => AccessKeepsConnection(m, a);
  }

  lemma {:induction false} OpDrivesUart(m: MachineState, op: Op)
    requires Fit(m)
    ensures AfterOp(m, op).serial.uart == AfterSteps(m.serial.uart, OpSteps(m.clock, op, CounterOne(m, op)))
  {
    match op
    case Pass(cycles) => TimeDrivesUart(m, cycles);
    case Perform(a) => AccessDrivesUart(m, a);
  }

  /** The UART after a run of the machine is the one after these steps. */
  lemma {:induction false} MachineDrivesUart(m: MachineState, ops: seq<Op>)
    requires Fit(m)
    ensures AfterOps(m, ops).serial.uart == AfterSteps(m.serial.uart, UartSteps(m.clock, ops, CountersOne(m, ops)))
    ensures AfterOps(m, ops).clock == ClockAfter(m.clock, ops)
    ensures AfterOps(m, ops).serial == m.serial.(uart := AfterOps(m, ops).serial.uart)
    decreases ops
  {
    if ops != [] {
      var n := AfterOp(m, ops[0]);
      OpDrivesUart(m, ops[0]);
      OpKeepsConnection(m, ops[0]);
      MachineDrivesUart(n, ops[1..]);
      StepsConcat(m.serial.uart, OpSteps(m.clock, ops[0], CounterOne(m, ops[0])),
                  UartSteps(n.clock, ops[1..], CountersOne(n, ops[1..])));
    }
  }
}
