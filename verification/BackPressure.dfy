/** The UART's host queue never overflows, and no byte is lost or reordered on its way to the
    link. */
module BackPressure {
  import opened Bytes
  import opened Wrappers
  import opened Uart8251
  import opened SerialPump
  import opened SerialRuns
  import opened MachineTime
  import Pit = Pit8253

  // ---------------------------------------------------------------- payloads

  /** The payload character whose frame this step completes. */
  function Completes(s: UartState, step: UartStep): seq<byte> {
    if step.TxClock? && !s.control.Break() && s.tx.clockCount + 1 >= BaudFactor(s.control.mode)
       && s.tx.active && s.tx.index >= |s.tx.frame| && s.tx.payload
    then [s.tx.character] else []
  }

  function Completed(s: UartState, steps: seq<UartStep>): seq<byte>
    decreases steps
  {
    if steps == [] then [] else Completes(s, steps[0]) + Completed(Stepped(s, steps[0]), steps[1..])
  }

  /** The guard of the program that drops a byte: a payload is complete and the host queue is
      full. */
  predicate Drops(s: UartState, step: UartStep) {
    Completes(s, step) != [] && |s.tx.completed| >= HOST_QUEUE_CAPACITY
  }

  ghost predicate NeverDrops(s: UartState, steps: seq<UartStep>)
    decreases steps
  {
    steps == [] || (!Drops(s, steps[0]) && NeverDrops(Stepped(s, steps[0]), steps[1..]))
  }

  // ---------------------------------------------------------------- how fast the queue can grow

  /** Frames have at least five bits, and the bit counter stays within them. */
  predicate TxOk(tx: Transmitter) {
    tx.active ==> |tx.frame| >= 5 && tx.index <= |tx.frame|
  }

  /** Five for every queued byte, and the progress of the payload on the line. */
  function Weight(tx: Transmitter): nat {
    5 * |tx.completed| + if tx.active && tx.payload then Min(tx.index, 5) else 0
  }

  /** Queued bytes and the payload on the line. */
  function Held(tx: Transmitter): nat {
    |tx.completed| + if tx.active && tx.payload then 1 else 0
  }

  lemma {:induction false} AdvanceWeight(tx: Transmitter, u: SyncUnit, mode: byte, sending: bool)
    requires TxOk(tx)
    ensures var t := AdvanceTransmitter(tx, u, mode, sending).0;
            && TxOk(t) && Weight(t) <= Weight(tx) + 1
            && (!sending ==> Held(t) <= Held(tx))
            && |t.completed| <= |tx.completed| + 1
  {
    var f := Finished(tx);
    assert TxOk(f) && Weight(f) <= Weight(tx) && Held(f) <= Held(tx);
    if !f.active && sending {
      if f.buffer.Some? {
        FrameSize(mode, f.buffer.value);
      } else if Synchronous(mode) && u.count != 0 {
        FrameSize(mode, SynCharacter(u, u.transmitIndex));
      }
    }
  }

  /** One step adds at most one to the weight, and only a transmit clock adds anything; with CTS
      off the bytes held do not grow. */
  lemma {:induction false} StepWeight(s: UartState, step: UartStep)
    requires TxOk(s.tx)
    ensures var t := Stepped(s, step);
            && TxOk(t.tx) && t.control.cts == s.control.cts
            && Weight(t.tx) <= Weight(s.tx) + (if step.TxClock? then 1 else 0)
            && (!s.control.cts ==> Held(t.tx) <= Held(s.tx))
  {
    match step
    case TxClock => ClockingAddsOne(s);
    case RxClock => ReceivingKeepsTx(s);
    case PortWrite(register, value) => WritingKeepsWeight(s, register, value);
    case PortRead(register) =>
  }

  lemma {:induction false} ClockingAddsOne(s: UartState)
    requires TxOk(s.tx)
    ensures var t := ClockedTransmit(s);
            && TxOk(t.tx) && t.control.cts == s.control.cts
            && Weight(t.tx) <= Weight(s.tx) + 1
            && (!s.control.cts ==> Held(t.tx) <= Held(s.tx))
  {
    var tx := s.tx.(clockCount := 0);
    assert TxOk(tx) && Weight(tx) == Weight(s.tx) && Held(tx) == Held(s.tx);
    AdvanceWeight(tx, s.sync, s.control.mode, s.control.Sending());
  }

  lemma {:induction false} ReceivingKeepsTx(s: UartState)
    ensures ClockedReceive(s).tx == s.tx && ClockedReceive(s).control == s.control
  {
  }

  lemma {:induction false} WritingKeepsWeight(s: UartState, register: byte, value: byte)
    requires TxOk(s.tx)
    ensures var t := Write(s, register, value);
            && TxOk(t.tx) && t.control.cts == s.control.cts
            && Weight(t.tx) <= Weight(s.tx) && Held(t.tx) <= Held(s.tx)
  {
  }

  /** A run of the machine may make this many transmit clock edges before the queue could
      overflow. */
  const MAXIMUM_EDGES: nat := 20_064
  const MAXIMUM_HELD: nat := 4_014

  lemma {:induction false} OpenRun(s: UartState, steps: seq<UartStep>, budget: nat)
    requires TxOk(s.tx)
    requires Weight(s.tx) + TxClocks(steps) <= budget && budget < 5 * HOST_QUEUE_CAPACITY
    ensures NeverDrops(s, steps)
    ensures var t := AfterSteps(s, steps);
            TxOk(t.tx) && t.control.cts == s.control.cts && Weight(t.tx) <= budget
    decreases steps
  {
    if steps != [] {
      StepWeight(s, steps[0]);
      OpenRun(Stepped(s, steps[0]), steps[1..], budget);
    }
  }

  lemma {:induction false} ClosedRun(s: UartState, steps: seq<UartStep>)
    requires TxOk(s.tx) && !s.control.cts && Held(s.tx) <= HOST_QUEUE_CAPACITY
    ensures NeverDrops(s, steps)
    ensures var t := AfterSteps(s, steps);
            TxOk(t.tx) && !t.control.cts && Held(t.tx) <= Held(s.tx)
    decreases steps
  {
    if steps != [] {
      StepWeight(s, steps[0]);
      ClosedRun(Stepped(s, steps[0]), steps[1..]);
    }
  }

  // ---------------------------------------------------------------- the pump keeps the bound

  /** Holds after every synchronization, reset and run. */
  predicate Bounded(p: Pump) {
    TxOk(p.uart.tx) && Held(p.uart.tx) <= MAXIMUM_HELD && (p.uart.control.cts ==> p.connected)
  }

  /** Holds whenever the machine starts to run: CTS is on only if the queue has been drained. */
  predicate Drained(p: Pump) {
    Bounded(p) && (p.uart.control.cts ==> p.uart.tx.completed == [])
  }

  /** Running keeps the bound, and never drops a byte. */
  lemma {:induction false} RunKeepsBound(p: Pump, steps: seq<UartStep>)
    requires Drained(p) && TxClocks(steps) <= MAXIMUM_EDGES
    ensures NeverDrops(p.uart, steps)
    ensures Bounded(p.(uart := AfterSteps(p.uart, steps)))
  {
    if p.uart.control.cts {
      OpenRun(p.uart, steps, 5 + MAXIMUM_EDGES);
    } else {
      ClosedRun(p.uart, steps);
    }
  }

  /** What the pump does to the transmit side: only the queue gets shorter. */
  predicate OnlyShortens(p: Pump, q: Pump) {
    && q.uart.tx == p.uart.tx.(completed := q.uart.tx.completed)
    && |q.uart.tx.completed| <= |p.uart.tx.completed|
    && q.connected == p.connected && q.link.connected == p.link.connected
    && q.uart.control == p.uart.control
  }

  lemma {:induction false} InputOnlyShortens(p: Pump)
    ensures OnlyShortens(p, MoveInput(p))
    decreases p.link.incoming
  {
    if p.pendingInput.None? && p.link.incoming != [] {
      InputOnlyShortens(InputMoved(p));
    }
  }

  lemma {:induction false} OutputDrains(p: Pump)
    ensures OnlyShortens(p, MoveOutput(p))
    ensures MoveOutput(p).pendingOutput.None? ==> MoveOutput(p).uart.tx.completed == []
    decreases p.uart.tx.completed
  {
    if p.pendingOutput.None? && p.uart.tx.completed != [] {
      OutputDrains(OutputMoved(p));
    }
  }

  lemma {:induction false} ExchangeDrains(p: Pump)
    requires Bounded(p) && p.connected
    ensures Drained(Exchange(p)) && Exchange(p).connected && Exchange(p).link.connected == p.link.connected
  {
    InputOnlyShortens(RetryInput(p));
    OutputDrains(RetryOutput(MoveInput(RetryInput(p))));
  }

  lemma {:induction false} NoticeKeepsBound(p: Pump)
    requires Bounded(p)
    ensures Bounded(NoticeFirst(p)) && NoticeFirst(p).connected == p.link.connected
    ensures NoticeFirst(p).link == p.link
    ensures Drained(p) && p.connected ==> Drained(NoticeLast(p))
    ensures !p.link.connected ==> Drained(NoticeFirst(p))
  {
  }

  /** After every synchronization CTS is on only if the queue is empty, whatever the network
      does. */
  lemma {:induction false} SynchronizingDrains(p: Pump, first: Poll, second: Poll)
    requires Bounded(p)
    ensures Drained(Synchronized(p, first, second))
  {
    var polled := p.(link := Polled(p.link, first));
    NoticeKeepsBound(polled);
    var q := NoticeFirst(polled);
    if q.link.connected {
      ExchangeDrains(q);
      var r := Exchange(q);
      NoticeKeepsBound(r.(link := Polled(r.link, second)));
    }
  }

  // ---------------------------------------------------------------- the front-end loop

  /** The front end and what it needs to know of the machine: the time line, and the cycles the last
      run went too far. */
  datatype Front = Front(pump: Pump, clock: Clock, overrun: nat)

  /** What the machine does during a turn: nothing while it is paused, and otherwise a frame's worth
      of instructions.  `ones` is counter 1 at each step of that run, as the processor and the disk
      have left it; anything is possible. */
  datatype Work = Paused | Running(instructions: seq<Instruction>, ones: seq<Pit.Element>)

  /** One turn of the loop: synchronize, run unless paused, synchronize, and perhaps a reset from
      the user interface. */
  datatype Turn = Turn(before: (Poll, Poll), work: Work, after: (Poll, Poll), reset: bool)

  function OutcomeOf(overrun: nat, work: Work): Outcome {
    if work.Paused? then Outcome([], overrun, 0) else Run(overrun, CYCLES_PER_FRAME, work.instructions)
  }

  /** There are instructions enough, none takes more than the 255 cycles the processor interface can
      count, and each step has its counter 1. */
  ghost predicate Possible(overrun: nat, work: Work) {
    work.Running? ==>
      && AllSane(work.instructions) && CYCLES_PER_FRAME <= |work.instructions|
      && (forall k :: 0 <= k < |work.instructions| ==> work.instructions[k].executed <= LONGEST_INSTRUCTION)
      && |work.ones| == |OutcomeOf(overrun, work).ops|
  }

  /** What the run of a turn does to the UART. */
  function Steps(f: Front, work: Work): seq<UartStep>
    requires Possible(f.overrun, work)
  {
    if work.Paused? then [] else UartSteps(f.clock, OutcomeOf(f.overrun, work).ops, work.ones)
  }

  function Ran(f: Front, work: Work): Front
    requires Possible(f.overrun, work)
  {
    var outcome := OutcomeOf(f.overrun, work);
    Front(f.pump.(uart := AfterSteps(f.pump.uart, Steps(f, work))), ClockAfter(f.clock, outcome.ops), outcome.overrun)
  }

  function Pumped(f: Front, polls: (Poll, Poll)): Front {
    f.(pump := Synchronized(f.pump, polls.0, polls.1))
  }

  function ResetFront(f: Front): Front {
    Front(MachineReset(f.pump), CLOCK_RESET, 0)
  }

  function Turned(f: Front, turn: Turn): Front
    requires Possible(f.overrun, turn.work)
  {
    var g := Pumped(Ran(Pumped(f, turn.before), turn.work), turn.after);
    if turn.reset then ResetFront(g) else g
  }

  ghost predicate AllPossible(f: Front, turns: seq<Turn>)
    decreases turns
  {
    turns == [] ||
    (Possible(f.overrun, turns[0].work) && AllPossible(Turned(f, turns[0]), turns[1..]))
  }

  function AfterTurns(f: Front, turns: seq<Turn>): Front
    requires AllPossible(f, turns)
    decreases turns
  {
    if turns == [] then f else AfterTurns(Turned(f, turns[0]), turns[1..])
  }

  ghost predicate TurnNeverDrops(f: Front, turn: Turn)
    requires Possible(f.overrun, turn.work)
  {
    var g := Pumped(f, turn.before);
    NeverDrops(g.pump.uart, Steps(g, turn.work))
  }

  ghost predicate LoopNeverDrops(f: Front, turns: seq<Turn>)
    requires AllPossible(f, turns)
    decreases turns
  {
    turns == [] || (TurnNeverDrops(f, turns[0]) && LoopNeverDrops(Turned(f, turns[0]), turns[1..]))
  }

  /** Holds at every turn of the loop. */
  predicate Good(f: Front) {
    Bounded(f.pump) && InStep(f.clock) && f.overrun < LONGEST_INSTRUCTION
  }

  /** The numeric bound: a run of one frame gives the transmitter at most 20,064 edges, whatever the
      processor does with the timer. */
  lemma {:induction false} RunIsBounded(f: Front, work: Work)
    requires InStep(f.clock) && f.overrun < LONGEST_INSTRUCTION && Possible(f.overrun, work)
    ensures TxClocks(Steps(f, work)) <= MAXIMUM_EDGES
    ensures InStep(Ran(f, work).clock) && Ran(f, work).overrun < LONGEST_INSTRUCTION
  {
    if work.Running? {
      FrameClocksAreBounded(f.clock, f.overrun, work.instructions);
      RunClocks(f.clock, OutcomeOf(f.overrun, work).ops, work.ones);
    }
  }

  lemma {:induction false} TurnIsGood(f: Front, turn: Turn)
    requires Good(f) && Possible(f.overrun, turn.work)
    ensures TurnNeverDrops(f, turn) && Good(Turned(f, turn))
  {
    var g := Pumped(f, turn.before);
    SynchronizingDrains(f.pump, turn.before.0, turn.before.1);
    RunIsBounded(g, turn.work);
    RunKeepsBound(g.pump, Steps(g, turn.work));
    SynchronizingDrains(Ran(g, turn.work).pump, turn.after.0, turn.after.1);
  }

  /** Over every run of the front-end loop, whatever the network, the processor and the user do, the
      full-queue guard of the UART is never taken. */
  lemma {:induction false} BackPressureSuffices(f: Front, turns: seq<Turn>)
    requires Good(f) && AllPossible(f, turns)
    ensures LoopNeverDrops(f, turns) && Good(AfterTurns(f, turns))
    decreases turns
  {
    if turns != [] {
      TurnIsGood(f, turns[0]);
      BackPressureSuffices(Turned(f, turns[0]), turns[1..]);
    }
  }

  /** The state in which the loop is entered: a new machine that has been told whether the link is
      connected already. */
  lemma {:induction false} StartIsGood(link: Link)
    ensures var pump := Pump(UART_RESET, link, None, None, false, true, History([], []));
            Good(Front(SetConnected(pump, link.connected), CLOCK_RESET, 0))
  {
  }

  // ---------------------------------------------------------------- nothing is lost

  function Slot(pending: Option<byte>): seq<byte> {
    if pending.Some? then [pending.value] else []
  }

  /** Everything on the way out: accepted by the link, waiting in the slot, waiting in the
      queue. */
  function Outward(p: Pump): seq<byte> {
    p.history.accepted + Slot(p.pendingOutput) + p.uart.tx.completed
  }

  /** Everything on the way in: given to the UART, waiting in the slot, waiting in the link. */
  function Inward(p: Pump): seq<byte> {
    p.history.entered + Slot(p.pendingInput) + p.link.incoming
  }

  lemma {:induction false} OneInputConserves(p: Pump)
    requires p.pendingInput.None? && p.link.incoming != []
    ensures Inward(InputMoved(p)) == Inward(p) && Outward(InputMoved(p)) == Outward(p)
  {
    assert p.link.incoming == [p.link.incoming[0]] + p.link.incoming[1..];
  }

  lemma {:induction false} OneOutputConserves(p: Pump)
    requires p.pendingOutput.None? && p.uart.tx.completed != []
    ensures Outward(OutputMoved(p)) == Outward(p) && Inward(OutputMoved(p)) == Inward(p)
  {
    assert p.uart.tx.completed == [p.uart.tx.completed[0]] + p.uart.tx.completed[1..];
  }

  lemma {:induction false} InputConserves(p: Pump)
    ensures Inward(MoveInput(p)) == Inward(p) && Outward(MoveInput(p)) == Outward(p)
    decreases p.link.incoming
  {
    if p.pendingInput.None? && p.link.incoming != [] {
      OneInputConserves(p);
      InputConserves(InputMoved(p));
    }
  }

  lemma {:induction false} OutputConserves(p: Pump)
    ensures Outward(MoveOutput(p)) == Outward(p) && Inward(MoveOutput(p)) == Inward(p)
    decreases p.uart.tx.completed
  {
    if p.pendingOutput.None? && p.uart.tx.completed != [] {
      OneOutputConserves(p);
      OutputConserves(OutputMoved(p));
    }
  }

  /** What the network does during a poll of a lasting connection: only input is added. */
  lemma {:induction false} PollConserves(p: Pump, poll: Poll)
    requires p.link.connected && poll.up
    ensures var q := p.(link := Polled(p.link, poll));
            q.link.connected && Outward(q) == Outward(p) && Inward(p) <= Inward(q)
  {
    var q := p.(link := Polled(p.link, poll));
    assert Inward(q) == Inward(p) + q.link.incoming[|p.link.incoming|..];
  }

  lemma {:induction false} RetryInputConserves(p: Pump)
    ensures Inward(RetryInput(p)) == Inward(p) && Outward(RetryInput(p)) == Outward(p)
    ensures RetryInput(p).connected == p.connected && RetryInput(p).link == p.link
  {
  }

  lemma {:induction false} RetryOutputConserves(p: Pump)
    ensures Inward(RetryOutput(p)) == Inward(p) && Outward(RetryOutput(p)) == Outward(p)
    ensures RetryOutput(p).connected == p.connected && RetryOutput(p).link.connected == p.link.connected
  {
  }

  lemma {:induction false} ClearConserves(p: Pump, clear: bool)
    ensures var q := SetClearToSend(p, clear);
            Outward(q) == Outward(p) && Inward(q) == Inward(p) && q.connected == p.connected && q.link == p.link
  {
  }

  lemma {:induction false} ExchangeConserves(p: Pump)
    ensures var q := Exchange(p);
            && q.connected == p.connected && q.link.connected == p.link.connected
            && Outward(q) == Outward(p) && Inward(q) == Inward(p)
  {
    var b := RetryInput(p);
    RetryInputConserves(p);
    InputConserves(b);
    InputOnlyShortens(b);
    var c := MoveInput(b);
    RetryOutputConserves(c);
    var d := RetryOutput(c);
    OutputConserves(d);
    OutputDrains(d);
    var e := MoveOutput(d);
    ClearConserves(e, e.pendingOutput.None?);
  }

  /** Nothing lost between two states of one connection, apart from `made` added to the output. */
  ghost predicate Keeps(p: Pump, q: Pump, made: seq<byte>) {
    && p.connected && p.link.connected && q.connected && q.link.connected
    && Outward(q) == Outward(p) + made
    && Inward(p) <= Inward(q)
  }

  lemma {:induction false} KeepsTwice(p: Pump, q: Pump, r: Pump, a: seq<byte>, b: seq<byte>)
    requires Keeps(p, q, a) && Keeps(q, r, b)
    ensures Keeps(p, r, a + b)
  {
    assert (Outward(p) + a) + b == Outward(p) + (a + b);
  }

  /** While the connection lasts, a synchronization neither loses nor reorders a byte in either
      direction; only what the network brings is added. */
  lemma {:induction false} SynchronizingConserves(p: Pump, first: Poll, second: Poll)
    requires p.connected && p.link.connected && first.up && second.up
    ensures Keeps(p, Synchronized(p, first, second), [])
  {
    PollConserves(p, first);
    var a := p.(link := Polled(p.link, first));
    assert NoticeFirst(a) == a;
    ExchangeConserves(a);
    var f := Exchange(a);
    PollConserves(f, second);
    var g := f.(link := Polled(f.link, second));
    assert NoticeLast(g) == g;
  }

  predicate ResetsUart(s: UartState, step: UartStep) {
    step.PortWrite? && step.register % 2 == 1 && s.control.init == CommandNext && HasBit(step.value, 0x40)
  }

  ghost predicate NeverResets(s: UartState, steps: seq<UartStep>)
    decreases steps
  {
    steps == [] || (!ResetsUart(s, steps[0]) && NeverResets(Stepped(s, steps[0]), steps[1..]))
  }

  lemma {:induction false} StepAppends(s: UartState, step: UartStep)
    requires !Drops(s, step) && !ResetsUart(s, step)
    ensures Stepped(s, step).tx.completed == s.tx.completed + Completes(s, step)
  {
    match step
    case TxClock =>
      if s.control.Break() || s.tx.clockCount + 1 < BaudFactor(s.control.mode) {
      } else {
        AdvanceAppends(s.tx.(clockCount := 0), s.sync, s.control.mode, s.control.Sending());
      }
    case RxClock => ReceivingKeepsTx(s);
    case PortWrite(register, value) =>
    case PortRead(register) =>
  }

  lemma {:induction false} AdvanceAppends(tx: Transmitter, u: SyncUnit, mode: byte, sending: bool)
    ensures AdvanceTransmitter(tx, u, mode, sending).0.completed == Finished(tx).completed
  {
  }

  /** A run without a reset appends exactly the completed payloads to the queue, in order. */
  lemma {:induction false} RunAppends(s: UartState, steps: seq<UartStep>)
    requires NeverDrops(s, steps) && NeverResets(s, steps)
    ensures AfterSteps(s, steps).tx.completed == s.tx.completed + Completed(s, steps)
    decreases steps
  {
    if steps != [] {
      StepAppends(s, steps[0]);
      RunAppends(Stepped(s, steps[0]), steps[1..]);
    }
  }

  /** No disconnection and no reset during this turn. */
  ghost predicate Undisturbed(f: Front, turn: Turn)
    requires Possible(f.overrun, turn.work)
  {
    && turn.before.0.up && turn.before.1.up && turn.after.0.up && turn.after.1.up && !turn.reset
    && var g := Pumped(f, turn.before); NeverResets(g.pump.uart, Steps(g, turn.work))
  }

  ghost predicate AllUndisturbed(f: Front, turns: seq<Turn>)
    requires AllPossible(f, turns)
    decreases turns
  {
    turns == [] || (Undisturbed(f, turns[0]) && AllUndisturbed(Turned(f, turns[0]), turns[1..]))
  }

  /** The payloads completed during a turn. */
  function Made(f: Front, turn: Turn): seq<byte>
    requires Possible(f.overrun, turn.work)
  {
    var g := Pumped(f, turn.before);
    Completed(g.pump.uart, Steps(g, turn.work))
  }

  function Produced(f: Front, turns: seq<Turn>): seq<byte>
    requires AllPossible(f, turns)
    decreases turns
  {
    if turns == [] then [] else Made(f, turns[0]) + Produced(Turned(f, turns[0]), turns[1..])
  }

  /** A pump with a connection at both ends. */
  predicate Up(p: Pump) {
    p.connected && p.link.connected
  }

  lemma {:induction false} RunKeeps(p: Pump, steps: seq<UartStep>)
    requires Drained(p) && TxClocks(steps) <= MAXIMUM_EDGES && Up(p)
    requires NeverResets(p.uart, steps)
    ensures Keeps(p, p.(uart := AfterSteps(p.uart, steps)), Completed(p.uart, steps))
  {
    RunKeepsBound(p, steps);
    RunAppends(p.uart, steps);
    var q := p.(uart := AfterSteps(p.uart, steps));
    assert Outward(q) == Outward(p) + Completed(p.uart, steps);
  }

  lemma {:induction false} TurnKeeps(f: Front, turn: Turn)
    requires Good(f) && Up(f.pump) && Possible(f.overrun, turn.work) && Undisturbed(f, turn)
    ensures Keeps(f.pump, Turned(f, turn).pump, Made(f, turn))
  {
    var g := Pumped(f, turn.before);
    SynchronizingConserves(f.pump, turn.before.0, turn.before.1);
    SynchronizingDrains(f.pump, turn.before.0, turn.before.1);
    RunIsBounded(g, turn.work);
    RunKeeps(g.pump, Steps(g, turn.work));
    RunKeepsBound(g.pump, Steps(g, turn.work));
    var h := Ran(g, turn.work);
    SynchronizingConserves(h.pump, turn.after.0, turn.after.1);
    var made := Made(f, turn);
    KeepsTwice(f.pump, g.pump, h.pump, [], made);
    KeepsTwice(f.pump, h.pump, Turned(f, turn).pump, [] + made, []);
    assert ([] + made) + [] == made;
  }

  /** While one connection lasts and nothing is reset, accepted ++ pending ++ queued equals what
      was there before followed by every payload completed since, in order. */
  lemma {:induction false} StreamIsKept(f: Front, turns: seq<Turn>)
    requires Good(f) && Up(f.pump) && AllPossible(f, turns) && AllUndisturbed(f, turns)
    ensures var q := AfterTurns(f, turns).pump;
            Up(q) && Outward(q) == Outward(f.pump) + Produced(f, turns) && Inward(f.pump) <= Inward(q)
    decreases turns
  {
    if turns != [] {
      var turn, rest := turns[0], turns[1..];
      TurnIsGood(f, turn);
      TurnKeeps(f, turn);
      var g := Turned(f, turn);
      StreamIsKept(g, rest);
      KeepsTwice(f.pump, g.pump, AfterTurns(g, rest).pump, Made(f, turn), Produced(g, rest));
    }
  }
}
