/** The time line of the machine: cycles, master ticks, frames and the 1 MHz timer clock, and how
    a request for cycles is turned into time steps around the port accesses of instructions. */
module MachineTime {
  import opened Bytes

  const TICKS_PER_CYCLE: nat := 3
  const TICKS_PER_TIMER_CLOCK: nat := 12
  const TICKS_PER_FRAME: nat := 240_000
  const CYCLES_PER_FRAME: nat := 80_000

  datatype Clock = Clock(cycles: nat, ticks: nat, frameTicks: nat, frames: nat, timerTicks: nat)

  const CLOCK_RESET := Clock(0, 0, 0, 0, 0)

  /** Nothing drifts: the accumulators are exactly what is left over. */
  predicate InStep(c: Clock) {
    && c.ticks == TICKS_PER_CYCLE * c.cycles
    && c.frames * TICKS_PER_FRAME + c.frameTicks == c.ticks && c.frameTicks < TICKS_PER_FRAME
    && c.timerTicks == c.ticks % TICKS_PER_TIMER_CLOCK
  }

  function Later(c: Clock, cycles: nat): Clock {
    var ticks := cycles * TICKS_PER_CYCLE;
    Clock(c.cycles + cycles, c.ticks + ticks, (c.frameTicks + ticks) % TICKS_PER_FRAME,
          c.frames + (c.frameTicks + ticks) / TICKS_PER_FRAME, (c.timerTicks + ticks) % TICKS_PER_TIMER_CLOCK)
  }

  /** Clock pulses of counters 1 and 0 in a span of time. */
  function TimerClocks(c: Clock, cycles: nat): nat {
    (c.timerTicks + cycles * TICKS_PER_CYCLE) / TICKS_PER_TIMER_CLOCK
  }

  function FramesDone(c: Clock, cycles: nat): nat {
    (c.frameTicks + cycles * TICKS_PER_CYCLE) / TICKS_PER_FRAME
  }

  lemma {:induction false} StaysInStep(c: Clock, cycles: nat)
    requires InStep(c)
    ensures InStep(Later(c, cycles))
    ensures TimerClocks(c, cycles) == Later(c, cycles).ticks / TICKS_PER_TIMER_CLOCK - c.ticks / TICKS_PER_TIMER_CLOCK
    ensures FramesDone(c, cycles) == Later(c, cycles).frames - c.frames
  {
    SplitDivision(c.ticks, cycles * TICKS_PER_CYCLE, TICKS_PER_TIMER_CLOCK);
  }

  /** By numbers: three master ticks to a cycle, a pulse of the timers every twelve ticks, and a frame every
      240,000, all counted from the beginning. */
  lemma {:induction false} Rates(c: Clock, cycles: nat)
    requires InStep(c)
    ensures var d := Later(c, cycles);
            && d.cycles == c.cycles + cycles && d.ticks == 3 * d.cycles && d.frames == 3 * d.cycles / 240_000
            && TimerClocks(c, cycles) == 3 * d.cycles / 12 - 3 * c.cycles / 12
            && FramesDone(c, cycles) == 3 * d.cycles / 240_000 - 3 * c.cycles / 240_000
  {
    StaysInStep(c, cycles);
    var d := Later(c, cycles);
    DivModUnique(c.ticks, 240_000, c.frames, c.frameTicks);
    DivModUnique(d.ticks, 240_000, d.frames, d.frameTicks);
  }

  /** The remainder carries all that matters from one division to the next. */
  lemma {:induction false} SplitDivision(a: nat, b: nat, d: nat)
    requires d > 0
    ensures (a + b) / d == a / d + (a % d + b) / d && (a + b) % d == (a % d + b) % d
  {
    var q, r := (a % d + b) / d, (a % d + b) % d;
    assert a + b == (a / d + q) * d + r;
    DivModUnique(a + b, d, a / d + q, r);
  }

  /** Time may be cut anywhere. */
  lemma {:induction false} LaterTwice(c: Clock, a: nat, b: nat)
    requires InStep(c)
    ensures Later(Later(c, a), b) == Later(c, a + b)
    ensures TimerClocks(c, a) + TimerClocks(Later(c, a), b) == TimerClocks(c, a + b)
    ensures FramesDone(c, a) + FramesDone(Later(c, a), b) == FramesDone(c, a + b)
  {
    StaysInStep(c, a);
    StaysInStep(Later(c, a), b);
    StaysInStep(c, a + b);
    var d, e := Later(Later(c, a), b), Later(c, a + b);
    DivModUnique(d.ticks, TICKS_PER_FRAME, d.frames, d.frameTicks);
    DivModUnique(e.ticks, TICKS_PER_FRAME, e.frames, e.frameTicks);
  }

  // ---------------------------------------------------------------- instructions

  /** A port access, at an offset in cycles from the start of its instruction. */
  datatype Access = Access(offset: nat, port: nat, output: bool, value: byte)

  /** What one call of the processor does: its port accesses and the cycles it took. */
  datatype Instruction = Instruction(accesses: seq<Access>, executed: nat)

  /** The environment assumption on the processor. */
  predicate Sane(i: Instruction) {
    i.executed >= 1 && forall k :: 0 <= k < |i.accesses| ==> i.accesses[k].offset <= i.executed
  }

  datatype Op = Pass(cycles: nat) | Perform(access: Access)

  function CyclesIn(ops: seq<Op>): nat {
    if ops == [] then 0 else (if ops[0].Pass? then ops[0].cycles else 0) + CyclesIn(ops[1..])
  }

  lemma {:induction false} CyclesConcat(a: seq<Op>, b: seq<Op>)
    ensures CyclesIn(a + b) == CyclesIn(a) + CyclesIn(b)
    decreases a
  {
    if a == [] {
      assert a + b == b;
    } else {
      assert (a + b)[1..] == a[1..] + b;
      CyclesConcat(a[1..], b);
    }
  }

  /** Time is brought up to an offset. */
  function UpTo(offset: nat, synchronized: nat): seq<Op> {
    if offset > synchronized then [Pass(offset - synchronized)] else []
  }

  lemma {:induction false} UpToIsPass(offset: nat, synchronized: nat)
    requires offset > synchronized
    ensures UpTo(offset, synchronized) == [Pass(offset - synchronized)]
  {
  }

  function Latest(offset: nat, synchronized: nat): nat {
    if offset > synchronized then offset else synchronized
  }

  /** Up to each access, and to the end of the instruction. */
  function OpsFrom(i: Instruction, k: nat, synchronized: nat): (ops: seq<Op>)
    requires k <= |i.accesses|
    decreases |i.accesses| - k
  {
    if k == |i.accesses| then UpTo(i.executed, synchronized)
    else
      var a := i.accesses[k];
      UpTo(a.offset, synchronized) + ([Perform(a)] + OpsFrom(i, k + 1, Latest(a.offset, synchronized)))
  }

  /** Up to an access, and the access. */
  function AccessInTurn(a: Access, synchronized: nat): seq<Op> {
    UpTo(a.offset, synchronized) + [Perform(a)]
  }

  /** The accesses before the `k`th have been served by `done`. */
  ghost predicate Served(i: Instruction, k: nat, synchronized: nat, done: seq<Op>) {
    k <= |i.accesses| && OpsFrom(i, 0, 0) == done + OpsFrom(i, k, synchronized)
  }

  lemma {:induction false} ServeNext(i: Instruction, k: nat, synchronized: nat, done: seq<Op>)
    requires Served(i, k, synchronized, done) && k < |i.accesses|
    ensures var a := i.accesses[k];
            Served(i, k + 1, Latest(a.offset, synchronized), done + AccessInTurn(a, synchronized))
  {
    var a := i.accesses[k];
    var rest := OpsFrom(i, k + 1, Latest(a.offset, synchronized));
    assert done + (UpTo(a.offset, synchronized) + ([Perform(a)] + rest)) == (done + AccessInTurn(a, synchronized)) + rest;
  }

  lemma {:induction false} UpToTakes(offset: nat, synchronized: nat)
    ensures CyclesIn(UpTo(offset, synchronized)) == Latest(offset, synchronized) - synchronized
  {
    assert UpTo(offset, synchronized) != [] ==> UpTo(offset, synchronized)[1..] == [];
  }

  /** The steps of an instruction add up to the cycles it took. */
  lemma {:induction false} InstructionTakesItsCycles(i: Instruction, k: nat, synchronized: nat)
    requires Sane(i) && k <= |i.accesses| && synchronized <= i.executed
    ensures CyclesIn(OpsFrom(i, k, synchronized)) == i.executed - synchronized
    decreases |i.accesses| - k
  {
    if k == |i.accesses| {
      UpToTakes(i.executed, synchronized);
    } else {
      var a := i.accesses[k];
      var now := Latest(a.offset, synchronized);
      var rest := OpsFrom(i, k + 1, now);
      UpToTakes(a.offset, synchronized);
      InstructionTakesItsCycles(i, k + 1, now);
      CyclesConcat(UpTo(a.offset, synchronized), [Perform(a)] + rest);
      assert ([Perform(a)] + rest)[1..] == rest;
    }
  }

  /** The accesses are in the order of their offsets. */
  predicate InTurn(i: Instruction) {
    forall j: nat, k: nat :: j <= k < |i.accesses| ==> i.accesses[j].offset <= i.accesses[k].offset
  }

  /** The access stands in these steps once so many cycles have passed, with so many accesses before it. */
  ghost predicate Performs(ops: seq<Op>, access: Access, cycles: nat, earlier: nat) {
    exists before: seq<Op>, after: seq<Op> ::
      ops == before + [Perform(access)] + after && CyclesIn(before) == cycles && AccessesIn(before) == earlier
  }

  function AccessesIn(ops: seq<Op>): nat {
    if ops == [] then 0 else (if ops[0].Perform? then 1 else 0) + AccessesIn(ops[1..])
  }

  lemma {:induction false} AccessesConcat(a: seq<Op>, b: seq<Op>)
    ensures AccessesIn(a + b) == AccessesIn(a) + AccessesIn(b)
    decreases a
  {
    if a == [] {
      assert a + b == b;
    } else {
      assert (a + b)[1..] == a[1..] + b;
      AccessesConcat(a[1..], b);
    }
  }

  /** Up to the `k`th access. */
  lemma {:induction false} ServedInTime(i: Instruction, k: nat, synchronized: nat, done: seq<Op>)
    requires InTurn(i) && k < |i.accesses| && Served(i, k, synchronized, done)
    requires synchronized <= i.accesses[k].offset && CyclesIn(done) == synchronized && AccessesIn(done) == k
    ensures var a := i.accesses[k];
            && Performs(OpsFrom(i, 0, 0), a, a.offset, k)
            && Served(i, k + 1, a.offset, done + AccessInTurn(a, synchronized))
            && CyclesIn(done + AccessInTurn(a, synchronized)) == a.offset
            && AccessesIn(done + AccessInTurn(a, synchronized)) == k + 1
  {
    var a := i.accesses[k];
    ServeNext(i, k, synchronized, done);
    UpToTakes(a.offset, synchronized);
    var up := UpTo(a.offset, synchronized);
    assert up != [] ==> up[1..] == [];
    assert AccessesIn(up) == 0;
    CyclesConcat(done, up);
    AccessesConcat(done, up);
    CyclesConcat(done + up, [Perform(a)]);
    AccessesConcat(done + up, [Perform(a)]);
    assert [Perform(a)][1..] == [];
    assert done + AccessInTurn(a, synchronized) == (done + up) + [Perform(a)];
    var rest := OpsFrom(i, k + 1, Latest(a.offset, synchronized));
    assert OpsFrom(i, 0, 0) == (done + up) + [Perform(a)] + rest;
  }

  /** What served the accesses before the `k`th. */
  ghost predicate ServedBy(i: Instruction, k: nat, synchronized: nat, done: seq<Op>) {
    && k <= |i.accesses| && Served(i, k, synchronized, done) && CyclesIn(done) == synchronized && AccessesIn(done) == k
    && synchronized == if k == 0 then 0 else i.accesses[k - 1].offset
  }

  lemma {:induction false} ServedUpTo(i: Instruction, k: nat) returns (synchronized: nat, done: seq<Op>)
    requires InTurn(i) && k <= |i.accesses|
    ensures ServedBy(i, k, synchronized, done)
  {
    if k == 0 {
      synchronized, done := 0, [];
      assert OpsFrom(i, 0, 0) == [] + OpsFrom(i, 0, 0);
    } else {
      var s, d := ServedUpTo(i, k - 1);
      var a := i.accesses[k - 1];
      ServedInTime(i, k - 1, s, d);
      synchronized, done := a.offset, d + AccessInTurn(a, s);
    }
  }

  /** Every access of an instruction is made when as many cycles have passed as its offset says, and after
      the accesses before it. */
  lemma {:induction false} AccessesInTime(i: Instruction, k: nat)
    requires InTurn(i) && k < |i.accesses|
    ensures Performs(OpsFrom(i, 0, 0), i.accesses[k], i.accesses[k].offset, k)
  {
    var s, d := ServedUpTo(i, k);
    ServedInTime(i, k, s, d);
  }

  // ---------------------------------------------------------------- runs

  /** The steps of a request for `remaining` cycles, the cycles run too far, and the number of
      instructions. */
  datatype Outcome = Outcome(ops: seq<Op>, overrun: nat, used: nat)

  function Instructions(remaining: nat, instructions: seq<Instruction>): Outcome
    decreases instructions
  {
    if remaining == 0 || instructions == [] then Outcome([], 0, 0)
    else
      var i := instructions[0];
      if i.executed >= remaining then Outcome(OpsFrom(i, 0, 0), i.executed - remaining, 1)
      else
        var rest := Instructions(remaining - i.executed, instructions[1..]);
        Outcome(OpsFrom(i, 0, 0) + rest.ops, rest.overrun, rest.used + 1)
  }

  /** Instructions have been used for `done`, and what the remaining cycles need completes the
      request. */
  ghost predicate Progress(cycles: nat, instructions: seq<Instruction>, done: seq<Op>, used: nat,
                           remaining: nat, overrun: nat) {
    match Instructions(cycles, instructions)
    case Outcome(ops, wholeOverrun, wholeUsed) =>
      && used + remaining <= |instructions| && (remaining != 0 ==> overrun == 0)
      && var rest := Instructions(remaining, instructions[used..]);
         && ops == done + rest.ops && wholeUsed == used + rest.used
         && wholeOverrun == if remaining == 0 then overrun else rest.overrun
  }

  lemma {:induction false} ProgressStart(cycles: nat, instructions: seq<Instruction>)
    requires cycles <= |instructions|
    ensures Progress(cycles, instructions, [], 0, cycles, 0)
  {
    assert instructions[0..] == instructions;
  }

  lemma {:induction false} ProgressStep(cycles: nat, instructions: seq<Instruction>, done: seq<Op>,
                                        used: nat, remaining: nat, overrun: nat, i: Instruction)
    requires Progress(cycles, instructions, done, used, remaining, overrun) && remaining != 0
    requires i == instructions[used] && Sane(i)
    ensures Progress(cycles, instructions, done + OpsFrom(i, 0, 0), used + 1,
                     if i.executed >= remaining then 0 else remaining - i.executed,
                     if i.executed >= remaining then i.executed - remaining else 0)
  {
    var left := instructions[used..];
    assert left[1..] == instructions[used + 1..];
    if i.executed >= remaining {
      assert done + OpsFrom(i, 0, 0) == (done + OpsFrom(i, 0, 0)) + [];
    } else {
      var later := Instructions(remaining - i.executed, left[1..]).ops;
      assert done + (OpsFrom(i, 0, 0) + later) == (done + OpsFrom(i, 0, 0)) + later;
    }
  }

  lemma {:induction false} ProgressEnd(cycles: nat, instructions: seq<Instruction>, done: seq<Op>, used: nat, overrun: nat)
    requires Progress(cycles, instructions, done, used, 0, overrun)
    ensures Instructions(cycles, instructions) == Outcome(done, overrun, used)
  {
  }

  function Run(overrun: nat, cycles: nat, instructions: seq<Instruction>): Outcome {
    if cycles <= overrun then Outcome([], overrun - cycles, 0) else Instructions(cycles - overrun, instructions)
  }

  predicate AllSane(instructions: seq<Instruction>) {
    forall k :: 0 <= k < |instructions| ==> Sane(instructions[k])
  }

  lemma {:induction false} InstructionsAccount(remaining: nat, instructions: seq<Instruction>, longest: nat)
    requires AllSane(instructions) && remaining <= |instructions|
    requires forall k :: 0 <= k < |instructions| ==> instructions[k].executed <= longest
    ensures var o := Instructions(remaining, instructions);
            && CyclesIn(o.ops) == remaining + o.overrun && o.used <= |instructions|
            && (o.overrun < longest || o.overrun == 0)
    decreases instructions
  {
    if remaining != 0 {
      var i := instructions[0];
      InstructionTakesItsCycles(i, 0, 0);
      if i.executed < remaining {
        var rest := instructions[1..];
        InstructionsAccount(remaining - i.executed, rest, longest);
        CyclesConcat(OpsFrom(i, 0, 0), Instructions(remaining - i.executed, rest).ops);
      }
    }
  }

  /** Requested cycles and overrun account for every cycle that passes. */
  lemma {:induction false} RunAccounts(overrun: nat, cycles: nat, instructions: seq<Instruction>, longest: nat)
    requires AllSane(instructions) && cycles <= |instructions|
    requires forall k :: 0 <= k < |instructions| ==> instructions[k].executed <= longest
    ensures var o := Run(overrun, cycles, instructions);
            CyclesIn(o.ops) + overrun == cycles + o.overrun && (o.overrun < longest || o.overrun <= overrun)
  {
    if cycles > overrun {
      InstructionsAccount(cycles - overrun, instructions, longest);
    }
  }

  // ---------------------------------------------------------------- the timer clock of a run

  function ClockAfter(c: Clock, ops: seq<Op>): Clock
    decreases ops
  {
    if ops == [] then c else ClockAfter(if ops[0].Pass? then Later(c, ops[0].cycles) else c, ops[1..])
  }

  /** All pulses counter 1 gets during the steps. */
  function TimerClocksOf(c: Clock, ops: seq<Op>): nat
    decreases ops
  {
    if ops == [] then 0
    else if ops[0].Pass? then TimerClocks(c, ops[0].cycles) + TimerClocksOf(Later(c, ops[0].cycles), ops[1..])
    else TimerClocksOf(c, ops[1..])
  }

  /** How a run is cut into steps does not matter to the time line. */
  lemma {:induction false} OpsAreOneStep(c: Clock, ops: seq<Op>)
    requires InStep(c)
    ensures ClockAfter(c, ops) == Later(c, CyclesIn(ops))
    ensures TimerClocksOf(c, ops) == TimerClocks(c, CyclesIn(ops))
    decreases ops
  {
    if ops == [] {
    } else if ops[0].Pass? {
      StaysInStep(c, ops[0].cycles);
      OpsAreOneStep(Later(c, ops[0].cycles), ops[1..]);
      LaterTwice(c, ops[0].cycles, CyclesIn(ops[1..]));
    } else {
      OpsAreOneStep(c, ops[1..]);
    }
  }

  /** Over any sequence of requests the cycle counter is the sum of the requests and the overrun;
      ticks, frames and timer clocks follow from it alone. */
  lemma {:induction false} RequestsAccount(c: Clock, overrun: nat, requested: nat, cycles: nat,
                                           instructions: seq<Instruction>, longest: nat)
    requires InStep(c) && c.cycles == requested + overrun
    requires AllSane(instructions) && cycles <= |instructions|
    requires forall k :: 0 <= k < |instructions| ==> instructions[k].executed <= longest
    ensures var o := Run(overrun, cycles, instructions);
            var d := ClockAfter(c, o.ops);
            InStep(d) && d.cycles == requested + cycles + o.overrun
  {
    RunAccounts(overrun, cycles, instructions, longest);
    OpsAreOneStep(c, Run(overrun, cycles, instructions).ops);
    StaysInStep(c, CyclesIn(Run(overrun, cycles, instructions).ops));
  }

  /** The offset the processor interface reports is a byte. */
  const LONGEST_INSTRUCTION: nat := 255

  /** Instructions of up to 255 cycles: one frame's request gives counter 1 at most 20,064
      pulses, the number on which the flow control of the serial line relies. */
  lemma {:induction false} FrameClocksAreBounded(c: Clock, overrun: nat, instructions: seq<Instruction>)
    requires InStep(c) && overrun < LONGEST_INSTRUCTION
    requires AllSane(instructions) && CYCLES_PER_FRAME <= |instructions|
    requires forall k :: 0 <= k < |instructions| ==> instructions[k].executed <= LONGEST_INSTRUCTION
    ensures var o := Run(overrun, CYCLES_PER_FRAME, instructions);
            && TimerClocksOf(c, o.ops) <= 20_064 && o.overrun < LONGEST_INSTRUCTION && InStep(ClockAfter(c, o.ops))
  {
    var cycles := CYCLES_PER_FRAME;
    RunAccounts(overrun, cycles, instructions, LONGEST_INSTRUCTION);
    OpsAreOneStep(c, Run(overrun, cycles, instructions).ops);
    StaysInStep(c, CyclesIn(Run(overrun, cycles, instructions).ops));
  }
}
