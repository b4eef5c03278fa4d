/** The mouse encoder: host motion is queued and played back as quadrature edges on PD0-PD3, one
    edge per millisecond at most, the two axes taking turns. */
module Mouse {
  import opened Bytes

  const EDGE_INTERVAL_TICKS: nat := 12_000
  const PENDING_LIMIT: int := 1_000_000

  datatype Axis = Axis(phase: nat, pending: int)

  datatype MouseState = MouseState(signals: byte, latch: bool, x: Axis, y: Axis, accumulator: nat, yNext: bool)
  {
    predicate Pending() { x.pending != 0 || y.pending != 0 }

    predicate Contended() { x.pending != 0 && y.pending != 0 }

    predicate Due() { accumulator >= EDGE_INTERVAL_TICKS && Pending() }
  }

  /** What leaves the encoder: an edge of one axis, or a button. */
  datatype Event =
    | Edge(vertical: bool, contended: bool, signals: byte)
    | Button(signals: byte)

  // ---------------------------------------------------------------- quadrature

  function QuadratureState(phase: nat): (state: nat)
    requires phase < 4
    ensures state < 4 && QuadraturePhase(state) == phase
  {
    match phase case 0 => 0 case 1 => 1 case 2 => 3 case _ => 2
  }

  function QuadraturePhase(state: nat): (phase: nat)
    ensures phase < 4
  {
    match state case 1 => 1 case 3 => 2 case 2 => 3 case _ => 0
  }

  /** What a decoder makes of two successive phases. */
  function DecodedStep(before: nat, after: nat): int {
    if after == (before + 1) % 4 then 1 else if after == (before + 3) % 4 then -1 else 0
  }

  function XPhase(signals: byte): nat { QuadraturePhase(signals % 4) }

  function YPhase(signals: byte): nat { QuadraturePhase(signals / 4 % 4) }

  /** The phases agree with the signals. */
  predicate Coherent(m: MouseState) {
    m.x.phase == XPhase(m.signals) && m.y.phase == YPhase(m.signals)
  }

  // ---------------------------------------------------------------- the encoder

  function Clamped(value: int): int {
    if value < -PENDING_LIMIT then -PENDING_LIMIT else if value > PENDING_LIMIT then PENDING_LIMIT else value
  }

  function Updated(m: MouseState, signals: byte, enabled: bool): MouseState {
    m.(signals := signals, latch := m.latch || (enabled && signals % 64 != m.signals % 64))
  }

  function Toward0(pending: int): int {
    if pending > 0 then pending - 1 else pending + 1
  }

  function Turned(axis: Axis, forward: nat): Axis {
    Axis((axis.phase + forward) % 4, Toward0(axis.pending))
  }

  /** The signals split into the two axes and the rest. */
  lemma {:induction false} SplitSignals(high: nat, y: nat, x: nat)
    requires high < 16 && y < 4 && x < 4
    ensures var s := high * 16 + y * 4 + x; s % 4 == x && s / 4 % 4 == y && s / 16 == high && s / 4 == high * 4 + y
  {
  }

  /** The signals with the state of one axis replaced. */
  function WithX(signals: byte, state: nat): (after: byte)
    requires state < 4
    ensures after % 4 == state && after / 4 == signals / 4 && after / 16 == signals / 16
  {
    signals / 4 * 4 + state
  }

  function WithY(signals: byte, state: nat): (after: byte)
    requires state < 4
    ensures after % 4 == signals % 4 && after / 4 % 4 == state && after / 16 == signals / 16
  {
    SplitSignals(signals / 16, state, signals % 4);
    signals / 16 * 16 + state * 4 + signals % 4
  }

  /** The horizontal encoder is mirrored: motion to the right turns it backwards. */
  function EdgeX(m: MouseState, enabled: bool): MouseState {
    var x := Turned(m.x, if m.x.pending > 0 then 3 else 1);
    Updated(m.(x := x), WithX(m.signals, QuadratureState(x.phase)), enabled)
  }

  function EdgeY(m: MouseState, enabled: bool): MouseState {
    var y := Turned(m.y, if m.y.pending > 0 then 1 else 3);
    Updated(m.(y := y), WithY(m.signals, QuadratureState(y.phase)), enabled)
  }

  predicate UsesY(m: MouseState) {
    m.x.pending == 0 || (m.Contended() && m.yNext)
  }

  /** One edge. */
  function Emitted(m: MouseState, enabled: bool): MouseState
    requires m.Due()
  {
    var n := m.(accumulator := m.accumulator - EDGE_INTERVAL_TICKS,
                yNext := if m.Contended() then !m.yNext else m.yNext);
    if UsesY(m) then EdgeY(n, enabled) else EdgeX(n, enabled)
  }

  function EdgeOf(m: MouseState, enabled: bool): Event
    requires m.Due()
  {
    Edge(UsesY(m), m.Contended(), Emitted(m, enabled).signals)
  }

  function Drained(m: MouseState, enabled: bool): MouseState
    decreases m.accumulator
  {
    if m.Due() then Drained(Emitted(m, enabled), enabled) else m
  }

  function DrainTrace(m: MouseState, enabled: bool): seq<Event>
    decreases m.accumulator
  {
    if m.Due() then [EdgeOf(m, enabled)] + DrainTrace(Emitted(m, enabled), enabled) else []
  }

  /** An idle encoder saves up no more than one edge interval. */
  function Rested(m: MouseState): MouseState {
    if !m.Pending() && m.accumulator > EDGE_INTERVAL_TICKS then m.(accumulator := EDGE_INTERVAL_TICKS) else m
  }

  function Later(m: MouseState, ticks: nat): MouseState {
    m.(accumulator := m.accumulator + ticks)
  }

  function Advanced(m: MouseState, ticks: nat, enabled: bool): MouseState {
    Rested(Drained(Later(m, ticks), enabled))
  }

  function Trace(m: MouseState, ticks: nat, enabled: bool): seq<Event> {
    DrainTrace(Later(m, ticks), enabled)
  }

  function Moved(m: MouseState, dx: int, dy: int): MouseState {
    m.(x := m.x.(pending := Clamped(m.x.pending + dx)), y := m.y.(pending := Clamped(m.y.pending + dy)))
  }

  /** Buttons are active low on PD4 and PD5. */
  function Pressed(m: MouseState, first: bool, pressed: bool, enabled: bool): MouseState {
    Updated(m, WithButton(m.signals, if first then 0x10 else 0x20, pressed), enabled)
  }

  /** All signals set at once: what was pending is forgotten. */
  function Replaced(m: MouseState, signals: byte, enabled: bool): MouseState {
    Updated(m.(x := Axis(XPhase(signals), 0), y := Axis(YPhase(signals), 0), accumulator := EDGE_INTERVAL_TICKS),
            signals, enabled)
  }

  /** The signals with one button line pulled low or released. */
  function WithButton(signals: byte, mask: byte, pressed: bool): byte
    requires mask > 0
  {
    if HasBit(signals, mask) != pressed then signals
    else if pressed then (signals - mask) % 256 else (signals + mask) % 256
  }

  // ---------------------------------------------------------------- one edge

  function Flips(a: byte, b: byte, mask: nat): nat
    requires mask > 0
  {
    if HasBit(a, mask) != HasBit(b, mask) then 1 else 0
  }

  /** Exactly one of PD0-PD3 differs, and nothing else. */
  predicate FlipsOne(a: byte, b: byte) {
    a / 16 == b / 16 && Flips(a, b, 1) + Flips(a, b, 2) + Flips(a, b, 4) + Flips(a, b, 8) == 1
  }

  lemma {:induction false} PhaseStep(state: nat, forward: nat)
    requires state < 4 && (forward == 1 || forward == 3)
    ensures var after := QuadratureState((QuadraturePhase(state) + forward) % 4);
            && DecodedStep(QuadraturePhase(state), QuadraturePhase(after)) == (if forward == 1 then 1 else -1)
            && Adjacent(state, after)
  {
    if state == 0 { } else if state == 1 { } else if state == 2 { } else { assert state == 3; }
  }

  /** What an edge does: one pulse of one axis, in the direction of the pending motion. */
  predicate IsEdge(m: MouseState, n: MouseState) {
    && Coherent(n)
    && FlipsOne(m.signals, n.signals)
    && m.x.pending == n.x.pending - DecodedStep(XPhase(m.signals), XPhase(n.signals))
    && m.y.pending == n.y.pending + DecodedStep(YPhase(m.signals), YPhase(n.signals))
    && n.accumulator + EDGE_INTERVAL_TICKS == m.accumulator
  }

  lemma {:induction false} LowBits(a: byte)
    ensures HasBit(a, 1) <==> a % 4 % 2 == 1
    ensures HasBit(a, 2) <==> a % 4 / 2 == 1
    ensures HasBit(a, 4) <==> a / 4 % 4 % 2 == 1
    ensures HasBit(a, 8) <==> a / 4 % 4 / 2 == 1
  {
    var n := a / 4;
    assert a == n * 4 + a % 4;
    assert n == n / 4 * 4 + n % 4;
    assert a / 2 == n * 2 + a % 4 / 2 && a / 8 == n / 4 * 2 + n % 4 / 2;
  }

  /** One bit of a two-bit state changes. */
  predicate Adjacent(a: nat, b: nat) {
    a % 2 != b % 2 <==> a / 2 == b / 2
  }

  lemma {:induction false} OneAxisFlips(a: byte, b: byte)
    requires a / 16 == b / 16
    requires (a % 4 == b % 4 && Adjacent(a / 4 % 4, b / 4 % 4)) || (a / 4 % 4 == b / 4 % 4 && Adjacent(a % 4, b % 4))
    ensures FlipsOne(a, b)
  {
    LowBits(a);
    LowBits(b);
  }

  lemma {:induction false} VerticalEdge(m: MouseState, enabled: bool)
    requires Coherent(m) && m.Due() && UsesY(m)
    ensures IsEdge(m, Emitted(m, enabled))
  {
    var n := Emitted(m, enabled);
    var y := m.signals / 4 % 4;
    PhaseStep(y, if m.y.pending > 0 then 1 else 3);
    OneAxisFlips(m.signals, n.signals);
  }

  lemma {:induction false} HorizontalEdge(m: MouseState, enabled: bool)
    requires Coherent(m) && m.Due() && !UsesY(m)
    ensures IsEdge(m, Emitted(m, enabled))
  {
    var n := Emitted(m, enabled);
    var x := m.signals % 4;
    PhaseStep(x, if m.x.pending > 0 then 3 else 1);
    OneAxisFlips(m.signals, n.signals);
  }

  lemma {:induction false} EveryEdge(m: MouseState, enabled: bool)
    requires Coherent(m) && m.Due()
    ensures IsEdge(m, Emitted(m, enabled))
  {
    if UsesY(m) {
      VerticalEdge(m, enabled);
    } else {
      HorizontalEdge(m, enabled);
    }
  }

  // ---------------------------------------------------------------- time

  lemma {:induction false} EmittedLater(m: MouseState, ticks: nat, enabled: bool)
    requires m.Due()
    ensures Later(m, ticks).Due()
    ensures Emitted(Later(m, ticks), enabled) == Later(Emitted(m, enabled), ticks)
    ensures EdgeOf(Later(m, ticks), enabled) == EdgeOf(m, enabled)
  {
  }

  lemma {:induction false} DrainLater(m: MouseState, ticks: nat, enabled: bool)
    ensures Drained(Later(m, ticks), enabled) == Drained(Later(Drained(m, enabled), ticks), enabled)
    ensures DrainTrace(Later(m, ticks), enabled)
         == DrainTrace(m, enabled) + DrainTrace(Later(Drained(m, enabled), ticks), enabled)
    decreases m.accumulator
  {
    if m.Due() {
      DrainLater(Emitted(m, enabled), ticks, enabled);
      EmittedLater(m, ticks, enabled);
    }
  }

  /** Two spans of time are one: the same edges, and the same state after them. */
  lemma {:induction false} AdvancedTwice(m: MouseState, a: nat, b: nat, enabled: bool)
    ensures Advanced(Advanced(m, a, enabled), b, enabled) == Advanced(m, a + b, enabled)
    ensures Trace(m, a, enabled) + Trace(Advanced(m, a, enabled), b, enabled) == Trace(m, a + b, enabled)
  {
    var first := Drained(Later(m, a), enabled);
    DrainLater(Later(m, a), b, enabled);
    assert Later(Later(m, a), b) == Later(m, a + b);
    if !first.Pending() {
      assert !Later(first, b).Due() && !Later(Rested(first), b).Due();
    }
  }

  // ---------------------------------------------------------------- runs

  datatype Operation =
    | Motion(dx: int, dy: int)
    | Time(ticks: nat)
    | Press(first: bool, pressed: bool)

  /** The interrupt enable is the processor's, and may change between operations. */
  datatype Op = Op(operation: Operation, enabled: bool)

  function After(m: MouseState, op: Op): MouseState {
    match op.operation
    case Motion(dx, dy) => Advanced(Moved(m, dx, dy), 0, op.enabled)
    case Time(ticks) => Advanced(m, ticks, op.enabled)
    case Press(first, pressed) => Pressed(m, first, pressed, op.enabled)
  }

  function Events(m: MouseState, op: Op): seq<Event> {
    match op.operation
    case Motion(dx, dy) => Trace(Moved(m, dx, dy), 0, op.enabled)
    case Time(ticks) => Trace(m, ticks, op.enabled)
    case Press(_, _) => [Button(After(m, op).signals)]
  }

  function AfterRun(m: MouseState, ops: seq<Op>): MouseState
    decreases ops
  {
    if ops == [] then m else AfterRun(After(m, ops[0]), ops[1..])
  }

  function RunEvents(m: MouseState, ops: seq<Op>): seq<Event>
    decreases ops
  {
    if ops == [] then [] else Events(m, ops[0]) + RunEvents(After(m, ops[0]), ops[1..])
  }

  // ---------------------------------------------------------------- the decoder

  /** What a decoder watching the port recovers from the trace. */
  function DecodedX(signals: byte, trace: seq<Event>): int
    decreases trace
  {
    if trace == [] then 0
    else DecodedX(trace[0].signals, trace[1..]) - DecodedStep(XPhase(signals), XPhase(trace[0].signals))
  }

  function DecodedY(signals: byte, trace: seq<Event>): int
    decreases trace
  {
    if trace == [] then 0
    else DecodedY(trace[0].signals, trace[1..]) + DecodedStep(YPhase(signals), YPhase(trace[0].signals))
  }

  /** Every edge of the trace flips exactly one of PD0-PD3. */
  predicate EdgesFlipOne(signals: byte, trace: seq<Event>)
    decreases trace
  {
    trace == [] || ((trace[0].Edge? ==> FlipsOne(signals, trace[0].signals))
                    && EdgesFlipOne(trace[0].signals, trace[1..]))
  }

  function LastSignals(signals: byte, trace: seq<Event>): byte {
    if trace == [] then signals else trace[|trace| - 1].signals
  }

  /** Edges emitted while both axes wait take turns, `vertical` telling whose turn it is. */
  predicate TakeTurns(vertical: bool, trace: seq<Event>)
    decreases trace
  {
    trace == [] ||
    if trace[0].Edge? && trace[0].contended then trace[0].vertical == vertical && TakeTurns(!vertical, trace[1..])
    else TakeTurns(vertical, trace[1..])
  }

  function TurnAfter(vertical: bool, trace: seq<Event>): bool
    decreases trace
  {
    if trace == [] then vertical
    else TurnAfter(if trace[0].Edge? && trace[0].contended then !vertical else vertical, trace[1..])
  }

  function EdgeCount(trace: seq<Event>): nat {
    if trace == [] then 0 else EdgeCount(trace[1..]) + if trace[0].Edge? then 1 else 0
  }

  /** Everything a trace from `m` to `n` has to satisfy, with `dx` and `dy` added on the way. */
  predicate Explains(m: MouseState, trace: seq<Event>, n: MouseState, dx: int, dy: int) {
    && Coherent(n)
    && n.signals == LastSignals(m.signals, trace)
    && m.x.pending + dx == n.x.pending + DecodedX(m.signals, trace)
    && m.y.pending + dy == n.y.pending + DecodedY(m.signals, trace)
    && EdgesFlipOne(m.signals, trace)
    && TakeTurns(m.yNext, trace) && n.yNext == TurnAfter(m.yNext, trace)
  }

  lemma {:induction false} TraceConcat(signals: byte, vertical: bool, a: seq<Event>, b: seq<Event>)
    ensures var last := LastSignals(signals, a);
            && DecodedX(signals, a + b) == DecodedX(signals, a) + DecodedX(last, b)
            && DecodedY(signals, a + b) == DecodedY(signals, a) + DecodedY(last, b)
            && (EdgesFlipOne(signals, a + b) <==> EdgesFlipOne(signals, a) && EdgesFlipOne(last, b))
            && LastSignals(signals, a + b) == LastSignals(last, b)
    ensures TakeTurns(vertical, a + b) <==> TakeTurns(vertical, a) && TakeTurns(TurnAfter(vertical, a), b)
    ensures TurnAfter(vertical, a + b) == TurnAfter(TurnAfter(vertical, a), b)
    ensures EdgeCount(a + b) == EdgeCount(a) + EdgeCount(b)
    decreases a
  {
    if a == [] {
      assert a + b == b;
    } else {
      assert (a + b)[1..] == a[1..] + b;
      TraceConcat(a[0].signals, if a[0].Edge? && a[0].contended then !vertical else vertical, a[1..], b);
    }
  }

  lemma {:induction false} ExplainsConcat(m: MouseState, a: seq<Event>, n: MouseState, b: seq<Event>, r: MouseState,
                       dx: int, dy: int, ex: int, ey: int)
    requires Explains(m, a, n, dx, dy) && Explains(n, b, r, ex, ey)
    ensures Explains(m, a + b, r, dx + ex, dy + ey)
  {
    TraceConcat(m.signals, m.yNext, a, b);
  }

  lemma {:induction false} DrainExplains(m: MouseState, enabled: bool)
    requires Coherent(m)
    ensures Explains(m, DrainTrace(m, enabled), Drained(m, enabled), 0, 0)
    decreases m.accumulator
  {
    if m.Due() {
      var n, e := Emitted(m, enabled), EdgeOf(m, enabled);
      EveryEdge(m, enabled);
      OneEdge(m, n, e);
      DrainExplains(n, enabled);
      ExplainsConcat(m, [e], n, DrainTrace(n, enabled), Drained(n, enabled), 0, 0, 0, 0);
    }
  }

  lemma {:induction false} StaysCoherent(m: MouseState, ticks: nat, enabled: bool)
    requires Coherent(m)
    ensures Coherent(Advanced(m, ticks, enabled))
  {
    DrainExplains(Later(m, ticks), enabled);
  }

  lemma {:induction false} OneEdge(m: MouseState, n: MouseState, e: Event)
    requires IsEdge(m, n) && m.Due() && e == Edge(UsesY(m), m.Contended(), n.signals)
    requires n.yNext == if m.Contended() then !m.yNext else m.yNext
    ensures Explains(m, [e], n, 0, 0)
  {
    var rest := [e][1..];
    assert rest == [];
    assert m.Contended() ==> UsesY(m) == m.yNext;
  }

  /** Signals that differ in the bits above the axes. */
  lemma {:induction false} SameAxes(a: byte, b: byte)
    requires a - b in {-32, -16, 0, 16, 32}
    ensures a % 4 == b % 4 && a / 4 % 4 == b / 4 % 4
  {
    assert a / 4 - b / 4 in {-8, -4, 0, 4, 8};
  }

  lemma {:induction false} ButtonKeepsAxes(m: MouseState, first: bool, pressed: bool, enabled: bool)
    requires Coherent(m)
    ensures var n := Pressed(m, first, pressed, enabled);
            Explains(m, [Button(n.signals)], n, 0, 0)
  {
    var n := Pressed(m, first, pressed, enabled);
    var rest := [Button(n.signals)][1..];
    assert rest == [];
    ButtonSignals(m, first, pressed, enabled);
  }

  lemma {:induction false} ButtonSignals(m: MouseState, first: bool, pressed: bool, enabled: bool)
    ensures var n := Pressed(m, first, pressed, enabled);
            n.signals % 4 == m.signals % 4 && n.signals / 4 % 4 == m.signals / 4 % 4
  {
    var value := Pressed(m, first, pressed, enabled).signals;
    ButtonMoves(m.signals, if first then 0x10 else 0x20, pressed);
    SameAxes(m.signals, value);
  }

  lemma {:induction false} ButtonMoves(signals: byte, mask: byte, pressed: bool)
    requires mask == 0x10 || mask == 0x20
    ensures WithButton(signals, mask, pressed) - signals in {-32, -16, 0, 16, 32}
  {
    if mask == 0x10 {
      assert !HasBit(signals, 0x10) ==> signals / 16 <= 14;
    } else {
      assert !HasBit(signals, 0x20) ==> signals / 32 <= 6;
    }
  }

  // ---------------------------------------------------------------- whole runs

  /** No motion of the run reaches the limit of the queue. */
  ghost predicate Unclamped(m: MouseState, ops: seq<Op>)
    decreases ops
  {
    ops == [] ||
    (&& (ops[0].operation.Motion? ==>
           var n := Moved(m, ops[0].operation.dx, ops[0].operation.dy);
           && n.x.pending == m.x.pending + ops[0].operation.dx
           && n.y.pending == m.y.pending + ops[0].operation.dy)
     && Unclamped(After(m, ops[0]), ops[1..]))
  }

  function TotalX(ops: seq<Op>): int {
    if ops == [] then 0
    else (if ops[0].operation.Motion? then ops[0].operation.dx else 0) + TotalX(ops[1..])
  }

  function TotalY(ops: seq<Op>): int {
    if ops == [] then 0
    else (if ops[0].operation.Motion? then ops[0].operation.dy else 0) + TotalY(ops[1..])
  }

  lemma {:induction false} OneOperation(m: MouseState, op: Op, dx: int, dy: int)
    requires Coherent(m) && Unclamped(m, [op])
    requires dx == (if op.operation.Motion? then op.operation.dx else 0)
    requires dy == (if op.operation.Motion? then op.operation.dy else 0)
    ensures Explains(m, Events(m, op), After(m, op), dx, dy)
  {
    match op.operation
    case Motion(_, _) => DrainExplains(Later(Moved(m, dx, dy), 0), op.enabled);
    case Time(ticks) => DrainExplains(Later(m, ticks), op.enabled);
    case Press(first, pressed) => ButtonKeepsAxes(m, first, pressed, op.enabled);
  }

  /** Motion is conserved: what was put in is what a decoder has recovered from the signals plus
      what is still pending, on each axis.  Every edge on the way flips exactly one signal, and
      the axes take turns. */
  lemma {:induction false} MotionIsConserved(m: MouseState, ops: seq<Op>)
    requires Coherent(m) && Unclamped(m, ops)
    ensures Explains(m, RunEvents(m, ops), AfterRun(m, ops), TotalX(ops), TotalY(ops))
    decreases ops
  {
    if ops != [] {
      var op, n := ops[0], After(m, ops[0]);
      var dx, dy := if op.operation.Motion? then op.operation.dx else 0, if op.operation.Motion? then op.operation.dy else 0;
      assert Unclamped(n, [op][1..]);
      OneOperation(m, op, dx, dy);
      MotionIsConserved(n, ops[1..]);
      ExplainsConcat(m, Events(m, op), n, RunEvents(n, ops[1..]), AfterRun(n, ops[1..]),
                     dx, dy, TotalX(ops[1..]), TotalY(ops[1..]));
    }
  }

  /** Turns are strict: of two edges emitted while both axes waited, with none such between them,
      one is vertical and the other horizontal. */
  lemma {:induction false} TurnsAlternate(vertical: bool, trace: seq<Event>, i: nat, j: nat)
    requires TakeTurns(vertical, trace) && i < j < |trace|
    requires trace[i].Edge? && trace[i].contended && trace[j].Edge? && trace[j].contended
    requires forall k :: i < k < j ==> !(trace[k].Edge? && trace[k].contended)
    ensures trace[i].vertical != trace[j].vertical
    decreases trace
  {
    if i > 0 {
      TurnsAlternate(if trace[0].Edge? && trace[0].contended then !vertical else vertical, trace[1..], i - 1, j - 1);
    } else {
      FirstTurn(!vertical, trace[1..], j - 1);
    }
  }

  lemma {:induction false} FirstTurn(vertical: bool, trace: seq<Event>, j: nat)
    requires TakeTurns(vertical, trace) && j < |trace| && trace[j].Edge? && trace[j].contended
    requires forall k :: 0 <= k < j ==> !(trace[k].Edge? && trace[k].contended)
    ensures trace[j].vertical == vertical
    decreases trace
  {
    if j > 0 {
      FirstTurn(vertical, trace[1..], j - 1);
    }
  }

  // ---------------------------------------------------------------- how many edges

  function TotalTicks(ops: seq<Op>): nat {
    if ops == [] then 0
    else (if ops[0].operation.Time? then ops[0].operation.ticks else 0) + TotalTicks(ops[1..])
  }

  lemma {:induction false} DrainCost(m: MouseState, enabled: bool)
    ensures EDGE_INTERVAL_TICKS * EdgeCount(DrainTrace(m, enabled)) + Drained(m, enabled).accumulator == m.accumulator
    decreases m.accumulator
  {
    if m.Due() {
      var n := Emitted(m, enabled);
      DrainCost(n, enabled);
      assert DrainTrace(m, enabled)[1..] == DrainTrace(n, enabled);
    }
  }

  lemma {:induction false} RunCost(m: MouseState, ops: seq<Op>)
    ensures EDGE_INTERVAL_TICKS * EdgeCount(RunEvents(m, ops)) + AfterRun(m, ops).accumulator
         <= m.accumulator + TotalTicks(ops)
    decreases ops
  {
    if ops != [] {
      var op, n := ops[0], After(m, ops[0]);
      match op.operation {
        case Motion(dx, dy) => DrainCost(Later(Moved(m, dx, dy), 0), op.enabled);
        case Time(ticks) => DrainCost(Later(m, ticks), op.enabled);
        case Press(_, _) => assert Events(m, op)[1..] == [];
      }
      RunCost(n, ops[1..]);
      TraceConcat(m.signals, false, Events(m, op), RunEvents(n, ops[1..]));
    }
  }

  /** Motion may come at any time, but `T` ticks emit at most `T / 12000 + 1` edges. */
  lemma {:induction false} EdgeRate(m: MouseState, ops: seq<Op>)
    requires m.accumulator <= EDGE_INTERVAL_TICKS
    ensures EdgeCount(RunEvents(m, ops)) <= TotalTicks(ops) / EDGE_INTERVAL_TICKS + 1
  {
    RunCost(m, ops);
  }

  lemma {:induction false} DrainStops(m: MouseState, enabled: bool)
    ensures !Drained(m, enabled).Due()
    decreases m.accumulator
  {
    if m.Due() {
      DrainStops(Emitted(m, enabled), enabled);
    }
  }

  /** The premise of the rate bound holds between any two operations. */
  lemma {:induction false} NothingSavedUp(m: MouseState, op: Op)
    requires m.accumulator <= EDGE_INTERVAL_TICKS
    ensures After(m, op).accumulator <= EDGE_INTERVAL_TICKS
  {
    match op.operation
    case Motion(dx, dy) => DrainStops(Later(Moved(m, dx, dy), 0), op.enabled);
    case Time(ticks) => DrainStops(Later(m, ticks), op.enabled);
    case Press(_, _) =>
  }

  /** The motion that is pending, on both axes. */
  function Queued(m: MouseState): nat {
    (if m.x.pending < 0 then -m.x.pending else m.x.pending) + if m.y.pending < 0 then -m.y.pending else m.y.pending
  }

  lemma {:induction false} EdgeTakesOne(m: MouseState, enabled: bool)
    requires m.Due()
    ensures Queued(m) > 0 && Queued(Emitted(m, enabled)) == Queued(m) - 1
  {
  }

  lemma {:induction false} DrainTakes(m: MouseState, enabled: bool)
    ensures EdgeCount(DrainTrace(m, enabled)) == Min(Queued(m), m.accumulator / 12_000)
    ensures Queued(Drained(m, enabled)) == Queued(m) - Min(Queued(m), m.accumulator / 12_000)
    decreases m.accumulator
  {
    if m.Due() {
      var n := Emitted(m, enabled);
      EdgeTakesOne(m, enabled);
      DrainTakes(n, enabled);
      assert DrainTrace(m, enabled)[1..] == DrainTrace(n, enabled);
      assert n.accumulator / 12_000 == m.accumulator / 12_000 - 1;
    }
  }

  /** What is pending gets out: one edge for every 12,000 ticks, until nothing is left. */
  lemma {:induction false} MotionComesOut(m: MouseState, ticks: nat, enabled: bool)
    ensures var edges := Min(Queued(m), (m.accumulator + ticks) / 12_000);
            EdgeCount(Trace(m, ticks, enabled)) == edges && Queued(Advanced(m, ticks, enabled)) == Queued(m) - edges
  {
    DrainTakes(Later(m, ticks), enabled);
  }

  /** Motion is added to what is pending, up to a million counts each way. */
  lemma {:induction false} MotionIsClamped(m: MouseState, dx: int, dy: int)
    ensures var n := Moved(m, dx, dy);
            && -1_000_000 <= n.x.pending <= 1_000_000 && -1_000_000 <= n.y.pending <= 1_000_000
            && (-1_000_000 <= m.x.pending + dx <= 1_000_000 ==> n.x.pending == m.x.pending + dx)
            && (-1_000_000 <= m.y.pending + dy <= 1_000_000 ==> n.y.pending == m.y.pending + dy)
  {
  }

  lemma {:induction false} SameByte(a: byte, b: byte)
    requires a / 16 == b / 16 && a % 64 == b % 64
    ensures a == b
  {
    assert a / 64 == a / 16 / 4 && b / 64 == b / 16 / 4;
    assert a == a / 64 * 64 + a % 64 && b == b / 64 * 64 + b % 64;
  }

  lemma {:induction false} FlipChanges(a: byte, b: byte)
    requires FlipsOne(a, b)
    ensures a % 64 != b % 64
  {
    if a % 64 == b % 64 {
      SameByte(a, b);
    }
  }

  /** The interrupt latch is set exactly by edges that come while it is enabled. */
  lemma {:induction false} LatchFollowsEdges(m: MouseState, enabled: bool)
    requires Coherent(m)
    ensures Drained(m, enabled).latch <==> m.latch || (enabled && DrainTrace(m, enabled) != [])
    decreases m.accumulator
  {
    if m.Due() {
      var n := Emitted(m, enabled);
      EveryEdge(m, enabled);
      LatchFollowsEdges(n, enabled);
      FlipChanges(m.signals, n.signals);
    }
  }

  // ---------------------------------------------------------------- the encoder as an object

  const MOUSE_AT_POWER_UP := MouseState(0x30, false, Axis(0, 0), Axis(0, 0), EDGE_INTERVAL_TICKS, false)

  class MouseEncoder {
    var signals: byte
    var interruptLatch: bool
    var x: Axis
    var y: Axis
    var edgeTickAccumulator: nat
    var yNext: bool

    ghost function State(): MouseState
      reads this
    {
      MouseState(signals, interruptLatch, x, y, edgeTickAccumulator, yNext)
    }

    constructor ()
      ensures State() == MOUSE_AT_POWER_UP && Coherent(State())
    {
      signals, interruptLatch, x, y := 0x30, false, Axis(0, 0), Axis(0, 0);
      edgeTickAccumulator, yNext := EDGE_INTERVAL_TICKS, false;
    }

    method ClearLatch()
      modifies this`interruptLatch
      ensures State() == old(State()).(latch := false)
    {
      interruptLatch := false;
    }

    method SetSignals(value: byte, enabled: bool)
      modifies this
      ensures State() == Replaced(old(State()), value, enabled) && Coherent(State())
    {
      x := Axis(QuadraturePhase(value % 4), 0);
      y := Axis(QuadraturePhase(value / 4 % 4), 0);
      edgeTickAccumulator := EDGE_INTERVAL_TICKS;
      UpdateSignals(value, enabled);
    }

    method SetButton(first: bool, pressed: bool, enabled: bool)
      modifies this`signals, this`interruptLatch
      ensures State() == Pressed(old(State()), first, pressed, enabled)
    {
      var mask := if first then 0x10 else 0x20;
      var value := signals;
      if pressed && HasBit(value, mask) {
        value := (value - mask) % 256;
      } else if !pressed && !HasBit(value, mask) {
        value := (value + mask) % 256;
      }
      UpdateSignals(value, enabled);
    }

    method UpdateSignals(value: byte, enabled: bool)
      modifies this`signals, this`interruptLatch
      ensures State() == Updated(old(State()), value, enabled)
    {
      var changed := value % 64 != signals % 64;
      signals := value;
      if changed && enabled {
        interruptLatch := true;
      }
    }

    method Motion(dx: int, dy: int, enabled: bool)
      modifies this
      ensures State() == Advanced(Moved(old(State()), dx, dy), 0, enabled)
    {
      x := x.(pending := Clamped(x.pending + dx));
      y := y.(pending := Clamped(y.pending + dy));
      Advance(0, enabled);
    }

    method EmitEdge(enabled: bool)
      requires State().Due()
      modifies this
      ensures State() == Emitted(old(State()), enabled)
    {
      edgeTickAccumulator := edgeTickAccumulator - EDGE_INTERVAL_TICKS;
      var bothAxes := x.pending != 0 && y.pending != 0;
      var useY := x.pending == 0 || (bothAxes && yNext);
      if bothAxes {
        yNext := !yNext;
      }
      if useY {
        var positive := y.pending > 0;
        y := Axis((y.phase + if positive then 1 else 3) % 4, y.pending + if positive then -1 else 1);
        UpdateSignals(WithY(signals, QuadratureState(y.phase)), enabled);
      } else {
        var positive := x.pending > 0;
        x := Axis((x.phase + if positive then 3 else 1) % 4, x.pending + if positive then -1 else 1);
        UpdateSignals(WithX(signals, QuadratureState(x.phase)), enabled);
      }
    }

    method Advance(masterTicks: nat, enabled: bool)
      modifies this
      ensures State() == Advanced(old(State()), masterTicks, enabled)
    {
      ghost var target := Drained(Later(State(), masterTicks), enabled);
      edgeTickAccumulator := edgeTickAccumulator + masterTicks;
      while edgeTickAccumulator >= EDGE_INTERVAL_TICKS && (x.pending != 0 || y.pending != 0)
        invariant Drained(State(), enabled) == target
        decreases edgeTickAccumulator
      {
        EmitEdge(enabled);
      }
      if x.pending == 0 && y.pending == 0 && edgeTickAccumulator > EDGE_INTERVAL_TICKS {
        edgeTickAccumulator := EDGE_INTERVAL_TICKS;
      }
    }
  }
}
