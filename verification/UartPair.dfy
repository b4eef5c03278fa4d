/** One UART drives another: TxD wired to RxD, both on the same clock. */
module UartPair {
  import opened Bytes
  import opened Wrappers
  import opened Uart8251
  import opened UartWire
  import L = UartLink

  // ---------------------------------------------------------------- the transmitter's line

  /** An enabled asynchronous transmitter for `n` clock edges, and the level of TxD after each. */
  function TxRun(tx: Transmitter, mode: byte, n: nat): (result: (Transmitter, seq<bool>))
    ensures |result.1| == n
    decreases n, tx
  {
    if n == 0 then (tx, [])
    else
      var t := TransmitEdge(tx, SYNC_RESET, mode, true, false).0;
      var (after, levels) := TxRun(t, mode, n - 1);
      (after, [t.txdHigh] + levels)
  }

  lemma {:induction false} LastLevel(tx: Transmitter, mode: byte, n: nat)
    requires n > 0
    ensures TxRun(tx, mode, n).1[n - 1] == TxRun(tx, mode, n).0.txdHigh
    decreases n
  {
    if n > 1 {
      LastLevel(TransmitEdge(tx, SYNC_RESET, mode, true, false).0, mode, n - 1);
    }
  }

  lemma {:induction false} TxConcat(tx: Transmitter, mode: byte, a: nat, b: nat)
    ensures var (t, first) := TxRun(tx, mode, a);
            var (u, second) := TxRun(t, mode, b);
            TxRun(tx, mode, a + b) == (u, first + second)
    decreases a
  {
    if a == 0 {
      var second := TxRun(tx, mode, b).1;
      assert [] + second == second;
    } else {
      var t := TransmitEdge(tx, SYNC_RESET, mode, true, false).0;
      TxConcat(t, mode, a - 1, b);
      var (u, first) := TxRun(t, mode, a - 1);
      var (w, second) := TxRun(u, mode, b);
      assert [t.txdHigh] + (first + second) == ([t.txdHigh] + first) + second;
    }
  }

  /** The next edge is one on which the transmitter moves. */
  predicate Due(tx: Transmitter, mode: byte) {
    tx.clockCount == BaudFactor(mode) - 1
  }

  /** Until then it holds its level. */
  lemma {:induction false} TxHolds(tx: Transmitter, mode: byte, n: nat)
    requires tx.clockCount + n < BaudFactor(mode)
    ensures TxRun(tx, mode, n) == (tx.(clockCount := tx.clockCount + n), Repeat(tx.txdHigh, n))
    decreases n
  {
    if n != 0 {
      TxHolds(tx.(clockCount := tx.clockCount + 1), mode, n - 1);
      assert [tx.txdHigh] + Repeat(tx.txdHigh, n - 1) == Repeat(tx.txdHigh, n);
    }
  }

  /** From one moving edge up to the next. */
  lemma {:induction false} TxBit(tx: Transmitter, mode: byte, t: Transmitter)
    requires BaudFactor(mode) > 1 && Due(tx, mode)
    requires t == AdvanceTransmitter(tx.(clockCount := 0), SYNC_RESET, mode, true).0 && t.clockCount == 0
    ensures TxRun(tx, mode, BaudFactor(mode))
         == (t.(clockCount := BaudFactor(mode) - 1), Repeat(t.txdHigh, BaudFactor(mode)))
  {
    var f := BaudFactor(mode);
    assert TransmitEdge(tx, SYNC_RESET, mode, true, false).0 == t;
    TxHolds(t, mode, f - 1);
    assert [t.txdHigh] + Repeat(t.txdHigh, f - 1) == Repeat(t.txdHigh, f);
  }

  /** In the middle of a frame, about to put out bit `index`. */
  ghost predicate Sending(tx: Transmitter, mode: byte, frame: seq<bool>, index: nat) {
    Due(tx, mode) && tx.active && tx.frame == frame && tx.index == index <= |frame|
  }

  lemma {:induction false} TxRest(tx: Transmitter, mode: byte, frame: seq<bool>, index: nat)
    requires BaudFactor(mode) > 1 && Sending(tx, mode, frame, index)
    ensures var (t, levels) := TxRun(tx, mode, |Stretch(frame[index..], BaudFactor(mode))|);
            && levels == Stretch(frame[index..], BaudFactor(mode))
            && t == tx.(index := |frame|, txdHigh := t.txdHigh)
    decreases |frame| - index
  {
    var f := BaudFactor(mode);
    if index == |frame| {
      assert Stretch(frame[index..], f) == [];
    } else {
      var t := tx.(clockCount := 0, txdHigh := frame[index], index := index + 1);
      TxBit(tx, mode, t);
      assert frame[index..][1..] == frame[index + 1..];
      TxRest(t.(clockCount := f - 1), mode, frame, index + 1);
      TxConcat(tx, mode, f, |Stretch(frame[index + 1..], f)|);
    }
  }

  /** Between frames, about to move: the last frame, if any, has been put out. */
  ghost predicate BetweenFrames(tx: Transmitter, mode: byte) {
    Due(tx, mode) && (tx.active ==> tx.index >= |tx.frame|)
  }

  /** A buffered byte goes out as exactly its frame, and the previous character is handed to the
      host as it starts. */
  lemma {:induction false} TxFrame(tx: Transmitter, mode: byte, value: byte)
    requires !Synchronous(mode) && BaudFactor(mode) > 1
    requires BetweenFrames(tx, mode) && tx.buffer == Some(value)
    ensures var (t, levels) := TxRun(tx, mode, L.FrameEdges(mode, value));
            && levels == Stretch(Frame(mode, value), BaudFactor(mode))
            && BetweenFrames(t, mode) && t.buffer == None
            && t.active && t.payload && t.character == value
            && t.completed == Finished(tx).completed
  {
    var f, frame := BaudFactor(mode), Frame(mode, value);
    FrameSize(mode, value);
    var first := StartFrame(Finished(tx).(buffer := None), mode, value, true)
                 .(clockCount := 0, txdHigh := frame[0], index := 1);
    StartsFrame(tx, mode, value, first);
    TxBit(tx, mode, first);
    TxRest(first.(clockCount := f - 1), mode, frame, 1);
    TxConcat(tx, mode, f, |Stretch(frame[1..], f)|);
  }

  lemma {:induction false} StartsFrame(tx: Transmitter, mode: byte, value: byte, first: Transmitter)
    requires BetweenFrames(tx, mode) && tx.buffer == Some(value)
    requires |Frame(mode, value)| >= 5
    requires first == StartFrame(Finished(tx).(buffer := None), mode, value, true)
                      .(clockCount := 0, txdHigh := Frame(mode, value)[0], index := 1)
    ensures AdvanceTransmitter(tx.(clockCount := 0), SYNC_RESET, mode, true).0 == first
  {
    var t := Finished(tx.(clockCount := 0));
    assert t == Finished(tx).(clockCount := 0);
    assert !t.active;
  }

  // ---------------------------------------------------------------- the line between frames

  /** Nothing is being sent and nothing waits to be sent; the line is at rest. */
  predicate Resting(tx: Transmitter, mode: byte) {
    && tx.txdHigh && tx.clockCount < BaudFactor(mode) && tx.buffer == None
    && (tx.active ==> tx.index >= |tx.frame|)
  }

  lemma {:induction false} StaysResting(tx: Transmitter, mode: byte, n: nat)
    requires !Synchronous(mode) && Resting(tx, mode)
    ensures var (t, levels) := TxRun(tx, mode, n); Resting(t, mode) && levels == Repeat(true, n)
    decreases n
  {
    if n != 0 {
      var t := TransmitEdge(tx, SYNC_RESET, mode, true, false).0;
      assert Resting(t, mode);
      StaysResting(t, mode, n - 1);
      assert [true] + Repeat(true, n - 1) == Repeat(true, n);
    }
  }

  /** The edges up to the next one on which the transmitter moves. */
  function UntilDue(tx: Transmitter, mode: byte): nat {
    if tx.clockCount + 1 < BaudFactor(mode) then BaudFactor(mode) - 1 - tx.clockCount else 0
  }

  /** From the moment a byte is written until its frame is out. */
  function SendingTime(tx: Transmitter, mode: byte, value: byte): nat {
    UntilDue(tx, mode) + L.FrameEdges(mode, value)
  }

  /** A byte written while the line rests goes out as exactly its frame, from the next edge on which
      the transmitter moves. */
  lemma {:induction false} TxByte(tx: Transmitter, mode: byte, value: byte)
    requires !Synchronous(mode) && BaudFactor(mode) > 1 && Resting(tx, mode)
    ensures var (t, levels) := TxRun(tx.(buffer := Some(value)), mode, SendingTime(tx, mode, value));
            && Resting(t, mode)
            && levels == Repeat(true, UntilDue(tx, mode)) + Stretch(Frame(mode, value), BaudFactor(mode))
  {
    var loaded, wait := tx.(buffer := Some(value)), UntilDue(tx, mode);
    TxHolds(loaded, mode, wait);
    var due := loaded.(clockCount := BaudFactor(mode) - 1);
    assert due == loaded.(clockCount := loaded.clockCount + wait);
    TxFrame(due, mode, value);
    EndsHigh(mode, value);
    LastLevel(due, mode, L.FrameEdges(mode, value));
    TxConcat(loaded, mode, wait, L.FrameEdges(mode, value));
  }

  lemma {:induction false} EndsHigh(mode: byte, value: byte)
    requires !Synchronous(mode) && BaudFactor(mode) > 1
    ensures var levels := Stretch(Frame(mode, value), BaudFactor(mode)); levels != [] && levels[|levels| - 1]
  {
    FrameSize(mode, value);
    StretchEnd(Frame(mode, value), BaudFactor(mode));
  }

  lemma {:induction false} StretchEnd(bits: seq<bool>, f: nat)
    requires bits != [] && f >= 1
    ensures var levels := Stretch(bits, f); levels != [] && levels[|levels| - 1] == bits[|bits| - 1]
    decreases bits
  {
    if |bits| > 1 {
      StretchEnd(bits[1..], f);
    } else {
      assert Stretch(bits[1..], f) == [];
    }
  }

  // ---------------------------------------------------------------- two UARTs

  datatype Pair = Pair(sender: UartState, receiver: UartState)

  /** One clock edge of both: the transmitter moves first, and TxD is RxD. */
  function PairEdge(p: Pair): Pair {
    var sender := ClockedTransmit(p.sender);
    Pair(sender, ClockedReceive(p.receiver.(rxd := sender.tx.txdHigh)))
  }

  /** One edge of both, and what the receiving processor takes if it reads after it. */
  function PolledEdge(p: Pair, poll: bool): (Pair, seq<nat>) {
    var q := PairEdge(p);
    if poll && q.receiver.data.ready
    then (q.(receiver := q.receiver.(data := q.receiver.data.(ready := false))), [q.receiver.data.buffer])
    else (q, [])
  }

  /** Both over a number of edges; `polls[e]` tells whether the receiving processor reads after edge
      `e`.  The result lists the bytes it took while RxRDY was set. */
  function PairRun(p: Pair, polls: seq<bool>): (Pair, seq<nat>)
    decreases polls
  {
    if polls == [] then (p, [])
    else
      var (next, took) := PolledEdge(p, polls[0]);
      var (after, taken) := PairRun(next, polls[1..]);
      (after, took + taken)
  }

  /** The sender may send, the receiver has no host-side line of its own, and both are in the same
      asynchronous mode. */
  ghost predicate Wired(p: Pair, mode: byte) {
    && p.sender.control.mode == mode && p.receiver.control.mode == mode
    && p.sender.control.Sending() && !p.sender.control.Break()
    && L.Asynchronous(p.receiver) && !p.receiver.line.active && p.receiver.line.queue == []
  }

  /** Outside synchronous mode the SYN unit does not matter to the transmitter. */
  lemma {:induction false} SendsAlone(s: UartState)
    requires !Synchronous(s.control.mode) && s.control.Sending() && !s.control.Break()
    ensures ClockedTransmit(s) == s.(tx := TransmitEdge(s.tx, SYNC_RESET, s.control.mode, true, false).0)
  {
  }

  lemma {:induction false} HearsOneLevel(s: UartState, level: bool)
    requires L.Asynchronous(s) && !s.line.active && s.line.queue == []
    ensures var (sampler, event) := AsyncEdge(s.sampler, s.control.mode, level);
            ClockedReceive(s.(rxd := level))
            == s.(rxd := level, sampler := sampler,
                  data := if event.Some? then Deposit(s.data, s.control.mode, event.value) else s.data)
  {
    L.OneClock(s.(rxd := level));
  }

  /** What a run does, taken apart: the transmitter, its line, the sampler, the data register. */
  ghost predicate InParts(p: Pair, mode: byte, polls: seq<bool>, q: Pair, taken: seq<nat>) {
    var (tx, levels) := TxRun(p.sender.tx, mode, |polls|);
    var (sampler, events) := SamplerRun(p.receiver.sampler, mode, levels);
    && q.sender == p.sender.(tx := tx)
    && q.receiver == p.receiver.(rxd := q.receiver.rxd, sampler := sampler, data := q.receiver.data)
    && (q.receiver.data, taken) == L.DataRun(p.receiver.data, mode, events, polls)
  }

  lemma {:induction false} OnePairEdge(p: Pair, mode: byte)
    requires Wired(p, mode)
    ensures var tx := TransmitEdge(p.sender.tx, SYNC_RESET, mode, true, false).0;
            var (sampler, event) := AsyncEdge(p.receiver.sampler, mode, tx.txdHigh);
            var data := if event.Some? then Deposit(p.receiver.data, mode, event.value) else p.receiver.data;
            PairEdge(p) == Pair(p.sender.(tx := tx),
                                p.receiver.(rxd := tx.txdHigh, sampler := sampler, data := data))
  {
    SendsAlone(p.sender);
    HearsOneLevel(p.receiver, ClockedTransmit(p.sender).tx.txdHigh);
  }

  lemma {:induction false} PairInParts(p: Pair, mode: byte, polls: seq<bool>)
    requires Wired(p, mode)
    ensures InParts(p, mode, polls, PairRun(p, polls).0, PairRun(p, polls).1)
    decreases polls
  {
    if polls != [] {
      OnePairEdge(p, mode);
      var (next, took) := PolledEdge(p, polls[0]);
      PairInParts(next, mode, polls[1..]);
      FirstPart(p, mode, polls, next, took, PairRun(next, polls[1..]).0, PairRun(next, polls[1..]).1);
    }
  }

  /** One edge in front of a run taken apart. */
  lemma {:induction false} FirstPart(p: Pair, mode: byte, polls: seq<bool>, next: Pair, took: seq<nat>,
                                     q: Pair, taken: seq<nat>)
    requires polls != [] && InParts(next, mode, polls[1..], q, taken)
    requires var tx := TransmitEdge(p.sender.tx, SYNC_RESET, mode, true, false).0;
             var (sampler, event) := AsyncEdge(p.receiver.sampler, mode, tx.txdHigh);
             var data := if event.Some? then Deposit(p.receiver.data, mode, event.value) else p.receiver.data;
             var drawn := polls[0] && data.ready;
             && next.sender == p.sender.(tx := tx)
             && next.receiver == p.receiver.(rxd := tx.txdHigh, sampler := sampler,
                                             data := if drawn then data.(ready := false) else data)
             && took == if drawn then [data.buffer] else []
    ensures InParts(p, mode, polls, q, took + taken)
  {
    var tx, levels := next.sender.tx, TxRun(next.sender.tx, mode, |polls| - 1).1;
    var all := TxRun(p.sender.tx, mode, |polls|).1;
    assert all == [tx.txdHigh] + levels && all[1..] == levels;
    RunFirst(p.receiver.sampler, mode, all);
    var events := SamplerRun(p.receiver.sampler, mode, all).1;
    assert events[1..] == SamplerRun(next.receiver.sampler, mode, levels).1;
    assert events[0] == AsyncEdge(p.receiver.sampler, mode, tx.txdHigh).1;
  }

  // ---------------------------------------------------------------- one byte

  /** The edge after the write at which the character is complete. */
  function ArrivalEdge(tx: Transmitter, mode: byte): nat {
    UntilDue(tx, mode) + CompletionEdge(mode)
  }

  ghost predicate BothResting(p: Pair, mode: byte) {
    Wired(p, mode) && Resting(p.sender.tx, mode) && p.receiver.sampler.phase == Idle
  }

  predicate SameFlags(d: RxData, e: RxData) {
    && d.parityError == e.parityError && d.overrunError == e.overrunError
    && d.framingError == e.framingError && d.breakDetected == e.breakDetected
  }

  /** Between two moments of rest these characters have arrived, and the processor has taken
      some; no error flag has changed. */
  ghost predicate Handed(p: Pair, q: Pair, mode: byte, taken: seq<nat>, arrived: seq<nat>) {
    && BothResting(q, mode) && SameFlags(p.receiver.data, q.receiver.data)
    && taken + L.Waiting(q.receiver.data) == L.Waiting(p.receiver.data) + arrived
  }

  function Loaded(p: Pair, value: byte): Pair {
    p.(sender := p.sender.(tx := p.sender.tx.(buffer := Some(value))))
  }

  /** A byte written to the one is received by the other. */
  lemma {:induction false} SendingTogether(p: Pair, mode: byte, value: byte, polls: seq<bool>)
    requires BothResting(p, mode) && value < Pow2(CharacterBits(mode))
    requires |polls| == SendingTime(p.sender.tx, mode, value) && ArrivalEdge(p.sender.tx, mode) < |polls|
    requires p.receiver.data.ready ==> L.Any(polls[..ArrivalEdge(p.sender.tx, mode)])
    ensures var (q, taken) := PairRun(Loaded(p, value), polls); Handed(p, q, mode, taken, [value])
  {
    PairInParts(Loaded(p, value), mode, polls);
    TxByte(p.sender.tx, mode, value);
    HeardAfterRest(p.receiver.sampler, mode, value, UntilDue(p.sender.tx, mode));
    L.DataFrame(p.receiver.data, mode, ArrivalEdge(p.sender.tx, mode), value, polls);
    DivModUnique(value, Pow2(CharacterBits(mode)), 0, value);
  }

  lemma {:induction false} HeardAfterRest(s: Sampler, mode: byte, value: byte, wait: nat)
    requires !Synchronous(mode) && BaudFactor(mode) > 1 && s.phase == Idle && value < Pow2(CharacterBits(mode))
    ensures Delivers(s, mode, Repeat(true, wait) + Stretch(Frame(mode, value), BaudFactor(mode)),
                     wait + CompletionEdge(mode), value)
  {
    AtRest(s, mode, wait);
    FrameDelivers(s, mode, value);
    DivModUnique(value, Pow2(CharacterBits(mode)), 0, value);
    Delayed(s, mode, Repeat(true, wait), Stretch(Frame(mode, value), BaudFactor(mode)), CompletionEdge(mode), value);
  }
}
