/** Whole lists of bytes over the wire: from the host queue to the processor, and from one UART
    to another. */
module UartLink {
  import opened Bytes
  import opened Wrappers
  import opened Uart8251
  import opened UartWire

  // ---------------------------------------------------------------- the data register

  /** The data register while characters arrive and the processor reads now and then: `polls[e]`
      tells whether it reads after edge `e`.  The result lists the bytes it took while RxRDY was
      set. */
  function DataRun(d: RxData, mode: byte, events: seq<Option<Received>>, polls: seq<bool>): (RxData, seq<nat>)
    requires |events| == |polls|
    decreases events
  {
    if events == [] then (d, [])
    else
      var arrived := if events[0].Some? then Deposit(d, mode, events[0].value) else d;
      var took := polls[0] && arrived.ready;
      var (after, taken) := DataRun(if took then arrived.(ready := false) else arrived, mode, events[1..], polls[1..]);
      (after, (if took then [arrived.buffer] else []) + taken)
  }

  predicate Any(polls: seq<bool>) { true in polls }

  function Waiting(d: RxData): seq<nat> {
    if d.ready then [d.buffer] else []
  }

  lemma {:induction false} DataConcat(d: RxData, mode: byte, a: seq<Option<Received>>,
                                      b: seq<Option<Received>>, polls: seq<bool>)
    requires |a| + |b| == |polls|
    ensures var (d1, taken1) := DataRun(d, mode, a, polls[..|a|]);
            var (d2, taken2) := DataRun(d1, mode, b, polls[|a|..]);
            DataRun(d, mode, a + b, polls) == (d2, taken1 + taken2)
    decreases a
  {
    if a == [] {
      assert a + b == b;
      assert DataRun(d, mode, a, polls[..|a|]) == (d, []);
      assert [] + DataRun(d, mode, b, polls).1 == DataRun(d, mode, b, polls).1;
    } else {
      var arrived := if a[0].Some? then Deposit(d, mode, a[0].value) else d;
      var took := polls[0] && arrived.ready;
      var next := if took then arrived.(ready := false) else arrived;
      DataConcat(next, mode, a[1..], b, polls[1..]);
      assert (a + b)[1..] == a[1..] + b;
      assert polls[1..][..|a| - 1] == polls[..|a|][1..];
      assert polls[1..][|a| - 1..] == polls[|a|..];
      var first := if took then [arrived.buffer] else [];
      var (d1, taken1) := DataRun(next, mode, a[1..], polls[1..][..|a| - 1]);
      var (d2, taken2) := DataRun(d1, mode, b, polls[|a|..]);
      assert first + (taken1 + taken2) == (first + taken1) + taken2;
    }
  }

  lemma {:induction false} DataQuiet(d: RxData, mode: byte, polls: seq<bool>)
    ensures DataRun(d, mode, Nothing(|polls|), polls)
         == (d.(ready := d.ready && !Any(polls)), if Any(polls) then Waiting(d) else [])
    decreases polls
  {
    if polls != [] {
      var took := polls[0] && d.ready;
      var next := if took then d.(ready := false) else d;
      assert Nothing(|polls|)[1..] == Nothing(|polls| - 1);
      DataQuiet(next, mode, polls[1..]);
      assert polls == [polls[0]] + polls[1..];
      assert Waiting(d.(ready := false)) == [] && [d.buffer] + [] == [d.buffer];
      var rest := if Any(polls[1..]) then Waiting(next) else [];
      assert [] + rest == rest;
    } else {
      assert d.(ready := d.ready) == d;
    }
  }

  /** The register after a character of `value` when it was free. */
  function Filled(d: RxData, mode: byte, value: nat): RxData {
    d.(buffer := value % Pow2(CharacterBits(mode)), ready := true)
  }

  lemma {:induction false} DataOneEdge(d: RxData, mode: byte, value: nat, read: bool)
    requires !d.ready
    ensures var full := Filled(d, mode, value);
            DataRun(d, mode, [Some(Received(value, false, false))], [read])
            == (full.(ready := !read), if read then [full.buffer] else [])
  {
    var event := [Some(Received(value, false, false))];
    assert event[1..] == [] && [read][1..] == [];
    var full := Filled(d, mode, value);
    assert Deposit(d, mode, event[0].value) == full;
    var next := if read then full.(ready := false) else full;
    assert next == full.(ready := !read);
    var none: seq<nat> := [];
    assert DataRun(next, mode, [], []) == (next, none);
    assert [full.buffer] + none == [full.buffer] && none + none == none;
  }

  /** From the character on. */
  lemma {:induction false} DataArrival(d: RxData, mode: byte, value: nat, polls: seq<bool>)
    requires !d.ready && polls != []
    ensures var events := [Some(Received(value, false, false))] + Nothing(|polls| - 1);
            DataRun(d, mode, events, polls)
            == (Filled(d, mode, value).(ready := !Any(polls)),
                if Any(polls) then [value % Pow2(CharacterBits(mode))] else [])
  {
    var event := [Some(Received(value, false, false))];
    DataConcat(d, mode, event, Nothing(|polls| - 1), polls);
    assert polls[..1] == [polls[0]];
    DataOneEdge(d, mode, value, polls[0]);
    var first := Filled(d, mode, value).(ready := !polls[0]);
    DataQuiet(first, mode, polls[1..]);
    assert polls == [polls[0]] + polls[1..];
    var rest := DataRun(first, mode, Nothing(|polls| - 1), polls[1..]).1;
    assert [] + rest == rest && [first.buffer] + [] == [first.buffer];
  }

  /** A frame's worth of edges with one character in it, the register being read in time. */
  lemma {:induction false} DataFrame(d: RxData, mode: byte, at: nat, value: nat, polls: seq<bool>)
    requires at < |polls|
    requires d.ready ==> Any(polls[..at])
    ensures var later := Any(polls[at..]);
            DataRun(d, mode, OneCharacter(at, value, |polls|), polls)
            == (Filled(d, mode, value).(ready := !later),
                Waiting(d) + if later then [value % Pow2(CharacterBits(mode))] else [])
  {
    var free := d.(ready := false);
    DataQuiet(d, mode, polls[..at]);
    DataArrival(free, mode, value, polls[at..]);
    var arrival := [Some(Received(value, false, false))] + Nothing(|polls| - at - 1);
    assert Nothing(at) + arrival == OneCharacter(at, value, |polls|);
    DataConcat(d, mode, Nothing(at), arrival, polls);
    assert Filled(free, mode, value) == Filled(d, mode, value);
  }

  // ---------------------------------------------------------------- the serializer's line

  /** One edge of the serializer: where it is, how the line is left, and the level. */
  function LineStep(line: Serializer, rxd: bool, mode: byte): (Serializer, bool, bool) {
    var picked := PickedUp(line, mode);
    var level := if picked.active && picked.index < |picked.frame| then picked.frame[picked.index] else rxd;
    var (moved, rest) := LineMoved(picked, mode);
    (moved, rest || level, level)
  }

  /** The line the serializer drives for `n` edges. */
  function LineRun(line: Serializer, rxd: bool, mode: byte, n: nat): (result: (Serializer, bool, seq<bool>))
    ensures |result.2| == n
    decreases n, line
  {
    if n == 0 then (line, rxd, [])
    else
      var (moved, rest, level) := LineStep(line, rxd, mode);
      var (after, last, levels) := LineRun(moved, rest, mode, n - 1);
      (after, last, [level] + levels)
  }

  lemma {:induction false} LineConcat(line: Serializer, rxd: bool, mode: byte, a: nat, b: nat)
    ensures var (l1, r1, first) := LineRun(line, rxd, mode, a);
            var (l2, r2, second) := LineRun(l1, r1, mode, b);
            LineRun(line, rxd, mode, a + b) == (l2, r2, first + second)
    decreases a
  {
    if a == 0 {
      var second := LineRun(line, rxd, mode, b).2;
      assert [] + second == second;
    } else {
      var (moved, rest, level) := LineStep(line, rxd, mode);
      LineConcat(moved, rest, mode, a - 1, b);
      LineJoin(line, rxd, mode, a, b, moved, rest, level);
    }
  }

  lemma {:induction false} LineJoin(line: Serializer, rxd: bool, mode: byte, a: nat, b: nat,
                                    moved: Serializer, rest: bool, level: bool)
    requires a > 0 && (moved, rest, level) == LineStep(line, rxd, mode)
    requires var (l1, r1, first) := LineRun(moved, rest, mode, a - 1);
             var (l2, r2, second) := LineRun(l1, r1, mode, b);
             LineRun(moved, rest, mode, a + b - 1) == (l2, r2, first + second)
    ensures var (l1, r1, first) := LineRun(line, rxd, mode, a);
            var (l2, r2, second) := LineRun(l1, r1, mode, b);
            LineRun(line, rxd, mode, a + b) == (l2, r2, first + second)
  {
    var first := LineRun(moved, rest, mode, a - 1).2;
    var (l1, r1, levels) := LineRun(line, rxd, mode, a);
    assert levels == [level] + first;
    var second := LineRun(l1, r1, mode, b).2;
    assert [level] + (first + second) == levels + second;
  }

  /** Sending bit `index` with `bitClocks` edges of it left. */
  ghost predicate Sends(line: Serializer, frame: seq<bool>, index: nat, clocks: nat) {
    && line.active && line.frame == frame && line.index == index < |frame|
    && line.bitClocks == clocks >= 1
  }

  function AfterBit(line: Serializer, mode: byte): Serializer {
    if line.index + 1 >= |line.frame| then Serializer(line.queue, [], 0, 0, false)
    else line.(index := line.index + 1, bitClocks := BaudFactor(mode))
  }

  lemma {:induction false} LineHolds(line: Serializer, rxd: bool, mode: byte, frame: seq<bool>, index: nat, clocks: nat)
    requires Sends(line, frame, index, clocks)
    ensures LineRun(line, rxd, mode, clocks)
         == (AfterBit(line, mode), index + 1 >= |frame| || frame[index], Repeat(frame[index], clocks))
    decreases clocks
  {
    var level := frame[index];
    if clocks == 1 {
      var (moved, rest) := LineMoved(line, mode);
      assert LineRun(moved, rest || level, mode, 0) == (moved, rest || level, []);
      assert [level] + [] == Repeat(level, 1);
    } else {
      LineHolds(line.(bitClocks := clocks - 1), level, mode, frame, index, clocks - 1);
      assert [level] + Repeat(level, clocks - 1) == Repeat(level, clocks);
    }
  }

  lemma {:induction false} LineBits(line: Serializer, rxd: bool, mode: byte, frame: seq<bool>, index: nat)
    requires Sends(line, frame, index, BaudFactor(mode))
    ensures LineRun(line, rxd, mode, |Stretch(frame[index..], BaudFactor(mode))|)
         == (Serializer(line.queue, [], 0, 0, false), true, Stretch(frame[index..], BaudFactor(mode)))
    decreases |frame| - index
  {
    var f := BaudFactor(mode);
    LineHolds(line, rxd, mode, frame, index, f);
    assert frame[index..][1..] == frame[index + 1..];
    if index + 1 < |frame| {
      LineBits(AfterBit(line, mode), frame[index], mode, frame, index + 1);
    } else {
      assert Stretch(frame[index + 1..], f) == [];
      assert LineRun(AfterBit(line, mode), true, mode, 0) == (AfterBit(line, mode), true, []);
    }
    LineConcat(line, rxd, mode, f, |Stretch(frame[index + 1..], f)|);
  }

  /** The number of edges of a frame. */
  function FrameEdges(mode: byte, value: nat): (n: nat)
    ensures n == |Frame(mode, value)| * BaudFactor(mode)
    ensures n == |Stretch(Frame(mode, value), BaudFactor(mode))|
  {
    |Stretch(Frame(mode, value), BaudFactor(mode))|
  }

  /** A queued byte occupies the line for exactly its frame. */
  lemma {:induction false} LineFrame(line: Serializer, rxd: bool, mode: byte)
    requires !line.active && line.queue != []
    ensures var value := line.queue[0];
            LineRun(line, rxd, mode, FrameEdges(mode, value))
            == (Serializer(line.queue[1..], [], 0, 0, false), true, Stretch(Frame(mode, value), BaudFactor(mode)))
  {
    var value := line.queue[0];
    var frame := Frame(mode, value);
    FrameSize(mode, value);
    var picked := PickedUp(line, mode);
    assert frame[0..] == frame;
    LineBits(picked, rxd, mode, frame, 0);
    SamePickup(line, picked, rxd, mode, FrameEdges(mode, value));
  }

  lemma {:induction false} SamePickup(line: Serializer, picked: Serializer, rxd: bool, mode: byte, n: nat)
    requires picked == PickedUp(line, mode) && picked.active && n > 0
    ensures LineRun(line, rxd, mode, n) == LineRun(picked, rxd, mode, n)
  {
  }

  // ---------------------------------------------------------------- the receive clock

  /** The UART over a number of receive clock edges, with processor polls in between. */
  function UartRun(s: UartState, polls: seq<bool>): (UartState, seq<nat>)
    decreases polls
  {
    if polls == [] then (s, [])
    else
      var t := ClockedReceive(s);
      var took := polls[0] && t.data.ready;
      var (after, taken) := UartRun(if took then t.(data := t.data.(ready := false)) else t, polls[1..]);
      (after, (if took then [t.data.buffer] else []) + taken)
  }

  ghost predicate Asynchronous(s: UartState) {
    && !Synchronous(s.control.mode) && BaudFactor(s.control.mode) > 1
    && s.control.ReceiverEnabled()
  }

  /** One edge is one edge of the line, of the sampler and of the data register. */
  lemma {:induction false} OneClock(s: UartState)
    requires Asynchronous(s)
    ensures var mode := s.control.mode;
            var picked := PickedUp(s.line, mode);
            var level := if picked.active && picked.index < |picked.frame| then picked.frame[picked.index] else s.rxd;
            var (moved, rest) := LineMoved(picked, mode);
            var (sampler, event) := AsyncEdge(s.sampler, mode, level);
            ClockedReceive(s) == s.(line := moved, rxd := rest || level, sampler := sampler,
                                    data := if event.Some? then Deposit(s.data, mode, event.value) else s.data)
  {
  }

  lemma {:induction false} RunInParts(s: UartState, polls: seq<bool>)
    requires Asynchronous(s)
    ensures var mode := s.control.mode;
            var (line, rxd, levels) := LineRun(s.line, s.rxd, mode, |polls|);
            var (sampler, events) := SamplerRun(s.sampler, mode, levels);
            var (data, taken) := DataRun(s.data, mode, events, polls);
            UartRun(s, polls) == (s.(line := line, rxd := rxd, sampler := sampler, data := data), taken)
    decreases polls
  {
    if polls != [] {
      OneClock(s);
      var t := ClockedReceive(s);
      var took := polls[0] && t.data.ready;
      var next := if took then t.(data := t.data.(ready := false)) else t;
      RunInParts(next, polls[1..]);
      HeadsAndTails(s, polls);
    }
  }

  lemma {:induction false} HeadsAndTails(s: UartState, polls: seq<bool>)
    requires Asynchronous(s) && polls != []
    ensures var mode := s.control.mode;
            var t := ClockedReceive(s);
            var took := polls[0] && t.data.ready;
            var next := if took then t.(data := t.data.(ready := false)) else t;
            var (line, rxd, levels) := LineRun(s.line, s.rxd, mode, |polls|);
            var (line', rxd', levels') := LineRun(next.line, next.rxd, mode, |polls| - 1);
            var (sampler, events) := SamplerRun(s.sampler, mode, levels);
            var (sampler', events') := SamplerRun(next.sampler, mode, levels');
            && line == line' && rxd == rxd' && sampler == sampler' && events[1..] == events'
            && levels[1..] == levels'
            && DataRun(s.data, mode, events, polls).0 == DataRun(next.data, mode, events', polls[1..]).0
            && DataRun(s.data, mode, events, polls).1
               == (if took then [t.data.buffer] else []) + DataRun(next.data, mode, events', polls[1..]).1
  {
    OneClock(s);
    var mode := s.control.mode;
    var levels := LineRun(s.line, s.rxd, mode, |polls|).2;
    var t := ClockedReceive(s);
    assert levels[1..] == LineRun(t.line, t.rxd, mode, |polls| - 1).2;
    var events := SamplerRun(s.sampler, mode, levels).1;
    assert events[1..] == SamplerRun(t.sampler, mode, levels[1..]).1;
  }

  /** An enabled asynchronous receiver at rest, with bytes queued for it. */
  ghost predicate AtRestWith(s: UartState, queue: seq<byte>) {
    Asynchronous(s) && !s.line.active && s.line.queue == queue && s.sampler.phase == Idle
  }

  /** One queued byte: exactly frame size times factor edges later it has been received without
      an error, and the receiver is at rest again. */
  lemma {:induction false} ByteDelivered(s: UartState, queue: seq<byte>, polls: seq<bool>)
    requires queue != [] && AtRestWith(s, queue)
    requires |polls| == FrameEdges(s.control.mode, queue[0])
    requires CompletionEdge(s.control.mode) < |polls|
    requires s.data.ready ==> Any(polls[..CompletionEdge(s.control.mode)])
    ensures var mode := s.control.mode;
            var later := Any(polls[CompletionEdge(mode)..]);
            var character := queue[0] % Pow2(CharacterBits(mode));
            var (t, taken) := UartRun(s, polls);
            && AtRestWith(t, queue[1..]) && t.control == s.control
            && t.data == s.data.(buffer := character, ready := !later)
            && taken + Waiting(t.data) == Waiting(s.data) + [character]
  {
    var mode := s.control.mode;
    var value: nat := queue[0];
    RunInParts(s, polls);
    LineFrame(s.line, s.rxd, mode);
    FrameDelivers(s.sampler, mode, value);
    DataFrame(s.data, mode, CompletionEdge(mode), value % Pow2(CharacterBits(mode)), polls);
    Idempotent(value, CharacterBits(mode));
  }

  lemma {:induction false} Idempotent(value: nat, n: nat)
    ensures value % Pow2(n) % Pow2(n) == value % Pow2(n)
  {
    DivModUnique(value % Pow2(n), Pow2(n), 0, value % Pow2(n));
  }

  // ---------------------------------------------------------------- whole queues

  /** One read schedule per byte. */
  function UartRuns(s: UartState, schedule: seq<seq<bool>>): (UartState, seq<nat>)
    decreases schedule
  {
    if schedule == [] then (s, [])
    else
      var (t, first) := UartRun(s, schedule[0]);
      var (u, others) := UartRuns(t, schedule[1..]);
      (u, first + others)
  }

  /** Every byte is read before the next one completes. */
  ghost predicate Timely(ready: bool, mode: byte, schedule: seq<seq<bool>>)
    decreases schedule
  {
    schedule == [] ||
    (&& CompletionEdge(mode) < |schedule[0]|
     && (ready ==> Any(schedule[0][..CompletionEdge(mode)]))
     && Timely(!Any(schedule[0][CompletionEdge(mode)..]), mode, schedule[1..]))
  }

  function Characters(bytes: seq<byte>, mode: byte): seq<nat> {
    if bytes == [] then [] else [bytes[0] % Pow2(CharacterBits(mode))] + Characters(bytes[1..], mode)
  }

  /** Any list of queued bytes arrives complete and in order, cut to the character size, and no
      error flag changes. */
  lemma {:induction false} QueueDelivered(s: UartState, queue: seq<byte>, schedule: seq<seq<bool>>)
    requires AtRestWith(s, queue) && |schedule| == |queue|
    requires forall k :: 0 <= k < |queue| ==> |schedule[k]| == FrameEdges(s.control.mode, queue[k])
    requires Timely(s.data.ready, s.control.mode, schedule)
    ensures var (t, taken) := UartRuns(s, schedule);
            && AtRestWith(t, []) && t.control == s.control
            && taken + Waiting(t.data) == Waiting(s.data) + Characters(queue, s.control.mode)
            && t.data.parityError == s.data.parityError && t.data.framingError == s.data.framingError
            && t.data.overrunError == s.data.overrunError && t.data.breakDetected == s.data.breakDetected
    decreases queue
  {
    if queue == [] {
      assert Waiting(s.data) + [] == [] + Waiting(s.data);
    } else {
      ByteDelivered(s, queue, schedule[0]);
      var (t, first) := UartRun(s, schedule[0]);
      QueueDelivered(t, queue[1..], schedule[1..]);
      var (u, others) := UartRuns(t, schedule[1..]);
      Regroup(first, others, Waiting(u.data), Waiting(t.data), Waiting(s.data),
              queue[0] % Pow2(CharacterBits(s.control.mode)), Characters(queue[1..], s.control.mode));
    }
  }

  lemma {:induction false} Regroup<T>(first: seq<T>, others: seq<T>, left: seq<T>, middle: seq<T>,
                                      start: seq<T>, c: T, rest: seq<T>)
    requires others + left == middle + rest
    requires first + middle == start + [c]
    ensures (first + others) + left == start + ([c] + rest)
  {
    assert (first + others) + left == first + (others + left);
    assert first + (middle + rest) == (first + middle) + rest;
  }
}
