/** A stream of bytes from one UART to another: the sending processor writes whenever the buffer of its
    transmitter is empty, while a frame still goes out too, and not a byte is lost. */
module UartStreams {
  import opened Bytes
  import opened Wrappers
  import opened Uart8251
  import opened UartWire
  import opened UartPair
  import L = UartLink

  // ---------------------------------------------------------------- what the processors do

  /** A clock edge, after which the receiving processor may read; or the sending one writes a byte. */
  datatype Action = Edge(poll: bool) | Send(value: byte)

  function Acted(p: Pair, a: Action): (Pair, seq<nat>) {
    match a
    case Edge(poll) => PolledEdge(p, poll)
    case Send(value) => (p.(sender := Write(p.sender, 0, value)), [])
  }

  function StreamRun(p: Pair, actions: seq<Action>): (Pair, seq<nat>)
    decreases actions
  {
    if actions == [] then (p, [])
    else
      var (next, took) := Acted(p, actions[0]);
      var (after, taken) := StreamRun(next, actions[1..]);
      (after, took + taken)
  }

  /** The characters that are written, cut to the character size. */
  function Sent(mode: byte, a: Action): seq<nat> {
    if a.Send? then [a.value % Pow2(CharacterBits(mode))] else []
  }

  function AllSent(mode: byte, actions: seq<Action>): seq<nat> {
    if actions == [] then [] else Sent(mode, actions[0]) + AllSent(mode, actions[1..])
  }

  /** A character is complete with the next edge. */
  predicate Completes(p: Pair, mode: byte) {
    AsyncEdge(p.receiver.sampler, mode, ClockedTransmit(p.sender).tx.txdHigh).1.Some?
  }

  /** The sending processor writes on TxRDY, and the receiving one has read the last character before
      the next one is complete. */
  predicate InTime(p: Pair, mode: byte, actions: seq<Action>)
    decreases actions
  {
    actions == [] ||
    (&& (if actions[0].Send? then p.sender.tx.buffer == None else Completes(p, mode) ==> !p.receiver.data.ready)
     && InTime(Acted(p, actions[0]).0, mode, actions[1..]))
  }

  // ---------------------------------------------------------------- the line at any moment

  /** The line rests, or so many edges of the frame of a byte are out, which the receiver has heard from
      this state of its sampler on. */
  datatype Wire = Quiet | Going(value: byte, edges: nat, heard: Sampler)

  function Levels(mode: byte, value: byte): (levels: seq<bool>)
    ensures |levels| == |Frame(mode, value)| * BaudFactor(mode)
  {
    Stretch(Frame(mode, value), BaudFactor(mode))
  }

  /** What the next edge makes of the line. */
  function NextWire(p: Pair, mode: byte, w: Wire): Wire {
    match w
    case Quiet =>
      if Due(p.sender.tx, mode) && p.sender.tx.buffer.Some? then Going(p.sender.tx.buffer.value, 1, p.receiver.sampler)
      else Quiet
    case Going(value, edges, heard) =>
      if edges + 1 < |Levels(mode, value)| then Going(value, edges + 1, heard) else Quiet
  }

  function WireAfter(p: Pair, mode: byte, w: Wire, actions: seq<Action>): Wire
    decreases actions
  {
    if actions == [] then w
    else WireAfter(Acted(p, actions[0]).0, mode, if actions[0].Edge? then NextWire(p, mode, w) else w, actions[1..])
  }

  /** A byte is on the wire until its character is complete. */
  function OnWire(mode: byte, w: Wire): seq<nat> {
    if w.Going? && w.edges <= CompletionEdge(mode) then [w.value] else []
  }

  function Buffered(tx: Transmitter): seq<nat> {
    if tx.buffer.Some? then [tx.buffer.value] else []
  }

  /** Everything that is under way: received but not read, on the wire, and buffered. */
  function UnderWay(p: Pair, mode: byte, w: Wire): seq<nat> {
    L.Waiting(p.receiver.data) + OnWire(mode, w) + Buffered(p.sender.tx)
  }

  // ---------------------------------------------------------------- the transmitter, edge by edge

  function TxNext(tx: Transmitter, mode: byte): Transmitter {
    TransmitEdge(tx, SYNC_RESET, mode, true, false).0
  }

  predicate TxQuiet(tx: Transmitter, mode: byte) {
    tx.txdHigh && tx.clockCount < BaudFactor(mode) && (tx.active ==> tx.index >= |tx.frame|)
  }

  /** So many edges of the frame of this byte are out. */
  predicate TxGoing(tx: Transmitter, mode: byte, value: byte, edges: nat) {
    && tx.active && tx.frame == Frame(mode, value) && 1 <= tx.index <= |tx.frame| && tx.clockCount < BaudFactor(mode)
    && tx.txdHigh == tx.frame[tx.index - 1] && edges == (tx.index - 1) * BaudFactor(mode) + tx.clockCount + 1
  }

  lemma {:induction false} LevelAt(bits: seq<bool>, f: nat, i: nat, c: nat)
    requires i < |bits| && c < f
    ensures i * f + c < |Stretch(bits, f)| && Stretch(bits, f)[i * f + c] == bits[i]
    decreases bits
  {
    if i > 0 {
      LevelAt(bits[1..], f, i - 1, c);
      assert i * f + c == f + ((i - 1) * f + c);
    }
  }

  lemma {:induction false} BitsLeft(i: nat, n: nat, f: nat)
    requires i * f < n * f
    ensures i < n
  {
  }

  lemma {:induction false} TxGoesOn(tx: Transmitter, mode: byte, value: byte, edges: nat)
    requires BaudFactor(mode) > 1 && TxGoing(tx, mode, value, edges) && edges < |Levels(mode, value)|
    ensures TxGoing(TxNext(tx, mode), mode, value, edges + 1) && TxNext(tx, mode).buffer == tx.buffer
    ensures TxNext(tx, mode).txdHigh == Levels(mode, value)[edges]
  {
    var f := BaudFactor(mode);
    if tx.clockCount + 1 < f {
      LevelAt(tx.frame, f, tx.index - 1, tx.clockCount + 1);
    } else {
      assert edges == tx.index * f;
      BitsLeft(tx.index, |tx.frame|, f);
      LevelAt(tx.frame, f, tx.index, 0);
    }
  }

  lemma {:induction false} OneBitOff(i: nat, n: nat, f: nat)
    requires i < n
    ensures i * f + f <= n * f
  {
    var k: nat := n - i - 1;
    assert n * f == (k + i + 1) * f == k * f + i * f + f;
  }

  lemma {:induction false} AllOut(i: nat, n: nat, f: nat, c: nat)
    requires 1 <= i <= n && c < f && (i - 1) * f + c + 1 == n * f
    ensures i == n
  {
    OneBitOff(n - 1, n, f);
    if i < n {
      OneBitOff(i - 1, n - 1, f);
    }
  }

  /** With its last edge the frame leaves the line high. */
  lemma {:induction false} TxEnds(tx: Transmitter, mode: byte, value: byte, edges: nat)
    requires !Synchronous(mode) && TxGoing(tx, mode, value, edges) && edges == |Levels(mode, value)|
    ensures TxQuiet(tx, mode)
  {
    AllOut(tx.index, |tx.frame|, BaudFactor(mode), tx.clockCount);
    FrameSize(mode, value);
  }

  lemma {:induction false} TxStarts(tx: Transmitter, mode: byte, value: byte)
    requires !Synchronous(mode) && BaudFactor(mode) > 1 && TxQuiet(tx, mode) && Due(tx, mode) && tx.buffer == Some(value)
    ensures var t := TxNext(tx, mode);
            TxGoing(t, mode, value, 1) && t.buffer == None && 1 < |Levels(mode, value)| && t.txdHigh == Levels(mode, value)[0]
  {
    FrameSize(mode, value);
    LevelAt(Frame(mode, value), BaudFactor(mode), 0, 1);
    LevelAt(Frame(mode, value), BaudFactor(mode), 0, 0);
    StartsFrame(tx, mode, value, TxNext(tx, mode));
  }

  lemma {:induction false} TxStaysQuiet(tx: Transmitter, mode: byte)
    requires !Synchronous(mode) && TxQuiet(tx, mode) && !(Due(tx, mode) && tx.buffer.Some?)
    ensures TxQuiet(TxNext(tx, mode), mode) && TxNext(tx, mode).buffer == tx.buffer
  {
  }

  // ---------------------------------------------------------------- the receiver, edge by edge

  /** What the receiver has heard so far. */
  ghost predicate Hears(s: Sampler, mode: byte, value: byte, edges: nat, heard: Sampler) {
    heard.phase == Idle && edges <= |Levels(mode, value)| && s == SamplerRun(heard, mode, Levels(mode, value)[..edges]).0
  }

  lemma {:induction false} OneLevelMore(levels: seq<bool>, n: nat)
    requires n < |levels|
    ensures levels[..n + 1] == levels[..n] + [levels[n]]
  {
  }

  lemma {:induction false} EventAt(s: Sampler, mode: byte, levels: seq<bool>, n: nat)
    requires n < |levels|
    ensures var (t, event) := AsyncEdge(SamplerRun(s, mode, levels[..n]).0, mode, levels[n]);
            t == SamplerRun(s, mode, levels[..n + 1]).0 && event == SamplerRun(s, mode, levels).1[n]
  {
    var t := SamplerRun(s, mode, levels[..n]).0;
    OneLevelMore(levels, n);
    RunConcat(s, mode, levels[..n], [levels[n]]);
    OneEdge(t, mode, levels[n]);
    assert levels == levels[..n + 1] + levels[n + 1..];
    RunConcat(s, mode, levels[..n + 1], levels[n + 1..]);
  }

  /** The next edge completes the character exactly at the completion edge. */
  lemma {:induction false} HearsOn(s: Sampler, mode: byte, value: byte, edges: nat, heard: Sampler)
    requires !Synchronous(mode) && BaudFactor(mode) > 1 && value < Pow2(CharacterBits(mode))
    requires Hears(s, mode, value, edges, heard) && edges < |Levels(mode, value)|
    ensures var (t, event) := AsyncEdge(s, mode, Levels(mode, value)[edges]);
            && Hears(t, mode, value, edges + 1, heard)
            && event == if edges == CompletionEdge(mode) then Some(Received(value, false, false)) else None
  {
    EventAt(heard, mode, Levels(mode, value), edges);
    FrameDelivers(heard, mode, value);
    DivModUnique(value, Pow2(CharacterBits(mode)), 0, value);
  }

  lemma {:induction false} HearsAll(s: Sampler, mode: byte, value: byte, edges: nat, heard: Sampler)
    requires !Synchronous(mode) && BaudFactor(mode) > 1
    requires Hears(s, mode, value, edges, heard) && edges == |Levels(mode, value)|
    ensures s.phase == Idle && CompletionEdge(mode) < edges
  {
    FrameDelivers(heard, mode, value);
    assert Levels(mode, value)[..edges] == Levels(mode, value);
  }

  // ---------------------------------------------------------------- both

  /** The two UARTs agree with the wire between them. */
  ghost predicate Linked(p: Pair, mode: byte, w: Wire) {
    && Wired(p, mode) && (p.sender.tx.buffer.Some? ==> p.sender.tx.buffer.value < Pow2(CharacterBits(mode)))
    && OnLine(p.sender.tx, p.receiver.sampler, mode, w)
  }

  ghost predicate OnLine(tx: Transmitter, s: Sampler, mode: byte, w: Wire) {
    match w
    case Quiet => TxQuiet(tx, mode) && s.phase == Idle
    case Going(value, edges, heard) =>
      && value < Pow2(CharacterBits(mode)) && edges < |Levels(mode, value)|
      && TxGoing(tx, mode, value, edges) && Hears(s, mode, value, edges, heard)
  }

  /** From one moment to another: some bytes have been read, some written, and nothing is lost, added or
      changed on the way, nor is an error flag. */
  ghost predicate Kept(p: Pair, mode: byte, w: Wire, q: Pair, v: Wire, taken: seq<nat>, sent: seq<nat>) {
    && Linked(q, mode, v) && SameFlags(p.receiver.data, q.receiver.data)
    && taken + UnderWay(q, mode, v) == UnderWay(p, mode, w) + sent
  }

  lemma {:induction false} Chained(start: seq<nat>, a: seq<nat>, b: seq<nat>, middle: seq<nat>, c: seq<nat>, d: seq<nat>,
                                   end: seq<nat>)
    requires a + middle == start + b && c + end == middle + d
    ensures (a + c) + end == start + (b + d)
  {
    assert (a + c) + end == a + (c + end);
    assert a + (middle + d) == (a + middle) + d;
    assert (start + b) + d == start + (b + d);
  }

  lemma {:induction false} KeptTwice(p: Pair, mode: byte, w: Wire, q: Pair, v: Wire, a: seq<nat>, b: seq<nat>,
                                     r: Pair, u: Wire, c: seq<nat>, d: seq<nat>)
    requires Kept(p, mode, w, q, v, a, b) && Kept(q, mode, v, r, u, c, d)
    ensures Kept(p, mode, w, r, u, a + c, b + d)
  {
    Chained(UnderWay(p, mode, w), a, b, UnderWay(q, mode, v), c, d, UnderWay(r, mode, u));
  }

  lemma {:induction false} SendKeeps(p: Pair, mode: byte, w: Wire, value: byte)
    requires Linked(p, mode, w) && p.sender.tx.buffer == None
    ensures Kept(p, mode, w, Acted(p, Send(value)).0, w, [], Sent(mode, Send(value)))
  {
    var q := Acted(p, Send(value)).0;
    assert q.sender == p.sender.(tx := p.sender.tx.(buffer := Some(value % Pow2(CharacterBits(mode)))));
  }

  lemma {:induction false} PollMoves(q: Pair, mode: byte, v: Wire, r: Pair, took: seq<nat>)
    requires Linked(q, mode, v)
    requires if took == [] then r == q
             else q.receiver.data.ready && took == [q.receiver.data.buffer]
                  && r == q.(receiver := q.receiver.(data := q.receiver.data.(ready := false)))
    ensures Linked(r, mode, v) && SameFlags(q.receiver.data, r.receiver.data)
    ensures took + UnderWay(r, mode, v) == UnderWay(q, mode, v)
  {
    Associates(L.Waiting(q.receiver.data), OnWire(mode, v), Buffered(q.sender.tx));
    Associates(L.Waiting(r.receiver.data), OnWire(mode, v), Buffered(r.sender.tx));
    Associates(took, L.Waiting(r.receiver.data), OnWire(mode, v) + Buffered(r.sender.tx));
    assert took + L.Waiting(r.receiver.data) == L.Waiting(q.receiver.data);
  }

  /** What the processor takes leaves the line alone. */
  lemma {:induction false} PollKeeps(p: Pair, mode: byte, w: Wire, q: Pair, v: Wire, poll: bool, r: Pair, took: seq<nat>)
    requires q == PairEdge(p) && Kept(p, mode, w, q, v, [], []) && (r, took) == PolledEdge(p, poll)
    ensures Kept(p, mode, w, r, v, took, [])
  {
    PollMoves(q, mode, v, r, took);
    assert [] + UnderWay(q, mode, v) == UnderWay(q, mode, v);
  }

  /** One edge of both: the transmitter and the sampler go on, and a character that is complete is
      deposited. */
  ghost predicate EdgeIs(p: Pair, mode: byte, q: Pair, event: Option<Received>) {
    && Wired(q, mode)
    && q.sender.tx == TxNext(p.sender.tx, mode)
    && (q.receiver.sampler, event) == AsyncEdge(p.receiver.sampler, mode, q.sender.tx.txdHigh)
    && q.receiver.data == if event.Some? then Deposit(p.receiver.data, mode, event.value) else p.receiver.data
  }

  lemma {:induction false} EdgeInParts(p: Pair, mode: byte) returns (event: Option<Received>)
    requires Wired(p, mode)
    ensures EdgeIs(p, mode, PairEdge(p), event) && (event.Some? <==> Completes(p, mode))
  {
    OnePairEdge(p, mode);
    SendsAlone(p.sender);
    event := AsyncEdge(p.receiver.sampler, mode, PairEdge(p).sender.tx.txdHigh).1;
  }

  lemma {:induction false} NoCharacter(p: Pair, mode: byte, w: Wire, q: Pair, v: Wire)
    requires Linked(q, mode, v) && q.receiver.data == p.receiver.data
    requires OnWire(mode, w) + Buffered(p.sender.tx) == OnWire(mode, v) + Buffered(q.sender.tx)
    ensures Kept(p, mode, w, q, v, [], [])
  {
    Associates(L.Waiting(p.receiver.data), OnWire(mode, w), Buffered(p.sender.tx));
    Associates(L.Waiting(q.receiver.data), OnWire(mode, v), Buffered(q.sender.tx));
  }

  lemma {:induction false} Associates(a: seq<nat>, b: seq<nat>, c: seq<nat>)
    ensures a + b + c == a + (b + c)
  {
  }

  lemma {:induction false} QuietEdge(p: Pair, mode: byte, q: Pair, event: Option<Received>)
    requires Linked(p, mode, Quiet) && EdgeIs(p, mode, q, event)
    ensures Kept(p, mode, Quiet, q, NextWire(p, mode, Quiet), [], [])
  {
    var tx := p.sender.tx;
    var v := NextWire(p, mode, Quiet);
    if v.Going? {
      TxStarts(tx, mode, v.value);
      assert Levels(mode, v.value)[..0] == [];
      HearsOn(p.receiver.sampler, mode, v.value, 0, p.receiver.sampler);
    } else {
      TxStaysQuiet(tx, mode);
    }
    NoCharacter(p, mode, Quiet, q, v);
  }

  /** The frame goes on by one edge, and ends with its last. */
  lemma {:induction false} GoingMoves(p: Pair, mode: byte, w: Wire, q: Pair, event: Option<Received>)
    requires w.Going? && Linked(p, mode, w) && EdgeIs(p, mode, q, event)
    ensures Linked(q, mode, NextWire(p, mode, w)) && Buffered(q.sender.tx) == Buffered(p.sender.tx)
    ensures event == if w.edges == CompletionEdge(mode) then Some(Received(w.value, false, false)) else None
    ensures OnWire(mode, NextWire(p, mode, w)) == if w.edges < CompletionEdge(mode) then [w.value] else []
  {
    TxGoesOn(p.sender.tx, mode, w.value, w.edges);
    HearsOn(p.receiver.sampler, mode, w.value, w.edges, w.heard);
    if w.edges + 1 == |Levels(mode, w.value)| {
      TxEnds(q.sender.tx, mode, w.value, w.edges + 1);
      HearsAll(q.receiver.sampler, mode, w.value, w.edges + 1, w.heard);
    }
  }

  lemma {:induction false} CharacterComes(p: Pair, mode: byte, w: Wire, q: Pair, v: Wire, value: nat)
    requires Linked(q, mode, v) && SameFlags(p.receiver.data, q.receiver.data)
    requires L.Waiting(p.receiver.data) == [] && OnWire(mode, w) == [value]
    requires L.Waiting(q.receiver.data) == [value] && OnWire(mode, v) == []
    requires Buffered(q.sender.tx) == Buffered(p.sender.tx)
    ensures Kept(p, mode, w, q, v, [], [])
  {
  }

  /** A completed character finds the data register empty. */
  lemma {:induction false} Deposited(d: RxData, mode: byte, value: nat)
    requires !d.ready && value < Pow2(CharacterBits(mode))
    ensures var e := Deposit(d, mode, Received(value, false, false));
            SameFlags(d, e) && L.Waiting(e) == [value] && L.Waiting(d) == []
  {
    DivModUnique(value, Pow2(CharacterBits(mode)), 0, value);
  }

  lemma {:induction false} GoingEdge(p: Pair, mode: byte, w: Wire, q: Pair, event: Option<Received>)
    requires w.Going? && Linked(p, mode, w) && EdgeIs(p, mode, q, event) && (event.Some? ==> !p.receiver.data.ready)
    ensures Kept(p, mode, w, q, NextWire(p, mode, w), [], [])
  {
    var v := NextWire(p, mode, w);
    GoingMoves(p, mode, w, q, event);
    if event.Some? {
      Deposited(p.receiver.data, mode, w.value);
      CharacterComes(p, mode, w, q, v, w.value);
    } else {
      NoCharacter(p, mode, w, q, v);
    }
  }

  lemma {:induction false} EdgeKeeps(p: Pair, mode: byte, w: Wire)
    requires Linked(p, mode, w) && (Completes(p, mode) ==> !p.receiver.data.ready)
    ensures Kept(p, mode, w, PairEdge(p), NextWire(p, mode, w), [], [])
  {
    var event := EdgeInParts(p, mode);
    if w.Quiet? {
      QuietEdge(p, mode, PairEdge(p), event);
    } else {
      GoingEdge(p, mode, w, PairEdge(p), event);
    }
  }

  lemma {:induction false} ActionKeeps(p: Pair, mode: byte, w: Wire, a: Action)
    requires Linked(p, mode, w) && InTime(p, mode, [a])
    ensures Kept(p, mode, w, Acted(p, a).0, if a.Edge? then NextWire(p, mode, w) else w, Acted(p, a).1, Sent(mode, a))
  {
    match a
    case Edge(poll) =>
      EdgeKeeps(p, mode, w);
      PollKeeps(p, mode, w, PairEdge(p), NextWire(p, mode, w), poll, PolledEdge(p, poll).0, PolledEdge(p, poll).1);
    case Send(value) => SendKeeps(p, mode, w, value);
  }

  /** Whatever moment a run ends at: what the one processor has written, the other one has read, or it is
      received, on the wire or buffered; in order, cut to the character size, with no error and no
      overrun.  Bytes may be written whenever the buffer is empty, also while a frame is going out, so
      that one frame follows the other without a pause. */
  lemma {:induction false} LinkKeepsTheStream(p: Pair, mode: byte, w: Wire, actions: seq<Action>)
    requires Linked(p, mode, w) && InTime(p, mode, actions)
    ensures Kept(p, mode, w, StreamRun(p, actions).0, WireAfter(p, mode, w, actions),
                 StreamRun(p, actions).1, AllSent(mode, actions))
    decreases actions
  {
    if actions == [] {
      assert [] + UnderWay(p, mode, w) == UnderWay(p, mode, w) + [];
    } else {
      var a, rest := actions[0], actions[1..];
      ActionKeeps(p, mode, w, a);
      var (q, took) := Acted(p, a);
      var v := if a.Edge? then NextWire(p, mode, w) else w;
      LinkKeepsTheStream(q, mode, v, rest);
      KeptTwice(p, mode, w, q, v, took, Sent(mode, a),
                StreamRun(q, rest).0, WireAfter(q, mode, v, rest), StreamRun(q, rest).1, AllSent(mode, rest));
    }
  }

  /** From rest to rest everything written has been received. */
  lemma {:induction false} RestToRest(p: Pair, mode: byte, actions: seq<Action>, q: Pair, taken: seq<nat>)
    requires BothResting(p, mode) && InTime(p, mode, actions) && (q, taken) == StreamRun(p, actions)
    requires WireAfter(p, mode, Quiet, actions) == Quiet && q.sender.tx.buffer == None
    ensures SameFlags(p.receiver.data, q.receiver.data)
    ensures taken + L.Waiting(q.receiver.data) == L.Waiting(p.receiver.data) + AllSent(mode, actions)
  {
    LinkKeepsTheStream(p, mode, Quiet, actions);
    OnlyWaiting(p, mode);
    OnlyWaiting(q, mode);
  }

  lemma {:induction false} OnlyWaiting(p: Pair, mode: byte)
    requires p.sender.tx.buffer == None
    ensures UnderWay(p, mode, Quiet) == L.Waiting(p.receiver.data)
  {
    var waiting := L.Waiting(p.receiver.data);
    assert waiting + [] == waiting && waiting + [] + [] == waiting;
  }
}
