/** What goes over the wire comes back: the sampler undoes the framer, at 16 and 64 clock edges
    per bit, for every asynchronous mode. */
module UartWire {
  import opened Bytes
  import opened Wrappers
  import opened Uart8251

  // ---------------------------------------------------------------- lines and samplers

  function Repeat(level: bool, n: nat): (levels: seq<bool>)
    ensures |levels| == n && forall i :: 0 <= i < n ==> levels[i] == level
  {
    seq(n, _ => level)
  }

  /** Every bit held for `f` edges. */
  function Stretch(bits: seq<bool>, f: nat): (levels: seq<bool>)
    ensures |levels| == |bits| * f
  {
    if bits == [] then [] else Repeat(bits[0], f) + Stretch(bits[1..], f)
  }

  /** The sampler over a stretch of line, and what it puts out at each edge. */
  function SamplerRun(s: Sampler, mode: byte, levels: seq<bool>): (result: (Sampler, seq<Option<Received>>))
    ensures |result.1| == |levels|
    decreases levels
  {
    if levels == [] then (s, [])
    else
      var (t, event) := AsyncEdge(s, mode, levels[0]);
      var (u, events) := SamplerRun(t, mode, levels[1..]);
      (u, [event] + events)
  }

  function Nothing(n: nat): (events: seq<Option<Received>>)
    ensures |events| == n && forall i :: 0 <= i < n ==> events[i] == None
  {
    seq(n, _ => None)
  }

  /** One character, without an error, at edge `at` of `n`. */
  function OneCharacter(at: nat, value: nat, n: nat): (events: seq<Option<Received>>)
    requires at < n
    ensures |events| == n
  {
    Nothing(at) + [Some(Received(value, false, false))] + Nothing(n - at - 1)
  }

  ghost predicate Delivers(s: Sampler, mode: byte, levels: seq<bool>, at: nat, value: nat) {
    && at < |levels|
    && SamplerRun(s, mode, levels).0.phase == Idle
    && SamplerRun(s, mode, levels).1 == OneCharacter(at, value, |levels|)
  }

  lemma {:induction false} RunConcat(s: Sampler, mode: byte, a: seq<bool>, b: seq<bool>)
    ensures var (t, first) := SamplerRun(s, mode, a);
            var (u, second) := SamplerRun(t, mode, b);
            SamplerRun(s, mode, a + b) == (u, first + second)
    decreases a
  {
    if a == [] {
      assert a + b == b;
      assert SamplerRun(s, mode, a) == (s, []);
      var second := SamplerRun(s, mode, b).1;
      assert [] + second == second;
    } else {
      var t := AsyncEdge(s, mode, a[0]).0;
      RunConcat(t, mode, a[1..], b);
      RunJoin(s, mode, a, b, t);
    }
  }

  lemma {:induction false} RunJoin(s: Sampler, mode: byte, a: seq<bool>, b: seq<bool>, t: Sampler)
    requires a != [] && t == AsyncEdge(s, mode, a[0]).0
    requires var (u, first) := SamplerRun(t, mode, a[1..]);
             var (w, second) := SamplerRun(u, mode, b);
             SamplerRun(t, mode, a[1..] + b) == (w, first + second)
    ensures var (u, first) := SamplerRun(s, mode, a);
            var (w, second) := SamplerRun(u, mode, b);
            SamplerRun(s, mode, a + b) == (w, first + second)
  {
    assert (a + b)[1..] == a[1..] + b && (a + b)[0] == a[0];
    RunFirst(s, mode, a);
    RunFirst(s, mode, a + b);
    var (u, first) := SamplerRun(t, mode, a[1..]);
    var second := SamplerRun(u, mode, b).1;
    var event := AsyncEdge(s, mode, a[0]).1;
    assert [event] + (first + second) == ([event] + first) + second;
  }

  lemma {:induction false} RunFirst(s: Sampler, mode: byte, levels: seq<bool>)
    requires levels != []
    ensures var (t, event) := AsyncEdge(s, mode, levels[0]);
            var (u, events) := SamplerRun(t, mode, levels[1..]);
            SamplerRun(s, mode, levels) == (u, [event] + events)
  {
  }

  /** A quiet stretch before a delivery only delays it. */
  lemma {:induction false} Delayed(s: Sampler, mode: byte, quiet: seq<bool>, levels: seq<bool>, at: nat, value: nat)
    requires SamplerRun(s, mode, quiet).1 == Nothing(|quiet|)
    requires Delivers(SamplerRun(s, mode, quiet).0, mode, levels, at, value)
    ensures Delivers(s, mode, quiet + levels, |quiet| + at, value)
  {
    RunConcat(s, mode, quiet, levels);
    assert Nothing(|quiet|) + OneCharacter(at, value, |levels|)
        == OneCharacter(|quiet| + at, value, |quiet| + |levels|);
  }

  /** Between two samples nothing happens but counting down. */
  lemma {:induction false} Waiting(s: Sampler, mode: byte, levels: seq<bool>)
    requires s.phase != Idle && |levels| < s.clockCount
    ensures SamplerRun(s, mode, levels) == (s.(clockCount := s.clockCount - |levels|), Nothing(|levels|))
    decreases levels
  {
    if levels != [] {
      Waiting(s.(clockCount := s.clockCount - 1), mode, levels[1..]);
      assert [None] + Nothing(|levels| - 1) == Nothing(|levels|);
    }
  }

  /** An idle receiver stays idle on a line at rest. */
  lemma {:induction false} AtRest(s: Sampler, mode: byte, n: nat)
    requires s.phase == Idle
    ensures SamplerRun(s, mode, Repeat(true, n)) == (s, Nothing(n))
  {
    if n != 0 {
      AtRest(s, mode, n - 1);
      assert Repeat(true, n)[1..] == Repeat(true, n - 1);
      assert [None] + Nothing(n - 1) == Nothing(n);
    }
  }

  /** A whole bit time that ends in the middle of a bit: one sample, of its last level. */
  lemma {:induction false} Window(s: Sampler, mode: byte, levels: seq<bool>, t: Sampler, event: Option<Received>)
    requires s.phase != Idle && s.clockCount == |levels| >= 1
    requires SampleAsync(s.(clockCount := BaudFactor(mode)), mode, levels[|levels| - 1]) == (t, event)
    ensures SamplerRun(s, mode, levels) == (t, Nothing(|levels| - 1) + [event])
  {
    var n := |levels| - 1;
    var high := levels[n];
    assert levels == levels[..n] + [high];
    Waiting(s, mode, levels[..n]);
    RunConcat(s, mode, levels[..n], [high]);
    OneEdge(s.(clockCount := 1), mode, high);
  }

  lemma {:induction false} OneEdge(s: Sampler, mode: byte, high: bool)
    ensures SamplerRun(s, mode, [high]) == (AsyncEdge(s, mode, high).0, [AsyncEdge(s, mode, high).1])
  {
    var (t, event) := AsyncEdge(s, mode, high);
    assert SamplerRun(t, mode, []) == (t, []);
    assert [high][1..] == [];
    assert [event] + [] == [event];
  }

  /** A sample that moves the receiver on without finishing a character. */
  ghost predicate Quiet(s: Sampler, mode: byte, high: bool, t: Sampler) {
    SampleAsync(s, mode, high) == (t, None)
  }

  // ---------------------------------------------------------------- from middle to middle

  /** The levels after the middle of a bit at level `b`, when `bits` follow. */
  function FromMiddle(b: bool, bits: seq<bool>, f: nat): (levels: seq<bool>)
    requires f >= 2
    ensures |levels| == f / 2 - 1 + |bits| * f
  {
    Repeat(b, f / 2 - 1) + Stretch(bits, f)
  }

  /** Up to the middle of the next bit, and on from there. */
  function ToMiddle(b: bool, c: bool, f: nat): (levels: seq<bool>)
    requires f >= 2
    ensures |levels| == f / 2 - 1 + f / 2 + 1 && levels[|levels| - 1] == c
  {
    Repeat(b, f / 2 - 1) + Repeat(c, f / 2 + 1)
  }

  lemma {:induction false} MiddleToMiddle(b: bool, bits: seq<bool>, f: nat)
    requires f >= 2 && f % 2 == 0 && bits != []
    ensures FromMiddle(b, bits, f) == ToMiddle(b, bits[0], f) + FromMiddle(bits[0], bits[1..], f)
  {
    RepeatTwice(bits[0], f / 2 + 1, f / 2 - 1, f);
    Regroup(Repeat(b, f / 2 - 1), Repeat(bits[0], f / 2 + 1), Repeat(bits[0], f / 2 - 1), Stretch(bits[1..], f));
  }

  lemma {:induction false} RepeatTwice(level: bool, m: nat, n: nat, k: nat)
    requires k == m + n
    ensures Repeat(level, k) == Repeat(level, m) + Repeat(level, n)
  {
  }

  lemma {:induction false} Regroup(a: seq<bool>, b: seq<bool>, c: seq<bool>, d: seq<bool>)
    ensures a + ((b + c) + d) == (a + b) + (c + d)
  {
  }

  /** One sample that does not finish the character. */
  lemma {:induction false} NextBit(s: Sampler, mode: byte, b: bool, bits: seq<bool>, t: Sampler, at: nat, value: nat)
    requires BaudFactor(mode) > 1 && s.phase != Idle && s.clockCount == BaudFactor(mode) && bits != []
    requires Quiet(s, mode, bits[0], t)
    requires Delivers(t, mode, FromMiddle(bits[0], bits[1..], BaudFactor(mode)), at, value)
    ensures Delivers(s, mode, FromMiddle(b, bits, BaudFactor(mode)), BaudFactor(mode) + at, value)
  {
    MiddleToMiddle(b, bits, BaudFactor(mode));
    QuietWindow(s, mode, ToMiddle(b, bits[0], BaudFactor(mode)), t);
    Delayed(s, mode, ToMiddle(b, bits[0], BaudFactor(mode)), FromMiddle(bits[0], bits[1..], BaudFactor(mode)), at, value);
  }

  lemma {:induction false} QuietWindow(s: Sampler, mode: byte, window: seq<bool>, t: Sampler)
    requires s.phase != Idle && s.clockCount == BaudFactor(mode) == |window| >= 1
    requires Quiet(s, mode, window[|window| - 1], t)
    ensures SamplerRun(s, mode, window) == (t, Nothing(|window|))
  {
    assert s.(clockCount := BaudFactor(mode)) == s;
    Window(s, mode, window, t, None);
    assert Nothing(|window| - 1) + [None] == Nothing(|window|);
  }

  // ---------------------------------------------------------------- the fields of a frame

  lemma {:induction false} StretchHigh(n: nat, f: nat)
    ensures Stretch(StopLevels(n), f) == Repeat(true, n * f)
  {
    if n != 0 {
      StretchHigh(n - 1, f);
      assert StopLevels(n)[1..] == StopLevels(n - 1);
      assert n * f == f + (n - 1) * f;
    }
  }

  /** In the stop phase, with stop bits ahead: the character comes at the middle of the first. */
  lemma {:induction false} StopField(s: Sampler, mode: byte, b: bool, stops: nat)
    requires BaudFactor(mode) > 1 && s.phase == Stop && s.clockCount == BaudFactor(mode) && stops >= 1
    requires !s.pendingParityError
    ensures Delivers(s, mode, FromMiddle(b, StopLevels(stops), BaudFactor(mode)), BaudFactor(mode) - 1, s.shift)
  {
    var f := BaudFactor(mode);
    var bits := StopLevels(stops);
    MiddleToMiddle(b, bits, f);
    var window := ToMiddle(b, true, f);
    var idle := s.(phase := Idle);
    assert s.(clockCount := f) == s;
    Window(s, mode, window, idle, Some(Received(s.shift, false, false)));
    assert bits[1..] == StopLevels(stops - 1);
    StretchHigh(stops - 1, f);
    var rest: nat := f / 2 - 1 + (stops - 1) * f;
    var tail := FromMiddle(true, bits[1..], f);
    assert tail == Repeat(true, rest);
    AtRest(idle, mode, rest);
    RunConcat(s, mode, window, tail);
    assert Nothing(f - 1) + [Some(Received(s.shift, false, false))] + Nothing(rest)
        == OneCharacter(f - 1, s.shift, f + rest);
  }

  /** Where the character comes, counted from the middle of a bit, when `n` more bits precede
      the stop bits. */
  function CharacterAt(n: nat, f: nat): (at: nat)
    requires f >= 1
  {
    if n == 0 then f - 1 else f + CharacterAt(n - 1, f)
  }

  lemma {:induction false} CharacterAtClosed(n: nat, f: nat)
    requires f >= 1
    ensures CharacterAt(n, f) == n * f + f - 1
  {
    if n != 0 {
      CharacterAtClosed(n - 1, f);
      assert n * f == (n - 1) * f + f;
    }
  }

  /** The levels of parity and stop bits. */
  function Trailer(mode: byte, ones: nat): seq<bool> {
    (if ParityEnabled(mode) then [ParityBit(mode, ones)] else []) + StopLevels(StopBits(mode))
  }

  function ParityBits(mode: byte): nat { if ParityEnabled(mode) then 1 else 0 }

  lemma {:induction false} TrailerField(s: Sampler, mode: byte, b: bool)
    requires BaudFactor(mode) > 1 && s.clockCount == BaudFactor(mode)
    requires s.phase == if ParityEnabled(mode) then Parity else Stop
    requires !s.pendingParityError
    ensures Delivers(s, mode, FromMiddle(b, Trailer(mode, s.parityOnes), BaudFactor(mode)),
                     CharacterAt(ParityBits(mode), BaudFactor(mode)), s.shift)
  {
    var bits := Trailer(mode, s.parityOnes);
    if ParityEnabled(mode) {
      var t := s.(phase := Stop);
      assert bits[1..] == StopLevels(StopBits(mode));
      StopField(t, mode, bits[0], StopBits(mode));
      NextBit(s, mode, b, bits, t, BaudFactor(mode) - 1, s.shift);
    } else {
      assert bits == StopLevels(StopBits(mode));
      StopField(s, mode, b, StopBits(mode));
    }
  }

  // ---------------------------------------------------------------- the value of a character

  /** The number made of the low `n` bits. */
  function LowBits(value: nat, n: nat): nat {
    if n == 0 then 0 else LowBits(value, n - 1) + if BitAt(value, n - 1) then Pow2(n - 1) else 0
  }

  lemma {:induction false} SmallHasNoBit(value: nat, n: nat)
    requires value < Pow2(n)
    ensures !BitAt(value, n)
  {
    if n != 0 {
      SmallHasNoBit(value / 2, n - 1);
    }
  }

  lemma {:induction false} LowBitsPeel(value: nat, n: nat)
    ensures LowBits(value, n + 1) == value % 2 + 2 * LowBits(value / 2, n)
  {
    if n != 0 {
      LowBitsPeel(value, n - 1);
    }
  }

  lemma {:induction false} LowBitsIsRemainder(value: nat, n: nat)
    ensures LowBits(value, n) == value % Pow2(n)
    decreases n
  {
    if n != 0 {
      LowBitsPeel(value, n - 1);
      LowBitsIsRemainder(value / 2, n - 1);
      RemainderPeel(value, Pow2(n - 1));
    }
  }

  lemma {:induction false} RemainderPeel(value: nat, p: nat)
    requires p > 0
    ensures value % (2 * p) == value % 2 + 2 * (value / 2 % p)
  {
    var q, r := value / 2 / p, value / 2 % p;
    assert value / 2 == q * p + r;
    assert q * (2 * p) == 2 * (q * p);
    DivModUnique(value, 2 * p, q, 2 * r + value % 2);
  }

  lemma {:induction false} CollectNext(value: nat, i: nat)
    ensures OrBit(LowBits(value, i), i) == LowBits(value, i) + Pow2(i)
  {
    LowBitsIsRemainder(value, i);
    SmallHasNoBit(LowBits(value, i), i);
  }

  // ---------------------------------------------------------------- data bits

  /** In the data phase with `i` bits taken. */
  ghost predicate Taking(s: Sampler, mode: byte, value: nat, i: nat) {
    && s.phase == Data && s.clockCount == BaudFactor(mode) && !s.pendingParityError
    && s.bitIndex == i && s.shift == LowBits(value, i) && s.parityOnes == Ones(DataBits(value, i))
  }

  /** Data bits from the `i`th on, and the trailer. */
  function Body(mode: byte, value: nat, i: nat): seq<bool>
    requires i <= CharacterBits(mode)
  {
    var data := DataBits(value, CharacterBits(mode));
    data[i..] + Trailer(mode, Ones(data))
  }

  lemma {:induction false} CollectOne(s: Sampler, mode: byte, value: nat, i: nat)
    requires Taking(s, mode, value, i)
    ensures Collected(s, BitAt(value, i))
         == Sampler(Data, LowBits(value, i + 1), i + 1, Ones(DataBits(value, i + 1)), s.clockCount, false)
  {
    CollectNext(value, i);
    DataBitsNext(value, i);
    OnesAppend(DataBits(value, i), BitAt(value, i));
  }

  lemma {:induction false} TakeOne(s: Sampler, mode: byte, value: nat, i: nat) returns (t: Sampler)
    requires i < CharacterBits(mode) && Taking(s, mode, value, i)
    ensures Quiet(s, mode, BitAt(value, i), t)
    ensures t == Sampler(t.phase, LowBits(value, i + 1), i + 1, Ones(DataBits(value, i + 1)), s.clockCount, false)
    ensures t.phase == if i + 1 < CharacterBits(mode) then Data
                       else if ParityEnabled(mode) then Parity else Stop
  {
    CollectOne(s, mode, value, i);
    t := SampleAsync(s, mode, BitAt(value, i)).0;
  }

  lemma {:induction false} DataStep(s: Sampler, mode: byte, value: nat, i: nat, b: bool, t: Sampler, at: nat, character: nat)
    requires BaudFactor(mode) > 1 && i < CharacterBits(mode) && Taking(s, mode, value, i)
    requires Quiet(s, mode, BitAt(value, i), t)
    requires Delivers(t, mode, FromMiddle(BitAt(value, i), Body(mode, value, i + 1), BaudFactor(mode)), at, character)
    ensures Delivers(s, mode, FromMiddle(b, Body(mode, value, i), BaudFactor(mode)), BaudFactor(mode) + at, character)
  {
    BodyStep(mode, value, i);
    NextBit(s, mode, b, Body(mode, value, i), t, at, character);
  }

  lemma {:induction false} OneBitLater(bits: nat, factor: nat)
    requires bits >= 1 && factor >= 1
    ensures CharacterAt(bits, factor) == factor + CharacterAt(bits - 1, factor)
  {
  }

  lemma {:induction false} DataFieldStep(s: Sampler, mode: byte, value: nat, i: nat, b: bool, t: Sampler,
                                         n: nat, character: nat)
    requires BaudFactor(mode) > 1 && n >= 1 && i < CharacterBits(mode) && Taking(s, mode, value, i)
    requires Quiet(s, mode, BitAt(value, i), t)
    requires Delivers(t, mode, FromMiddle(BitAt(value, i), Body(mode, value, i + 1), BaudFactor(mode)),
                      CharacterAt(n - 1, BaudFactor(mode)), character)
    ensures Delivers(s, mode, FromMiddle(b, Body(mode, value, i), BaudFactor(mode)),
                     CharacterAt(n, BaudFactor(mode)), character)
  {
    OneBitLater(n, BaudFactor(mode));
    DataStep(s, mode, value, i, b, t, CharacterAt(n - 1, BaudFactor(mode)), character);
  }

  /** The last data bit, and the trailer after it. */
  lemma {:induction false} LastDataBit(s: Sampler, mode: byte, value: nat, i: nat, b: bool, n: nat, character: nat)
    requires BaudFactor(mode) > 1 && i + 1 == CharacterBits(mode) && Taking(s, mode, value, i)
    requires n == 1 + ParityBits(mode) && character == LowBits(value, i + 1)
    ensures Delivers(s, mode, FromMiddle(b, Body(mode, value, i), BaudFactor(mode)),
                     CharacterAt(n, BaudFactor(mode)), character)
  {
    var t := TakeOne(s, mode, value, i);
    TrailerField(t, mode, BitAt(value, i));
    BodyEnd(mode, value, i);
    DataFieldStep(s, mode, value, i, b, t, n, character);
  }

  lemma {:induction false} BodyEnd(mode: byte, value: nat, i: nat)
    requires i + 1 == CharacterBits(mode)
    ensures Body(mode, value, i + 1) == Trailer(mode, Ones(DataBits(value, i + 1)))
  {
  }

  /** With `k` data bits to go, on the way to `character` after `n` bits. */
  ghost predicate ToTake(s: Sampler, mode: byte, value: nat, k: nat, n: nat, character: nat) {
    match k
    case 0 => false
    case _ =>
      && k <= CharacterBits(mode) && Taking(s, mode, value, CharacterBits(mode) - k)
      && n == k + ParityBits(mode) && character == LowBits(value, CharacterBits(mode))
  }

  lemma {:induction false} OneTaken(s: Sampler, mode: byte, value: nat, k: nat, n: nat, character: nat) returns (t: Sampler)
    requires k > 1 && ToTake(s, mode, value, k, n, character)
    ensures n > 0 && k <= CharacterBits(mode) && ToTake(t, mode, value, k - 1, n - 1, character)
    ensures Quiet(s, mode, BitAt(value, CharacterBits(mode) - k), t)
  {
    t := TakeOne(s, mode, value, CharacterBits(mode) - k);
  }

  lemma {:induction false} DataField(s: Sampler, mode: byte, value: nat, k: nat, b: bool, n: nat, character: nat)
    requires BaudFactor(mode) > 1 && k >= 1 && ToTake(s, mode, value, k, n, character)
    ensures k <= CharacterBits(mode)
    ensures Delivers(s, mode, FromMiddle(b, Body(mode, value, CharacterBits(mode) - k), BaudFactor(mode)),
                     CharacterAt(n, BaudFactor(mode)), character)
    decreases k
  {
    var i: nat := CharacterBits(mode) - k;
    if k == 1 {
      LastDataBit(s, mode, value, i, b, n, character);
    } else {
      var t := OneTaken(s, mode, value, k, n, character);
      DataField(t, mode, value, k - 1, BitAt(value, i), n - 1, character);
      DataFieldStep(s, mode, value, i, b, t, n, character);
    }
  }

  lemma {:induction false} BodyStep(mode: byte, value: nat, i: nat)
    requires i < CharacterBits(mode)
    ensures var bits := Body(mode, value, i);
            && bits != [] && bits[0] == BitAt(value, i) && bits[1..] == Body(mode, value, i + 1)
  {
  }

  // ---------------------------------------------------------------- a whole frame

  /** The edge of a frame at which its character is complete. */
  function CompletionEdge(mode: byte): nat {
    BaudFactor(mode) / 2 + (CharacterBits(mode) + ParityBits(mode) + 1) * BaudFactor(mode)
  }

  lemma {:induction false} FrameParts(mode: byte, value: nat)
    requires !Synchronous(mode)
    ensures Frame(mode, value) == [false] + Body(mode, value, 0)
  {
  }

  /** The levels up to the middle of the start bit. */
  function StartBit(f: nat): (levels: seq<bool>)
    ensures |levels| == f / 2 + 1
  {
    [false] + Repeat(false, f / 2)
  }

  /** A start bit takes an idle receiver to the first data bit. */
  lemma {:induction false} StartTaken(s: Sampler, mode: byte)
    requires BaudFactor(mode) > 1 && s.phase == Idle
    ensures SamplerRun(s, mode, StartBit(BaudFactor(mode)))
         == (Sampler(Data, 0, 0, 0, BaudFactor(mode), false), Nothing(BaudFactor(mode) / 2 + 1))
  {
    var f := BaudFactor(mode);
    var started := s.(phase := Start, clockCount := f / 2);
    Window(started, mode, Repeat(false, f / 2), Sampler(Data, 0, 0, 0, f, false), None);
    var head := StartBit(f);
    assert head[1..] == Repeat(false, f / 2);
    RunFirst(s, mode, head);
    assert [None] + (Nothing(f / 2 - 1) + [None]) == Nothing(f / 2 + 1);
  }

  lemma {:induction false} FrameLevels(mode: byte, value: nat)
    requires !Synchronous(mode) && BaudFactor(mode) > 1
    ensures var f := BaudFactor(mode);
            Stretch(Frame(mode, value), f) == StartBit(f) + FromMiddle(false, Body(mode, value, 0), f)
  {
    var f, body := BaudFactor(mode), Body(mode, value, 0);
    FrameParts(mode, value);
    assert Frame(mode, value)[1..] == body;
    assert Repeat(false, f) == StartBit(f) + Repeat(false, f / 2 - 1);
    var middle, rest := Repeat(false, f / 2 - 1), Stretch(body, f);
    assert (StartBit(f) + middle) + rest == StartBit(f) + (middle + rest);
  }

  /** From an idle receiver, a frame held for 16 or 64 edges a bit delivers exactly its
      character: no parity error, no framing error, at one fixed edge. */
  lemma {:induction false} FrameDelivers(s: Sampler, mode: byte, value: nat)
    requires !Synchronous(mode) && BaudFactor(mode) > 1 && s.phase == Idle
    ensures Delivers(s, mode, Stretch(Frame(mode, value), BaudFactor(mode)), CompletionEdge(mode),
                     value % Pow2(CharacterBits(mode)))
  {
    var n, f := CharacterBits(mode), BaudFactor(mode);
    FrameLevels(mode, value);
    StartTaken(s, mode);
    DataField(Sampler(Data, 0, 0, 0, f, false), mode, value, n, false, n + ParityBits(mode), LowBits(value, n));
    LowBitsIsRemainder(value, n);
    CompletionEdgeClosed(mode);
    Delayed(s, mode, StartBit(f), FromMiddle(false, Body(mode, value, 0), f),
            CharacterAt(n + ParityBits(mode), f), LowBits(value, n));
  }

  lemma {:induction false} CompletionEdgeClosed(mode: byte)
    ensures CompletionEdge(mode)
         == BaudFactor(mode) / 2 + 1 + CharacterAt(CharacterBits(mode) + ParityBits(mode), BaudFactor(mode))
  {
    var n, f := CharacterBits(mode) + ParityBits(mode), BaudFactor(mode);
    CharacterAtClosed(n, f);
    assert (n + 1) * f == n * f + f;
  }
}
