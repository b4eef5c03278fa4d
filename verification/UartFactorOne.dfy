/** One clock edge per bit, the factor at which a receiver does not work: the start bit is checked
    again one edge later, where data bit 0 already stands. */
module UartFactorOne {
  import opened Bytes
  import opened Wrappers
  import opened Uart8251
  import opened UartWire

  /** At factor one the repeated look at the start bit sees data bit 0: the receiver goes on exactly
      when that bit is low. */
  lemma {:induction false} StartAtFactorOne(s: Sampler, mode: byte, value: nat)
    requires mode % 4 == 1 && s.phase == Idle
    ensures var t := SamplerRun(s, mode, Frame(mode, value)[..2]).0;
            (t.phase == Data <==> value % 2 == 0) && (t.phase == Idle <==> value % 2 == 1)
  {
    FrameParts(mode, value);
    var bits := Frame(mode, value)[..2];
    assert bits[0] == false && bits[1] == BitAt(value, 0);
    var t := AsyncEdge(s, mode, false).0;
    var u := AsyncEdge(t, mode, bits[1]).0;
    assert bits[1..] == [bits[1]];
    OneEdge(t, mode, bits[1]);
  }

  // ---------------------------------------------------------------- the first character

  /** The first thing the sampler puts out is this character, at edge `at`. */
  ghost predicate ComesFirst(s: Sampler, mode: byte, levels: seq<bool>, at: nat, r: Received) {
    var events := SamplerRun(s, mode, levels).1;
    at < |levels| && events[at] == Some(r) && forall i :: 0 <= i < at ==> events[i].None?
  }

  lemma {:induction false} LaterEvents(s: Sampler, mode: byte, levels: seq<bool>, at: nat, r: Received, t: Sampler)
    requires levels != [] && AsyncEdge(s, mode, levels[0]) == (t, None) && ComesFirst(s, mode, levels, at, r)
    ensures at > 0 && ComesFirst(t, mode, levels[1..], at - 1, r)
  {
    RunFirst(s, mode, levels);
    var events := SamplerRun(s, mode, levels).1;
    assert forall i :: 0 <= i < |events| - 1 ==> events[1..][i] == events[i + 1];
  }

  /** The number whose bits these are, least significant first. */
  function Number(bits: seq<bool>): nat {
    if bits == [] then 0 else (if bits[0] then 1 else 0) + 2 * Number(bits[1..])
  }

  lemma {:induction false} NumberBit(bits: seq<bool>, i: nat)
    requires i < |bits|
    ensures BitAt(Number(bits), i) == bits[i]
    decreases bits
  {
    assert Number(bits) / 2 == Number(bits[1..]);
    if i > 0 {
      NumberBit(bits[1..], i - 1);
    }
  }

  lemma {:induction false} NumberIsSmall(bits: seq<bool>)
    ensures Number(bits) < Pow2(|bits|)
    decreases bits
  {
    if bits != [] {
      NumberIsSmall(bits[1..]);
    }
  }

  lemma {:induction false} RemainderBits(value: nat, n: nat, i: nat)
    requires i < n
    ensures BitAt(value % Pow2(n), i) == BitAt(value, i)
    decreases n
  {
    RemainderPeel(value, Pow2(n - 1));
    var rest := value / 2 % Pow2(n - 1);
    assert value % Pow2(n) == value % 2 + 2 * rest;
    assert value % Pow2(n) / 2 == rest;
    if i > 0 {
      RemainderBits(value / 2, n - 1, i - 1);
    }
  }

  lemma {:induction false} FirstEvent(s: Sampler, mode: byte, levels: seq<bool>, at: nat, r: Received)
    requires levels != [] && AsyncEdge(s, mode, levels[0]).1.Some?
    requires ComesFirst(s, mode, levels, at, r)
    ensures AsyncEdge(s, mode, levels[0]).1 == Some(r)
  {
    RunFirst(s, mode, levels);
    assert SamplerRun(s, mode, levels).1[0] == AsyncEdge(s, mode, levels[0]).1;
  }

  /** The levels go on with the data bits of `w` from the `i`th on. */
  ghost predicate Carries(levels: seq<bool>, w: nat, i: nat, n: nat) {
    forall j: nat :: j < |levels| && i + j < n ==> levels[j] == BitAt(w, i + j)
  }

  /** The first character is `w`, and its parity error shows whether the bit after `k` more data
      bits is its parity. */
  ghost predicate Assembled(mode: byte, w: nat, k: nat, levels: seq<bool>, r: Received) {
    && |levels| > k + ParityBits(mode)
    && r.value == LowBits(w, CharacterBits(mode))
    && (ParityEnabled(mode) ==>
          (r.parityError <==> levels[k] != ParityBit(mode, Ones(DataBits(w, CharacterBits(mode))))))
  }

  /** All data bits are in. */
  ghost predicate Closing(s: Sampler, mode: byte, w: nat) {
    && s.clockCount == 1 && !s.pendingParityError
    && s.phase == (if ParityEnabled(mode) then Parity else Stop)
    && s.shift == LowBits(w, CharacterBits(mode)) && s.parityOnes == Ones(DataBits(w, CharacterBits(mode)))
  }

  lemma {:induction false} AssembledLater(mode: byte, w: nat, k: nat, levels: seq<bool>, r: Received)
    requires levels != [] && Assembled(mode, w, k, levels[1..], r)
    ensures Assembled(mode, w, k + 1, levels, r)
  {
  }

  lemma {:induction false} TakesBit(s: Sampler, mode: byte, w: nat, i: nat, levels: seq<bool>) returns (t: Sampler)
    requires mode % 4 == 1 && i < CharacterBits(mode) && Taking(s, mode, w, i)
    requires levels != [] && Carries(levels, w, i, CharacterBits(mode))
    ensures AsyncEdge(s, mode, levels[0]) == (t, None)
    ensures if i + 1 < CharacterBits(mode) then Taking(t, mode, w, i + 1) else Closing(t, mode, w)
    ensures Carries(levels[1..], w, i + 1, CharacterBits(mode))
  {
    assert levels[0] == BitAt(w, i + 0);
    t := TakeOne(s, mode, w, i);
    forall j: nat | j < |levels[1..]| && i + 1 + j < CharacterBits(mode)
      ensures levels[1..][j] == BitAt(w, i + 1 + j)
    {
      assert levels[j + 1] == BitAt(w, i + (j + 1));
    }
  }

  /** With `k` data bits to go, which are those of `w`, on the way to the character `r`. */
  ghost predicate Underway(s: Sampler, mode: byte, w: nat, k: nat, levels: seq<bool>, at: nat, r: Received) {
    match k
    case 0 => Closing(s, mode, w) && ComesFirst(s, mode, levels, at, r)
    case _ =>
      && k <= CharacterBits(mode) && Taking(s, mode, w, CharacterBits(mode) - k)
      && Carries(levels, w, CharacterBits(mode) - k, CharacterBits(mode)) && ComesFirst(s, mode, levels, at, r)
  }

  lemma {:induction false} OneBitOn(s: Sampler, mode: byte, w: nat, k: nat, levels: seq<bool>, at: nat, r: Received)
    returns (t: Sampler)
    requires mode % 4 == 1 && k >= 1 && Underway(s, mode, w, k, levels, at, r)
    ensures levels != [] && at > 0 && Underway(t, mode, w, k - 1, levels[1..], at - 1, r)
  {
    t := TakesBit(s, mode, w, CharacterBits(mode) - k, levels);
    LaterEvents(s, mode, levels, at, r, t);
  }

  /** Collecting at one edge a bit. */
  lemma {:induction false} Collects(s: Sampler, mode: byte, w: nat, k: nat, levels: seq<bool>, at: nat, r: Received)
    requires mode % 4 == 1 && Underway(s, mode, w, k, levels, at, r)
    ensures Assembled(mode, w, k, levels, r)
    decreases k
  {
    if k == 0 {
      Closes(s, mode, w, levels, at, r);
    } else {
      var t := OneBitOn(s, mode, w, k, levels, at, r);
      Collects(t, mode, w, k - 1, levels[1..], at - 1, r);
      AssembledLater(mode, w, k - 1, levels, r);
    }
  }

  lemma {:induction false} Closes(s: Sampler, mode: byte, w: nat, levels: seq<bool>, at: nat, r: Received)
    requires mode % 4 == 1 && Closing(s, mode, w)
    requires ComesFirst(s, mode, levels, at, r)
    ensures Assembled(mode, w, 0, levels, r)
  {
    if ParityEnabled(mode) {
      var t := AsyncEdge(s, mode, levels[0]).0;
      LaterEvents(s, mode, levels, at, r, t);
      FirstEvent(t, mode, levels[1..], at - 1, r);
    } else {
      FirstEvent(s, mode, levels, at, r);
    }
  }

  // ---------------------------------------------------------------- the line

  /** A frame at one edge per bit, with the line at rest after it. */
  function Line(mode: byte, value: nat, rest: nat): seq<bool> {
    Frame(mode, value) + Repeat(true, rest)
  }

  /** Start bit, data bits, the parity bit if there is one, and ones. */
  ghost predicate Shaped(line: seq<bool>, mode: byte, value: nat, n: nat) {
    && |line| > n + 1 + ParityBits(mode) && !line[0]
    && (forall j: nat :: j < n ==> line[1 + j] == BitAt(value, j))
    && line[n + 1] == (ParityEnabled(mode) ==> ParityBit(mode, Ones(DataBits(value, n))))
    && (forall j :: n + 1 < j < |line| ==> line[j])
  }

  lemma {:induction false} LineIsShaped(mode: byte, value: nat, rest: nat)
    requires mode % 4 == 1
    ensures Shaped(Line(mode, value, rest), mode, value, CharacterBits(mode))
  {
  }

  /** From the parity bit's place on the line is high, and before it the line repeats itself after
      `q` edges. */
  ghost predicate Repeats(line: seq<bool>, n: nat, q: nat) {
    && n + q < |line|
    && (forall j :: n + 1 < j < |line| ==> line[j])
    && (forall j :: 1 <= j <= n ==> line[j + q] == line[j])
  }

  /** A low level then goes on in steps of `q` up to the place of the parity bit. */
  lemma {:induction false} LowGoesOn(line: seq<bool>, n: nat, q: nat, m: nat)
    requires q >= 1 && Repeats(line, n, q) && 1 <= m < |line| && !line[m]
    ensures n + 1 >= m && (n + 1 - m) % q == 0 && !line[n + 1]
    decreases n + 1 - m
  {
    if m <= n {
      assert line[m + q] == line[m];
      LowGoesOn(line, n, q, m + q);
      var k := (n + 1 - m - q) / q;
      assert n + 1 - m == (k + 1) * q + 0;
      DivModUnique(n + 1 - m, q, k + 1, 0);
    }
  }

  /** Two neighbouring low levels can only both go on if the step is one. */
  lemma {:induction false} NeighboursGoOn(line: seq<bool>, n: nat, q: nat, m: nat)
    requires q >= 1 && Repeats(line, n, q) && 1 <= m && m + 1 < |line| && !line[m] && !line[m + 1]
    ensures q == 1
  {
    LowGoesOn(line, n, q, m);
    LowGoesOn(line, n, q, m + 1);
    StepIsOne(n + 1, q, m);
  }

  lemma {:induction false} StepIsOne(n: nat, q: nat, m: nat)
    requires q >= 1 && n >= m + 1 && (n - m) % q == 0 && (n - m - 1) % q == 0
    ensures q == 1
  {
    var k := (n - m - 1) / q;
    if q > 1 {
      assert n - m == k * q + 1;
      DivModUnique(n - m, q, k, 1);
    }
  }

  /** The data bits of `value` stand on the line from `p + 2` on. */
  ghost predicate Mistaken(line: seq<bool>, value: nat, n: nat, p: nat) {
    && p + 2 + n < |line| && !line[p] && !line[p + 1]
    && forall j: nat :: j < n ==> line[p + 2 + j] == BitAt(value, j)
  }

  lemma {:induction false} MistakenRepeats(line: seq<bool>, mode: byte, value: nat, n: nat, p: nat)
    requires Shaped(line, mode, value, n) && Mistaken(line, value, n, p)
    ensures Repeats(line, n, p + 1)
  {
    forall j | 1 <= j <= n
      ensures line[j + (p + 1)] == line[j]
    {
      var i: nat := j - 1;
      assert line[1 + i] == BitAt(value, i) && line[p + 2 + i] == BitAt(value, i);
    }
  }

  /** A receiver that takes a later part of the frame for the character it is gets a parity error:
      there is a parity bit, and what stands in its place is not it. */
  lemma {:induction false} WrongPlace(line: seq<bool>, mode: byte, value: nat, n: nat, p: nat)
    requires Shaped(line, mode, value, n) && Mistaken(line, value, n, p)
    ensures ParityEnabled(mode) && line[p + 2 + n] != ParityBit(mode, Ones(DataBits(value, n)))
  {
    MistakenRepeats(line, mode, value, n, p);
    LowGoesOn(line, n, p + 1, p + 1);
    if p >= 1 {
      NeighboursGoOn(line, n, p + 1, p);
    }
  }

  // ---------------------------------------------------------------- nothing arrives

  /** The byte as it should arrive. */
  function Sent(mode: byte, value: nat): Received {
    Received(value % Pow2(CharacterBits(mode)), false, false)
  }

  /** From an idle receiver, anywhere on the line, the first character is never the one sent. */
  lemma {:induction false} NeverFirst(s: Sampler, mode: byte, value: nat, rest: nat, p: nat, at: nat)
    requires mode % 4 == 1 && s.phase == Idle && p <= |Line(mode, value, rest)|
    ensures !ComesFirst(s, mode, Line(mode, value, rest)[p..], at, Sent(mode, value))
    decreases |Line(mode, value, rest)| - p
  {
    var line := Line(mode, value, rest);
    if ComesFirst(s, mode, line[p..], at, Sent(mode, value)) {
      var t := AsyncEdge(s, mode, line[p]).0;
      LaterEvents(s, mode, line[p..], at, Sent(mode, value), t);
      assert line[p..][1..] == line[p + 1..];
      if line[p] {
        NeverFirst(t, mode, value, rest, p + 1, at - 1);
      } else {
        NotAfterStart(t, mode, value, rest, p, at - 1);
      }
    }
  }

  lemma {:induction false} NotAfterStart(t: Sampler, mode: byte, value: nat, rest: nat, p: nat, at: nat)
    requires mode % 4 == 1 && p < |Line(mode, value, rest)| && !Line(mode, value, rest)[p]
    requires t.phase == Start && t.clockCount == 1
    ensures !ComesFirst(t, mode, Line(mode, value, rest)[p + 1..], at, Sent(mode, value))
    decreases |Line(mode, value, rest)| - p, 0
  {
    var line := Line(mode, value, rest);
    if ComesFirst(t, mode, line[p + 1..], at, Sent(mode, value)) {
      var u := AsyncEdge(t, mode, line[p + 1]).0;
      LaterEvents(t, mode, line[p + 1..], at, Sent(mode, value), u);
      assert line[p + 1..][1..] == line[p + 2..];
      if line[p + 1] {
        NeverFirst(u, mode, value, rest, p + 2, at - 1);
      } else {
        FalseCharacter(u, mode, value, rest, p, at - 1);
      }
    }
  }

  lemma {:induction false} FalseCharacter(u: Sampler, mode: byte, value: nat, rest: nat, p: nat, at: nat)
    requires mode % 4 == 1 && p + 1 < |Line(mode, value, rest)|
    requires !Line(mode, value, rest)[p] && !Line(mode, value, rest)[p + 1]
    requires u == Sampler(Data, 0, 0, 0, 1, false)
    ensures !ComesFirst(u, mode, Line(mode, value, rest)[p + 2..], at, Sent(mode, value))
  {
    var line, n := Line(mode, value, rest), CharacterBits(mode);
    var levels := line[p + 2..];
    if ComesFirst(u, mode, levels, at, Sent(mode, value)) {
      var w := Number(levels[..Min(n, |levels|)]);
      NumberIsCarried(levels, n);
      Collects(u, mode, w, n, levels, at, Sent(mode, value));
      NumberIsSmall(levels[..n]);
      SameCharacter(mode, value, w);
      forall j: nat | j < n
        ensures line[p + 2 + j] == BitAt(value, j)
      {
        assert levels[j] == BitAt(w, 0 + j);
        assert DataBits(w, n)[j] == BitAt(w, j) && DataBits(value, n)[j] == BitAt(value, j);
      }
      assert levels[n] == line[p + 2 + n];
      LineIsShaped(mode, value, rest);
      WrongPlace(line, mode, value, n, p);
    }
  }

  lemma {:induction false} NumberIsCarried(levels: seq<bool>, n: nat)
    ensures Carries(levels, Number(levels[..Min(n, |levels|)]), 0, n)
  {
    var w := Number(levels[..Min(n, |levels|)]);
    forall j: nat | j < |levels| && 0 + j < n
      ensures levels[j] == BitAt(w, 0 + j)
    {
      NumberBit(levels[..Min(n, |levels|)], j);
    }
  }

  /** A character equal to the one sent has the same data bits. */
  lemma {:induction false} SameCharacter(mode: byte, value: nat, w: nat)
    requires w < Pow2(CharacterBits(mode)) && LowBits(w, CharacterBits(mode)) == value % Pow2(CharacterBits(mode))
    ensures DataBits(w, CharacterBits(mode)) == DataBits(value, CharacterBits(mode))
  {
    var n := CharacterBits(mode);
    LowBitsIsRemainder(w, n);
    DivModUnique(w, Pow2(n), 0, w);
    forall j: nat | j < n
      ensures BitAt(w, j) == BitAt(value, j)
    {
      RemainderBits(value, n, j);
    }
  }

  // ---------------------------------------------------------------- the exact condition

  /** From rest, with the line at rest for some time after the frame, the receiver gets this byte
      and nothing else. */
  ghost predicate Arrives(s: Sampler, mode: byte, value: byte) {
    exists rest: nat, at: nat :: ArrivesWithin(s, mode, value, rest, at)
  }

  ghost predicate ArrivesWithin(s: Sampler, mode: byte, value: byte, rest: nat, at: nat) {
    Delivers(s, mode, Stretch(Frame(mode, value), BaudFactor(mode)) + Repeat(true, rest), at,
             value % Pow2(CharacterBits(mode)))
  }

  lemma {:induction false} StretchByOne(bits: seq<bool>, one: nat)
    requires one == 1
    ensures Stretch(bits, one) == bits
    decreases bits
  {
    if bits != [] {
      StretchByOne(bits[1..], one);
    }
  }

  /** In an asynchronous mode a byte arrives exactly when the factor is not one, whatever byte it
      is. */
  lemma {:induction false} FactorDecides(mode: byte, s: Sampler, value: byte)
    requires !Synchronous(mode) && s.phase == Idle
    ensures Arrives(s, mode, value) <==> BaudFactor(mode) > 1
  {
    var levels := Stretch(Frame(mode, value), BaudFactor(mode));
    if BaudFactor(mode) > 1 {
      FrameDelivers(s, mode, value);
      assert levels + Repeat(true, 0) == levels;
      assert ArrivesWithin(s, mode, value, 0, CompletionEdge(mode));
    } else if Arrives(s, mode, value) {
      var rest: nat, at: nat :| ArrivesWithin(s, mode, value, rest, at);
      StretchByOne(Frame(mode, value), BaudFactor(mode));
      var line := Line(mode, value, rest);
      assert line[0..] == line;
      assert ComesFirst(s, mode, line, at, Sent(mode, value));
      NeverFirst(s, mode, value, rest, 0, at);
    }
  }
}
