/** Synchronous reception: the two-state hunt of the program finds the SYN characters exactly
    where a plain search of the received stream does. */
module UartSync {
  import opened Bytes
  import opened Wrappers
  import opened Uart8251
  import opened UartWire

  // ---------------------------------------------------------------- a plain search

  /** The programmed SYN pattern: one or two characters. */
  function Pattern(u: SyncUnit): seq<nat>
    requires u.count == 1 || u.count == 2
  {
    if u.count == 1 then [u.first as nat] else [u.first as nat, u.second as nat]
  }

  predicate EndsWith(stream: seq<nat>, pattern: seq<nat>) {
    |pattern| <= |stream| && stream[|stream| - |pattern|..] == pattern
  }

  /** The length of the shortest prefix that ends with the pattern. */
  function FirstMatch(stream: seq<nat>, pattern: seq<nat>): (result: Option<nat>)
    ensures result.Some? ==> result.value <= |stream|
    ensures result.Some? ==> EndsWith(stream[..result.value], pattern)
    ensures result.Some? ==> forall n: nat :: n < result.value ==> n == 0 || !EndsWith(stream[..n], pattern)
    ensures result.None? ==> forall n: nat :: 0 < n <= |stream| ==> !EndsWith(stream[..n], pattern)
  {
    if stream == [] then None
    else
      var before := stream[..|stream| - 1];
      assert forall n: nat :: n <= |before| ==> stream[..n] == before[..n];
      assert stream[..|stream|] == stream;
      match FirstMatch(before, pattern)
      case Some(n) => Some(n)
      case None => if EndsWith(stream, pattern) then Some(|stream|) else None
  }

  // ---------------------------------------------------------------- the hunt

  /** The receiver after a stream of characters, and what reached the data register. */
  function Heard(u: SyncUnit, stream: seq<nat>): (SyncUnit, seq<nat>)
  {
    if stream == [] then (u, [])
    else
      var (v, received) := Heard(u, stream[..|stream| - 1]);
      var (w, character) := SyncCharacter(v, Received(stream[|stream| - 1], false, false));
      (w, received + if character.Some? then [character.value.value] else [])
  }

  /** Just after a hunt command. */
  predicate Hunting(u: SyncUnit) {
    u.hunt && !u.detected && u.huntIndex == 0 && (u.count == 1 || u.count == 2)
  }

  /** SYNDET rises exactly at the end of the first occurrence of the pattern, overlaps
      included; nothing before it reaches the data register, and everything after it does. */
  lemma {:induction false} HuntIsSearch(u: SyncUnit, stream: seq<nat>)
    requires Hunting(u)
    ensures var (v, received) := Heard(u, stream);
            match FirstMatch(stream, Pattern(u))
            case None =>
              && received == []
              && v == u.(huntIndex := if u.count == 2 && stream != [] && stream[|stream| - 1] == u.first then 1 else 0)
            case Some(n) =>
              && received == stream[n..]
              && v == u.(detected := true, hunt := false)
    decreases stream
  {
    if stream != [] {
      var before := stream[..|stream| - 1];
      HuntIsSearch(u, before);
      var (v, received) := Heard(u, before);
      var c := stream[|stream| - 1];
      match FirstMatch(before, Pattern(u))
      case None => HuntOne(u, v, stream);
      case Some(n) => assert before[n..] + [c] == stream[n..];
    }
  }

  lemma {:induction false} HuntOne(u: SyncUnit, v: SyncUnit, stream: seq<nat>)
    requires Hunting(u) && stream != []
    requires v == u.(huntIndex := if u.count == 2 && |stream| >= 2 && stream[|stream| - 2] == u.first then 1 else 0)
    ensures var c := stream[|stream| - 1];
            HuntStep(v, c) == if EndsWith(stream, Pattern(u)) then u.(detected := true, hunt := false)
                              else u.(huntIndex := if u.count == 2 && c == u.first then 1 else 0)
  {
    var n := |stream|;
    if u.count == 2 && n >= 2 {
      assert stream[n - 2..] == [stream[n - 2], stream[n - 1]];
    } else if u.count == 1 {
      assert stream[n - 1..] == [stream[n - 1]];
    }
  }

  // ---------------------------------------------------------------- characters on the wire

  /** The synchronous sampler over a stretch of line. */
  function SyncRun(s: Sampler, mode: byte, levels: seq<bool>): (result: (Sampler, seq<Option<Received>>))
    ensures |result.1| == |levels|
    decreases levels
  {
    if levels == [] then (s, [])
    else
      var (t, event) := SyncEdge(s, mode, levels[0]);
      var (u, events) := SyncRun(t, mode, levels[1..]);
      (u, [event] + events)
  }

  /** At a character boundary. */
  predicate Aligned(s: Sampler) {
    s.phase == SyncData && s.bitIndex == 0 && s.shift == 0
  }

  /** `i` data bits into a character; `extra` ones were counted before it began. */
  ghost predicate Inside(s: Sampler, value: nat, i: nat, extra: nat) {
    && s.phase == SyncData && s.bitIndex == i && s.shift == LowBits(value, i)
    && s.parityOnes == extra + Ones(DataBits(value, i)) && !s.pendingParityError
  }

  function SyncTrailer(mode: byte, ones: nat): seq<bool> {
    if ParityEnabled(mode) then [ParityBit(mode, ones)] else []
  }

  /** The rest of a character from data bit `i` on. */
  function SyncBody(mode: byte, value: nat, i: nat): seq<bool>
    requires i <= CharacterBits(mode)
  {
    var data := DataBits(value, CharacterBits(mode));
    data[i..] + SyncTrailer(mode, Ones(data))
  }

  lemma {:induction false} InsideNext(s: Sampler, value: nat, i: nat, extra: nat)
    requires Inside(s, value, i, extra)
    ensures Inside(Collected(s, BitAt(value, i)), value, i + 1, extra)
    ensures Collected(s, BitAt(value, i)).clockCount == s.clockCount
  {
    CollectNext(value, i);
    DataBitsNext(value, i);
    OnesAppend(DataBits(value, i), BitAt(value, i));
  }

  /** What a character looks like when it comes off the wire.  A parity error can only be seen
      when ones were left over from before a hunt command. */
  ghost predicate CharacterComes(s: Sampler, mode: byte, levels: seq<bool>, value: nat, extra: nat) {
    && levels != []
    && Aligned(SyncRun(s, mode, levels).0) && SyncRun(s, mode, levels).0.parityOnes == 0
    && !SyncRun(s, mode, levels).0.pendingParityError
    && SyncRun(s, mode, levels).1
       == Nothing(|levels| - 1)
          + [Some(Received(value, ParityEnabled(mode) && extra % 2 == 1, false))]
  }

  lemma {:induction false} QuietEdge(s: Sampler, mode: byte, t: Sampler, levels: seq<bool>, value: nat, extra: nat)
    requires levels != [] && SyncEdge(s, mode, levels[0]) == (t, None)
    requires CharacterComes(t, mode, levels[1..], value, extra)
    ensures CharacterComes(s, mode, levels, value, extra)
  {
    assert [None] + Nothing(|levels| - 2) == Nothing(|levels| - 1);
  }

  lemma {:induction false} LastEdge(s: Sampler, mode: byte, high: bool, value: nat, extra: nat)
    requires SyncEdge(s, mode, high)
          == (SYNC_SAMPLER.(clockCount := s.clockCount),
              Some(Received(value, ParityEnabled(mode) && extra % 2 == 1, false)))
    ensures CharacterComes(s, mode, [high], value, extra)
  {
    var t := SYNC_SAMPLER.(clockCount := s.clockCount);
    assert [high][1..] == [];
    assert SyncRun(t, mode, []) == (t, []);
    var event := Some(Received(value, ParityEnabled(mode) && extra % 2 == 1, false));
    assert [event] + [] == Nothing(0) + [event];
  }

  lemma {:induction false} BodyStep(mode: byte, value: nat, i: nat)
    requires i < CharacterBits(mode)
    ensures var bits := SyncBody(mode, value, i);
            bits != [] && bits[0] == BitAt(value, i) && bits[1..] == SyncBody(mode, value, i + 1)
  {
  }

  lemma {:induction false} BodyEnd(mode: byte, value: nat, i: nat)
    requires i == CharacterBits(mode)
    ensures SyncBody(mode, value, i) == SyncTrailer(mode, Ones(DataBits(value, i)))
  {
  }

  /** The last data bit when no parity bit follows. */
  lemma {:induction false} LastBit(s: Sampler, mode: byte, value: nat, i: nat, extra: nat)
    requires i + 1 == CharacterBits(mode) && Inside(s, value, i, extra) && !ParityEnabled(mode)
    ensures CharacterComes(s, mode, SyncBody(mode, value, i), LowBits(value, i + 1), extra)
  {
    InsideNext(s, value, i, extra);
    BodyStep(mode, value, i);
    BodyEnd(mode, value, i + 1);
    var bits := SyncBody(mode, value, i);
    assert bits == [BitAt(value, i)];
    LastEdge(s, mode, BitAt(value, i), LowBits(value, i + 1), extra);
  }

  /** The parity bit. */
  lemma {:induction false} ParityEdge(p: Sampler, mode: byte, value: nat, i: nat, extra: nat)
    requires ParityEnabled(mode) && p.phase == SyncParity && p.shift == LowBits(value, i)
    requires p.parityOnes == extra + Ones(DataBits(value, i))
    ensures CharacterComes(p, mode, [ParityBit(mode, Ones(DataBits(value, i)))], LowBits(value, i), extra)
  {
    LeftoverOnes(mode, extra, Ones(DataBits(value, i)));
    LastEdge(p, mode, ParityBit(mode, Ones(DataBits(value, i))), LowBits(value, i), extra);
  }

  lemma {:induction false} LeftoverOnes(mode: byte, extra: nat, ones: nat)
    ensures ParityBit(mode, ones) != ParityBit(mode, extra + ones) <==> extra % 2 == 1
  {
  }

  lemma {:induction false} LastBitEdge(s: Sampler, mode: byte, value: nat, i: nat, extra: nat)
    requires i + 1 == CharacterBits(mode) && Inside(s, value, i, extra) && ParityEnabled(mode)
    ensures SyncEdge(s, mode, BitAt(value, i)) == (Collected(s, BitAt(value, i)).(phase := SyncParity), None)
  {
  }

  lemma {:induction false} ParityBody(mode: byte, value: nat, i: nat)
    requires i == CharacterBits(mode) && ParityEnabled(mode)
    ensures SyncBody(mode, value, i) == [ParityBit(mode, Ones(DataBits(value, i)))]
  {
    BodyEnd(mode, value, i);
  }

  /** All data bits are in. */
  lemma {:induction false} ParityComes(c: Sampler, mode: byte, value: nat, i: nat, extra: nat)
    requires i == CharacterBits(mode) && Inside(c, value, i, extra) && ParityEnabled(mode)
    ensures CharacterComes(c.(phase := SyncParity), mode, SyncBody(mode, value, i), LowBits(value, i), extra)
  {
    ParityBody(mode, value, i);
    ParityEdge(c.(phase := SyncParity), mode, value, i, extra);
  }

  /** The last data bit and the parity bit. */
  lemma {:induction false} LastBitAndParity(s: Sampler, mode: byte, value: nat, i: nat, extra: nat)
    requires i + 1 == CharacterBits(mode) && Inside(s, value, i, extra) && ParityEnabled(mode)
    ensures CharacterComes(s, mode, SyncBody(mode, value, i), LowBits(value, i + 1), extra)
  {
    InsideNext(s, value, i, extra);
    BodyStep(mode, value, i);
    LastBitEdge(s, mode, value, i, extra);
    var c := Collected(s, BitAt(value, i));
    ParityComes(c, mode, value, i + 1, extra);
    QuietEdge(s, mode, c.(phase := SyncParity), SyncBody(mode, value, i), LowBits(value, i + 1), extra);
  }

  /** With `k` data bits to go. */
  ghost predicate ToCome(s: Sampler, mode: byte, value: nat, k: nat, extra: nat) {
    match k
    case 0 => false
    case _ => k <= CharacterBits(mode) && Inside(s, value, CharacterBits(mode) - k, extra)
  }

  lemma {:induction false} NextBitComes(s: Sampler, mode: byte, value: nat, k: nat, extra: nat) returns (t: Sampler)
    requires k > 1 && ToCome(s, mode, value, k, extra)
    ensures k <= CharacterBits(mode) && ToCome(t, mode, value, k - 1, extra)
    ensures SyncEdge(s, mode, BitAt(value, CharacterBits(mode) - k)) == (t, None)
  {
    InsideNext(s, value, CharacterBits(mode) - k, extra);
    t := Collected(s, BitAt(value, CharacterBits(mode) - k));
  }

  lemma {:induction false} LastOfField(s: Sampler, mode: byte, value: nat, extra: nat, one: nat)
    requires one == 1 && ToCome(s, mode, value, one, extra)
    ensures CharacterComes(s, mode, SyncBody(mode, value, CharacterBits(mode) - one),
                           LowBits(value, CharacterBits(mode)), extra)
  {
    if ParityEnabled(mode) {
      LastBitAndParity(s, mode, value, CharacterBits(mode) - one, extra);
    } else {
      LastBit(s, mode, value, CharacterBits(mode) - one, extra);
    }
  }

  lemma {:induction false} OneBitSooner(s: Sampler, mode: byte, value: nat, k: nat, extra: nat, t: Sampler, character: nat)
    requires 1 <= k <= CharacterBits(mode)
    requires SyncEdge(s, mode, BitAt(value, CharacterBits(mode) - k)) == (t, None)
    requires CharacterComes(t, mode, SyncBody(mode, value, CharacterBits(mode) - (k - 1)), character, extra)
    ensures CharacterComes(s, mode, SyncBody(mode, value, CharacterBits(mode) - k), character, extra)
  {
    BodyStep(mode, value, CharacterBits(mode) - k);
    QuietEdge(s, mode, t, SyncBody(mode, value, CharacterBits(mode) - k), character, extra);
  }

  lemma {:induction false} SyncField(s: Sampler, mode: byte, value: nat, k: nat, extra: nat)
    requires k >= 1 && ToCome(s, mode, value, k, extra)
    ensures k <= CharacterBits(mode)
    ensures CharacterComes(s, mode, SyncBody(mode, value, CharacterBits(mode) - k), LowBits(value, CharacterBits(mode)), extra)
    decreases k
  {
    if k == 1 {
      LastOfField(s, mode, value, extra, k);
    } else {
      var t := NextBitComes(s, mode, value, k, extra);
      SyncField(t, mode, value, k - 1, extra);
      OneBitSooner(s, mode, value, k, extra, t, LowBits(value, CharacterBits(mode)));
    }
  }

  /** A character sent from a boundary on comes off the wire whole, on the edge of its last
      bit. */
  lemma {:induction false} SyncFrame(s: Sampler, mode: byte, value: nat)
    requires Synchronous(mode) && Aligned(s) && !s.pendingParityError
    ensures CharacterComes(s, mode, Frame(mode, value), value % Pow2(CharacterBits(mode)), s.parityOnes)
  {
    LowBitsIsRemainder(value, CharacterBits(mode));
    SyncField(s, mode, value, CharacterBits(mode), s.parityOnes);
    assert Frame(mode, value) == SyncBody(mode, value, 0);
  }

  // ---------------------------------------------------------------- the receiver of a UART

  ghost predicate SyncReceiver(s: UartState) {
    s.control.ReceiverEnabled() && Synchronous(s.control.mode)
  }

  /** The hunt command starts the hunt at a character boundary. */
  lemma {:induction false} HuntCommandHunts(s: UartState, value: byte)
    requires Synchronous(s.control.mode) && s.control.init == CommandNext && s.sync.count in {1, 2}
    requires HasBit(value, 0x80) && HasBit(value, 0x04) && !HasBit(value, 0x40)
    ensures var t := AcceptCommand(s, value);
            SyncReceiver(t) && Aligned(t.sampler) && Hunting(t.sync) && t.sync.count == s.sync.count
  {
  }

  /** The UART while the line takes one level per receive clock edge. */
  function Listening(s: UartState, levels: seq<bool>): UartState
    decreases levels
  {
    if levels == [] then s else Listening(ReceiverEdge(s.(rxd := levels[0])), levels[1..])
  }

  /** What one completed character does to the hunt and to the data register. */
  function Accept(s: UartState, r: Received): UartState {
    var (sync, received) := SyncCharacter(s.sync, r);
    s.(sync := sync, data := if received.Some? then Deposit(s.data, s.control.mode, received.value) else s.data)
  }

  lemma {:induction false} OneCharacterHeard(s: UartState, levels: seq<bool>, r: Received)
    requires SyncReceiver(s) && levels != []
    requires SyncRun(s.sampler, s.control.mode, levels).1 == Nothing(|levels| - 1) + [Some(r)]
    ensures Listening(s, levels)
         == Accept(s.(sampler := SyncRun(s.sampler, s.control.mode, levels).0, rxd := levels[|levels| - 1]), r)
    decreases levels
  {
    var mode := s.control.mode;
    var (t, event) := SyncEdge(s.sampler, mode, levels[0]);
    var events := SyncRun(s.sampler, mode, levels).1;
    assert events[0] == event;
    var next := ReceiverEdge(s.(rxd := levels[0]));
    if |levels| == 1 {
      assert Listening(next, levels[1..]) == next;
    } else {
      assert (Nothing(|levels| - 1) + [Some(r)])[1..] == Nothing(|levels| - 2) + [Some(r)];
      assert events[1..] == SyncRun(t, mode, levels[1..]).1;
      assert next == s.(sampler := t, rxd := levels[0]);
      OneCharacterHeard(next, levels[1..], r);
    }
  }

  /** Characters one after the other on the line. */
  function OnTheWire(mode: byte, stream: seq<nat>): seq<bool> {
    if stream == [] then [] else OnTheWire(mode, stream[..|stream| - 1]) + Frame(mode, stream[|stream| - 1])
  }

  lemma {:induction false} ListeningConcat(s: UartState, a: seq<bool>, b: seq<bool>)
    ensures Listening(s, a + b) == Listening(Listening(s, a), b)
    decreases a
  {
    if a == [] {
      assert a + b == b;
    } else {
      assert (a + b)[1..] == a[1..] + b;
      ListeningConcat(ReceiverEdge(s.(rxd := a[0])), a[1..], b);
    }
  }

  /** A receiver that hunts, or has just found the pattern, at a character boundary. */
  ghost predicate OnTheHunt(s: UartState, t: UartState, stream: seq<nat>) {
    && t.control == s.control && Aligned(t.sampler) && !t.sampler.pendingParityError
    && t.data == s.data && t.sync == Heard(s.sync, stream).0
  }

  /** One character more on the line, before the pattern has come. */
  lemma {:induction false} OneMoreCharacter(s: UartState, t: UartState, before: seq<nat>, c: nat, stream: seq<nat>)
    requires SyncReceiver(s) && OnTheHunt(s, t, before) && t.sync.hunt && t.sync.count != 0
    requires c < Pow2(CharacterBits(s.control.mode)) && stream == before + [c]
    ensures OnTheHunt(s, Listening(t, Frame(s.control.mode, c)), stream)
  {
    var mode := s.control.mode;
    SyncFrame(t.sampler, mode, c);
    DivModUnique(c, Pow2(CharacterBits(mode)), 0, c);
    OneCharacterHeard(t, Frame(mode, c), Received(c, ParityEnabled(mode) && t.sampler.parityOnes % 2 == 1, false));
    assert stream[..|stream| - 1] == before;
  }

  lemma {:induction false} StillHunting(u: SyncUnit, before: seq<nat>)
    requires Hunting(u) && FirstMatch(before, Pattern(u)).None?
    ensures Heard(u, before).0.hunt && Heard(u, before).0.count != 0
  {
    HuntIsSearch(u, before);
  }

  /** The UART after a stream of characters on the line. */
  function AfterStream(s: UartState, stream: seq<nat>): UartState {
    Listening(s, OnTheWire(s.control.mode, stream))
  }

  /** A receiver just after a hunt command, and a stream of characters in which the pattern does not
      come before the end. */
  ghost predicate UpToMatch(s: UartState, stream: seq<nat>) {
    && SyncReceiver(s) && Aligned(s.sampler) && !s.sampler.pendingParityError && Hunting(s.sync)
    && (forall i :: 0 <= i < |stream| ==> stream[i] < Pow2(CharacterBits(s.control.mode)))
    && match FirstMatch(stream, Pattern(s.sync)) case None => true case Some(n) => n == |stream|
  }

  lemma {:induction false} MatchStays(stream: seq<nat>, pattern: seq<nat>)
    requires stream != [] && FirstMatch(stream[..|stream| - 1], pattern).Some?
    ensures FirstMatch(stream, pattern) == FirstMatch(stream[..|stream| - 1], pattern)
  {
  }

  lemma {:induction false} NotYet(stream: seq<nat>, pattern: seq<nat>)
    requires stream != []
    requires match FirstMatch(stream, pattern) case None => true case Some(n) => n == |stream|
    ensures FirstMatch(stream[..|stream| - 1], pattern).None?
  {
    if FirstMatch(stream[..|stream| - 1], pattern).Some? {
      MatchStays(stream, pattern);
    }
  }

  lemma {:induction false} BeforeMatch(s: UartState, stream: seq<nat>)
    requires stream != [] && UpToMatch(s, stream)
    ensures UpToMatch(s, stream[..|stream| - 1]) && FirstMatch(stream[..|stream| - 1], Pattern(s.sync)).None?
  {
    NotYet(stream, Pattern(s.sync));
  }

  lemma {:induction false} StreamUnfolds(s: UartState, stream: seq<nat>)
    requires stream != []
    ensures AfterStream(s, stream)
         == Listening(AfterStream(s, stream[..|stream| - 1]), Frame(s.control.mode, stream[|stream| - 1]))
  {
    ListeningConcat(s, OnTheWire(s.control.mode, stream[..|stream| - 1]), Frame(s.control.mode, stream[|stream| - 1]));
  }

  lemma {:induction false} HeardOneMore(s: UartState, stream: seq<nat>)
    requires stream != [] && UpToMatch(s, stream)
    requires OnTheHunt(s, AfterStream(s, stream[..|stream| - 1]), stream[..|stream| - 1])
    ensures OnTheHunt(s, AfterStream(s, stream), stream)
  {
    var before, c := stream[..|stream| - 1], stream[|stream| - 1];
    BeforeMatch(s, stream);
    StillHunting(s.sync, before);
    StreamUnfolds(s, stream);
    OneMoreCharacter(s, AfterStream(s, before), before, c, stream);
  }

  lemma {:induction false} WireIsHeard(s: UartState, stream: seq<nat>)
    requires UpToMatch(s, stream)
    ensures OnTheHunt(s, AfterStream(s, stream), stream)
    decreases stream
  {
    if stream != [] {
      BeforeMatch(s, stream);
      WireIsHeard(s, stream[..|stream| - 1]);
      HeardOneMore(s, stream);
    }
  }

  /** On the level of clock edges: as long as the pattern has not come, and when it just has, the data
      register is as the hunt command found it; the hunt is over exactly when it has. */
  lemma {:induction false} HuntOnTheWire(s: UartState, stream: seq<nat>)
    requires UpToMatch(s, stream)
    ensures var t := AfterStream(s, stream);
            && t.control == s.control && Aligned(t.sampler) && t.data == s.data
            && (t.sync.detected <==> FirstMatch(stream, Pattern(s.sync)).Some?)
            && (t.sync.hunt <==> FirstMatch(stream, Pattern(s.sync)).None?)
  {
    WireIsHeard(s, stream);
    HuntIsSearch(s.sync, stream);
  }
}
