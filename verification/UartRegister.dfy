/** The receive register against the history of what was received, read and reset: which character it
    holds, what each error flag means, and how the status byte shows it. */
module UartRegisters {
  import opened Bytes
  import opened Wrappers
  import opened Uart8251
  import opened SerialRuns

  // ---------------------------------------------------------------- what happens to the register

  /** A character is complete; the processor reads the data register; a command resets the errors. */
  datatype Event = Completed(character: Received) | Taken | Cleared

  function OnRegister(d: RxData, mode: byte, e: Event): RxData {
    match e
    case Completed(character) => Deposit(d, mode, character)
    case Taken => d.(ready := false)
    case Cleared => d.(parityError := false, overrunError := false, framingError := false, breakDetected := false)
  }

  function RegisterAfter(d: RxData, mode: byte, events: seq<Event>): RxData {
    if events == [] then d else OnRegister(RegisterAfter(d, mode, events[..|events| - 1]), mode, events[|events| - 1])
  }

  lemma {:induction false} RegisterConcat(d: RxData, mode: byte, a: seq<Event>, b: seq<Event>)
    ensures RegisterAfter(d, mode, a + b) == RegisterAfter(RegisterAfter(d, mode, a), mode, b)
    decreases b
  {
    if b == [] {
      assert a + b == a;
    } else {
      assert (a + b)[..|a + b| - 1] == a + b[..|b| - 1];
      RegisterConcat(d, mode, a, b[..|b| - 1]);
    }
  }

  // ---------------------------------------------------------------- the history

  /** The processor has read the register after event `i` and before event `j`. */
  ghost predicate TakenBetween(events: seq<Event>, i: nat, j: nat) {
    exists k :: i < k < j && k < |events| && events[k].Taken?
  }

  ghost predicate ClearedBetween(events: seq<Event>, i: nat, j: nat) {
    exists k :: i < k < j && k < |events| && events[k].Cleared?
  }

  /** A character that came when none was unread. */
  ghost predicate Kept(events: seq<Event>, i: nat) {
    && i < |events| && events[i].Completed?
    && forall h :: 0 <= h < i && events[h].Completed? ==> TakenBetween(events, h, i)
  }

  /** A character that came while one was unread. */
  ghost predicate Lost(events: seq<Event>, i: nat) {
    i < |events| && events[i].Completed? && !Kept(events, i)
  }

  /** The first character since the last read. */
  ghost predicate Unread(events: seq<Event>, i: nat) {
    Kept(events, i) && !TakenBetween(events, i, |events|)
  }

  /** The low five to eight bits of a character. */
  function Low(mode: byte, value: nat): nat {
    match mode / 4 % 4
    case 0 => value % 32
    case 1 => value % 64
    case 2 => value % 128
    case _ => value % 256
  }

  lemma {:induction false} LowIsRemainder(mode: byte, value: nat)
    ensures value % Pow2(CharacterBits(mode)) == Low(mode, value)
  {
    assert Pow2(5) == 32 && Pow2(6) == 64 && Pow2(7) == 128 && Pow2(8) == 256;
  }

  datatype Fault = ParityFault | FramingFault | BreakFault | OverrunFault

  /** Event `i` is a reason for this error flag: a character that was kept with the error, or, for the
      overrun, one that was lost. */
  ghost predicate Reason(events: seq<Event>, mode: byte, f: Fault, i: nat) {
    match f
    case ParityFault => Kept(events, i) && events[i].character.parityError
    case FramingFault => Kept(events, i) && events[i].character.framingError
    case BreakFault => Kept(events, i) && events[i].character.framingError && Low(mode, events[i].character.value) == 0
    case OverrunFault => Lost(events, i)
  }

  /** There has been a reason since the errors were last reset. */
  ghost predicate Shown(events: seq<Event>, mode: byte, f: Fault) {
    exists i: nat :: Reason(events, mode, f, i) && !ClearedBetween(events, i, |events|)
  }

  ghost predicate Waits(events: seq<Event>) {
    exists i: nat :: Unread(events, i)
  }

  /** What the register holds and shows after these events, when it was empty and without errors
      before. */
  ghost predicate Remembers(d: RxData, mode: byte, events: seq<Event>) {
    && (d.ready <==> Waits(events))
    && (forall i: nat :: Unread(events, i) ==> d.buffer == Low(mode, events[i].character.value))
    && (d.overrunError <==> Shown(events, mode, OverrunFault)) && (d.parityError <==> Shown(events, mode, ParityFault))
    && (d.framingError <==> Shown(events, mode, FramingFault)) && (d.breakDetected <==> Shown(events, mode, BreakFault))
  }

  // ---------------------------------------------------------------- one event more

  /** The same history with one more event. */
  ghost predicate Extends(before: seq<Event>, after: seq<Event>) {
    |after| == |before| + 1 && before == after[..|before|]
  }

  lemma {:induction false} StillBetween(before: seq<Event>, after: seq<Event>, i: nat, j: nat)
    requires Extends(before, after) && j <= |before|
    ensures TakenBetween(after, i, j) <==> TakenBetween(before, i, j)
    ensures ClearedBetween(after, i, j) <==> ClearedBetween(before, i, j)
  {
    assert forall k :: 0 <= k < |before| ==> after[k] == before[k];
  }

  lemma {:induction false} StillKept(before: seq<Event>, after: seq<Event>, i: nat)
    requires Extends(before, after) && i < |before|
    ensures Kept(after, i) <==> Kept(before, i)
    ensures Lost(after, i) <==> Lost(before, i)
  {
    assert forall k :: 0 <= k < |before| ==> after[k] == before[k];
    forall h | 0 <= h < i
      ensures TakenBetween(after, h, i) <==> TakenBetween(before, h, i)
    {
      StillBetween(before, after, h, i);
    }
  }

  /** To the end of the longer history: the last event counts too. */
  lemma {:induction false} ToTheEnd(before: seq<Event>, after: seq<Event>, i: nat)
    requires Extends(before, after) && i < |before|
    ensures var last := after[|before|];
            && (TakenBetween(after, i, |after|) <==> last.Taken? || TakenBetween(before, i, |before|))
            && (ClearedBetween(after, i, |after|) <==> last.Cleared? || ClearedBetween(before, i, |before|))
  {
    StillBetween(before, after, i, |before|);
    assert after[|before|].Taken? ==> TakenBetween(after, i, |after|);
    assert after[|before|].Cleared? ==> ClearedBetween(after, i, |after|);
  }

  /** If any character is unread there is a first one. */
  lemma {:induction false} FirstUnread(events: seq<Event>, h: nat) returns (i: nat)
    requires h < |events| && events[h].Completed? && !TakenBetween(events, h, |events|)
    ensures i <= h && Unread(events, i)
    decreases h
  {
    if Kept(events, h) {
      i := h;
    } else {
      var g :| 0 <= g < h && events[g].Completed? && !TakenBetween(events, g, h);
      assert !TakenBetween(events, g, |events|);
      i := FirstUnread(events, g);
    }
  }

  lemma {:induction false} OneUnread(events: seq<Event>, i: nat, j: nat)
    requires Unread(events, i) && Unread(events, j)
    ensures i == j
  {
    var n: nat := |events|;
    assert TakenBetween(events, i, j) ==> TakenBetween(events, i, n);
    assert TakenBetween(events, j, i) ==> TakenBetween(events, j, n);
  }

  /** The last event is a character: it is kept exactly when none is unread. */
  lemma {:induction false} LastIsKept(before: seq<Event>, after: seq<Event>)
    requires Extends(before, after) && after[|before|].Completed?
    ensures Kept(after, |before|) <==> forall i :: !Unread(before, i)
  {
    var n := |before|;
    if i: nat :| Unread(before, i) {
      StillBetween(before, after, i, n);
      assert after[i] == before[i];
    } else {
      forall h | 0 <= h < n && after[h].Completed?
        ensures TakenBetween(after, h, n)
      {
        StillBetween(before, after, h, n);
        if !TakenBetween(before, h, n) {
          var i := FirstUnread(before, h);
        }
      }
    }
  }

  /** What the shorter history says of the longer one, event by event. */
  ghost predicate Carried(before: seq<Event>, after: seq<Event>) {
    && Extends(before, after)
    && (forall i :: 0 <= i < |before| ==> after[i] == before[i])
    && (forall i: nat :: i < |before| ==> (Kept(after, i) <==> Kept(before, i)) && (Lost(after, i) <==> Lost(before, i)))
    && (forall i: nat :: i < |before| ==>
          && (TakenBetween(after, i, |after|) <==> after[|before|].Taken? || TakenBetween(before, i, |before|))
          && (ClearedBetween(after, i, |after|) <==> after[|before|].Cleared? || ClearedBetween(before, i, |before|)))
    && !TakenBetween(after, |before|, |after|) && !ClearedBetween(after, |before|, |after|)
  }

  lemma {:induction false} AllCarried(before: seq<Event>, after: seq<Event>)
    requires Extends(before, after)
    ensures Carried(before, after)
  {
    forall i: nat | i < |before|
      ensures (Kept(after, i) <==> Kept(before, i)) && (Lost(after, i) <==> Lost(before, i))
      ensures TakenBetween(after, i, |after|) <==> after[|before|].Taken? || TakenBetween(before, i, |before|)
      ensures ClearedBetween(after, i, |after|) <==> after[|before|].Cleared? || ClearedBetween(before, i, |before|)
    {
      StillKept(before, after, i);
      ToTheEnd(before, after, i);
    }
  }

  lemma {:induction false} FaultCarried(before: seq<Event>, after: seq<Event>, mode: byte, f: Fault)
    requires Carried(before, after)
    ensures Shown(after, mode, f) <==>
              (!after[|before|].Cleared? && Shown(before, mode, f)) || Reason(after, mode, f, |before|)
  {
    forall i: nat | i < |before|
      ensures Reason(after, mode, f, i) <==> Reason(before, mode, f, i)
    {
    }
    if Shown(after, mode, f) {
      var i: nat :| Reason(after, mode, f, i) && !ClearedBetween(after, i, |after|);
      assert i < |before| ==> Reason(before, mode, f, i);
    }
    if !after[|before|].Cleared? && Shown(before, mode, f) {
      var i: nat :| Reason(before, mode, f, i) && !ClearedBetween(before, i, |before|);
      assert Reason(after, mode, f, i);
    }
  }

  lemma {:induction false} UnreadCarried(before: seq<Event>, after: seq<Event>)
    requires Carried(before, after)
    ensures forall i: nat :: i < |before| ==> (Unread(after, i) <==> !after[|before|].Taken? && Unread(before, i))
    ensures Waits(after) <==> (!after[|before|].Taken? && Waits(before)) || Kept(after, |before|)
  {
    assert Kept(after, |before|) ==> Unread(after, |before|);
    if Waits(after) {
      var i: nat :| Unread(after, i);
      assert i < |before| ==> Unread(before, i);
    }
    if !after[|before|].Taken? && Waits(before) {
      var i: nat :| Unread(before, i);
      assert Unread(after, i);
    }
  }

  /** Only the first unread character is in the register. */
  lemma {:induction false} BufferCarried(d: RxData, mode: byte, before: seq<Event>, after: seq<Event>)
    requires Carried(before, after) && Remembers(d, mode, before)
    ensures forall i: nat :: Unread(after, i) ==>
              if i < |before| then d.buffer == Low(mode, after[i].character.value) else i == |before| && Kept(after, i)
  {
    UnreadCarried(before, after);
  }

  lemma {:induction false} FaultsCarried(before: seq<Event>, after: seq<Event>, mode: byte)
    requires Carried(before, after)
    ensures forall f :: Shown(after, mode, f) <==>
              (!after[|before|].Cleared? && Shown(before, mode, f)) || Reason(after, mode, f, |before|)
  {
    forall f
      ensures Shown(after, mode, f) <==>
                (!after[|before|].Cleared? && Shown(before, mode, f)) || Reason(after, mode, f, |before|)
    {
      FaultCarried(before, after, mode, f);
    }
  }

  /** Reading and resetting the errors. */
  lemma {:induction false} AfterCommand(d: RxData, mode: byte, before: seq<Event>, after: seq<Event>, e: Event)
    requires Carried(before, after) && Remembers(d, mode, before) && after[|before|] == e && !e.Completed?
    ensures Remembers(OnRegister(d, mode, e), mode, after)
  {
    UnreadCarried(before, after);
    BufferCarried(d, mode, before, after);
    FaultsCarried(before, after, mode);
  }

  /** A character comes and the register is full. */
  lemma {:induction false} AfterLost(d: RxData, mode: byte, before: seq<Event>, after: seq<Event>, c: Received)
    requires Carried(before, after) && Remembers(d, mode, before) && after[|before|] == Completed(c) && d.ready
    ensures Remembers(OnRegister(d, mode, Completed(c)), mode, after)
  {
    LastIsKept(before, after);
    UnreadCarried(before, after);
    BufferCarried(d, mode, before, after);
    FaultsCarried(before, after, mode);
  }

  /** A character comes and the register is empty. */
  lemma {:induction false} AfterKept(d: RxData, mode: byte, before: seq<Event>, after: seq<Event>, c: Received)
    requires Carried(before, after) && Remembers(d, mode, before) && after[|before|] == Completed(c) && !d.ready
    ensures Remembers(OnRegister(d, mode, Completed(c)), mode, after)
  {
    LastIsKept(before, after);
    LowIsRemainder(mode, c.value);
    UnreadCarried(before, after);
    FaultsCarried(before, after, mode);
  }

  lemma {:induction false} OneEventMore(d: RxData, mode: byte, before: seq<Event>, after: seq<Event>, e: Event)
    requires Extends(before, after) && after[|before|] == e && Remembers(d, mode, before)
    ensures Remembers(OnRegister(d, mode, e), mode, after)
  {
    AllCarried(before, after);
    match e
    case Completed(c) =>
      if d.ready {
        AfterLost(d, mode, before, after, c);
      } else {
        AfterKept(d, mode, before, after, c);
      }
    case _ => AfterCommand(d, mode, before, after, e);
  }

  /** Empty and without errors. */
  predicate Clean(d: RxData) {
    !d.ready && !d.parityError && !d.overrunError && !d.framingError && !d.breakDetected
  }

  /** Over any history from a clean register on: it holds the first character completed since the last
      read; the overrun flag is set exactly when, since the errors were last reset, a character came while
      one was unread; and the other flags exactly by characters that were stored with that error. */
  lemma {:induction false} RegisterRemembers(d: RxData, mode: byte, events: seq<Event>)
    requires Clean(d)
    ensures Remembers(RegisterAfter(d, mode, events), mode, events)
    decreases events
  {
    if events != [] {
      var before := events[..|events| - 1];
      RegisterRemembers(d, mode, before);
      OneEventMore(RegisterAfter(d, mode, before), mode, before, events, events[|events| - 1]);
    }
  }

  // ---------------------------------------------------------------- the chip

  /** The character that the next receive clock completes. */
  function CompletedBy(s: UartState): Option<Received> {
    var line := PickedUp(s.line, s.control.mode);
    var rxd := if line.active && line.index < |line.frame| then line.frame[line.index] else s.rxd;
    if !s.control.ReceiverEnabled() then None
    else if !Synchronous(s.control.mode) then AsyncEdge(s.sampler, s.control.mode, rxd).1
    else
      var character := SyncEdge(s.sampler, s.control.mode, rxd).1;
      if character.None? then None else SyncCharacter(s.sync, character.value).1
  }

  /** What a step is for the register; reads are of an even address, commands go to an odd one, and their
      bit 4 resets the errors. */
  function EventOf(s: UartState, step: UartStep): seq<Event> {
    match step
    case TxClock => []
    case RxClock => if CompletedBy(s).Some? then [Completed(CompletedBy(s).value)] else []
    case PortRead(register) => if register % 2 == 0 then [Taken] else []
    case PortWrite(register, value) => if register % 2 == 1 && value / 16 % 2 == 1 then [Cleared] else []
  }

  function EventsOf(s: UartState, steps: seq<UartStep>): seq<Event>
    decreases steps
  {
    if steps == [] then [] else EventOf(s, steps[0]) + EventsOf(Stepped(s, steps[0]), steps[1..])
  }

  /** No command of the run resets the chip. */
  predicate Running(steps: seq<UartStep>) {
    forall i :: 0 <= i < |steps| && steps[i].PortWrite? && steps[i].register % 2 == 1 ==> steps[i].value / 64 % 2 == 0
  }

  lemma {:induction false} OneEvent(d: RxData, mode: byte, e: Event)
    ensures RegisterAfter(d, mode, [e]) == OnRegister(d, mode, e) && RegisterAfter(d, mode, []) == d
  {
    assert [e][..0] == [];
  }

  lemma {:induction false} ReceiveIsEvent(s: UartState)
    ensures var t := ClockedReceive(s);
            t.control == s.control && t.data == RegisterAfter(s.data, s.control.mode, EventOf(s, RxClock))
  {
    OneEvent(s.data, s.control.mode, if CompletedBy(s).Some? then Completed(CompletedBy(s).value) else Taken);
  }

  lemma {:induction false} StepIsEvent(s: UartState, step: UartStep)
    requires s.control.init == CommandNext && Running([step])
    ensures var t := Stepped(s, step);
            && t.control.init == CommandNext && t.control.mode == s.control.mode
            && t.data == RegisterAfter(s.data, s.control.mode, EventOf(s, step))
  {
    assert [step][0] == step;
    match step
    case TxClock => OneEvent(s.data, s.control.mode, Taken);
    case RxClock => ReceiveIsEvent(s);
    case PortRead(register) => OneEvent(s.data, s.control.mode, Taken);
    case PortWrite(register, value) => OneEvent(s.data, s.control.mode, Cleared);
  }

  /** Over any run of a programmed chip the register is that of the events of the run. */
  lemma {:induction false} RunIsHistory(s: UartState, steps: seq<UartStep>)
    requires s.control.init == CommandNext && Running(steps)
    ensures var t := AfterSteps(s, steps);
            && t.control.init == CommandNext && t.control.mode == s.control.mode
            && t.data == RegisterAfter(s.data, s.control.mode, EventsOf(s, steps))
    decreases steps
  {
    if steps != [] {
      var t, mode := Stepped(s, steps[0]), s.control.mode;
      assert Running([steps[0]]) && Running(steps[1..]);
      StepIsEvent(s, steps[0]);
      RunIsHistory(t, steps[1..]);
      RegisterConcat(s.data, mode, EventOf(s, steps[0]), EventsOf(t, steps[1..]));
    }
  }

  // ---------------------------------------------------------------- what a program reads

  function Bit(on: bool): nat {
    if on then 1 else 0
  }

  /** A number made of a bit and the rest. */
  lemma {:induction false} Peel(v: nat, b: bool, rest: nat)
    requires v == Bit(b) + 2 * rest
    ensures (v % 2 == 1 <==> b) && v / 2 == rest
  {
  }

  lemma {:induction false} Halves(v: nat)
    ensures v / 4 == v / 2 / 2 && v / 8 == v / 4 / 2 && v / 16 == v / 8 / 2 && v / 32 == v / 16 / 2
    ensures v / 64 == v / 32 / 2 && v / 128 == v / 64 / 2
  {
  }

  lemma {:induction false} EightBits(v: nat, b0: bool, b1: bool, b2: bool, b3: bool, b4: bool, b5: bool, b6: bool, b7: bool)
    requires v == Bit(b0) + 2 * Bit(b1) + 4 * Bit(b2) + 8 * Bit(b3) + 16 * Bit(b4) + 32 * Bit(b5) + 64 * Bit(b6) + 128 * Bit(b7)
    ensures v < 256 && (v % 2 == 1 <==> b0) && (v / 2 % 2 == 1 <==> b1) && (v / 4 % 2 == 1 <==> b2) && (v / 8 % 2 == 1 <==> b3)
    ensures (v / 16 % 2 == 1 <==> b4) && (v / 32 % 2 == 1 <==> b5) && (v / 64 % 2 == 1 <==> b6) && (v / 128 == 1 <==> b7)
  {
    var w7 := Bit(b7);
    var w6 := Bit(b6) + 2 * w7;
    var w5 := Bit(b5) + 2 * w6;
    var w4 := Bit(b4) + 2 * w5;
    var w3 := Bit(b3) + 2 * w4;
    var w2 := Bit(b2) + 2 * w3;
    var w1 := Bit(b1) + 2 * w2;
    Peel(v, b0, w1);
    Peel(w1, b1, w2);
    Peel(w2, b2, w3);
    Peel(w3, b3, w4);
    Peel(w4, b4, w5);
    Peel(w5, b5, w6);
    Peel(w6, b6, w7);
    Halves(v);
  }

  lemma {:induction false} StatusIsSum(s: UartState, ready: bool, empty: bool, broken: bool)
    requires ready == TxReady(s) && empty == (s.tx.buffer.None? && (!s.tx.active || !s.tx.payload))
    requires broken == if Synchronous(s.control.mode) then s.sync.detected else s.data.breakDetected
    ensures Status(s) == Bit(ready) + 2 * Bit(s.data.ready) + 4 * Bit(empty) + 8 * Bit(s.data.parityError)
                         + 16 * Bit(s.data.overrunError) + 32 * Bit(s.data.framingError) + 64 * Bit(broken)
                             + 128 * Bit(s.control.dsr)
  {
  }

  /** The eight bits of the status byte, read at an odd address. */
  lemma {:induction false} StatusBits(s: UartState, register: byte)
    requires register % 2 == 1
    ensures var v, c := ReadValue(s, register), s.control;
            && v < 256
            && (v % 2 == 1 <==> c.init == CommandNext && c.command % 2 == 1 && c.cts && s.tx.buffer == None)
            && (v / 2 % 2 == 1 <==> s.data.ready)
            && (v / 4 % 2 == 1 <==> s.tx.buffer == None && !(s.tx.active && s.tx.payload))
            && (v / 8 % 2 == 1 <==> s.data.parityError) && (v / 16 % 2 == 1 <==> s.data.overrunError)
            && (v / 32 % 2 == 1 <==> s.data.framingError)
            && (v / 64 % 2 == 1 <==> if c.mode % 4 == 0 then s.sync.detected else s.data.breakDetected)
            && (v / 128 == 1 <==> c.dsr)
  {
    var ready, empty := TxReady(s), s.tx.buffer.None? && (!s.tx.active || !s.tx.payload);
    var broken := if Synchronous(s.control.mode) then s.sync.detected else s.data.breakDetected;
    StatusIsSum(s, ready, empty, broken);
    EightBits(Status(s), ready, s.data.ready, empty, s.data.parityError, s.data.overrunError,
              s.data.framingError, broken, s.control.dsr);
  }

  /** What the processor is shown after any run: RxRDY, the character, and the four error bits follow
      from the history of the run. */
  lemma {:induction false} StatusTells(s: UartState, steps: seq<UartStep>, data: byte, status: byte)
    requires s.control.init == CommandNext && Running(steps) && Clean(s.data) && data % 2 == 0 && status % 2 == 1
    ensures var t, events, mode := AfterSteps(s, steps), EventsOf(s, steps), s.control.mode;
            var v := ReadValue(t, status);
            && (v / 2 % 2 == 1 <==> Waits(events))
            && (forall i: nat :: Unread(events, i) ==> ReadValue(t, data) == Low(mode, events[i].character.value))
            && (v / 8 % 2 == 1 <==> Shown(events, mode, ParityFault))
            && (v / 16 % 2 == 1 <==> Shown(events, mode, OverrunFault))
            && (v / 32 % 2 == 1 <==> Shown(events, mode, FramingFault))
            && (mode % 4 != 0 ==> (v / 64 % 2 == 1 <==> Shown(events, mode, BreakFault)))
  {
    RunIsHistory(s, steps);
    RegisterRemembers(s.data, s.control.mode, EventsOf(s, steps));
    StatusBits(AfterSteps(s, steps), status);
  }
}
