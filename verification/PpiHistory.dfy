/** The handshake flags of the 8255 mean what the data sheet says about the history of the pins
    and of the processor's accesses since the mode was set. */
module PpiHistory {
  import opened Bytes
  import opened Ppi8255

  /** What can happen to one group. */
  datatype Event =
    | Strobe(high: bool, value: byte)  // the strobe pin, with the byte on the port pins
    | Ack(high: bool)                  // the acknowledge pin
    | Take                             // the processor reads the port
    | Give                             // the processor writes the port
    | Other

  function Step(h: Handshake, e: Event, receives: bool, sends: bool): Handshake {
    match e
    case Strobe(high, value) => Strobed(h, high, value, receives)
    case Ack(high) => Acked(h, high, sends)
    case Take => Taken(h, receives)
    case Give => Given(h, sends)
    case Other => h
  }

  function After(events: seq<Event>, receives: bool, sends: bool): Handshake {
    if events == [] then IDLE
    else Step(After(events[..|events| - 1], receives, sends), events[|events| - 1], receives, sends)
  }

  // ---------------------------------------------------------------- the history

  /** The level of a pin: the last one it was driven to, high before that. */
  ghost predicate StrobeLevel(events: seq<Event>) {
    events == [] ||
    (var e := events[|events| - 1]; if e.Strobe? then e.high else StrobeLevel(events[..|events| - 1]))
  }

  ghost predicate AckLevel(events: seq<Event>) {
    events == [] ||
    (var e := events[|events| - 1]; if e.Ack? then e.high else AckLevel(events[..|events| - 1]))
  }

  ghost predicate StrobeFell(events: seq<Event>, i: nat) {
    i < |events| && events[i].Strobe? && !events[i].high && StrobeLevel(events[..i])
  }

  ghost predicate AckFell(events: seq<Event>, i: nat) {
    i < |events| && events[i].Ack? && !events[i].high && AckLevel(events[..i])
  }

  ghost predicate AckRose(events: seq<Event>, i: nat) {
    i < |events| && events[i].Ack? && events[i].high && !AckLevel(events[..i])
  }

  /** A strobe fell and no read came after it. */
  ghost predicate StrobedSinceRead(events: seq<Event>) {
    exists i: nat :: StrobeFell(events, i) && forall j :: i < j < |events| ==> events[j] != Take
  }

  /** A write came and the acknowledge line has not fallen since. */
  ghost predicate WrittenSinceAck(events: seq<Event>) {
    exists i :: 0 <= i < |events| && events[i] == Give && forall j :: i < j < |events| ==> !AckFell(events, j)
  }

  /** The acknowledge line rose and no write came after it. */
  ghost predicate AckedSinceWrite(events: seq<Event>) {
    exists i: nat :: AckRose(events, i) && forall j :: i < j < |events| ==> events[j] != Give
  }

  /** The byte of the last falling strobe. */
  ghost function LastStrobed(events: seq<Event>): byte {
    if events == [] then 0
    else if StrobeFell(events, |events| - 1) then events[|events| - 1].value
    else LastStrobed(events[..|events| - 1])
  }

  // ---------------------------------------------------------------- the flags show the history

  lemma {:induction false} PrefixFacts(events: seq<Event>)
    requires events != []
    ensures var before := events[..|events| - 1];
            && (forall i :: 0 <= i < |before| ==> events[..i] == before[..i])
            && (forall i: nat :: i < |before| ==> (StrobeFell(events, i) <==> StrobeFell(before, i)))
            && (forall i: nat :: i < |before| ==> (AckFell(events, i) <==> AckFell(before, i)))
            && (forall i: nat :: i < |before| ==> (AckRose(events, i) <==> AckRose(before, i)))
  {
    var before := events[..|events| - 1];
    assert forall i :: 0 <= i < |before| ==> events[..i] == before[..i];
  }

  lemma {:induction false} PinLevels(events: seq<Event>, receives: bool, sends: bool)
    ensures After(events, receives, sends).strobeHigh == StrobeLevel(events)
    ensures After(events, receives, sends).ackHigh == AckLevel(events)
  {
    if events != [] {
      PinLevels(events[..|events| - 1], receives, sends);
    }
  }

  /** IBF is set exactly when a strobe fell since the last read, and the latch holds the byte of
      the last strobe. */
  lemma {:induction false} InputBufferHistory(events: seq<Event>, sends: bool)
    ensures After(events, true, sends).ibf <==> StrobedSinceRead(events)
    ensures After(events, true, sends).latch == LastStrobed(events)
  {
    if events != [] {
      var n := |events| - 1;
      var before := events[..n];
      InputBufferHistory(before, sends);
      PinLevels(before, true, sends);
      PrefixFacts(events);
      if StrobeFell(events, n) {
        assert StrobedSinceRead(events);
      } else if events[n] != Take && StrobedSinceRead(before) {
        var i: nat :| StrobeFell(before, i) && forall j :: i < j < |before| ==> before[j] != Take;
        assert StrobeFell(events, i);
      }
      if StrobedSinceRead(events) && !StrobeFell(events, n) {
        var i: nat :| StrobeFell(events, i) && forall j :: i < j < |events| ==> events[j] != Take;
        assert StrobeFell(before, i);
        assert forall j :: i < j < |before| ==> before[j] == events[j];
      }
    }
  }

  /** OBF is low exactly when a write came after the last falling acknowledge. */
  lemma {:induction false} OutputBufferHistory(events: seq<Event>, receives: bool)
    ensures !After(events, receives, true).obfHigh <==> WrittenSinceAck(events)
  {
    if events != [] {
      var n := |events| - 1;
      var before := events[..n];
      OutputBufferHistory(before, receives);
      PinLevels(before, receives, true);
      PrefixFacts(events);
      if events[n] == Give {
        assert WrittenSinceAck(events);
      } else if !AckFell(events, n) && WrittenSinceAck(before) {
        var i :| 0 <= i < |before| && before[i] == Give && forall j :: i < j < |before| ==> !AckFell(before, j);
        assert events[i] == Give;
      }
      if WrittenSinceAck(events) && events[n] != Give {
        var i :| 0 <= i < |events| && events[i] == Give && forall j :: i < j < |events| ==> !AckFell(events, j);
        assert before[i] == Give;
        assert forall j :: i < j < |before| ==> !AckFell(before, j);
      }
    }
  }

  lemma {:induction false} AckedGoesOn(events: seq<Event>)
    requires events != [] && events[|events| - 1] != Give && AckedSinceWrite(events[..|events| - 1])
    ensures AckedSinceWrite(events)
  {
    var before := events[..|events| - 1];
    PrefixFacts(events);
    var i: nat :| AckRose(before, i) && forall j :: i < j < |before| ==> before[j] != Give;
    assert AckRose(events, i);
  }

  lemma {:induction false} AckedBefore(events: seq<Event>)
    requires events != [] && AckedSinceWrite(events) && !AckRose(events, |events| - 1)
    ensures events[|events| - 1] != Give && AckedSinceWrite(events[..|events| - 1])
  {
    var before := events[..|events| - 1];
    PrefixFacts(events);
    var i: nat :| AckRose(events, i) && forall j :: i < j < |events| ==> events[j] != Give;
    assert AckRose(before, i);
    assert forall j :: i < j < |before| ==> before[j] == events[j];
  }

  lemma {:induction false} AcknowledgedHistory(events: seq<Event>, receives: bool)
    ensures After(events, receives, true).acknowledged <==> AckedSinceWrite(events)
  {
    if events != [] {
      var n := |events| - 1;
      var before := events[..n];
      AcknowledgedHistory(before, receives);
      PinLevels(before, receives, true);
      if AckRose(events, n) {
        assert AckedSinceWrite(events);
      } else if events[n] != Give && AckedSinceWrite(before) {
        AckedGoesOn(events);
      } else if AckedSinceWrite(events) {
        AckedBefore(events);
        assert false;
      }
    }
  }

  // ---------------------------------------------------------------- whole chips

  datatype PpiOp =
    | ReadRegister(register: byte)
    | WriteRegister(register: byte, value: byte)
    | PinsA(value: byte)
    | PinsB(value: byte)
    | PinsC(value: byte)
    | StrobePinA(high: bool)
    | StrobePinB(high: bool)
    | AckPinA(high: bool)
    | AckPinB(high: bool)

  function Apply(s: PpiState, op: PpiOp): PpiState {
    match op
    case ReadRegister(r) => AfterRead(s, r)
    case WriteRegister(r, v) => Written(s, r, v)
    case PinsA(v) => s.(ports := s.ports.(inA := v))
    case PinsB(v) => s.(ports := s.ports.(inB := v))
    case PinsC(v) => s.(ports := s.ports.(inC := v))
    case StrobePinA(h) => StrobeA(s, h)
    case StrobePinB(h) => StrobeB(s, h)
    case AckPinA(h) => AckA(s, h)
    case AckPinB(h) => AckB(s, h)
  }

  predicate SetsMode(op: PpiOp) {
    op.WriteRegister? && op.register % 4 == 3 && HasBit(op.value, 0x80)
  }

  function EventA(s: PpiState, op: PpiOp): Event {
    match op
    case ReadRegister(r) => if r % 4 == 0 then Take else Other
    case WriteRegister(r, _) => if r % 4 == 0 then Give else Other
    case StrobePinA(h) => Strobe(h, s.ports.inA)
    case AckPinA(h) => Ack(h)
    case _ => Other
  }

  function EventB(s: PpiState, op: PpiOp): Event {
    match op
    case ReadRegister(r) => if r % 4 == 1 then Take else Other
    case WriteRegister(r, _) => if r % 4 == 1 then Give else Other
    case StrobePinB(h) => Strobe(h, s.ports.inB)
    case AckPinB(h) => Ack(h)
    case _ => Other
  }

  /** The state, and the events of both groups, after a run from a mode set. */
  datatype Run = Run(state: PpiState, eventsA: seq<Event>, eventsB: seq<Event>)

  function AfterRun(start: PpiState, ops: seq<PpiOp>): Run {
    if ops == [] then Run(start, [], [])
    else
      var r, op := AfterRun(start, ops[..|ops| - 1]), ops[|ops| - 1];
      Run(Apply(r.state, op), r.eventsA + [EventA(r.state, op)], r.eventsB + [EventB(r.state, op)])
  }

  ghost predicate SameModes(s: PpiState, t: PpiState) {
    && t.a.mode == s.a.mode && t.a.input == s.a.input
    && t.b.mode == s.b.mode && t.b.input == s.b.input
  }

  ghost predicate FollowsEvents(s: PpiState, op: PpiOp, t: PpiState) {
    && SameModes(s, t)
    && t.a.shake == Step(s.a.shake, EventA(s, op), s.a.Receives(), s.a.Sends())
    && t.b.shake == Step(s.b.shake, EventB(s, op), s.b.Receives(), s.b.Sends())
  }

  lemma {:induction false} SettlingKeeps(s: PpiState, op: PpiOp, t: PpiState)
    requires FollowsEvents(s, op, t)
    ensures FollowsEvents(s, op, Settled(t))
  {
  }

  /** The state an operation leaves before the interrupts are recomputed. */
  function Unsettled(s: PpiState, op: PpiOp): PpiState {
    match op
    case ReadRegister(r) =>
      if r % 4 == 0 then s.(a := s.a.(shake := Taken(s.a.shake, s.a.Receives())))
      else if r % 4 == 1 then s.(b := s.b.(shake := Taken(s.b.shake, s.b.Receives())))
      else s
    case WriteRegister(r, v) =>
      if r % 4 == 0 then s.(ports := s.ports.(outA := v), a := s.a.(shake := Given(s.a.shake, s.a.Sends())))
      else if r % 4 == 1 then s.(ports := s.ports.(outB := v), b := s.b.(shake := Given(s.b.shake, s.b.Sends())))
      else if r % 4 == 2 then s.(ports := s.ports.(outC := v))
      else if HasBit(v, 0x80) then ModeSet(s, v) else BitSetReset(s, v)
    case PinsA(v) => s.(ports := s.ports.(inA := v))
    case PinsB(v) => s.(ports := s.ports.(inB := v))
    case PinsC(v) => s.(ports := s.ports.(inC := v))
    case StrobePinA(h) => s.(a := s.a.(shake := Strobed(s.a.shake, h, s.ports.inA, s.a.Receives())))
    case StrobePinB(h) => s.(b := s.b.(shake := Strobed(s.b.shake, h, s.ports.inB, s.b.Receives())))
    case AckPinA(h) => s.(a := s.a.(shake := Acked(s.a.shake, h, s.a.Sends())))
    case AckPinB(h) => s.(b := s.b.(shake := Acked(s.b.shake, h, s.b.Sends())))
  }

  ghost predicate IsSettled(s: PpiState) {
    s.a.intr == s.a.Interrupt() && s.b.intr == s.b.Interrupt()
  }

  /** INTR A and INTR B equal their enable/flag/pin formula after every operation. */
  lemma {:induction false} AlwaysSettled(s: PpiState, op: PpiOp)
    requires IsSettled(s)
    ensures Apply(s, op) == Settled(Unsettled(s, op))
    ensures IsSettled(Apply(s, op))
  {
    match op
    case ReadRegister(r) =>
    case WriteRegister(r, v) =>
    case PinsA(v) =>
    case PinsB(v) =>
    case PinsC(v) =>
    case StrobePinA(h) =>
    case StrobePinB(h) =>
    case AckPinA(h) =>
    case AckPinB(h) =>
  }

  lemma {:induction false} OneOperation(s: PpiState, op: PpiOp)
    requires !SetsMode(op) && IsSettled(s)
    ensures FollowsEvents(s, op, Apply(s, op))
  {
    AlwaysSettled(s, op);
    BeforeSettling(s, op);
    SettlingKeeps(s, op, Unsettled(s, op));
  }

  lemma {:induction false} BeforeSettling(s: PpiState, op: PpiOp)
    requires !SetsMode(op)
    ensures FollowsEvents(s, op, Unsettled(s, op))
  {
    match op
    case ReadRegister(r) =>
    case WriteRegister(r, v) =>
    case PinsA(v) =>
    case PinsB(v) =>
    case PinsC(v) =>
    case StrobePinA(h) =>
    case StrobePinB(h) =>
    case AckPinA(h) =>
    case AckPinB(h) =>
  }

  /** After any run since the mode was set, the handshake of each group is the one of its own
      events, and both interrupts follow their formula. */
  lemma {:induction false} RunIsHistory(s: PpiState, value: byte, ops: seq<PpiOp>)
    requires forall i :: 0 <= i < |ops| ==> !SetsMode(ops[i])
    ensures var start := ModeSet(s, value);
            var r := AfterRun(start, ops);
            && SameModes(start, r.state) && IsSettled(r.state)
            && r.state.a.shake == After(r.eventsA, start.a.Receives(), start.a.Sends())
            && r.state.b.shake == After(r.eventsB, start.b.Receives(), start.b.Sends())
  {
    if ops != [] {
      var before := ops[..|ops| - 1];
      RunIsHistory(s, value, before);
      var start := ModeSet(s, value);
      var r := AfterRun(start, before);
      var op := ops[|ops| - 1];
      AlwaysSettled(r.state, op);
      OneOperation(r.state, op);
      var r' := AfterRun(start, ops);
      assert r'.eventsA[..|r'.eventsA| - 1] == r.eventsA;
      assert r'.eventsB[..|r'.eventsB| - 1] == r.eventsB;
    }
  }

  // ---------------------------------------------------------------- what the processor and the pins see

  /** IBF and the latch of a receiving group. */
  ghost predicate InputShows(h: Handshake, events: seq<Event>) {
    (h.ibf <==> StrobedSinceRead(events)) && h.latch == LastStrobed(events)
  }

  /** OBF of a sending group. */
  ghost predicate OutputShows(h: Handshake, events: seq<Event>) {
    !h.obfHigh <==> WrittenSinceAck(events)
  }

  /** A byte waits to be read. */
  ghost predicate InputAsks(events: seq<Event>, enabled: bool) {
    enabled && StrobedSinceRead(events) && StrobeLevel(events)
  }

  /** The last byte has been taken and acknowledged. */
  ghost predicate OutputAsks(events: seq<Event>, enabled: bool) {
    enabled && AckedSinceWrite(events) && !WrittenSinceAck(events) && AckLevel(events)
  }

  ghost predicate FollowsHistory(h: Handshake, events: seq<Event>, receives: bool, sends: bool) {
    && (receives ==> InputShows(h, events)) && (sends ==> OutputShows(h, events))
    && (receives ==> forall enabled :: enabled && h.ibf && h.strobeHigh <==> InputAsks(events, enabled))
    && (sends ==> forall enabled ::
          enabled && h.acknowledged && h.obfHigh && h.ackHigh <==> OutputAsks(events, enabled))
  }

  lemma {:induction false} HandshakeFollows(events: seq<Event>, receives: bool, sends: bool)
    ensures FollowsHistory(After(events, receives, sends), events, receives, sends)
  {
    PinLevels(events, receives, sends);
    if receives {
      InputBufferHistory(events, sends);
    }
    if sends {
      OutputBufferHistory(events, receives);
      AcknowledgedHistory(events, receives);
    }
  }

  /** A port that receives, of either group and in mode 1 or 2: a read returns the byte of the last
      strobe, and IBF tells whether it is new. */
  lemma {:induction false} ReadReturnsLastStrobe(s: PpiState, value: byte, ops: seq<PpiOp>)
    requires forall i :: 0 <= i < |ops| ==> !SetsMode(ops[i])
    ensures var start, r := ModeSet(s, value), AfterRun(ModeSet(s, value), ops);
            && (start.a.Receives() ==>
                  ReadValue(r.state, 0) == LastStrobed(r.eventsA)
                  && (r.state.a.shake.ibf <==> StrobedSinceRead(r.eventsA)))
            && (start.b.Receives() ==>
                  ReadValue(r.state, 1) == LastStrobed(r.eventsB)
                  && (r.state.b.shake.ibf <==> StrobedSinceRead(r.eventsB)))
  {
    var start, r := ModeSet(s, value), AfterRun(ModeSet(s, value), ops);
    RunIsHistory(s, value, ops);
    HandshakeFollows(r.eventsA, start.a.Receives(), start.a.Sends());
    HandshakeFollows(r.eventsB, start.b.Receives(), start.b.Sends());
  }

  /** A port that sends: OBF is low exactly while a byte written has not been acknowledged. */
  lemma {:induction false} OutputFollowsHistory(s: PpiState, value: byte, ops: seq<PpiOp>)
    requires forall i :: 0 <= i < |ops| ==> !SetsMode(ops[i])
    ensures var start, r := ModeSet(s, value), AfterRun(ModeSet(s, value), ops);
            && (start.a.Sends() ==> (!r.state.a.shake.obfHigh <==> WrittenSinceAck(r.eventsA)))
            && (start.b.Sends() ==> (!r.state.b.shake.obfHigh <==> WrittenSinceAck(r.eventsB)))
  {
    var start, r := ModeSet(s, value), AfterRun(ModeSet(s, value), ops);
    RunIsHistory(s, value, ops);
    HandshakeFollows(r.eventsA, start.a.Receives(), start.a.Sends());
    HandshakeFollows(r.eventsB, start.b.Receives(), start.b.Sends());
  }

  /** Both interrupts over any run, in every mode, from the events alone. */
  lemma {:induction false} InterruptsFollowHistory(s: PpiState, value: byte, ops: seq<PpiOp>)
    requires forall i :: 0 <= i < |ops| ==> !SetsMode(ops[i])
    ensures var start, r := ModeSet(s, value), AfterRun(ModeSet(s, value), ops);
            && (r.state.a.intr <==>
                  || (start.a.Receives() && InputAsks(r.eventsA, r.state.a.inteInput))
                  || (start.a.Sends() && OutputAsks(r.eventsA, r.state.a.inteOutput)))
            && (r.state.b.intr <==>
                  || (start.b.Receives() && InputAsks(r.eventsB, r.state.b.inte))
                  || (start.b.Sends() && OutputAsks(r.eventsB, r.state.b.inte)))
  {
    var start, r := ModeSet(s, value), AfterRun(ModeSet(s, value), ops);
    RunIsHistory(s, value, ops);
    HandshakeFollows(r.eventsA, start.a.Receives(), start.a.Sends());
    HandshakeFollows(r.eventsB, start.b.Receives(), start.b.Sends());
  }
}
