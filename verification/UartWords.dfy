/** The 8251 from the bits of its words on: the mode word and the frame it describes, level by level, the
    order in which words are taken, and the command word. */
module UartWords {
  import opened Bytes
  import opened Wrappers
  import opened Uart8251
  import opened UartWire
  import opened UartPair
  import L = UartLink
  import UartRegisters
  import UartStreams

  // ---------------------------------------------------------------- the frame, bit by bit

  function Highs(bits: seq<bool>): nat {
    if bits == [] then 0 else Highs(bits[..|bits| - 1]) + if bits[|bits| - 1] then 1 else 0
  }

  /** Bits 0 and 1 clear: synchronous, without start and stop bits. */
  function StartsWith(mode: byte): nat {
    if mode % 4 == 0 then 0 else 1
  }

  function StopsWith(mode: byte): nat {
    if mode % 4 == 0 then 0 else if mode / 64 <= 1 then 1 else 2
  }

  /** The ones among the data and parity bits are even in number exactly if bit 5 is set. */
  predicate ParityRight(mode: byte, bits: seq<bool>) {
    match mode / 32 % 2
    case 0 => Highs(bits) % 2 == 1
    case _ => Highs(bits) % 2 == 0
  }

  /** A start bit, five to eight data bits by bits 2 and 3, least significant first, a parity bit if bit 4
      is set, so that the ones are even in number if bit 5 is, and one or two stop bits by bits 6 and
      7. */
  ghost predicate IsFrame(mode: byte, value: nat, frame: seq<bool>) {
    var start, n, parity := StartsWith(mode), 5 + mode / 4 % 4, mode / 16 % 2;
    && |frame| == start + n + parity + StopsWith(mode)
    && (start == 1 ==> !frame[0])
    && (forall i: nat :: start <= i < start + n ==> (frame[i] <==> value / Pow2(i - start) % 2 == 1))
    && (parity == 1 ==> ParityRight(mode, frame[start..start + n + 1]))
    && (forall i: nat :: start + n + parity <= i < |frame| ==> frame[i])
  }

  lemma {:induction false} OnesAreHighs(bits: seq<bool>)
    ensures Ones(bits) == Highs(bits)
  {
    if bits != [] {
      OnesAreHighs(bits[..|bits| - 1]);
    }
  }

  lemma {:induction false} HighsNext(bits: seq<bool>, bit: bool)
    ensures Highs(bits + [bit]) == Highs(bits) + if bit then 1 else 0
  {
    assert (bits + [bit])[..|bits|] == bits;
  }

  lemma {:induction false} DivideTwice(value: nat, p: nat)
    requires p > 0
    ensures value / 2 / p == value / (2 * p)
  {
    var q, r := value / 2 / p, value / 2 % p;
    assert value / 2 == q * p + r;
    assert q * (2 * p) == 2 * (q * p);
    DivModUnique(value, 2 * p, q, 2 * r + value % 2);
  }

  lemma {:induction false} BitOfValue(value: nat, i: nat)
    ensures BitAt(value, i) <==> value / Pow2(i) % 2 == 1
  {
    if i > 0 {
      BitOfValue(value / 2, i - 1);
      DivideTwice(value, Pow2(i - 1));
    }
  }

  lemma {:induction false} ParityFits(mode: byte, data: seq<bool>, bits: seq<bool>)
    requires bits == data + [ParityBit(mode, Ones(data))]
    ensures ParityRight(mode, bits)
  {
    OnesAreHighs(data);
    HighsNext(data, ParityBit(mode, Ones(data)));
  }

  /** The frame in its parts. */
  predicate HasParts(mode: byte, start: nat, n: nat, data: seq<bool>, frame: seq<bool>) {
    && |data| == n && |frame| == start + n + mode / 16 % 2 + StopsWith(mode) && (start == 1 ==> !frame[0])
    && frame[start..start + n] == data
    && (mode / 16 % 2 == 1 ==> frame[start..start + n + 1] == data + [ParityBit(mode, Ones(data))])
    && (forall i: nat :: start + n + mode / 16 % 2 <= i < |frame| ==> frame[i])
  }

  lemma {:induction false} FrameInParts(mode: byte, value: nat, start: nat, n: nat)
    requires start == StartsWith(mode) && n == CharacterBits(mode)
    ensures HasParts(mode, start, n, DataBits(value, n), Frame(mode, value))
  {
  }

  lemma {:induction false} DataFits(value: nat, n: nat, data: seq<bool>, start: nat, frame: seq<bool>, i: nat)
    requires data == DataBits(value, n) && start + n <= |frame| && frame[start..start + n] == data && start <= i < start + n
    ensures frame[i] <==> value / Pow2(i - start) % 2 == 1
  {
    assert frame[i] == frame[start..start + n][i - start];
    BitOfValue(value, i - start);
  }

  lemma {:induction false} AllDataFit(value: nat, n: nat, data: seq<bool>, start: nat, frame: seq<bool>)
    requires data == DataBits(value, n) && start + n <= |frame| && frame[start..start + n] == data
    ensures forall i: nat :: start <= i < start + n ==> (frame[i] <==> value / Pow2(i - start) % 2 == 1)
  {
    forall i: nat | start <= i < start + n
      ensures frame[i] <==> value / Pow2(i - start) % 2 == 1
    {
      DataFits(value, n, data, start, frame, i);
    }
  }

  lemma {:induction false} PartsFit(mode: byte, value: nat, start: nat, n: nat, data: seq<bool>, frame: seq<bool>)
    requires start == StartsWith(mode) && n == CharacterBits(mode) && data == DataBits(value, n)
    requires HasParts(mode, start, n, data, frame)
    ensures IsFrame(mode, value, frame)
  {
    AllDataFit(value, n, data, start, frame);
    if mode / 16 % 2 == 1 {
      ParityFits(mode, data, frame[start..start + n + 1]);
    }
  }

  /** The frame the transmitter builds is that of the mode word. */
  lemma {:induction false} FrameOfWord(mode: byte, value: nat)
    ensures IsFrame(mode, value, Frame(mode, value))
  {
    var start, n := StartsWith(mode), CharacterBits(mode);
    FrameInParts(mode, value, start, n);
    PartsFit(mode, value, start, n, DataBits(value, n), Frame(mode, value));
  }

  lemma {:induction false} SameParity(mode: byte, a: seq<bool>, b: seq<bool>)
    requires |a| == |b| > 0 && a[..|a| - 1] == b[..|b| - 1] && ParityRight(mode, a) && ParityRight(mode, b)
    ensures a[|a| - 1] == b[|b| - 1]
  {
  }

  lemma {:induction false} SameBefore(mode: byte, value: nat, a: seq<bool>, b: seq<bool>, i: nat)
    requires IsFrame(mode, value, a) && IsFrame(mode, value, b) && i < StartsWith(mode) + 5 + mode / 4 % 4
    ensures a[i] == b[i]
  {
  }

  lemma {:induction false} SameParityBit(mode: byte, value: nat, a: seq<bool>, b: seq<bool>, start: nat, n: nat)
    requires IsFrame(mode, value, a) && IsFrame(mode, value, b) && mode / 16 % 2 == 1
    requires start == StartsWith(mode) && n == 5 + mode / 4 % 4 && forall i: nat :: i < start + n ==> a[i] == b[i]
    ensures a[start + n] == b[start + n]
  {
    var x, y := a[start..start + n + 1], b[start..start + n + 1];
    assert x[..n] == y[..n];
    SameParity(mode, x, y);
    assert x[n] == a[start + n] && y[n] == b[start + n];
  }

  /** There is only one such frame. */
  lemma {:induction false} OneFrame(mode: byte, value: nat, a: seq<bool>, b: seq<bool>)
    requires IsFrame(mode, value, a) && IsFrame(mode, value, b)
    ensures a == b
  {
    var start, n := StartsWith(mode), 5 + mode / 4 % 4;
    forall i: nat | i < start + n
      ensures a[i] == b[i]
    {
      SameBefore(mode, value, a, b, i);
    }
    if mode / 16 % 2 == 1 {
      SameParityBit(mode, value, a, b, start, n);
    }
    forall i: nat | i < |a|
      ensures a[i] == b[i]
    {
    }
  }

  // ---------------------------------------------------------------- on the line

  /** Bits 0 and 1 give the clocks of a bit: 2 stands for 16, 3 for 64. */
  predicate Factor(mode: byte, clocks: nat) {
    (mode % 4 == 2 && clocks == 16) || (mode % 4 == 3 && clocks == 64)
  }

  /** A buffered byte goes out bit after bit, each for 16 or 64 clocks. */
  lemma {:induction false} LineShows(tx: Transmitter, mode: byte, value: byte, clocks: nat, frame: seq<bool>, i: nat, c: nat)
    requires BetweenFrames(tx, mode) && tx.buffer == Some(value) && Factor(mode, clocks)
    requires IsFrame(mode, value, frame) && i < |frame| && c < clocks
    ensures var levels := TxRun(tx, mode, |frame| * clocks).1;
            i * clocks + c < |levels| && levels[i * clocks + c] == frame[i]
  {
    FrameOfWord(mode, value);
    OneFrame(mode, value, frame, Frame(mode, value));
    TxFrame(tx, mode, value);
    UartStreams.LevelAt(frame, clocks, i, c);
  }

  /** A receiver at rest has the low bits of the character, without an error, half a bit after the start of
      the first stop bit, and at rest again after the frame. */
  lemma {:induction false} LineHeard(s: Sampler, mode: byte, value: nat, clocks: nat, frame: seq<bool>, at: nat)
    requires s.phase == Idle && Factor(mode, clocks) && IsFrame(mode, value, frame)
    requires at == clocks / 2 + (5 + mode / 4 % 4 + mode / 16 % 2 + 1) * clocks
    ensures Delivers(s, mode, Stretch(frame, clocks), at, UartRegisters.Low(mode, value))
  {
    FrameOfWord(mode, value);
    OneFrame(mode, value, frame, Frame(mode, value));
    FrameDelivers(s, mode, value);
    UartRegisters.LowIsRemainder(mode, value);
  }

  /** A synchronous transmitter that may send, between two characters. */
  predicate BetweenCharacters(s: UartState) {
    && s.control.mode % 4 == 0 && s.control.Sending() && !s.control.Break() && s.sync.transmitIndex < s.sync.count <= 2
    && (s.tx.active ==> s.tx.index >= |s.tx.frame|)
  }

  /** What is sent next: the byte in the buffer, or one of the SYN characters in turn. */
  predicate NextCharacter(s: UartState, value: byte, payload: bool) {
    match s.tx.buffer
    case Some(v) => value == v && payload
    case None => value == (if s.sync.transmitIndex == 0 then s.sync.first else s.sync.second) && !payload
  }

  /** So many bits of the character are on the line, the last of them now; the one before it has been given to
      the host if it was a byte and there was room. */
  predicate Sent(s: UartState, value: byte, payload: bool, frame: seq<bool>, bits: nat, t: UartState) {
    && 1 <= bits <= |frame| && t == s.(tx := t.tx, sync := s.sync.(transmitIndex := t.sync.transmitIndex))
    && t.tx == Transmitter(None, frame, bits, value, true, payload, frame[bits - 1], 0, t.tx.completed)
    && t.sync.transmitIndex
       == (if payload then s.sync.transmitIndex else if s.sync.transmitIndex + 1 < s.sync.count then 1 else 0)
    && t.tx.completed == if s.tx.active && s.tx.payload && |s.tx.completed| < 4_096 then s.tx.completed + [s.tx.character]
                         else s.tx.completed
  }

  lemma {:induction false} FirstBit(s: UartState, value: byte, payload: bool, frame: seq<bool>)
    requires BetweenCharacters(s) && NextCharacter(s, value, payload) && frame == Frame(s.control.mode, value)
    ensures Sent(s, value, payload, frame, 1, ClockedTransmit(s))
  {
    FrameSize(s.control.mode, value);
  }

  lemma {:induction false} NextBit(s: UartState, value: byte, payload: bool, frame: seq<bool>, bits: nat, t: UartState)
    requires BetweenCharacters(s) && Sent(s, value, payload, frame, bits, t) && bits < |frame|
    ensures Sent(s, value, payload, frame, bits + 1, ClockedTransmit(t))
  {
  }

  lemma {:induction false} LastBit(s: UartState, value: byte, payload: bool, frame: seq<bool>, t: UartState)
    requires BetweenCharacters(s) && Sent(s, value, payload, frame, |frame|, t)
    ensures BetweenCharacters(t)
  {
  }

  lemma {:induction false} BitByBit(s: UartState, value: byte, payload: bool, frame: seq<bool>, bits: nat)
    requires BetweenCharacters(s) && NextCharacter(s, value, payload) && frame == Frame(s.control.mode, value)
    requires 1 <= bits <= |frame|
    ensures Sent(s, value, payload, frame, bits, TransmitEdges(s, bits))
    decreases bits
  {
    if bits == 1 {
      assert TransmitEdges(s, 0) == s;
      FirstBit(s, value, payload, frame);
    } else {
      BitByBit(s, value, payload, frame, bits - 1);
      NextBit(s, value, payload, frame, bits - 1, TransmitEdges(s, bits - 1));
    }
  }

  /** In synchronous modes bit after bit of the next character is on the line, one a clock; with nothing in the
      buffer that is a SYN character, and after the last bit the next one follows. */
  lemma {:induction false} SynchronousLine(s: UartState, value: byte, payload: bool, frame: seq<bool>, bits: nat)
    requires BetweenCharacters(s) && NextCharacter(s, value, payload) && IsFrame(s.control.mode, value, frame)
    requires 1 <= bits <= |frame|
    ensures var t := TransmitEdges(s, bits);
            Sent(s, value, payload, frame, bits, t) && (bits == |frame| ==> BetweenCharacters(t))
  {
    FrameOfWord(s.control.mode, value);
    OneFrame(s.control.mode, value, frame, Frame(s.control.mode, value));
    BitByBit(s, value, payload, frame, bits);
    if bits == |frame| {
      LastBit(s, value, payload, frame, TransmitEdges(s, bits));
    }
  }

  // ---------------------------------------------------------------- the words

  /** A write to an even address fills the transmit buffer with the low bits of the byte. */
  lemma {:induction false} DataWord(s: UartState, register: byte, value: byte)
    requires register % 2 == 0
    ensures Write(s, register, value) == s.(tx := s.tx.(buffer := Write(s, register, value).tx.buffer))
    ensures Write(s, register, value).tx.buffer.Some?
              && Write(s, register, value).tx.buffer.value == UartRegisters.Low(s.control.mode, value)
  {
    UartRegisters.LowIsRemainder(s.control.mode, value);
  }

  /** After a reset a mode word is awaited; in asynchronous modes commands follow it, in synchronous ones
      two SYN characters, or one if bit 7 is set, and then commands. */
  lemma {:induction false} WordsInOrder(s: UartState, mode: byte, first: byte, second: byte)
    requires s.control.init == ModeNext
    ensures var a := Write(s, 1, mode);
            var b := Write(a, 1, first);
            var c := Write(b, 1, second);
            && a.control.mode == mode && a.control.command == 0 && !a.data.ready && a.tx.buffer == None
                && !a.tx.active && a.sampler.phase == Idle
            && (mode % 4 != 0 ==> a.control.init == CommandNext)
            && (mode % 4 == 0 ==> a.control.init != CommandNext && b.sync.first == first)
            && (mode % 4 == 0 && mode / 128 == 1 ==> b.control.init == CommandNext && b.sync.count == 1)
            && (mode % 4 == 0 && mode / 128 == 0 ==>
                  b.control.init != CommandNext && c.control.init == CommandNext && c.sync.first == first
                      && c.sync.second == second
                  && c.sync.count == 2)
  {
  }

  /** A command without bit 6: bit 0 lets the transmitter send when CTS is on, bit 2 lets the receiver
      receive, bit 3 is a break, bit 4 resets the errors, and in a synchronous mode bit 7 starts the hunt;
      the byte in the transmit buffer, the frame on the line and the character received stay. */
  predicate Commanded(s: UartState, value: byte, t: UartState) {
    && t.control.init == CommandNext && t.control.mode == s.control.mode && t.control.cts == s.control.cts
        && t.control.dsr == s.control.dsr
    && (t.control.Sending() <==> value % 2 == 1 && s.control.cts) && (t.control.ReceiverEnabled() <==> value / 4 % 2 == 1)
    && (t.control.Break() <==> value / 8 % 2 == 1)
    && t.data == (if value / 16 % 2 == 0 then s.data else RxData(s.data.buffer, s.data.ready, false, false, false, false))
    && t.tx == (if value % 2 == 1 then s.tx else s.tx.(txdHigh := true))
    && (if s.control.mode % 4 == 0 && value / 128 == 1 then
          && t.sync == s.sync.(hunt := true, detected := false, huntIndex := 0)
          && (value / 4 % 2 == 1 ==> t.sampler.phase == SyncData && t.sampler.bitIndex == 0 && t.sampler.shift == 0)
        else t.sync == s.sync && (value / 4 % 2 == 1 ==> t.sampler == s.sampler))
    && (value / 4 % 2 == 0 ==> t.sampler.phase == Idle)
    && t.rxd == s.rxd && t.line == s.line
  }

  lemma {:induction false} CommandWord(s: UartState, register: byte, value: byte)
    requires register % 2 == 1 && s.control.init == CommandNext && value / 64 % 2 == 0
    ensures Commanded(s, value, Write(s, register, value))
  {
    assert value / 128 % 2 == value / 128;
  }

  /** Bit 6 resets the chip: a mode word is awaited, nothing is sent or received, and the pins are as they
      were. */
  lemma {:induction false} ResetWord(s: UartState, register: byte, value: byte)
    requires register % 2 == 1 && s.control.init == CommandNext && value / 64 % 2 == 1
    ensures var t := Write(s, register, value);
            && t.control.init == ModeNext && t.control.cts == s.control.cts && t.control.dsr == s.control.dsr
            && t.tx.buffer == None && !t.tx.active && t.tx.txdHigh && t.tx.completed == [] && UartRegisters.Clean(t.data)
            && t.sampler.phase == Idle && t.line.queue == [] && !t.line.active && (t.rxd <==> s.line.active || s.rxd)
            && !t.control.Sending() && !t.control.ReceiverEnabled() && !t.control.Break()
  {
  }

  /** An interrupt is requested while a character waits, or a byte may be written. */
  lemma {:induction false} InterruptMeans(s: UartState)
    ensures InterruptRequested(s) <==>
              s.data.ready || (s.control.init == CommandNext && s.control.command % 2 == 1 && s.control.cts
                  && s.tx.buffer == None)
  {
  }

  /** The transmitter sends nothing while it may not: the line is high, and a byte stays in the buffer. */
  lemma {:induction false} HeldBack(s: UartState)
    requires !s.control.Sending() && !s.control.Break() && !s.tx.active && s.tx.txdHigh
    ensures var t := ClockedTransmit(s); t.tx == s.tx.(clockCount := t.tx.clockCount)
  {
  }

  /** A break holds the line low. */
  lemma {:induction false} BreakHolds(s: UartState)
    requires s.control.Break()
    ensures ClockedTransmit(s).tx == s.tx.(txdHigh := false)
  {
  }
}
