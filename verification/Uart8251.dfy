/** The 8251 serial interface: a transmitter that shifts frames out, a receiver that samples the
    line, and the host-side serializer that puts queued bytes on that line. */
module Uart8251 {
  import opened Bytes
  import opened Wrappers

  const HOST_QUEUE_CAPACITY: nat := 4_096

  // ---------------------------------------------------------------- the mode word

  function CharacterBits(mode: byte): (bits: nat)
    ensures 5 <= bits <= 8
  {
    5 + mode / 4 % 4
  }

  function BaudFactor(mode: byte): (factor: nat)
    ensures factor == 1 || factor == 16 || factor == 64
  {
    match mode % 4
    case 2 => 16
    case 3 => 64
    case _ => 1
  }

  predicate Synchronous(mode: byte) { mode % 4 == 0 }

  predicate ParityEnabled(mode: byte) { HasBit(mode, 0x10) }

  predicate EvenParity(mode: byte) { HasBit(mode, 0x20) }

  function StopBits(mode: byte): nat { if mode / 64 <= 1 then 1 else 2 }

  // ---------------------------------------------------------------- frames

  /** `(value & (1 << bit)) != 0`. */
  predicate BitAt(value: nat, bit: nat) {
    if bit == 0 then value % 2 == 1 else BitAt(value / 2, bit - 1)
  }

  /** The low `n` bits of a character in the order they travel, least significant first. */
  function DataBits(value: nat, n: nat): (bits: seq<bool>)
    ensures |bits| == n && forall i: nat :: i < n ==> bits[i] == BitAt(value, i)
  {
    if n == 0 then [] else DataBits(value, n - 1) + [BitAt(value, n - 1)]
  }

  lemma {:induction false} DataBitsNext(value: nat, n: nat)
    ensures DataBits(value, n + 1) == DataBits(value, n) + [BitAt(value, n)]
  {
  }

  function Ones(bits: seq<bool>): nat {
    if bits == [] then 0
    else Ones(bits[..|bits| - 1]) + if bits[|bits| - 1] then 1 else 0
  }

  function ParityBit(mode: byte, ones: nat): bool {
    if EvenParity(mode) then ones % 2 == 1 else ones % 2 == 0
  }

  function StopLevels(n: nat): (bits: seq<bool>)
    ensures |bits| == n && forall i :: 0 <= i < n ==> bits[i]
  {
    seq(n, _ => true)
  }

  /** Start bit, data bits, parity and stop bits; no start and stop in synchronous mode. */
  function Frame(mode: byte, value: nat): seq<bool> {
    var data := DataBits(value, CharacterBits(mode));
    (if Synchronous(mode) then [] else [false])
    + data
    + (if ParityEnabled(mode) then [ParityBit(mode, Ones(data))] else [])
    + (if Synchronous(mode) then [] else StopLevels(StopBits(mode)))
  }

  lemma {:induction false} OnesAppend(bits: seq<bool>, bit: bool)
    ensures Ones(bits + [bit]) == Ones(bits) + if bit then 1 else 0
  {
    assert (bits + [bit])[..|bits|] == bits;
  }

  /** The data loop of a frame, which counts the ones as it goes. */
  method ShiftInData(frame: seq<bool>, value: byte, bits: nat) returns (longer: seq<bool>, parityOnes: nat)
    ensures longer == frame + DataBits(value, bits)
    ensures parityOnes == Ones(DataBits(value, bits))
  {
    longer, parityOnes := frame, 0;
    ghost var data := [];
    for bit := 0 to bits
      invariant data == DataBits(value, bit)
      invariant longer == frame + data
      invariant parityOnes == Ones(data)
    {
      var high := BitAt(value, bit);
      OnesAppend(data, high);
      DataBitsNext(value, bit);
      data := data + [high];
      longer := longer + [high];
      parityOnes := parityOnes + if high then 1 else 0;
    }
  }

  method AppendStopBits(frame: seq<bool>, stopBits: nat) returns (longer: seq<bool>)
    ensures longer == frame + StopLevels(stopBits)
  {
    longer := frame;
    for bit := 0 to stopBits
      invariant longer == frame + StopLevels(bit)
    {
      longer := longer + [true];
    }
  }

  /** What both frame builders of the program do. */
  method BuildFrame(mode: byte, value: byte) returns (frame: seq<bool>)
    ensures frame == Frame(mode, value)
  {
    frame := [];
    if !Synchronous(mode) {
      frame := frame + [false];
    }
    var parityOnes;
    frame, parityOnes := ShiftInData(frame, value, CharacterBits(mode));
    if ParityEnabled(mode) {
      var parityHigh := if EvenParity(mode) then parityOnes % 2 == 1 else parityOnes % 2 == 0;
      frame := frame + [parityHigh];
    }
    if !Synchronous(mode) {
      frame := AppendStopBits(frame, StopBits(mode));
    }
  }

  // ---------------------------------------------------------------- the units

  datatype Phase = Idle | Start | Data | Parity | Stop | SyncData | SyncParity

  datatype Sampler = Sampler(phase: Phase, shift: nat, bitIndex: nat, parityOnes: nat, clockCount: nat,
                             pendingParityError: bool)

  const SAMPLER_RESET := Sampler(Idle, 0, 0, 0, 0, false)

  /** A character the sampler has put together. */
  datatype Received = Received(value: nat, parityError: bool, framingError: bool)

  datatype RxData = RxData(buffer: nat, ready: bool, parityError: bool, overrunError: bool, framingError: bool,
                           breakDetected: bool)

  const RXDATA_RESET := RxData(0, false, false, false, false, false)

  datatype SyncUnit = SyncUnit(first: byte, second: byte, count: nat, transmitIndex: nat, huntIndex: nat,
                               detected: bool, hunt: bool)

  const SYNC_RESET := SyncUnit(0, 0, 0, 0, 0, false, false)

  /** The host-side serializer in front of the receiver. */
  datatype Serializer = Serializer(queue: seq<byte>, frame: seq<bool>, index: nat, bitClocks: nat, active: bool)

  const SERIALIZER_RESET := Serializer([], [], 0, 0, false)

  datatype Transmitter = Transmitter(buffer: Option<byte>, frame: seq<bool>, index: nat, character: byte,
                                     active: bool, payload: bool, txdHigh: bool, clockCount: nat,
                                     completed: seq<byte>)

  const TRANSMITTER_RESET := Transmitter(None, [], 0, 0, false, false, true, 0, [])

  // ---------------------------------------------------------------- receiving

  /** `value | (1 << bit)`. */
  function OrBit(value: nat, bit: nat): nat {
    if BitAt(value, bit) then value else value + Pow2(bit)
  }

  /** Taking one more data bit into the shift register. */
  function Collected(s: Sampler, high: bool): Sampler {
    if high
    then s.(shift := OrBit(s.shift, s.bitIndex), parityOnes := s.parityOnes + 1, bitIndex := s.bitIndex + 1)
    else s.(bitIndex := s.bitIndex + 1)
  }

  /** The decision taken in the middle of a bit of an asynchronous frame. */
  function SampleAsync(s: Sampler, mode: byte, high: bool): (Sampler, Option<Received>) {
    match s.phase
    case Start =>
      if high then (s.(phase := Idle), None)
      else (Sampler(Data, 0, 0, 0, s.clockCount, false), None)
    case Data =>
      var c := Collected(s, high);
      (if c.bitIndex < CharacterBits(mode) then c
       else c.(phase := if ParityEnabled(mode) then Parity else Stop), None)
    case Parity =>
      (s.(pendingParityError := high != ParityBit(mode, s.parityOnes), phase := Stop), None)
    case Stop =>
      (s.(phase := Idle), Some(Received(s.shift, s.pendingParityError, !high)))
    case _ => (s.(phase := Idle), None)
  }

  /** One receive clock edge of an enabled asynchronous receiver. */
  function AsyncEdge(s: Sampler, mode: byte, high: bool): (Sampler, Option<Received>) {
    if s.phase == Idle then
      if high then (s, None)
      else (s.(phase := Start, clockCount := if BaudFactor(mode) > 1 then BaudFactor(mode) / 2 else 1), None)
    else if s.clockCount > 1 then (s.(clockCount := s.clockCount - 1), None)
    else SampleAsync(s.(clockCount := BaudFactor(mode)), mode, high)
  }

  /** A completed character reaches the data register, unless the last one is still there. */
  function Deposit(d: RxData, mode: byte, r: Received): RxData {
    if d.ready then d.(overrunError := true)
    else
      var value := r.value % Pow2(CharacterBits(mode));
      RxData(value, true, d.parityError || r.parityError, d.overrunError,
             d.framingError || r.framingError, d.breakDetected || (r.framingError && value == 0))
  }

  /** The `i`th programmed SYN character. */
  function SynCharacter(u: SyncUnit, i: nat): byte {
    if i == 0 then u.first else u.second
  }

  /** The hunt for the SYN characters, one received character at a time. */
  function HuntStep(u: SyncUnit, character: nat): SyncUnit {
    if character == SynCharacter(u, u.huntIndex) then
      if u.huntIndex + 1 >= u.count then u.(detected := true, hunt := false, huntIndex := 0)
      else u.(huntIndex := u.huntIndex + 1)
    else u.(huntIndex := if character == u.first then 1 else 0)
  }

  /** A whole synchronous character: it moves the hunt on, or it is received. */
  function SyncCharacter(u: SyncUnit, character: Received): (SyncUnit, Option<Received>) {
    if u.hunt && u.count != 0 then (HuntStep(u, character.value), None) else (u, Some(character))
  }

  const SYNC_SAMPLER := Sampler(SyncData, 0, 0, 0, 0, false)

  /** One receive clock edge of an enabled synchronous receiver: the sampler after it and the
      character completed by it. */
  function SyncEdge(s: Sampler, mode: byte, high: bool): (Sampler, Option<Received>) {
    var t := if s.phase == SyncData || s.phase == SyncParity then s
             else s.(phase := SyncData, shift := 0, bitIndex := 0, parityOnes := 0);
    if t.phase == SyncData then
      var c := Collected(t, high);
      if c.bitIndex < CharacterBits(mode) then (c, None)
      else if ParityEnabled(mode) then (c.(phase := SyncParity), None)
      else (SYNC_SAMPLER.(clockCount := c.clockCount), Some(Received(c.shift, c.pendingParityError, false)))
    else
      (SYNC_SAMPLER.(clockCount := t.clockCount),
       Some(Received(t.shift, high != ParityBit(mode, t.parityOnes), false)))
  }

  // ---------------------------------------------------------------- the serializer

  /** Before an edge: an idle serializer picks up the next queued byte. */
  function PickedUp(line: Serializer, mode: byte): Serializer {
    if line.active || line.queue == [] then line
    else Serializer(line.queue[1..], Frame(mode, line.queue[0]), 0, BaudFactor(mode), true)
  }

  /** After an edge: the serializer, and whether the line goes back to rest. */
  function LineMoved(line: Serializer, mode: byte): (Serializer, bool) {
    if !line.active then (line, false)
    else if line.bitClocks > 1 then (line.(bitClocks := line.bitClocks - 1), false)
    else if line.index + 1 >= |line.frame| then (Serializer(line.queue, [], 0, 0, false), true)
    else (line.(index := line.index + 1, bitClocks := BaudFactor(mode)), false)
  }

  // ---------------------------------------------------------------- transmitting

  function StartFrame(tx: Transmitter, mode: byte, value: byte, payload: bool): Transmitter {
    tx.(frame := Frame(mode, value), index := 0, character := value, payload := payload, active := true)
  }

  /** Puts the next bit of the frame on the line. */
  function ShiftOut(tx: Transmitter): Transmitter
    requires tx.index < |tx.frame|
  {
    tx.(txdHigh := tx.frame[tx.index], index := tx.index + 1)
  }

  lemma {:induction false} FrameSize(mode: byte, value: nat)
    ensures |Frame(mode, value)| >= 5
    ensures !Synchronous(mode) ==> |Frame(mode, value)| >= 7
  {
  }

  /** A finished frame is handed to the host, unless its queue is full. */
  function Finished(tx: Transmitter): Transmitter {
    if tx.active && tx.index >= |tx.frame| then
      tx.(active := false,
          completed := if tx.payload && |tx.completed| < HOST_QUEUE_CAPACITY then tx.completed + [tx.character]
                       else tx.completed)
    else tx
  }

  /** Once per bit time: the transmitter, and the SYN character index. */
  function AdvanceTransmitter(tx: Transmitter, u: SyncUnit, mode: byte, sending: bool): (Transmitter, nat) {
    var t := Finished(tx);
    if t.active then (ShiftOut(t), u.transmitIndex)
    else if !sending then (t.(txdHigh := true), u.transmitIndex)
    else if t.buffer.Some? then
      FrameSize(mode, t.buffer.value);
      (ShiftOut(StartFrame(t.(buffer := None), mode, t.buffer.value, true)), u.transmitIndex)
    else if Synchronous(mode) && u.count != 0 then
      var value := SynCharacter(u, u.transmitIndex);
      FrameSize(mode, value);
      (ShiftOut(StartFrame(t, mode, value, false)), (u.transmitIndex + 1) % u.count)
    else (t.(txdHigh := true), u.transmitIndex)
  }

  /** One transmit clock edge; a break holds the line low and stops the clock divider. */
  function TransmitEdge(tx: Transmitter, u: SyncUnit, mode: byte, sending: bool, sendBreak: bool): (Transmitter, nat) {
    if sendBreak then (tx.(txdHigh := false), u.transmitIndex)
    else if tx.clockCount + 1 >= BaudFactor(mode) then
      AdvanceTransmitter(tx.(clockCount := 0), u, mode, sending)
    else (tx.(clockCount := tx.clockCount + 1), u.transmitIndex)
  }

  // ---------------------------------------------------------------- the chip

  datatype Initialization = ModeNext | Sync1Next | Sync2Next | CommandNext

  datatype Control = Control(init: Initialization, mode: byte, command: byte, cts: bool, dsr: bool)
  {
    predicate Sending() { TransmitterEnabled() && cts }

    predicate TransmitterEnabled() { init == CommandNext && HasBit(command, 0x01) }

    predicate ReceiverEnabled() { init == CommandNext && HasBit(command, 0x04) }

    predicate Break() { HasBit(command, 0x08) }
  }

  datatype UartState = UartState(control: Control, sync: SyncUnit, tx: Transmitter, sampler: Sampler,
                                 data: RxData, rxd: bool, line: Serializer)

  const UART_RESET := UartState(Control(ModeNext, 0, 0, true, false), SYNC_RESET, TRANSMITTER_RESET,
                                SAMPLER_RESET, RXDATA_RESET, true, SERIALIZER_RESET)

  function AcceptMode(s: UartState, value: byte): UartState {
    s.(control := s.control.(mode := value, command := 0,
                             init := if Synchronous(value) then Sync1Next else CommandNext),
       tx := s.tx.(buffer := None, active := false),
       data := s.data.(ready := false),
       sampler := s.sampler.(phase := Idle),
       sync := s.sync.(detected := false, hunt := false, count := 0))
  }

  function InternalReset(s: UartState): UartState {
    UART_RESET.(control := UART_RESET.control.(cts := s.control.cts, dsr := s.control.dsr),
                rxd := s.line.active || s.rxd)
  }

  function AcceptCommand(s: UartState, value: byte): UartState {
    if HasBit(value, 0x40) then InternalReset(s)
    else
      var control := s.control.(command := value);
      var hunting := Synchronous(control.mode) && HasBit(value, 0x80);
      var data := if HasBit(value, 0x10)
                  then s.data.(parityError := false, overrunError := false, framingError := false, breakDetected := false)
                  else s.data;
      var sync := if hunting then s.sync.(hunt := true, detected := false, huntIndex := 0) else s.sync;
      var sampler := if hunting then s.sampler.(phase := SyncData, bitIndex := 0, shift := 0) else s.sampler;
      s.(control := control, data := data, sync := sync,
         sampler := if control.ReceiverEnabled() then sampler else sampler.(phase := Idle),
         tx := if control.TransmitterEnabled() then s.tx else s.tx.(txdHigh := true))
  }

  function WriteControl(s: UartState, value: byte): UartState {
    match s.control.init
    case ModeNext => AcceptMode(s, value)
    case Sync1Next =>
      s.(sync := s.sync.(first := value, count := 1),
         control := s.control.(init := if HasBit(s.control.mode, 0x80) then CommandNext else Sync2Next))
    case Sync2Next =>
      s.(sync := s.sync.(second := value, count := 2), control := s.control.(init := CommandNext))
    case CommandNext => AcceptCommand(s, value)
  }

  function Write(s: UartState, register: byte, value: byte): UartState {
    if register % 2 == 1 then WriteControl(s, value)
    else
      assert Pow2(5) == 32 && Pow2(6) == 64 && Pow2(7) == 128 && Pow2(8) == 256;
      s.(tx := s.tx.(buffer := Some(value % Pow2(CharacterBits(s.control.mode)))))
  }

  function ClockedTransmit(s: UartState): UartState {
    var (tx, index) := TransmitEdge(s.tx, s.sync, s.control.mode, s.control.Sending(), s.control.Break());
    s.(tx := tx, sync := s.sync.(transmitIndex := index))
  }

  /** What the receiver makes of one edge with the line at `s.rxd`. */
  function ReceiverEdge(s: UartState): UartState {
    if !s.control.ReceiverEnabled() then s
    else if Synchronous(s.control.mode) then
      var (sampler, character) := SyncEdge(s.sampler, s.control.mode, s.rxd);
      match character
      case None => s.(sampler := sampler)
      case Some(c) =>
        var (sync, received) := SyncCharacter(s.sync, c);
        s.(sampler := sampler, sync := sync,
           data := if received.Some? then Deposit(s.data, s.control.mode, received.value) else s.data)
    else
      var (sampler, received) := AsyncEdge(s.sampler, s.control.mode, s.rxd);
      s.(sampler := sampler,
         data := if received.Some? then Deposit(s.data, s.control.mode, received.value) else s.data)
  }

  function ClockedReceive(s: UartState): UartState {
    var line := PickedUp(s.line, s.control.mode);
    var rxd := if line.active && line.index < |line.frame| then line.frame[line.index] else s.rxd;
    var t := ReceiverEdge(s.(line := line, rxd := rxd));
    var (moved, rest) := LineMoved(t.line, t.control.mode);
    t.(line := moved, rxd := rest || t.rxd)
  }

  function TransmitEdges(s: UartState, n: nat): UartState
    decreases n, s
  {
    if n == 0 then s else ClockedTransmit(TransmitEdges(s, n - 1))
  }

  function ReceiveEdges(s: UartState, n: nat): UartState
    decreases n, s
  {
    if n == 0 then s else ClockedReceive(ReceiveEdges(s, n - 1))
  }

  predicate TxReady(s: UartState) {
    s.control.Sending() && s.tx.buffer.None?
  }

  predicate InterruptRequested(s: UartState) {
    TxReady(s) || s.data.ready
  }

  function Status(s: UartState): byte {
    (if TxReady(s) then 0x01 else 0)
    + (if s.data.ready then 0x02 else 0)
    + (if s.tx.buffer.None? && (!s.tx.active || !s.tx.payload) then 0x04 else 0)
    + (if s.data.parityError then 0x08 else 0)
    + (if s.data.overrunError then 0x10 else 0)
    + (if s.data.framingError then 0x20 else 0)
    + (if (if Synchronous(s.control.mode) then s.sync.detected else s.data.breakDetected) then 0x40 else 0)
    + (if s.control.dsr then 0x80 else 0)
  }

  /** The value of a register read: the status, or the character received. */
  function ReadValue(s: UartState, register: byte): nat {
    if register % 2 == 1 then Status(s) else s.data.buffer
  }

  /** Reading the data register takes the character. */
  function AfterPortRead(s: UartState, register: byte): UartState {
    if register % 2 == 1 then s else s.(data := s.data.(ready := false))
  }

  /** The connection comes or goes: CTS and DSR follow, and bytes under way are lost with it. */
  function Connected(s: UartState, connected: bool): UartState {
    var t := s.(control := s.control.(cts := connected, dsr := connected));
    if connected then t
    else t.(line := SERIALIZER_RESET, rxd := true,
            sampler := s.sampler.(phase := Idle, clockCount := 0, pendingParityError := false),
            tx := s.tx.(completed := []))
  }

  class Uart {
    var control: Control
    var sync: SyncUnit
    var tx: Transmitter
    var sampler: Sampler
    var data: RxData
    var rxd: bool
    var line: Serializer

    ghost function State(): UartState
      reads this
    {
      UartState(control, sync, tx, sampler, data, rxd, line)
    }

    constructor ()
      ensures State() == UART_RESET
    {
      control, sync, tx := UART_RESET.control, SYNC_RESET, TRANSMITTER_RESET;
      sampler, data, rxd, line := SAMPLER_RESET, RXDATA_RESET, true, SERIALIZER_RESET;
    }

    method Reset()
      modifies this
      ensures State() == UART_RESET
    {
      control, sync, tx := UART_RESET.control, SYNC_RESET, TRANSMITTER_RESET;
      sampler, data, rxd, line := SAMPLER_RESET, RXDATA_RESET, true, SERIALIZER_RESET;
    }

    method Read(register: byte) returns (value: nat)
      modifies this`data
      ensures value == ReadValue(old(State()), register)
      ensures State() == AfterPortRead(old(State()), register)
    {
      if register % 2 == 1 {
        value := Status(UartState(control, sync, tx, sampler, data, rxd, line));
      } else {
        value := data.buffer;
        data := data.(ready := false);
      }
    }

    method DoWrite(register: byte, value: byte)
      modifies this
      ensures State() == Write(old(State()), register, value)
    {
      if register % 2 == 1 {
        DoWriteControl(value);
      } else {
        assert Pow2(5) == 32 && Pow2(6) == 64 && Pow2(7) == 128 && Pow2(8) == 256;
        var masked: byte := value % Pow2(CharacterBits(control.mode));
        tx := tx.(buffer := Some(masked));
      }
    }

    method DoWriteControl(value: byte)
      modifies this
      ensures State() == WriteControl(old(State()), value)
    {
      match control.init {
        case ModeNext =>
          control := control.(mode := value, command := 0);
          tx := tx.(buffer := None, active := false);
          data := data.(ready := false);
          sampler := sampler.(phase := Idle);
          sync := sync.(detected := false, hunt := false, count := 0);
          control := control.(init := if Synchronous(value) then Sync1Next else CommandNext);
        case Sync1Next =>
          sync := sync.(first := value, count := 1);
          control := control.(init := if HasBit(control.mode, 0x80) then CommandNext else Sync2Next);
        case Sync2Next =>
          sync := sync.(second := value, count := 2);
          control := control.(init := CommandNext);
        case CommandNext =>
          DoAcceptCommand(value);
      }
    }

    method DoAcceptCommand(value: byte)
      modifies this
      ensures State() == AcceptCommand(old(State()), value)
    {
      if HasBit(value, 0x40) {
        var cts, dsr := control.cts, control.dsr;
        var idle := if line.active then true else rxd;
        Reset();
        control := control.(cts := cts, dsr := dsr);
        rxd := idle;
        return;
      }
      control := control.(command := value);
      if HasBit(value, 0x10) {
        data := data.(parityError := false, overrunError := false, framingError := false, breakDetected := false);
      }
      if Synchronous(control.mode) && HasBit(value, 0x80) {
        sync := sync.(hunt := true, detected := false, huntIndex := 0);
        sampler := sampler.(phase := SyncData, bitIndex := 0, shift := 0);
      }
      if !control.TransmitterEnabled() {
        tx := tx.(txdHigh := true);
      }
      if !control.ReceiverEnabled() {
        sampler := sampler.(phase := Idle);
      }
    }

    method RequestsInterrupt() returns (requested: bool)
      ensures requested == InterruptRequested(State())
    {
      requested := (control.TransmitterEnabled() && control.cts && tx.buffer.None?) || data.ready;
    }

    method SetCtsActive(active: bool)
      modifies this`control
      ensures State() == old(State()).(control := old(control).(cts := active))
    {
      control := control.(cts := active);
    }

    method SetDsrActive(active: bool)
      modifies this`control
      ensures State() == old(State()).(control := old(control).(dsr := active))
    {
      control := control.(dsr := active);
    }

    method ClockTransmit(clockEdges: nat)
      modifies this`tx, this`sync
      ensures State() == TransmitEdges(old(State()), clockEdges)
    {
      for edge := 0 to clockEdges
        invariant State() == TransmitEdges(old(State()), edge)
      {
        if control.Break() {
          tx := tx.(txdHigh := false);
        } else {
          tx := tx.(clockCount := tx.clockCount + 1);
          if tx.clockCount >= BaudFactor(control.mode) {
            tx := tx.(clockCount := 0);
            DoAdvanceTransmitter();
          }
        }
      }
    }

    method DoAdvanceTransmitter()
      modifies this`tx, this`sync
      ensures var (t, index) := AdvanceTransmitter(old(tx), old(sync), control.mode, control.Sending());
              tx == t && sync == old(sync).(transmitIndex := index)
    {
      FinishFrame();
      if !tx.active {
        var starts := StartNextFrame();
        if !starts {
          tx := tx.(txdHigh := true);
          return;
        }
      }
      tx := tx.(txdHigh := tx.frame[tx.index]);
      tx := tx.(index := tx.index + 1);
    }

    method FinishFrame()
      modifies this`tx
      ensures tx == Finished(old(tx))
    {
      if tx.active && tx.index >= |tx.frame| {
        if tx.payload && |tx.completed| < HOST_QUEUE_CAPACITY {
          tx := tx.(completed := tx.completed + [tx.character]);
        }
        tx := tx.(active := false);
      }
    }

    /** The buffered byte, or a SYN character between bytes, if the transmitter may send. */
    method StartNextFrame() returns (starts: bool)
      requires !tx.active
      modifies this`tx, this`sync
      ensures !starts ==> tx == old(tx) && sync == old(sync)
      ensures starts ==> tx.index < |tx.frame|
                         && (ShiftOut(tx), sync.transmitIndex)
                            == AdvanceTransmitter(old(tx), old(sync), control.mode, control.Sending())
                         && sync == old(sync).(transmitIndex := sync.transmitIndex)
      ensures !starts ==> AdvanceTransmitter(old(tx), old(sync), control.mode, control.Sending())
                          == (old(tx).(txdHigh := true), old(sync).transmitIndex)
    {
      if !control.Sending() {
        return false;
      }
      if tx.buffer.Some? {
        var value := tx.buffer.value;
        tx := tx.(buffer := None);
        BuildTransmitFrame(value, true);
        return true;
      }
      if Synchronous(control.mode) && sync.count != 0 {
        var value := SynCharacter(sync, sync.transmitIndex);
        sync := sync.(transmitIndex := (sync.transmitIndex + 1) % sync.count);
        BuildTransmitFrame(value, false);
        return true;
      }
      return false;
    }

    method BuildTransmitFrame(value: byte, payload: bool)
      modifies this`tx
      ensures tx == StartFrame(old(tx), control.mode, value, payload)
      ensures |tx.frame| >= 5
    {
      var frame := BuildFrame(control.mode, value);
      FrameSize(control.mode, value);
      tx := tx.(frame := frame, index := 0, character := value, payload := payload, active := true);
    }

    method ClockReceive(clockEdges: nat)
      modifies this`line, this`rxd, this`sampler, this`data, this`sync
      ensures State() == ReceiveEdges(old(State()), clockEdges)
    {
      for edge := 0 to clockEdges
        invariant State() == ReceiveEdges(old(State()), edge)
      {
        DoReceiveClock();
      }
    }

    method DoReceiveClock()
      modifies this`line, this`rxd, this`sampler, this`data, this`sync
      ensures State() == ClockedReceive(old(State()))
    {
      if !line.active && line.queue != [] {
        StartQueuedReceiveFrame();
      }
      assert line == PickedUp(old(line), control.mode);
      if line.active && line.index < |line.frame| {
        rxd := line.frame[line.index];
      }
      ReceiveClockEdge();
      AdvanceQueuedReceiveLine();
    }

    method StartQueuedReceiveFrame()
      requires !line.active && line.queue != []
      modifies this`line
      ensures line == PickedUp(old(line), control.mode)
    {
      var value := line.queue[0];
      var frame := BuildFrame(control.mode, value);
      line := Serializer(line.queue[1..], frame, 0, BaudFactor(control.mode), true);
    }

    method AdvanceQueuedReceiveLine()
      modifies this`line, this`rxd
      ensures var (moved, rest) := LineMoved(old(line), control.mode);
              line == moved && rxd == (rest || old(rxd))
    {
      if !line.active {
        return;
      }
      if line.bitClocks > 1 {
        line := line.(bitClocks := line.bitClocks - 1);
        return;
      }
      line := line.(index := line.index + 1);
      if line.index >= |line.frame| {
        line := line.(active := false, frame := [], index := 0, bitClocks := 0);
        rxd := true;
        return;
      }
      line := line.(bitClocks := BaudFactor(control.mode));
    }

    method ReceiveClockEdge()
      modifies this`sampler, this`data, this`sync
      ensures State() == ReceiverEdge(old(State()))
    {
      if !control.ReceiverEnabled() {
        return;
      }
      if Synchronous(control.mode) {
        SampleSyncReceive();
        return;
      }
      if sampler.phase == Idle {
        if !rxd {
          var factor := BaudFactor(control.mode);
          sampler := sampler.(phase := Start, clockCount := if factor > 1 then factor / 2 else 1);
        }
        return;
      }
      if sampler.clockCount > 1 {
        sampler := sampler.(clockCount := sampler.clockCount - 1);
        return;
      }
      sampler := sampler.(clockCount := BaudFactor(control.mode));
      SampleAsyncReceive();
    }

    method SampleAsyncReceive()
      modifies this`sampler, this`data
      ensures var (after, received) := SampleAsync(old(sampler), control.mode, rxd);
              && sampler == after
              && data == if received.Some? then Deposit(old(data), control.mode, received.value) else old(data)
    {
      match sampler.phase {
        case Start =>
          if rxd {
            sampler := sampler.(phase := Idle);
          } else {
            sampler := sampler.(phase := Data, shift := 0, bitIndex := 0, parityOnes := 0, pendingParityError := false);
          }
        case Data =>
          TakeBit();
          if sampler.bitIndex >= CharacterBits(control.mode) {
            sampler := sampler.(phase := if ParityEnabled(control.mode) then Parity else Stop);
          }
        case Parity =>
          var expectedHigh := if EvenParity(control.mode) then sampler.parityOnes % 2 == 1
                              else sampler.parityOnes % 2 == 0;
          sampler := sampler.(pendingParityError := rxd != expectedHigh, phase := Stop);
        case Stop =>
          ReceiveByte(sampler.shift, sampler.pendingParityError, !rxd);
          sampler := sampler.(phase := Idle);
        case _ =>
          sampler := sampler.(phase := Idle);
      }
    }

    method TakeBit()
      modifies this`sampler
      ensures sampler == Collected(old(sampler), rxd)
    {
      if rxd {
        sampler := sampler.(shift := OrBit(sampler.shift, sampler.bitIndex), parityOnes := sampler.parityOnes + 1);
      }
      sampler := sampler.(bitIndex := sampler.bitIndex + 1);
    }

    method SampleSyncReceive()
      requires control.ReceiverEnabled() && Synchronous(control.mode)
      modifies this`sampler, this`data, this`sync
      ensures State() == ReceiverEdge(old(State()))
    {
      if sampler.phase != SyncData && sampler.phase != SyncParity {
        sampler := sampler.(phase := SyncData, shift := 0, bitIndex := 0, parityOnes := 0);
      }
      if sampler.phase == SyncData {
        TakeBit();
        if sampler.bitIndex >= CharacterBits(control.mode) {
          if ParityEnabled(control.mode) {
            sampler := sampler.(phase := SyncParity);
          } else {
            FinishSyncCharacter();
          }
        }
        return;
      }
      var expectedHigh := if EvenParity(control.mode) then sampler.parityOnes % 2 == 1
                          else sampler.parityOnes % 2 == 0;
      sampler := sampler.(pendingParityError := rxd != expectedHigh);
      FinishSyncCharacter();
    }

    method FinishSyncCharacter()
      modifies this`sampler, this`data, this`sync
      ensures sampler == SYNC_SAMPLER.(clockCount := old(sampler).clockCount)
      ensures var (after, received) := SyncCharacter(old(sync),
                                                    Received(old(sampler).shift, old(sampler).pendingParityError, false));
              && sync == after
              && data == if received.Some? then Deposit(old(data), control.mode, received.value) else old(data)
    {
      if sync.hunt && sync.count != 0 {
        if sampler.shift == SynCharacter(sync, sync.huntIndex) {
          sync := sync.(huntIndex := sync.huntIndex + 1);
          if sync.huntIndex >= sync.count {
            sync := sync.(detected := true, hunt := false, huntIndex := 0);
          }
        } else {
          sync := sync.(huntIndex := if sampler.shift == sync.first then 1 else 0);
        }
      } else {
        ReceiveByte(sampler.shift, sampler.pendingParityError, false);
      }
      sampler := sampler.(phase := SyncData, shift := 0, bitIndex := 0, parityOnes := 0, pendingParityError := false);
    }

    /** Called with the receiver enabled. */
    method ReceiveByte(value: nat, parityError: bool, framingError: bool)
      modifies this`data
      ensures data == Deposit(old(data), control.mode, Received(value, parityError, framingError))
      ensures data.ready && (old(data.ready) ==> data.buffer == old(data.buffer))
      ensures data.overrunError <==> old(data.overrunError) || old(data.ready)
    {
      if data.ready {
        data := data.(overrunError := true);
        return;
      }
      data := data.(buffer := value % Pow2(CharacterBits(control.mode)), ready := true,
                    parityError := data.parityError || parityError,
                    framingError := data.framingError || framingError);
      if framingError && data.buffer == 0 {
        data := data.(breakDetected := true);
      }
    }

    method QueueReceivedByte(value: byte) returns (ok: bool)
      modifies this`line
      ensures ok <==> |old(line).queue| < HOST_QUEUE_CAPACITY
      ensures line == if ok then old(line).(queue := old(line).queue + [value]) else old(line)
    {
      if |line.queue| >= HOST_QUEUE_CAPACITY {
        return false;
      }
      line := line.(queue := line.queue + [value]);
      return true;
    }

    method ClearQueuedReceiveBytes()
      modifies this`line, this`sampler, this`rxd
      ensures line == SERIALIZER_RESET && rxd
      ensures sampler == old(sampler).(phase := Idle, clockCount := 0, pendingParityError := false)
    {
      line := SERIALIZER_RESET;
      sampler := sampler.(phase := Idle, clockCount := 0, pendingParityError := false);
      rxd := true;
    }

    method TakeTransmittedByte() returns (value: Option<byte>)
      modifies this`tx
      ensures old(tx).completed == [] ==> value == None && tx == old(tx)
      ensures old(tx).completed != [] ==>
                value == Some(old(tx).completed[0]) && tx == old(tx).(completed := old(tx).completed[1..])
    {
      if tx.completed == [] {
        return None;
      }
      value := Some(tx.completed[0]);
      tx := tx.(completed := tx.completed[1..]);
    }

    /** The host takes all bytes that are waiting for it. */
    method DiscardTransmitted()
      modifies this`tx
      ensures State() == old(State()).(tx := old(tx).(completed := []))
    {
      ghost var target := tx.(completed := []);
      var taken := TakeTransmittedByte();
      while taken.Some?
        invariant tx.(completed := []) == target
        invariant taken.None? ==> tx.completed == []
        decreases |tx.completed|, taken.Some?
      {
        taken := TakeTransmittedByte();
      }
    }

    method Connect(connected: bool)
      modifies this
      ensures State() == Connected(old(State()), connected)
    {
      SetCtsActive(connected);
      SetDsrActive(connected);
      if !connected {
        ClearQueuedReceiveBytes();
        DiscardTransmitted();
      }
    }
  }
}
