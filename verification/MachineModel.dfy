/** The machine as a value: the chips, the latches between them, and what every port access and
    every span of time does to all of them. */
module MachineModel {
  import opened Bytes
  import opened FloppyDrives
  import opened FloppySubsystems
  import opened DiskController
  import opened Keyboards
  import opened MachineTime
  import Mouse
  import Pit = Pit8253
  import Ppi = Ppi8255
  import Uart = Uart8251

  /** The disk controller, the control port and the drives. */
  datatype DiskSide = DiskSide(disk: Disk, control: Ppi.PpiState, bay: Bay)

  /** The printer and keyboard port, the keyboard and the mouse. */
  datatype Panel = Panel(port: Ppi.PpiState, keyboard: KeyState, mouse: Mouse.MouseState)

  datatype Printer = Printer(online: bool, bytes: seq<byte>)

  datatype SerialSide = SerialSide(uart: Uart.UartState, managed: bool, connected: bool, clear: bool)

  /** Counter 0, the video interrupt, the mask of the 3214, and the latches around the video and the
      memory. */
  datatype Board = Board(zero: Pit.Counter, video: bool, mask: nat, scroll: byte, ramMapped: bool)

  datatype MachineState = MachineState(disks: DiskSide, panel: Panel, printer: Printer, serial: SerialSide,
                                       board: Board, clock: Clock)

  /** What the parts need to be well defined. */
  predicate Fit(m: MachineState) {
    BayOk(m.disks.bay) && Ahead(m.panel.keyboard)
  }

  /** Holds between any two calls from outside. */
  predicate Sound(m: MachineState) {
    match m
    case MachineState(disks, panel, _, _, _, clock) =>
      && Fit(m) && Consistent(disks.disk) && disks.disk.pending == [] && Mouse.Coherent(panel.mouse) && InStep(clock)
  }

  /** The sources of the eight interrupt inputs, lowest priority first. */
  function Sources(m: MachineState): (inputs: seq<bool>)
    ensures |inputs| == 8
  {
    match m
    case MachineState(disks, panel, _, serial, board, _) =>
      [panel.port.a.intr, panel.port.b.intr, Uart.InterruptRequested(serial.uart), panel.mouse.latch,
       board.video, disks.disk.EndOfData(), disks.disk.latches.timeout, disks.disk.Interrupt()]
  }

  /** Sound, with the 3214 showing all sources. */
  predicate AtRest(m: MachineState, inputs: seq<bool>) {
    match m
    case MachineState(_, _, _, _, _, _) => Sound(m) && inputs == Sources(m)
  }

  // ---------------------------------------------------------------- the wires between the chips

  predicate PortAOutputEnabled(a: Ppi.GroupA) {
    !a.input || a.mode == Ppi.Mode2
  }

  /** PA6 of the control port, active low, switches the disk timing on. */
  predicate TimingOf(control: Ppi.PpiState) {
    PortAOutputEnabled(control.a) && !HasBit(control.ports.outA, 0x40)
  }

  /** A control port bit that lets an interrupt latch be set. */
  predicate InterruptEnabled(control: Ppi.PpiState, mask: byte)
    requires mask > 0
  {
    PortAOutputEnabled(control.a) && HasBit(control.ports.outA, mask)
  }

  /** The pins that select a drive, pulled up when they are not outputs. */
  function SelectionPins(data: Ppi.PpiState): byte {
    if data.a.upperInput then 0x20 else data.ports.outC
  }

  /** The control port with the drive's status on its C pins. */
  function WithStatus(control: Ppi.PpiState, bay: Bay): Ppi.PpiState
    requires BayOk(bay)
  {
    control.(ports := control.ports.(inC := StatusInputs(bay)))
  }

  function OnDisks(m: MachineState, disk: Disk): MachineState {
    m.(disks := m.disks.(disk := disk))
  }

  /** The interrupt network settles after every call from outside. */
  function Settled(m: MachineState): MachineState {
    OnDisks(m, Refreshed(m.disks.disk))
  }

  // ---------------------------------------------------------------- port writes

  /** With the printer online, in mode 1, a byte written to port A is printed and acknowledged. */
  predicate Prints(m: MachineState, register: byte, port: Ppi.PpiState) {
    register % 4 == 0 && m.printer.online && port.a.mode == Ppi.Mode1 && PortAOutputEnabled(port.a)
  }

  function PrinterWritten(m: MachineState, register: byte, value: byte): MachineState {
    var port := Ppi.Written(m.panel.port, register, value);
    if Prints(m, register, port) then
      m.(panel := m.panel.(port := Ppi.PulseAckA(port)),
         printer := m.printer.(bytes := m.printer.bytes + [port.ports.outA]))
    else m.(panel := m.panel.(port := port))
  }

  function TimerWritten(m: MachineState, register: byte, value: byte): MachineState {
    OnDisks(m, WriteTimer(m.disks.disk, m.board.zero, register, value))
    .(board := m.board.(zero := Pit.Written(Counters(m.disks.disk, m.board.zero), register, value)[0]))
  }

  /** The data port also selects the drive. */
  function DataWritten(m: MachineState, register: byte, value: byte): MachineState
    requires Fit(m)
  {
    var data := Ppi.Written(m.disks.disk.data, register, value);
    var bay := Selecting(m.disks.bay, SelectionPins(data));
    m.(disks := DiskSide(m.disks.disk.(data := data), WithStatus(m.disks.control, bay), bay))
  }

  function MaskWritten(m: MachineState, value: byte): MachineState {
    m.(board := m.board.(mask := Min(value, 8)))
  }

  function SerialWritten(m: MachineState, register: byte, value: byte): MachineState {
    m.(serial := m.serial.(uart := Uart.Write(m.serial.uart, register, value)))
  }

  function AuxWritten(m: MachineState, value: byte): MachineState {
    OnDisks(m, WriteAux(m.disks.disk, value))
  }

  /** Scroll, cable signals, disk timing and the gate of counter 1 follow the control port. */
  function ControlWritten(m: MachineState, register: byte, value: byte): MachineState
    requires Fit(m)
  {
    var control := Ppi.Written(m.disks.control, register, value);
    var bay := Controlled(m.disks.bay, control.ports.outC, !control.b.lowerInput);
    m.(disks := DiskSide(SwitchTiming(m.disks.disk, TimingOf(control)), WithStatus(control, bay), bay),
       board := m.board.(scroll := if control.b.input then m.board.scroll else control.ports.outB))
  }

  function VideoCleared(m: MachineState): MachineState {
    m.(board := m.board.(video := false))
  }

  function WriteDispatched(m: MachineState, port: nat, value: byte): MachineState
    requires Fit(m)
  {
    var register: byte := port % 256;
    match port / 16 % 8
    case 0 => PrinterWritten(m, register, value)
    case 1 => TimerWritten(m, register, value)
    case 2 => DataWritten(m, register, value)
    case 3 => MaskWritten(m, value)
    case 4 => SerialWritten(m, register, value)
    case 5 => AuxWritten(m, value)
    case 6 => ControlWritten(m, register, value)
    case _ => VideoCleared(m)
  }

  /** A port write. */
  function IoWritten(m: MachineState, port: nat, value: byte): (after: MachineState)
    requires Fit(m)
    ensures Fit(after)
  {
    Settled(WriteDispatched(m, port, value))
  }

  // ---------------------------------------------------------------- port reads

  function PanelRead(m: MachineState, register: byte): MachineState {
    m.(panel := m.panel.(port := Ppi.AfterRead(m.panel.port, register)))
  }

  function TimerRead(m: MachineState, register: byte): MachineState {
    OnDisks(m, ReadTimer(m.disks.disk, m.board.zero, register))
    .(board := m.board.(zero := Pit.ReadAt(Counters(m.disks.disk, m.board.zero), register).1[0]))
  }

  function DataRead(m: MachineState, register: byte): MachineState {
    OnDisks(m, m.disks.disk.(data := Ppi.AfterRead(m.disks.disk.data, register)))
  }

  function Mapped(m: MachineState, ram: bool): MachineState {
    m.(board := m.board.(ramMapped := ram))
  }

  function SerialRead(m: MachineState, register: byte): MachineState {
    m.(serial := m.serial.(uart := Uart.AfterPortRead(m.serial.uart, register)))
  }

  /** The control port shows the drive's status of this moment. */
  function ControlRead(m: MachineState, register: byte): MachineState
    requires Fit(m)
  {
    m.(disks := m.disks.(control := Ppi.AfterRead(WithStatus(m.disks.control, m.disks.bay), register)))
  }

  function MouseRead(m: MachineState): MachineState {
    m.(panel := m.panel.(mouse := m.panel.mouse.(latch := false)))
  }

  function ReadDispatched(m: MachineState, port: nat): MachineState
    requires Fit(m)
  {
    var register: byte := port % 256;
    match port / 16 % 8
    case 0 => PanelRead(m, register)
    case 1 => TimerRead(m, register)
    case 2 => DataRead(m, register)
    case 3 => Mapped(m, true)
    case 4 => SerialRead(m, register)
    case 5 => Mapped(m, false)
    case 6 => ControlRead(m, register)
    case _ => MouseRead(m)
  }

  /** The machine after a port read. */
  function IoRead(m: MachineState, port: nat): (after: MachineState)
    requires Fit(m)
    ensures Fit(after)
  {
    Settled(ReadDispatched(m, port))
  }

  /** The byte the processor is given. */
  function IoValue(m: MachineState, port: nat): nat
    requires Fit(m)
  {
    var register: byte := port % 256;
    match port / 16 % 8
    case 0 => Ppi.ReadValue(m.panel.port, register)
    case 1 => Pit.ReadAt(Counters(m.disks.disk, m.board.zero), register).0
    case 2 => Ppi.ReadValue(m.disks.disk.data, register)
    case 4 => Uart.ReadValue(m.serial.uart, register)
    case 6 => Ppi.ReadValue(WithStatus(m.disks.control, m.disks.bay), register)
    case 7 => m.panel.mouse.signals
    case _ => 0xFF
  }

  // ---------------------------------------------------------------- time

  /** The disks turn, and the controller sees the cells of the selected one. */
  function DisksTurned(m: MachineState, ticks: nat): (after: MachineState)
    requires Fit(m)
    ensures Fit(after)
  {
    var visited := Visited(Selected(m.disks.bay), ticks);
    var bay := Spun(m.disks.bay, ticks);
    m.(disks := DiskSide(AllPassed(m.disks.disk, m.disks.control.ports.outA, visited),
                         WithStatus(m.disks.control, bay), bay))
  }

  /** The keyboard port after a code has been typed a number of times. */
  function Typed(s: Ppi.PpiState, code: byte, times: nat): Ppi.PpiState
    decreases times, s
  {
    if times == 0 then s else Ppi.PulseStrobeB(Typed(s, code, times - 1), 255 - code)
  }

  ghost function KeysRepeated(m: MachineState, ticks: nat): (after: MachineState)
    requires Fit(m)
    ensures Fit(after)
  {
    var k := m.panel.keyboard;
    m.(panel := m.panel.(port := Typed(m.panel.port, k.code, Repeats(k, ticks)), keyboard := Ticked(k, ticks)))
  }

  function MouseMoved(m: MachineState, ticks: nat): (after: MachineState)
    requires Fit(m)
    ensures Fit(after)
  {
    m.(panel := m.panel.(mouse := Mouse.Advanced(m.panel.mouse, ticks, InterruptEnabled(m.disks.control, 0x08))))
  }

  /** Counter 1 clocks the serial line, raises the timeout and starts a write. */
  function TimerRan(m: MachineState, clocks: nat): (after: MachineState)
    requires Fit(m)
    ensures Fit(after)
  {
    var rising := Pit.RisingEdges(m.disks.disk.one.element, clocks);
    OnDisks(m, CounterOneRan(m.disks.disk, m.disks.control.ports.outA, clocks))
    .(serial := m.serial.(uart := Uart.ReceiveEdges(Uart.TransmitEdges(m.serial.uart, rising), rising)))
  }

  /** The pending cells go to the medium. */
  function WritesFlushed(m: MachineState): (after: MachineState)
    requires Fit(m)
    ensures Fit(after)
  {
    m.(disks := m.disks.(disk := Flushed(m.disks.disk), bay := StoredAll(m.disks.bay, m.disks.disk.pending)))
  }

  /** Frames clock counter 0 and let the video interrupt through. */
  function FramesCompleted(m: MachineState, frames: nat): (after: MachineState)
    requires Fit(m)
    ensures Fit(after)
  {
    if frames == 0 then m
    else m.(board := m.board.(zero := m.board.zero.(element := Pit.Clocked(m.board.zero.element, frames)),
                              video := m.board.video || InterruptEnabled(m.disks.control, 0x04)))
  }

  /** Disks, keyboard, mouse: in this order. */
  ghost function DevicesMoved(m: MachineState, ticks: nat): (after: MachineState)
    requires Fit(m)
    ensures Fit(after)
  {
    MouseMoved(KeysRepeated(DisksTurned(m, ticks), ticks), ticks)
  }

  /** The writes go to the medium, and the time line moves on. */
  function StepClosed(m: MachineState, cycles: nat): (after: MachineState)
    requires Fit(m)
    ensures Fit(after)
  {
    FramesCompleted(WritesFlushed(m), FramesDone(m.clock, cycles)).(clock := Later(m.clock, cycles))
  }

  ghost function TimePassed(m: MachineState, cycles: nat): (after: MachineState)
    requires Fit(m)
    ensures Fit(after)
  {
    StepClosed(TimerRan(DevicesMoved(m, cycles * TICKS_PER_CYCLE), TimerClocks(m.clock, cycles)), cycles)
  }

  // ---------------------------------------------------------------- whole runs

  function Accessed(m: MachineState, a: Access): (after: MachineState)
    requires Fit(m)
    ensures Fit(after)
  {
    if a.output then IoWritten(m, a.port, a.value) else IoRead(m, a.port)
  }

  lemma {:induction false} OutputIsWritten(m: MachineState, a: Access)
    requires Fit(m) && a.output
    ensures Accessed(m, a) == IoWritten(m, a.port, a.value)
  {
  }

  lemma {:induction false} InputIsRead(m: MachineState, a: Access)
    requires Fit(m) && !a.output
    ensures Accessed(m, a) == IoRead(m, a.port)
  {
  }

  ghost function AfterOp(m: MachineState, op: Op): (after: MachineState)
    requires Fit(m)
    ensures Fit(after)
  {
    match op
    case Pass(cycles) => TimePassed(m, cycles)
    case Perform(a) => Accessed(m, a)
  }

  ghost function OpByOp(m: MachineState, ops: seq<Op>): (after: MachineState)
    requires Fit(m)
    ensures Fit(after)
    decreases ops
  {
    if ops == [] then m else OpByOp(AfterOp(m, ops[0]), ops[1..])
  }

  /** The machine after a run. */
  ghost function AfterOps(m: MachineState, ops: seq<Op>): (after: MachineState)
    requires Fit(m)
    ensures Fit(after)
  {
    OpByOp(m, ops)
  }

  lemma {:induction false} OpsConcat(m: MachineState, a: seq<Op>, b: seq<Op>)
    requires Fit(m)
    ensures AfterOps(m, a + b) == AfterOps(AfterOps(m, a), b)
    decreases a
  {
    if a == [] {
      assert a + b == b;
    } else {
      assert (a + b)[1..] == a[1..] + b;
      OpsConcat(AfterOp(m, a[0]), a[1..], b);
    }
  }

  lemma {:induction false} FirstOp(m: MachineState, ops: seq<Op>, n: MachineState)
    requires Fit(m) && ops != [] && n == AfterOp(m, ops[0])
    ensures AfterOps(m, ops) == AfterOps(n, ops[1..])
  {
  }

  lemma {:induction false} AccessIsPerformed(m: MachineState, a: Access)
    requires Fit(m)
    ensures AfterOp(m, Perform(a)) == Accessed(m, a)
  {
  }

  lemma {:induction false} OneOp(m: MachineState, op: Op)
    requires Fit(m)
    ensures AfterOps(m, [op]) == AfterOp(m, op)
  {
    assert [op][1..] == [];
    assert AfterOps(AfterOp(m, op), []) == AfterOp(m, op);
  }

  lemma {:induction false} NoOps(m: MachineState, none: seq<Op>)
    requires Fit(m) && none == []
    ensures AfterOps(m, none) == m
  {
  }

  lemma {:induction false} PassTakesTime(m: MachineState, cycles: nat)
    requires Fit(m)
    ensures AfterOp(m, Pass(cycles)) == TimePassed(m, cycles)
  {
  }

  lemma {:induction false} TimeIsTaken(m: MachineState, cycles: nat)
    requires Fit(m)
    ensures AfterOps(m, [Pass(cycles)]) == TimePassed(m, cycles)
  {
    OneOp(m, Pass(cycles));
    PassTakesTime(m, cycles);
  }

  lemma {:induction false} NoTimeIsTaken(m: MachineState, offset: nat, synchronized: nat)
    requires Fit(m) && offset <= synchronized
    ensures AfterOps(m, UpTo(offset, synchronized)) == m
  {
    NoOps(m, UpTo(offset, synchronized));
  }

  // ---------------------------------------------------------------- reset

  const CONTROL_RESET := Ppi.RESET_STATE.(ports := Ppi.RESET_STATE.ports.(inA := 0x40))

  function PanelReset(online: bool): Ppi.PpiState {
    Ppi.RESET_STATE.(ports := Ppi.RESET_STATE.ports.(inC := if online then 0x20 else 0x00))
  }

  /** Without a front end that manages the connection the line is always clear to send. */
  function SerialReset(s: SerialSide): SerialSide {
    s.(uart := Uart.UART_RESET.(control := Uart.UART_RESET.control.(
         cts := !s.managed || (s.connected && s.clear), dsr := s.managed && s.connected)))
  }

  function BayReset(b: Bay): (after: Bay)
    requires BayOk(b)
    ensures BayOk(after)
  {
    b.(selected := DRIVE_B, cable := CABLE_RELEASED)
  }

  const BOARD_RESET := Board(Pit.SetGate(Pit.RESET_COUNTER, true), false, 0, 0, false)

  function PeripheralsReset(m: MachineState): (after: MachineState)
    requires Fit(m)
    ensures Fit(after)
  {
    m.(panel := Panel(PanelReset(m.printer.online), KEYS_RESET, m.panel.mouse.(latch := false)),
       serial := SerialReset(m.serial))
  }

  function ElectronicsReset(m: MachineState): (after: MachineState)
    requires Fit(m)
    ensures Fit(after)
  {
    var bay := BayReset(m.disks.bay);
    m.(disks := DiskSide(RESET_DISK, WithStatus(CONTROL_RESET, bay), bay), board := BOARD_RESET)
  }

  /** A reset touches the electronics, but not the disks, their rotation and their heads, the
      position of the mouse, or the connection. */
  function Restarted(m: MachineState): (after: MachineState)
    requires Fit(m)
    ensures Fit(after)
  {
    ElectronicsReset(PeripheralsReset(m)).(clock := CLOCK_RESET)
  }

  const EMPTY_BAY := Bay([EMPTY_DRIVE, EMPTY_DRIVE], DRIVE_B, 0, CABLE_RELEASED)

  /** Two empty drives, a mouse at rest, no printer, and nobody who manages the serial line. */
  predicate Assembled(m: MachineState) {
    && m.disks.bay == EMPTY_BAY && m.panel.mouse == Mouse.MOUSE_AT_POWER_UP && Ahead(m.panel.keyboard)
    && m.printer == Printer(false, []) && !m.serial.managed && !m.serial.connected && m.serial.clear
  }

  const POWER_UP: MachineState :=
    MachineState(DiskSide(RESET_DISK, WithStatus(CONTROL_RESET, EMPTY_BAY), EMPTY_BAY),
                 Panel(PanelReset(false), KEYS_RESET, Mouse.MOUSE_AT_POWER_UP), Printer(false, []),
                 SerialSide(Uart.UART_RESET, false, false, true), BOARD_RESET, CLOCK_RESET)

  lemma {:induction false} AssembledStarts(m: MachineState)
    requires Assembled(m)
    ensures Fit(m) && Mouse.Coherent(m.panel.mouse) && Restarted(m) == POWER_UP
  {
  }

  lemma {:induction false} RestartIsSound(m: MachineState)
    requires Fit(m) && Mouse.Coherent(m.panel.mouse)
    ensures Sound(Restarted(m)) && Settled(Restarted(m)) == Restarted(m)
  {
    ResetSettles();
    ResetIsConsistent();
  }

  // ---------------------------------------------------------------- the outside world

  function CodeTyped(m: MachineState, code: byte): MachineState {
    m.(panel := m.panel.(port := Ppi.PulseStrobeB(m.panel.port, 255 - code)))
  }

  /** A new key is typed; one that is held already is not. */
  function KeyPressed(m: MachineState, id: nat, code: byte): MachineState {
    if m.panel.keyboard.held && m.panel.keyboard.id == id then m
    else CodeTyped(m.(panel := m.panel.(keyboard := KeyState(true, id, code, REPEAT_DELAY_TICKS))), code)
  }

  function KeyReleased(m: MachineState, id: nat): MachineState {
    if m.panel.keyboard.held && m.panel.keyboard.id == id
    then m.(panel := m.panel.(keyboard := m.panel.keyboard.(held := false, untilRepeat := REPEAT_DELAY_TICKS)))
    else m
  }

  function WithMouse(m: MachineState, mouse: Mouse.MouseState): MachineState {
    m.(panel := m.panel.(mouse := mouse))
  }

  function MotionQueued(m: MachineState, dx: int, dy: int): MachineState {
    WithMouse(m, Mouse.Advanced(Mouse.Moved(m.panel.mouse, dx, dy), 0, InterruptEnabled(m.disks.control, 0x08)))
  }

  function ButtonMoved(m: MachineState, first: bool, pressed: bool): MachineState {
    WithMouse(m, Mouse.Pressed(m.panel.mouse, first, pressed, InterruptEnabled(m.disks.control, 0x08)))
  }

  function SignalsSet(m: MachineState, signals: byte): MachineState {
    WithMouse(m, Mouse.Replaced(m.panel.mouse, signals, InterruptEnabled(m.disks.control, 0x08)))
  }

  function PrinterSwitched(m: MachineState, online: bool): MachineState {
    m.(printer := m.printer.(online := online),
       panel := m.panel.(port := m.panel.port.(ports := m.panel.port.ports.(inC := if online then 0x20 else 0x00))))
  }

  function SerialConnected(m: MachineState, connected: bool): MachineState {
    m.(serial := SerialSide(Uart.Connected(m.serial.uart, connected), true, connected, true))
  }

  function ClearToSend(m: MachineState, clear: bool): MachineState {
    var u := m.serial.uart;
    m.(serial := m.serial.(uart := u.(control := u.control.(cts := m.serial.connected && clear)), clear := clear))
  }

  predicate AcceptsSerial(m: MachineState) {
    m.serial.connected && |m.serial.uart.line.queue| < Uart.HOST_QUEUE_CAPACITY
  }

  function SerialQueued(m: MachineState, value: byte): MachineState {
    var u := m.serial.uart;
    m.(serial := m.serial.(uart := u.(line := u.line.(queue := u.line.queue + [value]))))
  }

  function SerialTaken(m: MachineState): MachineState
    requires m.serial.uart.tx.completed != []
  {
    var u := m.serial.uart;
    m.(serial := m.serial.(uart := u.(tx := u.tx.(completed := u.tx.completed[1..]))))
  }

  function WithBay(m: MachineState, bay: Bay): (after: MachineState)
    requires BayOk(bay)
  {
    m.(disks := m.disks.(control := WithStatus(m.disks.control, bay), bay := bay))
  }

  /** A call that leaves the controller, the drives, the axes of the mouse and the time line sound
      leaves the interrupt network at rest. */
  lemma {:induction false} OutsideSettles(m: MachineState, after: MachineState)
    requires Sound(m) && after.disks == m.disks && Ahead(after.panel.keyboard)
    requires Mouse.Coherent(after.panel.mouse) && after.clock == m.clock
    ensures Sound(after) && Settled(after) == after
  {
    RefreshOnce(m.disks.disk);
  }

  lemma {:induction false} MouseSettles(m: MachineState, dx: int, dy: int, first: bool, pressed: bool, signals: byte)
    requires Sound(m)
    ensures Sound(MotionQueued(m, dx, dy)) && Settled(MotionQueued(m, dx, dy)) == MotionQueued(m, dx, dy)
    ensures Sound(ButtonMoved(m, first, pressed)) && Settled(ButtonMoved(m, first, pressed)) == ButtonMoved(m, first, pressed)
    ensures Sound(SignalsSet(m, signals)) && Settled(SignalsSet(m, signals)) == SignalsSet(m, signals)
  {
    var enabled := InterruptEnabled(m.disks.control, 0x08);
    Mouse.StaysCoherent(Mouse.Moved(m.panel.mouse, dx, dy), 0, enabled);
    Mouse.ButtonKeepsAxes(m.panel.mouse, first, pressed, enabled);
    OutsideSettles(m, MotionQueued(m, dx, dy));
    OutsideSettles(m, ButtonMoved(m, first, pressed));
    OutsideSettles(m, SignalsSet(m, signals));
  }

  lemma {:induction false} SerialSettles(m: MachineState, on: bool)
    requires Sound(m)
    ensures Sound(SerialConnected(m, on)) && Settled(SerialConnected(m, on)) == SerialConnected(m, on)
    ensures Sound(ClearToSend(m, on)) && Settled(ClearToSend(m, on)) == ClearToSend(m, on)
  {
    OutsideSettles(m, SerialConnected(m, on));
    OutsideSettles(m, ClearToSend(m, on));
  }

  // ---------------------------------------------------------------- what the controller sees of it

  /** The step of the disk controller that a port write is. */
  function WriteStep(m: MachineState, port: nat, value: byte): Step {
    match port / 16 % 8
    case 1 => Step.TimerWrite(port % 256, value, m.board.zero)
    case 2 => Step.DataWrite(port % 256, value)
    case 5 => Step.AuxWrite(value)
    case 6 => Step.TimingSwitch(TimingOf(Ppi.Written(m.disks.control, port % 256, value)))
    case _ => Step.Elsewhere
  }

  function ReadStep(m: MachineState, port: nat): Step {
    match port / 16 % 8
    case 1 => Step.TimerRead(port % 256, m.board.zero)
    case 2 => Step.DataRead(port % 256)
    case _ => Step.Elsewhere
  }

  /** A port access does not touch the time line or the axes of the mouse. */
  predicate Timeless(m: MachineState, after: MachineState) {
    after.clock == m.clock && after.panel.mouse == m.panel.mouse.(latch := after.panel.mouse.latch)
  }

  lemma {:induction false} WriteDispatches(m: MachineState, port: nat, value: byte)
    requires Fit(m)
    ensures Refreshed(WriteDispatched(m, port, value).disks.disk) == After(m.disks.disk, WriteStep(m, port, value))
  {
    match port / 16 % 8
    case 0 =>
    case 1 =>
    case 2 =>
    case 3 =>
    case 4 =>
    case 5 =>
    case 6 =>
    case _ =>
  }

  lemma {:induction false} WriteIsTimeless(m: MachineState, port: nat, value: byte)
    requires Fit(m)
    ensures Timeless(m, WriteDispatched(m, port, value))
  {
  }

  lemma {:induction false} StaysSound(m: MachineState, after: MachineState, step: Step)
    requires Sound(m) && Fit(after) && Timeless(m, after) && !step.TimePasses?
    requires after.disks.disk == After(m.disks.disk, step)
    ensures Sound(after)
  {
    StepKeeps(m.disks.disk, step);
    StepPends(m.disks.disk, step);
  }

  lemma {:induction false} WriteIsStep(m: MachineState, port: nat, value: byte)
    requires Sound(m)
    ensures IoWritten(m, port, value).disks.disk == After(m.disks.disk, WriteStep(m, port, value))
    ensures Sound(IoWritten(m, port, value))
  {
    WriteDispatches(m, port, value);
    WriteIsTimeless(m, port, value);
    StaysSound(m, IoWritten(m, port, value), WriteStep(m, port, value));
  }

  lemma {:induction false} ReadDispatches(m: MachineState, port: nat)
    requires Fit(m)
    ensures Refreshed(ReadDispatched(m, port).disks.disk) == After(m.disks.disk, ReadStep(m, port))
    ensures Timeless(m, ReadDispatched(m, port))
  {
  }

  lemma {:induction false} ReadIsStep(m: MachineState, port: nat)
    requires Sound(m)
    ensures IoRead(m, port).disks.disk == After(m.disks.disk, ReadStep(m, port))
    ensures Sound(IoRead(m, port))
  {
    ReadDispatches(m, port);
    StaysSound(m, IoRead(m, port), ReadStep(m, port));
  }

  /** A span of time is one step of the controller too. */
  lemma {:induction false} TimeIsStep(m: MachineState, cycles: nat)
    requires Sound(m)
    ensures var visited := Visited(Selected(m.disks.bay), cycles * TICKS_PER_CYCLE);
            TimePassed(m, cycles).disks.disk
            == After(m.disks.disk, TimePasses(m.disks.control.ports.outA, visited, TimerClocks(m.clock, cycles)))
    ensures Sound(TimePassed(m, cycles)) && Settled(TimePassed(m, cycles)) == TimePassed(m, cycles)
  {
    var outA, visited := m.disks.control.ports.outA, Visited(Selected(m.disks.bay), cycles * TICKS_PER_CYCLE);
    ElapsedSettles(m.disks.disk, outA, visited, TimerClocks(m.clock, cycles));
    StaysInStep(m.clock, cycles);
    Mouse.StaysCoherent(m.panel.mouse, cycles * TICKS_PER_CYCLE, InterruptEnabled(m.disks.control, 0x08));
  }

  lemma {:induction false} OpKeeps(m: MachineState, op: Op)
    requires Sound(m)
    ensures Sound(AfterOp(m, op))
  {
    match op
    case Pass(cycles) => TimeIsStep(m, cycles);
    case Perform(a) =>
      if a.output {
        WriteIsStep(m, a.port, a.value);
      } else {
        ReadIsStep(m, a.port);
      }
  }

  /** Every run keeps the couplings of the controller, the time line and the phases of the mouse. */
  lemma {:induction false} RunKeeps(m: MachineState, ops: seq<Op>)
    requires Sound(m)
    ensures Sound(AfterOps(m, ops))
    decreases ops
  {
    if ops != [] {
      OpKeeps(m, ops[0]);
      RunKeeps(AfterOp(m, ops[0]), ops[1..]);
    }
  }
}
