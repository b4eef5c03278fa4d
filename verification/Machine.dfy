/** The machine as objects: the chips, the latches between them, ports and time, each step by step
    as the program does it, and each proved to be the step of the machine as a value.  The processor
    is an arbitrary sequence of port accesses and time steps. */
module Machines {
  import opened Bytes
  import opened Wrappers
  import opened FloppyTracks
  import opened FloppyDrives
  import opened FloppySubsystems
  import opened DiskController
  import opened Interrupts3214
  import opened Keyboards
  import opened MachineTime
  import M = MachineModel
  import Mouse
  import Pit = Pit8253
  import Ppi = Ppi8255
  import Uart = Uart8251

  class Machine {
    const timer: Pit.Pit
    const diskData: Ppi.Ppi
    const control: Ppi.Ppi
    const printerKeyboard: Ppi.Ppi
    const uart: Uart.Uart
    const interrupts: InterruptController
    const keyboard: Keyboard
    const mouse: Mouse.MouseEncoder
    const floppy: FloppySubsystem

    var aux: Aux
    var latches: Latches
    var detector: Detector
    var pendingDiskWrites: Cells
    var videoInterruptLatch: bool
    var printerOnline: bool
    var printerBytes: seq<byte>
    var verticalScroll: byte
    var ramMapped: bool
    var clock: Clock
    var cpuCycleOverrun: nat
    var serialManaged: bool
    var serialConnected: bool
    var serialClearToSend: bool

    /** The chips are there and are different ones. */
    ghost predicate Wiring()
      reads interrupts
    {
      && timer.Valid() && interrupts.Valid()
      && diskData != control && diskData != printerKeyboard && control != printerKeyboard
    }

    /** Everything the machine owns. */
    ghost function Parts(): set<object> {
      {this, diskData, control, printerKeyboard, uart, timer.channels, interrupts, interrupts.inputs, keyboard, mouse, floppy}
    }

    /** The disk controller as a value. */
    ghost function Controller(): Disk
      requires timer.Valid()
      reads this, timer.channels, diskData
    {
      Disk(diskData.State(), timer.channels[1], timer.channels[2], aux, latches, detector, pendingDiskWrites)
    }

    ghost function Disks(): M.DiskSide
      requires timer.Valid()
      reads this, timer.channels, diskData, control, floppy
    {
      M.DiskSide(Controller(), control.State(), floppy.State())
    }

    ghost function Panel(): M.Panel
      reads printerKeyboard, keyboard, mouse
    {
      M.Panel(printerKeyboard.State(), keyboard.State(), mouse.State())
    }

    ghost function Serial(): M.SerialSide
      reads this, uart
    {
      M.SerialSide(uart.State(), serialManaged, serialConnected, serialClearToSend)
    }

    ghost function Board(): M.Board
      requires timer.Valid()
      reads this, timer.channels, interrupts
    {
      M.Board(timer.channels[0], videoInterruptLatch, interrupts.mask, verticalScroll, ramMapped)
    }

    /** The whole machine as a value. */
    ghost function State(): M.MachineState
      requires timer.Valid()
      reads this, timer.channels, diskData, control, floppy, printerKeyboard, keyboard, mouse, uart, interrupts
    {
      M.MachineState(Disks(), Panel(), M.Printer(printerOnline, printerBytes), Serial(), Board(), clock)
    }

    /** The eight inputs of the 3214 equal their sources. */
    ghost predicate InputsConnected()
      requires Wiring()
      reads this, timer.channels, diskData, control, floppy, printerKeyboard, keyboard, mouse, uart, interrupts, interrupts.inputs
    {
      interrupts.inputs[..] == M.Sources(State())
    }

    /** Holds between any two calls from outside. */
    ghost predicate Valid()
      reads this, timer.channels, diskData, control, floppy, printerKeyboard, keyboard, mouse, uart, interrupts, interrupts.inputs
    {
      Wiring() && M.AtRest(State(), interrupts.inputs[..])
    }

    constructor ()
      ensures Valid() && State() == M.POWER_UP && cpuCycleOverrun == 0
    {
      var pit := new Pit.Pit();
      var data, machineControl, printer := NewPorts();
      var serial := new Uart.Uart();
      var controller := new InterruptController();
      var keys := new Keyboard();
      var encoder := new Mouse.MouseEncoder();
      var drives := new FloppySubsystem();
      timer, diskData, control, printerKeyboard, uart := pit, data, machineControl, printer, serial;
      interrupts, keyboard, mouse, floppy := controller, keys, encoder, drives;
      printerOnline, printerBytes := false, [];
      serialManaged, serialConnected, serialClearToSend := false, false, true;
      new;
      Start();
    }

    static method NewPorts() returns (a: Ppi.Ppi, b: Ppi.Ppi, c: Ppi.Ppi)
      ensures fresh(a) && fresh(b) && fresh(c) && a != b && a != c && b != c
    {
      a := new Ppi.Ppi();
      b := new Ppi.Ppi();
      c := new Ppi.Ppi();
    }

    method Start()
      requires Wiring() && floppy.State() == M.EMPTY_BAY && mouse.State() == Mouse.MOUSE_AT_POWER_UP && keyboard.Valid()
      requires !printerOnline && printerBytes == [] && !serialManaged && !serialConnected && serialClearToSend
      modifies Parts()
      ensures Valid() && State() == M.POWER_UP && cpuCycleOverrun == 0
    {
      M.AssembledStarts(State());
      Reset();
    }

    /** A rise of the data interrupt is a pulse of counter 2, unless it is the mark's. */
    method CountDiskByte()
      requires Wiring()
      modifies this`detector, timer.channels
      ensures Controller() == Leveled(Counted(old(Controller())))
      ensures timer.channels[0] == old(timer.channels[0])
    {
      var dataInterrupt := diskData.a.intr || diskData.b.intr;
      if !detector.level && dataInterrupt {
        if detector.suppress {
          detector := detector.(suppress := false);
        } else {
          ghost var e := timer.channels[2].element;
          var rising, falling := timer.Clock(2, 1);
          SinglePulse(e);
        }
      }
      detector := detector.(level := dataInterrupt);
    }

    /** OUT2 is wired as a level to the reset of the auxiliary register. */
    method ResetAtEndOfData()
      requires Wiring()
      modifies this`aux, this`latches, timer.channels
      ensures Controller() == if old(Controller()).EndOfData() then Ended(old(Controller())) else old(Controller())
      ensures timer.channels[0] == old(timer.channels[0])
    {
      if timer.channels[2].element.output {
        aux := AUX_CLEAR;
        latches := latches.(sync := false, ordinary := false, format := false);
        if latches.timing {
          timer.SetGateInput(1, false);
        }
      }
    }

    method ConnectDiskInputs()
      requires Wiring()
      modifies interrupts.inputs
      ensures interrupts.inputs[7] == Controller().Interrupt()
      ensures interrupts.inputs[6] == latches.timeout
      ensures interrupts.inputs[5] == Controller().EndOfData()
      ensures forall i :: 0 <= i < 5 ==> interrupts.inputs[i] == old(interrupts.inputs[i])
    {
      interrupts.SetInput(7, diskData.a.intr || diskData.b.intr);
      interrupts.SetInput(6, latches.timeout);
      interrupts.SetInput(5, timer.channels[2].element.output);
    }

    method ConnectPeripheralInputs()
      requires Wiring()
      modifies interrupts.inputs
      ensures interrupts.inputs[4] == videoInterruptLatch && interrupts.inputs[3] == mouse.interruptLatch
      ensures interrupts.inputs[2] == Uart.InterruptRequested(uart.State())
      ensures interrupts.inputs[1] == printerKeyboard.b.intr && interrupts.inputs[0] == printerKeyboard.a.intr
      ensures forall i :: 5 <= i < 8 ==> interrupts.inputs[i] == old(interrupts.inputs[i])
    {
      interrupts.SetInput(4, videoInterruptLatch);
      interrupts.SetInput(3, mouse.interruptLatch);
      var serial := uart.RequestsInterrupt();
      interrupts.SetInput(2, serial);
      interrupts.SetInput(1, printerKeyboard.b.intr);
      interrupts.SetInput(0, printerKeyboard.a.intr);
    }

    method ConnectInputs()
      requires Wiring()
      modifies interrupts.inputs
      ensures InputsConnected()
    {
      ConnectDiskInputs();
      ConnectPeripheralInputs();
      EightElements(interrupts.inputs);
    }

    method RefreshInterruptSources()
      requires Wiring()
      modifies this`aux, this`latches, this`detector, timer.channels, interrupts.inputs
      ensures Wiring()
      ensures Controller() == Refreshed(old(Controller()))
      ensures InputsConnected()
      ensures timer.channels[0] == old(timer.channels[0])
    {
      CountDiskByte();
      ResetAtEndOfData();
      ConnectInputs();
    }

    // ---------------------------------------------------------------- a cell passes the head

    /** The serializer takes port A and asks for the next byte. */
    method TransferFloppyWriteByte(tick: nat) returns (cell: TimedFmByte)
      requires Wiring()
      modifies this`aux, this`latches, this`detector, this`pendingDiskWrites, diskData, timer.channels, interrupts.inputs
      ensures Controller() == Transferred(old(Controller()), control.ports.outA, tick)
      ensures cell == Outgoing(old(Controller()), control.ports.outA, tick)
      ensures timer.channels[0] == old(timer.channels[0])
    {
      cell := TimedFmByte(tick, diskData.ports.outA, WrittenClockMask(control.ports.outA));
      pendingDiskWrites := pendingDiskWrites + [cell];
      diskData.DoPulseAckA();
      RefreshInterruptSources();
    }

    method PresentByte(data: byte)
      requires Wiring()
      modifies this`aux, this`latches, this`detector, diskData, timer.channels, interrupts.inputs
      ensures forall tick, clocks :: Controller() == Deserialized(old(Controller()), TimedFmByte(tick, data, clocks))
      ensures timer.channels[0] == old(timer.channels[0])
    {
      diskData.DoPulseStrobeB(data);
      RefreshInterruptSources();
    }

    /** The reading half of the controller. */
    method SeeByte(cell: TimedFmByte)
      requires Wiring()
      modifies this`aux, this`latches, this`detector, diskData, timer.channels, interrupts.inputs
      ensures Controller() == Seen(old(Controller()), cell)
      ensures timer.channels[0] == old(timer.channels[0])
    {
      if !aux.read {
        return;
      }
      if !latches.sync {
        var selectedMark := if aux.dataMark then IsDataAddressMark(cell) else IsIdAddressMark(cell);
        if !selectedMark {
          return;
        }
        latches := latches.(sync := true);
        timer.SetGateInput(1, true);
        detector := detector.(suppress := true);
      }
      PresentByte(cell.data);
      assert Controller() == Deserialized(if old(latches.sync) then old(Controller()) else Synchronized(old(Controller())),
                                          TimedFmByte(cell.tick, cell.data, cell.clocks));
    }

    /** The second index ends a format. */
    method EndFormat()
      requires Wiring()
      modifies this`aux, this`latches, this`detector, timer.channels, interrupts.inputs
      ensures Controller() == FormatEnded(old(Controller()))
      ensures timer.channels[0] == old(timer.channels[0])
    {
      latches := latches.(ordinary := false, format := false, sync := false);
      aux := AUX_CLEAR;
      timer.SetGateInput(1, false);
      RefreshInterruptSources();
    }

    method ProcessFloppyByte(cell: TimedFmByte)
      requires Wiring()
      modifies this`aux, this`latches, this`detector, this`pendingDiskWrites, diskData, timer.channels, interrupts.inputs
      ensures Controller() == Passed(old(Controller()), control.ports.outA, cell)
      ensures timer.channels[0] == old(timer.channels[0])
    {
      detector := detector.(lastTick := cell.tick);
      if !latches.timing {
        return;
      }
      var transferred := cell;
      if aux.format && cell.tick == 0 {
        if latches.format {
          EndFormat();
          return;
        }
        latches := latches.(format := true);
      }
      if latches.format || latches.ordinary {
        transferred := TransferFloppyWriteByte(cell.tick);
      }
      SeeByte(transferred);
    }

    /** All cells of a span of time. */
    method ProcessFloppyBytes(cells: Cells)
      requires Wiring()
      modifies this`aux, this`latches, this`detector, this`pendingDiskWrites, diskData, timer.channels, interrupts.inputs
      ensures Controller() == AllPassed(old(Controller()), control.ports.outA, cells)
      ensures timer.channels[0] == old(timer.channels[0])
    {
      for k := 0 to |cells|
        invariant Controller() == AllPassed(old(Controller()), control.ports.outA, cells[..k])
        invariant timer.channels[0] == old(timer.channels[0])
      {
        ProcessFloppyByte(cells[k]);
        assert cells[..k + 1][..k] == cells[..k];
      }
      assert cells[..|cells|] == cells;
    }

    method FlushPendingDiskWrites()
      requires floppy.Valid()
      modifies this`pendingDiskWrites, floppy`drives
      ensures floppy.Valid() && pendingDiskWrites == []
      ensures floppy.State() == StoredAll(old(floppy.State()), old(pendingDiskWrites))
    {
      ghost var before := floppy.State();
      for k := 0 to |pendingDiskWrites|
        invariant floppy.Valid() && pendingDiskWrites == old(pendingDiskWrites)
        invariant floppy.State() == StoredAll(before, pendingDiskWrites[..k])
      {
        var ok := floppy.WriteSelectedByte(pendingDiskWrites[k]);
        assert pendingDiskWrites[..k + 1][..k] == pendingDiskWrites[..k];
      }
      assert pendingDiskWrites[..|pendingDiskWrites|] == pendingDiskWrites;
      pendingDiskWrites := [];
    }

    /** Every call from outside ends with a refresh of the interrupt network. */
    method Settle()
      requires Wiring() && M.Sound(M.Settled(State()))
      modifies this`aux, this`latches, this`detector, timer.channels, interrupts.inputs
      ensures Valid() && State() == M.Settled(old(State()))
    {
      RefreshInterruptSources();
    }

    // ---------------------------------------------------------------- ports

    method RefreshFloppyInputs()
      requires floppy.Valid()
      modifies control`ports
      ensures control.State() == M.WithStatus(old(control.State()), floppy.State())
    {
      control.SetPortCInput(StatusInputs(Bay(floppy.drives, floppy.selected, floppy.pulseWidth, floppy.cable)));
    }

    method WritePrinterPort(register: byte, value: byte)
      requires Wiring()
      modifies this`printerBytes, printerKeyboard
      ensures State() == M.PrinterWritten(old(State()), register, value)
    {
      printerKeyboard.Write(register, value);
      if register % 4 == 0 && printerOnline && printerKeyboard.a.mode == Ppi.Mode1 && M.PortAOutputEnabled(printerKeyboard.a) {
        printerBytes := printerBytes + [printerKeyboard.ports.outA];
        printerKeyboard.DoPulseAckA();
      }
    }

    method WriteTimerPort(register: byte, value: byte)
      requires Wiring()
      modifies this`latches, timer.channels
      ensures State() == M.TimerWritten(old(State()), register, value)
    {
      if ProgramsCounterOne(register, value) {
        latches := latches.(timeout := false);
      }
      timer.Write(register, value);
      assert old(timer.State()) == Counters(old(Controller()), old(timer.channels[0]));
    }

    method SynchronizeDiskSelection()
      requires Wiring() && floppy.Valid()
      modifies floppy`selected, control`ports
      ensures floppy.Valid() && floppy.State() == Selecting(old(floppy.State()), M.SelectionPins(diskData.State()))
      ensures control.State() == M.WithStatus(old(control.State()), floppy.State())
    {
      var effective := 0x20;
      if !diskData.a.upperInput {
        effective := diskData.ports.outC;
      }
      floppy.SelectFromDiskPpi(effective);
      RefreshFloppyInputs();
    }

    method WriteDataPort(register: byte, value: byte)
      requires Wiring() && M.Fit(State())
      modifies diskData, floppy`selected, control`ports
      ensures State() == M.DataWritten(old(State()), register, value)
    {
      diskData.Write(register, value);
      SynchronizeDiskSelection();
    }

    method WriteMaskPort(value: byte)
      requires Wiring()
      modifies interrupts`mask
      ensures Wiring() && State() == M.MaskWritten(old(State()), value)
    {
      interrupts.SetMask(value);
    }

    method WriteSerialPort(register: byte, value: byte)
      requires Wiring()
      modifies uart
      ensures State() == M.SerialWritten(old(State()), register, value)
    {
      uart.DoWrite(register, value);
    }

    method WriteAuxPort(value: byte)
      requires Wiring()
      modifies this`aux, this`latches
      ensures State() == M.AuxWritten(old(State()), value)
    {
      WriteAuxRegister(value);
    }

    method WriteAuxRegister(value: byte)
      requires Wiring()
      modifies this`aux, this`latches
      ensures Controller() == WriteAux(old(Controller()), value)
    {
      aux := AuxOf(value);
      if !aux.write {
        latches := latches.(ordinary := false);
      }
      if !aux.format {
        latches := latches.(format := false);
      }
      if !aux.read && !aux.format {
        latches := latches.(timeout := false);
      }
      if !latches.timing {
        aux := AUX_CLEAR;
      }
    }

    method SwitchDiskTiming(timing: bool)
      requires Wiring()
      modifies this`aux, this`latches, timer.channels
      ensures Controller() == SwitchTiming(old(Controller()), timing)
      ensures timer.channels[0] == old(timer.channels[0])
    {
      latches := latches.(timing := timing);
      if !timing {
        latches := latches.(sync := false, ordinary := false, format := false, timeout := false);
        aux := AUX_CLEAR;
      }
      timer.SetGateInput(1, !timing || latches.sync);
    }

    method SynchronizeControlOutputs()
      requires Wiring() && floppy.Valid()
      modifies this`aux, this`latches, this`verticalScroll, timer.channels, floppy`drives, floppy`cable, control`ports
      ensures floppy.Valid()
      ensures floppy.State() == Controlled(old(floppy.State()), control.ports.outC, !control.b.lowerInput)
      ensures control.State() == M.WithStatus(old(control.State()), floppy.State())
      ensures Controller() == SwitchTiming(old(Controller()), M.TimingOf(control.State()))
      ensures timer.channels[0] == old(timer.channels[0])
      ensures verticalScroll == if control.b.input then old(verticalScroll) else control.ports.outB
    {
      if !control.b.input {
        verticalScroll := control.ports.outB;
      }
      floppy.SetControlPortC(control.ports.outC, !control.b.lowerInput);
      RefreshFloppyInputs();
      SwitchDiskTiming(M.PortAOutputEnabled(control.a) && !HasBit(control.ports.outA, 0x40));
    }

    method WriteControlPort(register: byte, value: byte)
      requires Wiring() && M.Fit(State())
      modifies this`aux, this`latches, this`verticalScroll, timer.channels, floppy`drives, floppy`cable, control
      ensures State() == M.ControlWritten(old(State()), register, value)
    {
      control.Write(register, value);
      SynchronizeControlOutputs();
    }

    method ClearVideoInterrupt()
      requires Wiring()
      modifies this`videoInterruptLatch
      ensures State() == M.VideoCleared(old(State()))
    {
      videoInterruptLatch := false;
    }

    /** The write itself, before the interrupt network settles. */
    method DispatchWrite(port: nat, value: byte)
      requires Wiring() && M.Fit(State())
      modifies this`aux, this`latches, this`verticalScroll, this`printerBytes, this`videoInterruptLatch
      modifies timer.channels, diskData, control, printerKeyboard, uart, interrupts`mask, floppy
      ensures Wiring() && State() == M.WriteDispatched(old(State()), port, value)
    {
      var register: byte := port % 256;
      match port / 16 % 8 {
        case 0 => WritePrinterPort(register, value);
        case 1 => WriteTimerPort(register, value);
        case 2 => WriteDataPort(register, value);
        case 3 => WriteMaskPort(value);
        case 4 => WriteSerialPort(register, value);
        case 5 => WriteAuxPort(value);
        case 6 => WriteControlPort(register, value);
        case _ => ClearVideoInterrupt();
      }
    }

    method WriteIo(port: nat, value: byte)
      requires Valid()
      modifies this`aux, this`latches, this`detector, this`verticalScroll, this`printerBytes, this`videoInterruptLatch
      modifies timer.channels, diskData, control, printerKeyboard, uart, interrupts, interrupts.inputs, floppy
      ensures Valid() && State() == M.IoWritten(old(State()), port, value)
    {
      M.WriteIsStep(State(), port, value);
      DispatchWrite(port, value);
      Settle();
    }

    method ReadPrinterPort(register: byte) returns (value: byte)
      requires Wiring()
      modifies printerKeyboard
      ensures State() == M.PanelRead(old(State()), register)
      ensures value == Ppi.ReadValue(old(printerKeyboard.State()), register)
    {
      value := printerKeyboard.Read(register);
    }

    method ReadTimerPort(register: byte) returns (value: byte)
      requires Wiring()
      modifies timer.channels
      ensures State() == M.TimerRead(old(State()), register)
      ensures value == Pit.ReadAt(Counters(old(Controller()), old(timer.channels[0])), register).0
    {
      value := timer.Read(register);
      assert old(timer.State()) == Counters(old(Controller()), old(timer.channels[0]));
    }

    method ReadDataPort(register: byte) returns (value: byte)
      requires Wiring()
      modifies diskData
      ensures State() == M.DataRead(old(State()), register)
      ensures value == Ppi.ReadValue(old(diskData.State()), register)
    {
      value := diskData.Read(register);
    }

    method MapRam(mapped: bool)
      requires Wiring()
      modifies this`ramMapped
      ensures State() == M.Mapped(old(State()), mapped)
    {
      ramMapped := mapped;
    }

    method ReadSerialPort(register: byte) returns (value: nat)
      requires Wiring()
      modifies uart`data
      ensures State() == M.SerialRead(old(State()), register)
      ensures value == Uart.ReadValue(old(uart.State()), register)
    {
      value := uart.Read(register);
    }

    method ReadControlPort(register: byte) returns (value: byte)
      requires Wiring() && M.Fit(State())
      modifies control
      ensures State() == M.ControlRead(old(State()), register)
      ensures value == Ppi.ReadValue(M.WithStatus(old(control.State()), floppy.State()), register)
    {
      RefreshFloppyInputs();
      value := control.Read(register);
    }

    method ReadMousePort() returns (value: byte)
      requires Wiring()
      modifies mouse`interruptLatch
      ensures State() == M.MouseRead(old(State()))
      ensures value == old(mouse.signals)
    {
      value := mouse.signals;
      mouse.ClearLatch();
    }

    method DispatchRead(port: nat) returns (value: nat)
      requires Wiring() && M.Fit(State())
      modifies this`ramMapped, timer.channels, diskData, control, printerKeyboard, uart`data, mouse`interruptLatch
      ensures State() == M.ReadDispatched(old(State()), port)
      ensures value == M.IoValue(old(State()), port)
    {
      var register: byte := port % 256;
      value := 0xFF;
      match port / 16 % 8 {
        case 0 => value := ReadPrinterPort(register);
        case 1 => value := ReadTimerPort(register);
        case 2 => value := ReadDataPort(register);
        case 3 => MapRam(true);
        case 4 => value := ReadSerialPort(register);
        case 5 => MapRam(false);
        case 6 => value := ReadControlPort(register);
        case _ => value := ReadMousePort();
      }
    }

    method ReadIo(port: nat) returns (value: nat)
      requires Valid()
      modifies this`aux, this`latches, this`detector, this`ramMapped
      modifies timer.channels, diskData, control, printerKeyboard, uart`data, mouse`interruptLatch, interrupts.inputs
      ensures Valid() && State() == M.IoRead(old(State()), port)
      ensures value == M.IoValue(old(State()), port)
    {
      M.ReadIsStep(State(), port);
      value := DispatchRead(port);
      Settle();
    }

    // ---------------------------------------------------------------- time

    /** The disks turn, and the controller sees the cells of the selected one. */
    method AdvanceDisks(masterTicks: nat)
      requires Wiring() && M.Fit(State())
      modifies this`aux, this`latches, this`detector, this`pendingDiskWrites
      modifies diskData, control`ports, timer.channels, interrupts.inputs, floppy`drives
      ensures State() == M.DisksTurned(old(State()), masterTicks)
    {
      var visited := floppy.Advance(masterTicks);
      ProcessFloppyBytes(visited);
      RefreshFloppyInputs();
    }

    method DeliverKeyboardCode(code: byte)
      requires Wiring() && Consistent(Controller())
      modifies this`aux, this`latches, this`detector, printerKeyboard, timer.channels, interrupts.inputs
      ensures Controller() == old(Controller()) && timer.channels[0] == old(timer.channels[0]) && InputsConnected()
      ensures printerKeyboard.State() == Ppi.PulseStrobeB(old(printerKeyboard.State()), 255 - code)
    {
      RefreshOnce(Controller());
      printerKeyboard.DoPulseStrobeB(255 - code);
      RefreshInterruptSources();
    }

    method TypeCode(code: byte)
      requires Wiring() && Consistent(Controller())
      modifies this`aux, this`latches, this`detector, printerKeyboard, timer.channels, interrupts.inputs
      ensures State() == M.CodeTyped(old(State()), code) && InputsConnected()
    {
      DeliverKeyboardCode(code);
    }

    method RepeatCode(code: byte)
      requires Wiring() && Consistent(Controller())
      modifies this`aux, this`latches, this`detector, printerKeyboard, timer.channels, interrupts.inputs
      ensures Controller() == old(Controller()) && timer.channels[0] == old(timer.channels[0])
      ensures printerKeyboard.State() == Ppi.PulseStrobeB(old(printerKeyboard.State()), 255 - code)
    {
      DeliverKeyboardCode(code);
    }

    method AdvanceKeyboard(masterTicks: nat)
      requires Wiring() && Consistent(Controller()) && keyboard.Valid()
      modifies this`aux, this`latches, this`detector, printerKeyboard, timer.channels, interrupts.inputs, keyboard
      ensures keyboard.State() == Ticked(old(keyboard.State()), masterTicks)
      ensures printerKeyboard.State() == M.Typed(old(printerKeyboard.State()), old(keyboard.heldCode),
                                                 Repeats(old(keyboard.State()), masterTicks))
      ensures Controller() == old(Controller()) && timer.channels[0] == old(timer.channels[0])
    {
      var repeats := keyboard.Advance(masterTicks);
      HeldCodeStays(old(keyboard.State()), masterTicks);
      for repeat := 0 to repeats
        invariant Controller() == old(Controller()) && timer.channels[0] == old(timer.channels[0])
        invariant keyboard.State() == Ticked(old(keyboard.State()), masterTicks)
        invariant printerKeyboard.State() == M.Typed(old(printerKeyboard.State()), keyboard.heldCode, repeat)
      {
        RepeatCode(keyboard.heldCode);
      }
    }

    method RepeatKeys(masterTicks: nat)
      requires Wiring() && M.Fit(State()) && Consistent(Controller())
      modifies this`aux, this`latches, this`detector, printerKeyboard, timer.channels, interrupts.inputs, keyboard
      ensures State() == M.KeysRepeated(old(State()), masterTicks)
    {
      AdvanceKeyboard(masterTicks);
    }

    method AdvanceMouse(masterTicks: nat)
      requires Wiring() && M.Fit(State())
      modifies mouse
      ensures State() == M.MouseMoved(old(State()), masterTicks)
    {
      mouse.Advance(masterTicks, M.PortAOutputEnabled(control.a) && HasBit(control.ports.outA, 0x08));
    }

    method ClockCounterOne(timerClocks: nat) returns (rising: nat)
      requires Wiring()
      modifies timer.channels
      ensures Controller() == ClockedOne(old(Controller()), timerClocks)
      ensures timer.channels[0] == old(timer.channels[0])
      ensures rising == Pit.RisingEdges(old(timer.channels[1]).element, timerClocks)
    {
      var falling: nat;
      rising, falling := timer.Clock(1, timerClocks);
    }

    method TimeOut(rises: bool)
      requires Wiring()
      modifies this`latches
      ensures Controller() == TimedOut(old(Controller()), rises)
    {
      if latches.timing && aux.read && aux.dataMark && rises {
        latches := latches.(timeout := true);
      }
    }

    method ClockUart(edges: nat)
      modifies uart
      ensures uart.State() == Uart.ReceiveEdges(Uart.TransmitEdges(old(uart.State()), edges), edges)
    {
      uart.ClockTransmit(edges);
      uart.ClockReceive(edges);
    }

    /** Counter 1 runs: the serial line is clocked, the timeout may come and a write may start. */
    method AdvanceTimer(timerClocks: nat)
      requires Wiring()
      modifies this`aux, this`latches, this`detector, this`pendingDiskWrites
      modifies diskData, timer.channels, interrupts.inputs, uart
      ensures Controller() == CounterOneRan(old(Controller()), control.ports.outA, timerClocks)
      ensures timer.channels[0] == old(timer.channels[0])
      ensures var rising := Pit.RisingEdges(old(timer.channels[1]).element, timerClocks);
              uart.State() == Uart.ReceiveEdges(Uart.TransmitEdges(old(uart.State()), rising), rising)
    {
      var rising := ClockCounterOne(timerClocks);
      ClockUart(rising);
      TimeOut(rising != 0);
      if latches.timing && aux.write && !latches.ordinary && rising != 0 {
        latches := latches.(ordinary := true);
        var cell := TransferFloppyWriteByte(detector.lastTick);
      }
    }

    method RunTimer(timerClocks: nat)
      requires Wiring() && M.Fit(State())
      modifies this`aux, this`latches, this`detector, this`pendingDiskWrites
      modifies diskData, timer.channels, interrupts.inputs, uart
      ensures State() == M.TimerRan(old(State()), timerClocks)
    {
      AdvanceTimer(timerClocks);
    }

    method AdvanceDevices(masterTicks: nat)
      requires Wiring() && M.Sound(State())
      modifies this`aux, this`latches, this`detector, this`pendingDiskWrites
      modifies diskData, control`ports, printerKeyboard, timer.channels, interrupts.inputs, keyboard, mouse, floppy`drives
      ensures State() == M.DevicesMoved(old(State()), masterTicks)
    {
      AllPassedSettles(Controller(), control.ports.outA, Visited(Selected(floppy.State()), masterTicks));
      AdvanceDisks(masterTicks);
      RepeatKeys(masterTicks);
      AdvanceMouse(masterTicks);
    }

    method FlushWrites()
      requires Wiring() && M.Fit(State())
      modifies this`pendingDiskWrites, floppy`drives
      ensures State() == M.WritesFlushed(old(State()))
    {
      FlushPendingDiskWrites();
    }

    /** CLK0 comes before the gate that lets the video interrupt through. */
    method CompleteFrames(frames: nat)
      requires Wiring() && M.Fit(State())
      modifies this`videoInterruptLatch, timer.channels
      ensures State() == M.FramesCompleted(old(State()), frames)
    {
      if frames != 0 {
        var rising, falling := timer.Clock(0, frames);
        if M.PortAOutputEnabled(control.a) && HasBit(control.ports.outA, 0x04) {
          videoInterruptLatch := true;
        }
      }
    }

    /** The writes go to the medium, and the time line moves on. */
    method CloseStep(cpuCycles: nat)
      requires Wiring() && M.Fit(State())
      modifies this`pendingDiskWrites, this`clock, this`videoInterruptLatch, timer.channels, floppy`drives
      ensures State() == M.StepClosed(old(State()), cpuCycles)
    {
      FlushWrites();
      CompleteFrames(FramesDone(clock, cpuCycles));
      clock := Later(clock, cpuCycles);
    }

    method PassTime(cpuCycles: nat)
      requires Wiring() && M.Sound(State())
      modifies this`aux, this`latches, this`detector, this`pendingDiskWrites, this`clock, this`videoInterruptLatch
      modifies diskData, control`ports, printerKeyboard, uart, timer.channels, interrupts.inputs, keyboard, mouse, floppy`drives
      ensures State() == M.TimePassed(old(State()), cpuCycles)
    {
      AdvanceDevices(cpuCycles * TICKS_PER_CYCLE);
      RunTimer(TimerClocks(clock, cpuCycles));
      CloseStep(cpuCycles);
    }

    method AdvanceTime(cpuCycles: nat)
      requires Valid()
      modifies this`aux, this`latches, this`detector, this`pendingDiskWrites, this`clock, this`videoInterruptLatch
      modifies diskData, control`ports, printerKeyboard, uart, timer.channels, interrupts.inputs, keyboard, mouse, floppy`drives
      ensures Valid() && State() == M.TimePassed(old(State()), cpuCycles)
    {
      M.TimeIsStep(State(), cpuCycles);
      PassTime(cpuCycles);
      Settle();
    }

    // ---------------------------------------------------------------- the processor runs

    /** Time is brought up to a port access of the instruction. */
    method SynchronizeCpuIo(offset: nat, synchronized: nat) returns (now: nat)
      requires Valid()
      modifies Parts()
      ensures Valid() && cpuCycleOverrun == old(cpuCycleOverrun) && now == Latest(offset, synchronized)
      ensures State() == M.AfterOps(old(State()), UpTo(offset, synchronized))
    {
      now := synchronized;
      if offset > synchronized {
        UpToIsPass(offset, synchronized);
        TakeTime(offset - synchronized);
        now := offset;
      } else {
        M.NoTimeIsTaken(State(), offset, synchronized);
      }
    }

    method TakeTime(cycles: nat)
      requires Valid()
      modifies Parts()
      ensures Valid() && cpuCycleOverrun == old(cpuCycleOverrun)
      ensures State() == M.AfterOps(old(State()), [Pass(cycles)])
    {
      M.TimeIsTaken(State(), cycles);
      AdvanceTime(cycles);
    }

    method PerformAccess(access: Access)
      requires Valid()
      modifies Parts()
      ensures Valid() && State() == M.Accessed(old(State()), access) && cpuCycleOverrun == old(cpuCycleOverrun)
    {
      if access.output {
        M.OutputIsWritten(State(), access);
        WriteIo(access.port, access.value);
      } else {
        M.InputIsRead(State(), access);
        var value := ReadIo(access.port);
      }
    }

    /** An access of the processor, at its own time. */
    method ServeAccess(access: Access, synchronized: nat) returns (now: nat)
      requires Valid()
      modifies Parts()
      ensures Valid() && cpuCycleOverrun == old(cpuCycleOverrun) && now == Latest(access.offset, synchronized)
      ensures State() == M.AfterOps(old(State()), AccessInTurn(access, synchronized))
    {
      ghost var start := State();
      now := SynchronizeCpuIo(access.offset, synchronized);
      ghost var mid := State();
      PerformAccess(access);
      M.OneOp(mid, Perform(access));
      M.OpsConcat(start, UpTo(access.offset, synchronized), [Perform(access)]);
    }

    /** The port accesses of an instruction in order, each at its own time. */
    method RunAccesses(i: Instruction) returns (synchronized: nat, ghost done: seq<Op>)
      requires Valid()
      modifies Parts()
      ensures Valid() && cpuCycleOverrun == old(cpuCycleOverrun)
      ensures Served(i, |i.accesses|, synchronized, done) && State() == M.AfterOps(old(State()), done)
    {
      ghost var start := State();
      synchronized, done := 0, [];
      M.NoOps(start, done);
      for k := 0 to |i.accesses|
        invariant Valid() && cpuCycleOverrun == old(cpuCycleOverrun)
        invariant Served(i, k, synchronized, done) && State() == M.AfterOps(start, done)
      {
        var a := i.accesses[k];
        ServeNext(i, k, synchronized, done);
        M.OpsConcat(start, done, AccessInTurn(a, synchronized));
        done := done + AccessInTurn(a, synchronized);
        synchronized := ServeAccess(a, synchronized);
      }
    }

    method RunInstruction(i: Instruction)
      requires Valid()
      modifies Parts()
      ensures Valid() && cpuCycleOverrun == old(cpuCycleOverrun)
      ensures State() == M.AfterOps(old(State()), OpsFrom(i, 0, 0))
    {
      ghost var start := State();
      ghost var done;
      var synchronized;
      synchronized, done := RunAccesses(i);
      M.OpsConcat(start, done, UpTo(i.executed, synchronized));
      var now := SynchronizeCpuIo(i.executed, synchronized);
    }

    /** Instruction after instruction, until the request is met; the cycles run too far are given
        back. */
    method RunInstructions(cycles: nat, instructions: seq<Instruction>) returns (used: nat, overrun: nat, ghost done: seq<Op>)
      requires Valid() && AllSane(instructions) && cycles <= |instructions|
      modifies Parts()
      ensures Valid() && State() == M.AfterOps(old(State()), done)
      ensures Instructions(cycles, instructions) == Outcome(done, overrun, used)
    {
      ghost var start := State();
      ProgressStart(cycles, instructions);
      used, overrun, done := 0, 0, [];
      M.NoOps(start, done);
      var remaining: nat := cycles;
      while remaining != 0
        invariant Valid() && State() == M.AfterOps(start, done)
        invariant Progress(cycles, instructions, done, used, remaining, overrun)
        decreases remaining
      {
        var i := instructions[used];
        ProgressStep(cycles, instructions, done, used, remaining, overrun, i);
        RunOneMore(start, done, i);
        done, used := done + OpsFrom(i, 0, 0), used + 1;
        overrun, remaining := if i.executed >= remaining then i.executed - remaining else 0,
                              if i.executed >= remaining then 0 else remaining - i.executed;
      }
      ProgressEnd(cycles, instructions, done, used, overrun);
    }

    method RunOneMore(ghost start: M.MachineState, ghost done: seq<Op>, i: Instruction)
      requires Valid() && M.Fit(start) && State() == M.AfterOps(start, done)
      modifies Parts()
      ensures Valid() && State() == M.AfterOps(start, done + OpsFrom(i, 0, 0))
    {
      M.OpsConcat(start, done, OpsFrom(i, 0, 0));
      RunInstruction(i);
    }

    method SetOverrun(overrun: nat)
      requires Valid()
      modifies this`cpuCycleOverrun
      ensures Valid() && cpuCycleOverrun == overrun && State() == old(State())
    {
      cpuCycleOverrun := overrun;
    }

    /** A request for cycles; `instructions` is what the processor does, one call after
        another. */
    method RunCycles(cycles: nat, instructions: seq<Instruction>) returns (used: nat, ghost done: seq<Op>)
      requires Valid() && AllSane(instructions) && cycles <= |instructions|
      modifies Parts()
      ensures Valid() && State() == M.AfterOps(old(State()), done)
      ensures Run(old(cpuCycleOverrun), cycles, instructions) == Outcome(done, cpuCycleOverrun, used)
    {
      var overrun: nat;
      used, overrun, done := RunRequest(cycles, instructions);
      SetOverrun(overrun);
    }

    /** Cycles run too far before count towards the request. */
    method RunRequest(cycles: nat, instructions: seq<Instruction>) returns (used: nat, overrun: nat, ghost done: seq<Op>)
      requires Valid() && AllSane(instructions) && cycles <= |instructions|
      modifies Parts()
      ensures Valid() && State() == M.AfterOps(old(State()), done)
      ensures Run(old(cpuCycleOverrun), cycles, instructions) == Outcome(done, overrun, used)
    {
      if cycles <= cpuCycleOverrun {
        used, overrun, done := 0, cpuCycleOverrun - cycles, [];
        M.NoOps(State(), done);
      } else {
        used, overrun, done := RunInstructions(cycles - cpuCycleOverrun, instructions);
      }
    }

    // ---------------------------------------------------------------- reset

    method Reset()
      requires Wiring() && M.Fit(State()) && Mouse.Coherent(mouse.State())
      modifies Parts()
      ensures Valid() && State() == M.Restarted(old(State())) && cpuCycleOverrun == 0
    {
      M.RestartIsSound(State());
      ResetPeripherals();
      ResetElectronics();
      ResetTime();
      Settle();
    }

    method ResetTime()
      requires Wiring()
      modifies this`clock, this`cpuCycleOverrun
      ensures cpuCycleOverrun == 0 && State() == old(State()).(clock := CLOCK_RESET)
    {
      clock, cpuCycleOverrun := CLOCK_RESET, 0;
    }

    method ResetPeripherals()
      requires Wiring() && M.Fit(State())
      modifies printerKeyboard, keyboard, mouse`interruptLatch, uart
      ensures State() == M.PeripheralsReset(old(State()))
    {
      ResetPanel();
      ResetSerial();
    }

    method ResetElectronics()
      requires Wiring() && M.Fit(State())
      modifies this`aux, this`latches, this`detector, this`pendingDiskWrites
      modifies this`verticalScroll, this`ramMapped, this`videoInterruptLatch
      modifies timer.channels, diskData, control, floppy, interrupts, interrupts.inputs
      ensures Wiring() && State() == M.ElectronicsReset(old(State()))
    {
      ResetBoard();
      ResetDisks();
    }

    method ResetBoard()
      requires Wiring()
      modifies this`verticalScroll, this`ramMapped, this`videoInterruptLatch, timer.channels, interrupts, interrupts.inputs
      ensures Wiring() && Board() == M.BOARD_RESET
      ensures timer.channels[1] == timer.channels[2] == Pit.SetGate(Pit.RESET_COUNTER, true)
    {
      timer.Reset();
      timer.SetGateInput(0, true);
      timer.SetGateInput(1, true);
      timer.SetGateInput(2, true);
      interrupts.Reset();
      verticalScroll, ramMapped, videoInterruptLatch := 0, false, false;
    }

    method ResetController()
      requires Wiring() && timer.channels[1] == timer.channels[2] == Pit.SetGate(Pit.RESET_COUNTER, true)
      modifies this`aux, this`latches, this`detector, this`pendingDiskWrites, diskData
      ensures Controller() == RESET_DISK
    {
      diskData.Reset();
      diskData.SetPortCInput(0x20);
      aux := AUX_CLEAR;
      latches := Latches(false, false, false, false, false);
      detector := Detector(false, false, 0);
      pendingDiskWrites := [];
    }

    method ResetDisks()
      requires Wiring() && floppy.Valid() && timer.channels[1] == timer.channels[2] == Pit.SetGate(Pit.RESET_COUNTER, true)
      modifies this`aux, this`latches, this`detector, this`pendingDiskWrites, diskData, control, floppy
      ensures var bay := M.BayReset(old(floppy.State()));
              Disks() == M.DiskSide(RESET_DISK, M.WithStatus(M.CONTROL_RESET, bay), bay)
    {
      ResetController();
      control.Reset();
      control.SetPortAInput(0x40);
      floppy.ResetController();
      RefreshFloppyInputs();
    }

    method ResetPanel()
      modifies printerKeyboard, keyboard, mouse`interruptLatch
      ensures Panel() == M.Panel(M.PanelReset(printerOnline), KEYS_RESET, old(mouse.State()).(latch := false))
    {
      printerKeyboard.Reset();
      printerKeyboard.SetPortCInput(if printerOnline then 0x20 else 0x00);
      keyboard.Reset();
      mouse.ClearLatch();
    }

    method ResetSerial()
      modifies uart
      ensures Serial() == M.SerialReset(old(Serial()))
    {
      uart.Reset();
      uart.SetCtsActive(!serialManaged || (serialConnected && serialClearToSend));
      uart.SetDsrActive(serialManaged && serialConnected);
    }

    // ---------------------------------------------------------------- the outside world

    method KeyboardKeyDown(id: nat, code: byte)
      requires Valid()
      modifies this`aux, this`latches, this`detector, printerKeyboard, timer.channels, interrupts.inputs, keyboard
      ensures Valid() && State() == M.KeyPressed(old(State()), id, code)
    {
      M.OutsideSettles(State(), M.KeyPressed(State(), id, code));
      var emitted := keyboard.KeyDown(id, code);
      if emitted.Some? {
        TypeCode(emitted.value);
      }
    }

    method KeyboardKeyUp(id: nat)
      requires Valid()
      modifies keyboard
      ensures Valid() && State() == M.KeyReleased(old(State()), id)
    {
      keyboard.KeyUp(id);
    }

    method MouseMotion(dx: int, dy: int)
      requires Valid()
      modifies this`aux, this`latches, this`detector, timer.channels, interrupts.inputs, mouse
      ensures Valid() && State() == M.MotionQueued(old(State()), dx, dy)
    {
      M.MouseSettles(State(), dx, dy, false, false, 0);
      mouse.Motion(dx, dy, M.PortAOutputEnabled(control.a) && HasBit(control.ports.outA, 0x08));
      Settle();
    }

    method SetMouseButton(first: bool, pressed: bool)
      requires Valid()
      modifies this`aux, this`latches, this`detector, timer.channels, interrupts.inputs, mouse
      ensures Valid() && State() == M.ButtonMoved(old(State()), first, pressed)
    {
      M.MouseSettles(State(), 0, 0, first, pressed, 0);
      mouse.SetButton(first, pressed, M.PortAOutputEnabled(control.a) && HasBit(control.ports.outA, 0x08));
      Settle();
    }

    method SetMouseSignals(signals: byte)
      requires Valid()
      modifies this`aux, this`latches, this`detector, timer.channels, interrupts.inputs, mouse
      ensures Valid() && State() == M.SignalsSet(old(State()), signals)
    {
      M.MouseSettles(State(), 0, 0, false, false, signals);
      mouse.SetSignals(signals, M.PortAOutputEnabled(control.a) && HasBit(control.ports.outA, 0x08));
      Settle();
    }

    method InsertFloppy(drive: nat, tracks: seq<Cells>, access: FloppyAccess) returns (ok: bool)
      requires Valid() && IsDisk(tracks)
      modifies floppy`drives, control`ports
      ensures Valid() && (ok <==> drive < 2)
      ensures State() == M.WithBay(old(State()), Inserted(old(floppy.State()), drive, tracks, access))
    {
      ok := floppy.Insert(drive, tracks, access);
      RefreshFloppyInputs();
    }

    method EjectFloppy(drive: nat) returns (image: Option<seq<Cells>>)
      requires Valid()
      modifies floppy`drives, control`ports
      ensures Valid() && image == if drive < 2 then old(floppy.drives)[drive].image else None
      ensures State() == M.WithBay(old(State()), Ejected(old(floppy.State()), drive))
    {
      image := floppy.Eject(drive);
      RefreshFloppyInputs();
    }

    method SetFloppyIndexPulseWidth(masterTicks: nat) returns (accepted: bool)
      requires Valid()
      modifies floppy`pulseWidth, control`ports
      ensures Valid() && (accepted <==> masterTicks < REVOLUTION_TICKS)
      ensures State() == M.WithBay(old(State()), if accepted then old(floppy.State()).(pulseWidth := masterTicks)
                                                 else old(floppy.State()))
    {
      accepted := floppy.SetIndexPulseWidth(masterTicks);
      RefreshFloppyInputs();
    }

    method SetPrinterOnline(online: bool)
      requires Valid()
      modifies this`printerOnline, printerKeyboard`ports
      ensures Valid() && State() == M.PrinterSwitched(old(State()), online)
    {
      printerOnline := online;
      printerKeyboard.SetPortCInput(if online then 0x20 else 0x00);
    }

    method SetSerialConnected(connected: bool)
      requires Valid()
      modifies this`aux, this`latches, this`detector, this`serialManaged, this`serialConnected, this`serialClearToSend
      modifies timer.channels, interrupts.inputs, uart
      ensures Valid() && State() == M.SerialConnected(old(State()), connected)
    {
      M.SerialSettles(State(), connected);
      ConnectLine(connected);
      Settle();
    }

    method ConnectLine(connected: bool)
      requires Wiring()
      modifies this`serialManaged, this`serialConnected, this`serialClearToSend, uart
      ensures State() == M.SerialConnected(old(State()), connected)
    {
      serialManaged, serialConnected, serialClearToSend := true, connected, true;
      uart.Connect(connected);
    }

    method SetSerialClearToSend(clear: bool)
      requires Valid()
      modifies this`aux, this`latches, this`detector, this`serialClearToSend, timer.channels, interrupts.inputs, uart`control
      ensures Valid() && State() == M.ClearToSend(old(State()), clear)
    {
      M.SerialSettles(State(), clear);
      serialClearToSend := clear;
      uart.SetCtsActive(serialConnected && clear);
      Settle();
    }

    /** Queuing a byte does not raise the receive interrupt: it has yet to come over the wire. */
    method QueueSerialReceivedByte(value: byte) returns (ok: bool)
      requires Valid()
      modifies uart`line
      ensures Valid() && (ok <==> M.AcceptsSerial(old(State())))
      ensures State() == if ok then M.SerialQueued(old(State()), value) else old(State())
    {
      if !serialConnected {
        return false;
      }
      ok := uart.QueueReceivedByte(value);
    }

    method TakeSerialTransmittedByte() returns (value: Option<byte>)
      requires Valid()
      modifies uart`tx
      ensures Valid()
      ensures var completed := old(uart.tx.completed);
              if completed == [] then value == None && State() == old(State())
              else value == Some(completed[0]) && State() == M.SerialTaken(old(State()))
    {
      value := uart.TakeTransmittedByte();
    }
  }

  lemma {:induction false} EightElements(a: array<bool>)
    requires a.Length == 8
    ensures a[..] == [a[0], a[1], a[2], a[3], a[4], a[5], a[6], a[7]]
  {
  }

  lemma {:induction false} SinglePulse(e: Pit.Element)
    ensures Pit.Clocked(e, 1) == Pit.ClockOnce(e)
  {
    assert Pit.Clocked(e, 0) == e;
  }

  lemma {:induction false} HeldCodeStays(k: KeyState, ticks: nat)
    requires Ahead(k)
    ensures Ticked(k, ticks).code == k.code
    decreases ticks
  {
    if ticks > 0 {
      HeldCodeStays(k, ticks - 1);
    }
  }
}
