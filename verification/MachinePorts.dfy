/** The machine from its ports on: what each of them does by the number of the port and the bits of the
    byte, and which vector each source of an interrupt is given. */
module MachinePorts {
  import opened Bytes
  import opened FloppyTracks
  import opened FloppyDrives
  import opened FloppySubsystems
  import opened DiskController
  import opened MachineTime
  import opened MachineModel
  import opened Interrupts3214
  import Keyboards
  import Mouse
  import PortWords
  import Pit = Pit8253
  import Ppi = Ppi8255
  import Uart = Uart8251

  // ---------------------------------------------------------------- the cable

  /** With the lower half of port C as output: bit 3 loads the head, bit 0 is the step signal, bit 1 the
      direction, bit 2 tells of the inner tracks.  The head moves by one track when the step signal goes
      away, outwards if bit 1 is set, and not beyond the stops. */
  predicate CableDriven(b: Bay, v: byte, c: Bay)
    requires BayOk(b) && BayOk(c)
  {
    var d, e := Selected(b), Selected(c);
    && (c.cable.step <==> v % 2 == 1) && (c.cable.outward <==> v / 2 % 2 == 1)
    && (c.cable.above43 <==> v / 4 % 2 == 1) && (c.cable.loaded <==> v / 8 % 2 == 1)
    && c.selected == b.selected && c.pulseWidth == b.pulseWidth && c.drives[1 - b.selected] == b.drives[1 - b.selected]
    && e == d.(head := e.head)
    && e.head == if b.cable.step && v % 2 == 0
                 then if v / 2 % 2 == 1 then if d.head < 76 then d.head + 1 else 76
                      else if d.head > 0 then d.head - 1 else 0
                 else d.head
  }

  lemma {:induction false} CableIsDriven(b: Bay, v: byte)
    requires BayOk(b)
    ensures CableDriven(b, v, Controlled(b, v, true))
  {
  }

  /** A write reaches the medium exactly with bit 3 set and a writable medium in the drive. */
  lemma {:induction false} HeadLoads(b: Bay, v: byte)
    requires BayOk(b)
    ensures Writable(Controlled(b, v, true)) <==>
              v / 8 % 2 == 1 && Selected(b).image.Some? && Selected(b).access == ReadWrite
    ensures !Writable(Controlled(b, v, false))
  {
    CableIsDriven(b, v);
  }

  // ---------------------------------------------------------------- the drive's status

  /** The status of the selected drive: bit 4 is track zero, bit 5 write protection, which an empty drive
      shows too, bit 6 is always set, bit 7 is the index pulse. */
  lemma {:induction false} StatusShows(b: Bay)
    requires BayOk(b)
    ensures var v, d := StatusInputs(b), Selected(b);
            && v % 16 == 0 && (v / 16 % 2 == 1 <==> d.head == 0)
            && (v / 32 % 2 == 1 <==> d.image.None? || d.access == ReadOnly) && v / 64 % 2 == 1
            && (v / 128 == 1 <==> d.image.Some? && d.phase < b.pulseWidth)
  {
  }

  /** A read of port 62h, with the upper half of port C as input and both groups in mode 0, shows them. */
  lemma {:induction false} StatusIsRead(m: MachineState, port: nat)
    requires Fit(m) && port / 16 % 8 == 6 && port % 256 % 4 == 2
    requires m.disks.control.a.mode == Ppi.Mode0 && m.disks.control.b.mode == Ppi.Mode0 && m.disks.control.a.upperInput
    ensures IoValue(m, port) / 16 == StatusInputs(m.disks.bay) / 16
  {
  }

  // ---------------------------------------------------------------- the controller

  /** The clocks of a written cell, by bits 0 and 1 of port A of the control 8255: ordinary ones, those of
      an index mark, or those of an address mark. */
  lemma {:induction false} ClocksChosen(d: Disk, controlA: byte, tick: nat)
    ensures Outgoing(d, controlA, tick)
         == TimedFmByte(tick, d.data.ports.outA, [0xFF, 0xD7, 0xEF, 0xC7][controlA % 4])
  {
  }

  /** Counter 1 runs without a cell: the timeout is latched by a rise of OUT1 while RE and RDM are set, and
      an ordinary write started by one while WRE is. */
  lemma {:induction false} CounterOneActs(d: Disk, controlA: byte, clocks: nat)
    ensures var e, rises := CounterOneRan(d, controlA, clocks), Pit.RisingEdges(d.one.element, clocks) > 0;
            && (e.latches.timeout <==> d.latches.timeout || (rises && d.latches.timing && d.aux.read && d.aux.dataMark))
            && |e.pending| == |d.pending| + (if rises && d.latches.timing && d.aux.write && !d.latches.ordinary then 1 else 0)
  {
    RefreshLeaves(d.(latches := d.latches.(ordinary := true)), controlA);
    var rises := Pit.RisingEdges(d.one.element, clocks) != 0;
    var f := TimedOut(ClockedOne(d, clocks), rises);
    RefreshLeaves(f.(latches := f.latches.(ordinary := true)), controlA);
  }

  lemma {:induction false} RefreshLeaves(d: Disk, controlA: byte)
    ensures var e := Transferred(d, controlA, d.detector.lastTick);
            e.latches.timeout == d.latches.timeout && |e.pending| == |d.pending| + 1
  {
  }

  /** A control word for counter 1 that is not a latch command acknowledges the timeout, and nothing else
      that is written to the timer does. */
  lemma {:induction false} TimeoutAcknowledged(d: Disk, zero: Pit.Counter, register: byte, v: byte)
    ensures WriteTimer(d, zero, register, v).latches
         == d.latches.(timeout := d.latches.timeout && !(register % 4 == 3 && v / 64 == 1 && v / 16 % 4 > 0))
  {
  }

  /** The next rise of the data interrupt would not end the transfer, and the data port is set up to receive. */
  predicate GoesOn(d: Disk) {
    && d.latches.timing && !d.EndOfData() && (d.detector.level || !Pit.ClockOnce(d.two.element).output)
    && d.data.b.mode == Ppi.Mode1 && d.data.b.input && d.data.b.shake.strobeHigh
  }

  lemma {:induction false} RefreshGoesOn(d: Disk)
    requires !d.EndOfData() && (d.detector.level || !Pit.ClockOnce(d.two.element).output)
    ensures var e := Refreshed(d);
            && e == d.(two := e.two, detector := e.detector) && !e.EndOfData() && e.detector.lastTick == d.detector.lastTick
            && (e.detector.level || e.two == d.two)
  {
  }

  lemma {:induction false} AckLeavesB(s: Ppi.PpiState)
    ensures var t := Ppi.PulseAckA(s);
            t.ports == s.ports && t.b.mode == s.b.mode && t.b.input == s.b.input && t.b.shake == s.b.shake
  {
  }

  lemma {:induction false} TransferGoesOn(d: Disk, controlA: byte, tick: nat)
    requires GoesOn(d)
    ensures var e := Transferred(d, controlA, tick);
            && e.aux == d.aux && e.latches == d.latches && |e.pending| == |d.pending| + 1
            && (e.detector.level || e.two == d.two) && !e.EndOfData()
            && e.data.b.mode == Ppi.Mode1 && e.data.b.input && e.data.b.shake.strobeHigh && e.data.ports == d.data.ports
  {
    AckLeavesB(d.data);
    RefreshGoesOn(d.(pending := d.pending + [Outgoing(d, controlA, tick)], data := Ppi.PulseAckA(d.data)));
  }

  lemma {:induction false} StrobeLatches(s: Ppi.PpiState, value: byte)
    requires s.b.mode == Ppi.Mode1 && s.b.input && s.b.shake.strobeHigh
    ensures Ppi.PulseStrobeB(s, value).b.shake.latch == value
  {
  }

  lemma {:induction false} DeserializedLatches(d: Disk, cell: TimedFmByte)
    requires GoesOn(d)
    ensures var e := Deserialized(d, cell);
            e.data.b.shake.latch == cell.data && e.latches == d.latches && e.pending == d.pending
  {
    StrobeLatches(d.data, cell.data);
    RefreshGoesOn(d.(data := Ppi.PulseStrobeB(d.data, cell.data)));
  }

  lemma {:induction false} SynchronizedGoesOn(d: Disk)
    requires GoesOn(d)
    ensures GoesOn(Synchronized(d)) && Synchronized(d).latches.sync && Synchronized(d).pending == d.pending
  {
  }

  lemma {:induction false} SeenGoesOn(d: Disk, cell: TimedFmByte)
    requires GoesOn(d) && d.aux.read
    ensures var e := Seen(d, cell);
            && (d.latches.sync || Selects(d.aux, cell) ==> e.data.b.shake.latch == cell.data && e.latches.sync)
            && (!d.latches.sync && !Selects(d.aux, cell) ==> e == d) && e.pending == d.pending
  {
    if d.latches.sync {
      DeserializedLatches(d, cell);
    } else if Selects(d.aux, cell) {
      SynchronizedGoesOn(d);
      DeserializedLatches(Synchronized(d), cell);
    }
  }

  /** While it writes, the controller reads what it writes, and not what was on the disk: a synchronized one
      finds the byte from port A there, and one that is not takes that byte for the cell in which it looks
      for its mark. */
  lemma {:induction false} ReadsWhatItWrites(d: Disk, controlA: byte, cell: TimedFmByte)
    requires GoesOn(d) && !Pit.ClockOnce(d.two.element).output && Writing(d) && d.aux.read && !d.aux.format
    ensures var e, v := Passed(d, controlA, cell), d.data.ports.outA;
            && (d.latches.sync ==> e.data.b.shake.latch == v)
            && (!d.latches.sync ==> (e.latches.sync <==>
                  controlA % 4 == 3 && if d.aux.dataMark then v == 0xFB || v == 0xF8 else v == 0xFE))
            && |e.pending| == |d.pending| + 1
  {
    var at := At(d, cell);
    assert GoesOn(at) && Passed(d, controlA, cell) == Exchanged(at, controlA, cell);
    TransferGoesOn(at, controlA, cell.tick);
    SeenGoesOn(Transferred(at, controlA, cell.tick), Outgoing(at, controlA, cell.tick));
  }

  lemma {:induction false} RefreshNotes(d: Disk)
    ensures Refreshed(d).detector.lastTick == d.detector.lastTick
  {
  }

  lemma {:induction false} TransferNotes(d: Disk, controlA: byte, tick: nat)
    ensures Transferred(d, controlA, tick).detector.lastTick == d.detector.lastTick
  {
    RefreshNotes(d.(pending := d.pending + [Outgoing(d, controlA, tick)], data := Ppi.PulseAckA(d.data)));
  }

  lemma {:induction false} SeenNotes(d: Disk, cell: TimedFmByte)
    ensures Seen(d, cell).detector.lastTick == d.detector.lastTick
  {
    RefreshNotes(d.(data := Ppi.PulseStrobeB(d.data, cell.data)));
    var e := Synchronized(d);
    RefreshNotes(e.(data := Ppi.PulseStrobeB(e.data, cell.data)));
  }

  lemma {:induction false} ExchangeNotes(d: Disk, controlA: byte, cell: TimedFmByte)
    ensures Exchanged(d, controlA, cell).detector.lastTick == d.detector.lastTick
  {
    TransferNotes(d, controlA, cell.tick);
    SeenNotes(if Writing(d) then Transferred(d, controlA, cell.tick) else d,
              if Writing(d) then Outgoing(d, controlA, cell.tick) else cell);
  }

  lemma {:induction false} FormatEndNotes(d: Disk)
    ensures FormatEnded(d).detector.lastTick == d.detector.lastTick
  {
    RefreshNotes(Gate1(d.(aux := AUX_CLEAR, latches := d.latches.(sync := false, ordinary := false, format := false)), false));
  }

  /** The place of the head is known, whatever the controller does. */
  lemma {:induction false} HeadIsNoted(d: Disk, controlA: byte, cell: TimedFmByte)
    ensures Passed(d, controlA, cell).detector.lastTick == cell.tick
  {
    var e := At(d, cell);
    FormatEndNotes(e);
    ExchangeNotes(Armed(e, cell), controlA, cell);
  }

  // ---------------------------------------------------------------- the control port

  /** OUT 60h with port A as output: bit 6 clear switches the disk timing on; without it the register and
      all latches are clear. */
  lemma {:induction false} TimingPort(m: MachineState, port: nat, v: byte)
    requires Sound(m) && port / 16 % 8 == 6 && port % 256 % 4 == 0 && !m.disks.control.a.input
    ensures var d := IoWritten(m, port, v).disks.disk;
            && (d.latches.timing <==> v / 64 % 2 == 0)
            && (v / 64 % 2 == 1 ==>
                  && d.aux == Aux(false, false, false, false)
                  && d.latches == Latches(false, false, false, false, false))
  {
    WriteIsStep(m, port, v);
    SwitchSettles(m.disks.disk, v / 64 % 2 == 0);
  }

  /** OUT 61h with port B as output scrolls the picture. */
  lemma {:induction false} ScrollPort(m: MachineState, port: nat, v: byte)
    requires Fit(m) && port / 16 % 8 == 6 && port % 256 % 4 == 1
    ensures IoWritten(m, port, v).board.scroll == if m.disks.control.b.input then m.board.scroll else v
  {
  }

  /** OUT 22h with the upper half of port C as output: bit 5 selects drive B. */
  lemma {:induction false} SelectionPort(m: MachineState, port: nat, v: byte)
    requires Fit(m) && port / 16 % 8 == 2 && port % 256 % 4 == 2
    ensures IoWritten(m, port, v).disks.bay
         == m.disks.bay.(selected := if m.disks.disk.data.a.upperInput || v / 32 % 2 == 1 then 1 else 0)
  {
  }

  // ---------------------------------------------------------------- the other ports

  /** OUT 30h sets the mask of the 3214, OUT 70h takes the video interrupt back, IN 30h maps the memory to
      RAM and IN 50h to ROM and video, IN 70h gives the mouse signals and takes its interrupt back. */
  lemma {:induction false} SmallPorts(m: MachineState, port: nat, v: byte)
    requires Fit(m)
    ensures var (w, r) := (IoWritten(m, port, v).board, IoRead(m, port));
            && (port / 16 % 8 == 3 ==> w == m.board.(mask := if v < 8 then v else 8) && r.board == m.board.(ramMapped := true))
            && (port / 16 % 8 == 7 ==>
                  && w == m.board.(video := false) && !r.panel.mouse.latch
                  && IoValue(m, port) == m.panel.mouse.signals)
            && (port / 16 % 8 == 5 ==> r.board == m.board.(ramMapped := false))
  {
  }

  /** Ports 10h to 13h are the timer, 40h to 43h the serial interface. */
  lemma {:induction false} ChipPorts(m: MachineState, port: nat, v: byte)
    requires Fit(m)
    ensures port / 16 % 8 == 1 ==>
              IoValue(m, port) == Pit.ReadAt([m.board.zero, m.disks.disk.one, m.disks.disk.two], port % 256).0
    ensures port / 16 % 8 == 4 ==>
              && IoValue(m, port) == Uart.ReadValue(m.serial.uart, port % 256)
              && IoRead(m, port).serial.uart == Uart.AfterPortRead(m.serial.uart, port % 256)
              && IoWritten(m, port, v).serial.uart == Uart.Write(m.serial.uart, port % 256, v)
  {
  }

  /** A reset from outside: nothing asks for an interrupt, and none could get through; the disk timing and the
      auxiliary register are off, the ROM is mapped, drive B is selected with its head unloaded; the
      disks, the places of the heads, the mouse and the connection are as they were. */
  lemma {:induction false} ResetLeaves(m: MachineState)
    requires Fit(m)
    ensures var n := Restarted(m);
            && Sources(n) == [false, false, false, false, false, false, false, false] && n.board.mask == 0 && !n.board.ramMapped
            && n.board.scroll == 0 && n.disks.disk.aux == Aux(false, false, false, false)
            && n.disks.disk.latches == Latches(false, false, false, false, false) && n.disks.disk.pending == []
            && n.disks.bay == Bay(m.disks.bay.drives, 1, m.disks.bay.pulseWidth, n.disks.bay.cable) && !n.disks.bay.cable.loaded
            && n.panel.mouse == m.panel.mouse.(latch := false) && n.printer == m.printer
            && n.serial == m.serial.(uart := n.serial.uart) && n.serial.uart.line.queue == []
            && n.serial.uart.tx.completed == [] && !n.panel.keyboard.held && n.clock == Clock(0, 0, 0, 0, 0)
  {
  }

  /** A frame is a pulse of counter 0, and lets the video interrupt through while bit 2 of port A of the control 8255 is set. */
  lemma {:induction false} VideoInterrupts(m: MachineState, frames: nat)
    requires Fit(m) && !m.disks.control.a.input
    ensures var n := FramesCompleted(m, frames);
            && (n.board.video <==> m.board.video || (frames > 0 && m.disks.control.ports.outA / 4 % 2 == 1))
            && n.board.zero.element == Pit.Clocked(m.board.zero.element, frames)
  {
  }

  /** Mouse signals that change latch its interrupt while bit 3 is set. */
  lemma {:induction false} MouseInterrupts(m: MachineState, signals: byte)
    requires !m.disks.control.a.input
    ensures SignalsSet(m, signals).panel.mouse.latch <==>
              m.panel.mouse.latch || (signals % 64 != m.panel.mouse.signals % 64 && m.disks.control.ports.outA / 8 % 2 == 1)
  {
  }

  // ---------------------------------------------------------------- keyboard, printer, buttons

  /** The keyboard port is set up to receive, and has been read. */
  predicate KeyboardListens(s: Ppi.PpiState) {
    s.b.mode == Ppi.Mode1 && s.b.input && s.b.inte && s.b.shake.strobeHigh && !s.b.shake.ibf
  }

  /** A key that goes down, and is not held already, is read at port 01h as its complement, with the
      interrupt of the keyboard. */
  lemma {:induction false} KeyIsRead(m: MachineState, id: nat, code: byte)
    requires Fit(m) && KeyboardListens(m.panel.port) && !(m.panel.keyboard.held && m.panel.keyboard.id == id)
    ensures var n := KeyPressed(m, id, code);
            && Fit(n) && IoValue(n, 0x01) == 255 - code && n.panel.port.b.intr && Sources(n)[1]
            && n.panel.keyboard == Keyboards.KeyState(true, id, code, 6_000_000)
  {
  }

  /** So is a key that repeats, however often it has since the port was read. */
  lemma {:induction false} RepeatIsRead(s: Ppi.PpiState, code: byte, times: nat)
    requires KeyboardListens(s) && times > 0
    ensures var t := Typed(s, code, times);
            && Ppi.ReadValue(t, 0x01) == 255 - code && t.b.intr && t.b.shake.ibf && t.b.shake.strobeHigh
            && t.b.mode == Ppi.Mode1 && t.b.input && t.b.inte
    decreases times
  {
    if times > 1 {
      RepeatIsRead(s, code, times - 1);
      TypedOnce(Typed(s, code, times - 1), code);
    } else {
      assert Typed(s, code, times - 1) == s;
      TypedOnce(s, code);
    }
  }

  lemma {:induction false} TypedOnce(s: Ppi.PpiState, code: byte)
    requires s.b.mode == Ppi.Mode1 && s.b.input && s.b.inte && s.b.shake.strobeHigh
    ensures var t := Ppi.PulseStrobeB(s, 255 - code);
            && Ppi.ReadValue(t, 0x01) == 255 - code && t.b.intr && t.b.shake.ibf && t.b.shake.strobeHigh
            && t.b.mode == Ppi.Mode1 && t.b.input && t.b.inte
  {
  }

  /** A byte sent to a printer that is online, in mode 1, is printed, and the printer asks for the next. */
  lemma {:induction false} ByteIsPrinted(m: MachineState, v: byte)
    requires Fit(m) && m.printer.online && m.panel.port.a.mode == Ppi.Mode1 && !m.panel.port.a.input
    requires m.panel.port.a.shake.ackHigh
    ensures var n := IoWritten(m, 0x00, v);
            && n.printer.bytes == m.printer.bytes + [v]
            && n.panel.port.a.shake.obfHigh && (n.panel.port.a.intr <==> m.panel.port.a.inteOutput)
  {
  }

  lemma {:induction false} ButtonIsBit(signals: byte, k: nat, mask: byte, pressed: bool)
    requires (k == 4 && mask == 0x10) || (k == 5 && mask == 0x20)
    ensures Mouse.WithButton(signals, mask, pressed) == PortWords.SetBit(signals, k, !pressed)
  {
    PortWords.Powers();
    PortWords.MaskIsBit(signals, k);
    PortWords.SetIsSum(signals, k, !pressed);
    if !pressed && !HasBit(signals, mask) {
      Ppi.TopBitFits(signals, mask);
    }
  }

  /** The button lines: pressed is low, on bits 4 and 5, and no other signal changes. */
  lemma {:induction false} ButtonLine(m: Mouse.MouseState, first: bool, pressed: bool, enabled: bool, j: nat)
    ensures PortWords.Bit(Mouse.Pressed(m, first, pressed, enabled).signals, j) <==>
              if j == (if first then 4 else 5) then !pressed else PortWords.Bit(m.signals, j)
  {
    var k, mask: byte := if first then 4 else 5, if first then 0x10 else 0x20;
    ButtonIsBit(m.signals, k, mask, pressed);
    PortWords.BitsOfSet(m.signals, k, !pressed, j);
  }

  // ---------------------------------------------------------------- the vectors

  /** With all inputs enabled the highest one that is active decides. */
  lemma {:induction false} VectorOf(r: Requests)
    requires WellFormed(r) && r.mask == 8
    ensures var i := r.inputs;
            Vector(r) == if i[7] then 0x00 else if i[6] then 0x02 else if i[5] then 0x04 else if i[4] then 0x06
                         else if i[3] then 0x08 else if i[2] then 0x0A else if i[1] then 0x0C else if i[0] then 0x0E else 0xFF
  {
    var active := Active(r);
    if active != INPUT_COUNT {
      VectorIsHighest(r, active);
    }
  }

  /** With all inputs enabled, an interrupt is given the vector of its source, unless one further up this
      list asks too. */
  lemma {:induction false} VectorTable(m: MachineState, r: Requests)
    requires r.inputs == Sources(m) && r.mask == 8
    ensures var d := m.disks.disk;
            Vector(r) == if d.data.a.intr || d.data.b.intr then 0x00
                         else if d.latches.timeout then 0x02
                         else if d.two.element.output then 0x04
                         else if m.board.video then 0x06
                         else if m.panel.mouse.latch then 0x08
                         else if Uart.InterruptRequested(m.serial.uart) then 0x0A
                         else if m.panel.port.b.intr then 0x0C
                         else if m.panel.port.a.intr then 0x0E
                         else 0xFF
  {
    VectorOf(r);
  }
}
