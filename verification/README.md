# FK-1 verification project

This project models the core of the FK-1 emulator and proves what its parts promise each other.
The FK-1 runs on one deterministic 12 MHz time line; its state is shared by five pieces.

* **FM disk.** A sector image is printed as 77 circular tracks of 5,208 timed cells and parsed
  back by a skip-ahead scanner; between the two sits a cell writer that keeps a circular spacing
  rule by looking at two neighbours (`Crc16`, `FloppyTrack`, `SectorImage`, `SectorSkew`,
  `DiskRefinement`, `DiskWrites`, `SpliceTolerance`). The track format is IBM 3740, the CRC is
  CRC-16 with polynomial 1021h and initial value FFFFh.
* **Disk controller.** The auxiliary register, the sync, ordinary-write and format latches, the
  8255 handshakes, counters 1 and 2, the OUT2 reset and the 3214 (`FloppyDrive`,
  `FloppySubsystem`, `DiskController`, `Interrupts3214`). The processor is the environment: any
  sequence of port accesses and time steps. Reading and writing a field and formatting are proved on
  steps of the controller, with everything else a processor may do beside them (`DiskSteps`,
  `FieldRead`, `FieldWrite`), on a turning track that is written to (`Scene`, `FormatTrack`), and
  from there on runs of the whole machine (`DiskRun`, `FieldRun`, `FormatRun`, `SectorField`,
  `SectorRewrite`), up to a sector that is written through the controller and read back through it. `DiskProgram` starts
  these runs from the bytes written to the ports.
* **8251 UART.** Framer, sampler, serializer and SYN hunt (`Uart8251`, `UartWire`, `UartLink`,
  `UartPair`, `UartStream`, `UartFactorOne`, `UartSync`); what the bits of its words mean, and the
  receive register against its history (`UartWords`, `UartRegister`).
* **8253 timer and 8255 ports.** Counting by single pulses against closed forms, handshake flags
  against the history of the pins (`Pit8253`, `PitCounting`, `Ppi8255`, `PpiHistory`), and both from the
  bits of their control words on (`PitProgram`, `PortWords`).
* **Flow control and time.** The serial pump of the front end, the time line, keyboard repeat and
  the mouse encoder (`SerialPump`, `SerialRun`, `BackPressure`, `PumpProgress`, `FrontEnd`,
  `MachineTime`, `TimeLine`, `Keyboard`, `Mouse`).

`MachineModel` puts the parts together as one value, with the effect of every port access and every
span of time on all of it; `Machine` does the program's steps on the chips as objects and is proved
to follow that value, from a single port access up to a whole request for cycles. Theorems about
runs are stated on the value. `MachinePorts` says what each port does by its number and the bits of
the byte.

Every unit that the program updates in place is a class whose methods do the program's steps and
are proved equal to functions on a value; the theorems are about those functions. Where the program
jumps ahead (rotation, keyboard repeat, the scanner, timer pulses), the reference is the slow form:
tick by tick, cell by cell, pulse by pulse. Bytes are integers below 256, time is unbounded.

Two facts came out differently from what one might expect, and are stated exactly. A sector of a
formatted disk may be rewritten from fourteen cells before to six cells after the place of its old
sync field, and from nowhere else around the track (`SpliceTolerance.ToleranceIsExact`). Asynchronous
reception works if and only if the baud rate factor is not one: at factor one the receiver looks
again at the start bit one clock later and sees data bit 0, and no byte at all arrives
(`UartFactorOne.FactorDecides`).

All lemmas carry `{:induction false}`: each spells out its own induction. To verify the project:
`dafny verify dfyconfig.toml`.

## Model

| member | source | states |
|---|---|---|
| Crc16.UpdateCrc | src/core/disk_image_8sd.cpp:15-23 | the byte-wise update with a register of sixteen bits equals eight steps of the bit-serial shift register with polynomial 1021h |
| Crc16.Crc | src/core/disk_image_8sd.cpp:27-35 | the CRC of a message is the register after all its bits, most significant first, started at FFFFh |
| Crc16.BurstDetected | src/core/disk_image_8sd.cpp:15-35 | two messages of equal length that differ only inside a burst of at most sixteen bits have different CRCs |
| Crc16.AdjacentBytesDetected | src/core/disk_image_8sd.cpp:27-35 | in particular a change inside two neighbouring bytes is always detected, for messages of any length |
| Crc16.ResidueIsZero | src/core/disk_image_8sd.cpp:27-35 | a message followed by two bytes has CRC zero exactly when the two bytes are its CRC, high byte first |
| Crc16.Constants | src/core/disk_image_8sd.cpp:15-35 | the register starts with FFFFh, and one set bit leaves 1021h in an empty one |
| FloppyTracks.WellSpaced | src/core/floppy.cpp:11-36 | the acceptance test of a whole track succeeds exactly when it is sorted, within one revolution and pairwise spaced around the circle |
| FloppyTracks.FloppyTrack.SetBytes | src/core/floppy.cpp:9-40 | a track is replaced exactly when the new one passes that test, and left alone otherwise |
| FloppyTracks.FloppyTrack.WriteByte | src/core/floppy.cpp:42-77 | a cell is accepted exactly when its tick is taken or no cell at all is too close; the result is the track with that one cell recorded |
| FloppyTracks.NeighboursSuffice | src/core/floppy.cpp:64-73 | the gaps to the two neighbours bound the circular distance to every cell |
| FloppyTracks.NeighboursDecide | src/core/floppy.cpp:64-73 | for a free tick the two gap comparisons decide acceptance, in both directions |
| FloppyTracks.OthersSurvive | src/core/floppy.cpp:55-76 | an accepted write keeps exactly the cells of other ticks |
| FloppyTracks.RecordedInPlace | src/core/floppy.cpp:55-58 | a write to a taken tick replaces that one cell and nothing else |
| FloppyTracks.CapacityBound | src/core/floppy.cpp:9-77 | no sequence of writes can put more than 5,208 cells on a track |
| FloppyTracks.RegularIsSaturated | src/core/floppy.cpp:42-77 | an imported track is saturated: the accepted ticks are exactly those it has |
| FloppyTracks.FloppyDiskImage.SetTrack | src/core/floppy.cpp:89-94 | a whole track is stored exactly when the index and the spacing are right; other tracks stay |
| SectorSkew.AcceptedSkews | src/core/disk_image_8sd.cpp:45-58 | the sector map is completed exactly for skews below 25 that five does not divide, and for 26 |
| SectorSkew.PlacesBySkew | src/core/disk_image_8sd.cpp:45-58 | sector one stands first, and sector n + 1 at place 1 + (n * skew - 1) mod 25, for every skew accepted |
| SectorImages.SectorMap | src/core/disk_image_8sd.cpp:45-58 | when the map is completed it is a permutation of 1..26 with sector n+1 at the n-th position of the walk, and otherwise nothing is returned |
| SectorImages.SkewedIsOrder | src/core/disk_image_8sd.cpp:45-58 | a completed map is a permutation of the sector numbers |
| SectorImages.BuildTrack | src/core/disk_image_8sd.cpp:62-128 | the appending loops produce a track of 5,208 cells at ticks 384 * i; behind the data mark of the one ID mark that names sector s stand the bytes 3328 * track + 128 * (s - 1) onwards of the image; the gaps, sync fields, marks and clocks are where the format has them, and both checksums come out as zero |
| SectorImages.FormattedInPlace | src/core/disk_image_8sd.cpp:62-128 | the layout table by literal places: every sector 1 to 26 stands on the track once marked, the i-th cell behind its data mark is byte 3328 * track + 128 * (s - 1) + i of the image, and no ID mark stands anywhere else |
| SectorImages.FormattedIsRegular | src/core/disk_image_8sd.cpp:65-73 | an imported track has one cell every 384 ticks from the index on |
| SectorImages.Import | src/core/disk_image_8sd.cpp:37-134 | a disk is returned exactly for images of the right size and acceptable skews; every track of it has the bytes of the image in those places |
| SectorImages.ScanTrack | src/core/disk_image_8sd.cpp:148-185 | the skip-ahead scan of a track yields the same sectors as the recursive reference scanner |
| SectorImages.StoreSector | src/core/disk_image_8sd.cpp:175-183 | a sector that was read is stored at byte 3328 * track + 128 * (sector - 1), and flagged; no other byte and no other flag changes |
| SectorImages.ExportImage | src/core/disk_image_8sd.cpp:136-194 | an image is returned exactly when every sector of every track was found; its byte n is byte n % 128 of sector n / 128 % 26 + 1 as scanned off track n / 3328 |
| SectorImages.ImageByte | src/core/disk_image_8sd.cpp:175-183 | so it is for every byte of the image of a complete disk |
| DiskRefinement.ReadableSectors | src/core/disk_image_8sd.cpp:148-185 | a track whose slots are readable exports one sector per slot, with the data cells of that slot, even when data look like marks |
| DiskRefinement.FormattedRepresents | src/core/disk_image_8sd.cpp:87-127 | an imported disk represents its sector image |
| DiskRefinement.ExportOf | src/core/disk_image_8sd.cpp:136-194 | whatever represents a sector array exports exactly that array |
| DiskRefinement.RoundTrip | src/core/disk_image_8sd.cpp:37-194 | export of import is the identity for every image and every acceptable skew, and nothing for all others |
| DiskWrites.RecordBurst | src/core/floppy.cpp:42-58 | rewriting a sector as 137 timed writes replaces exactly those cells |
| DiskWrites.WriteRefines | src/core/disk_image_8sd.cpp:148-185 | a write to a data cell changes byte 3328 * track + 128 * (sector - 1) + j of the image and no other; one to a gap, sync or CRC cell without mark clocks changes none; a rewritten sector replaces its 128 bytes; the disk stays in step |
| DiskWrites.HistoryRefines | src/core/disk_image_8sd.cpp:136-194 | after any history of such writes export succeeds and is the sector array with the same history applied |
| SpliceTolerance.TooEarly | src/core/disk_image_8sd.cpp:152-167 | a burst that covers the mark of an ID field or its sector number, from wherever around the track it starts, loses that sector |
| SpliceTolerance.OldSectorIsRead | src/core/disk_image_8sd.cpp:148-185 | a burst that misses the ID field, the data mark and what lies between, across the index too, leaves the old sector to be read, its first byte changed only by a burst that starts right behind the mark |
| SpliceTolerance.ToleranceIsExact | src/core/disk_image_8sd.cpp:148-185 | for each of the 5,208 cells around the track: a burst recorded from there on, across the index if need be, replaces a sector of a formatted disk exactly when it starts 4 to 24 cells after the ID mark, that is from fourteen cells before to six after the old sync field |
| SpliceTolerance.AroundIsRecord | src/core/floppy.cpp:42-58 | a burst that ends before the index is recorded as 137 consecutive cells |
| FloppyDrives.PassingConcat | src/core/floppy.cpp:120-158 | turning in two steps shows the same cells as turning at once |
| FloppyDrives.PassingRevolution | src/core/floppy.cpp:120-158 | in one revolution every cell passes exactly once, from any phase |
| FloppyDrives.PassingAt | src/core/floppy.cpp:120-158 | however long the track turns and from any phase, the j-th cell that passes is the one j places further around the track |
| FloppyDrives.AtItsTick | src/core/floppy.cpp:120-158 | with a revolution of 2,000,000 ticks, a cell passes in a span of time exactly if its tick comes up in it |
| FloppyDrives.Turns | src/core/floppy.cpp:120-171 | phase and revolutions of a disk by the number of ticks, and what an empty drive does: nothing |
| FloppyDrives.ChunksDoNotMatter | src/core/floppy.cpp:120-171 | how time is cut into spans does not matter to the cells that pass |
| FloppyDrives.VisitTrack | src/core/floppy.cpp:148-157 | the loop from index to index visits exactly the cells of the tick-by-tick rotation |
| FloppyDrives.FloppyDrive.VisitBytes | src/core/floppy.cpp:120-158 | the cells given to the callback for a span of time |
| FloppyDrives.FloppyDrive.Advance | src/core/floppy.cpp:160-171 | revolutions and phase after a span of time; the total angle grows by exactly that span while a medium is present |
| FloppyDrives.RotatedTwice | src/core/floppy.cpp:120-171 | rotation and visited cells are independent of how time is cut |
| FloppyDrives.FloppyDrive.WriteByte | src/core/floppy.cpp:173-180 | a write changes only the track under the head, and only on a writable medium |
| FloppyDrives.FloppyDrive.StepTowardTrackZero | src/core/floppy.cpp:182-187 | one track inwards, not beyond track zero |
| FloppyDrives.FloppyDrive.StepTowardHigherTrack | src/core/floppy.cpp:189-194 | one track outwards, not beyond track 76 |
| FloppySubsystems.SpunTwice | src/core/floppy.cpp:255-264 | both disks turn, and the selected one shows its cells, independently of how time is cut |
| FloppySubsystems.PulsesCount | src/core/floppy.cpp:304-331 | any number of step pulses moves the selected head one track each up to the end stop, and the other head not at all |
| FloppySubsystems.RestoreFindsTrackZero | src/core/floppy.cpp:321-331 | seventy-six pulses inwards reach track zero from anywhere |
| FloppySubsystems.StoredInPlace | src/core/floppy.cpp:283-288 | writes at ticks the track has, head loaded and medium writable, change only that track: its ticks stay and every cell is the last one written to its tick |
| FloppySubsystems.NothingStored | src/core/floppy.cpp:283-288 | with the head up or the medium protected nothing is written |
| FloppySubsystems.FloppySubsystem.Advance | src/core/floppy.cpp:255-264 | the selected drive is visited, both drives turn |
| FloppySubsystems.FloppySubsystem.SetControlPortC | src/core/floppy.cpp:304-331 | cable signals, and a step on the trailing edge in the direction given then |
| FloppySubsystems.FloppySubsystem.WriteSelectedByte | src/core/floppy.cpp:283-288 | reported success and effect of a write to the selected drive |
| MachinePorts.CableIsDriven | src/core/floppy.cpp:304-331 | bits 0 to 3 of port C are step, direction, inner tracks and head load; a step is made when bit 0 goes away, outwards if bit 1 is set, and not beyond tracks 0 and 76 |
| MachinePorts.HeadLoads | src/core/floppy.cpp:283-331 | something is written exactly with bit 3 set and a writable medium in the drive |
| MachinePorts.StatusShows | src/core/floppy.cpp:333-347 | the status of the drive bit by bit: track zero, write protection, index |
| Pit8253.CodesRoundTrip | src/core/pit8253.cpp:283-312 | a programmed count reads back as the code it was written as, binary or decimal |
| Pit8253.Pit.Write | src/core/pit8253.cpp:21-47 | a count byte, a latch command or a control word changes one counter as specified; what programmed counters then do is in PitPrograms |
| Pit8253.Pit.Read | src/core/pit8253.cpp:15-19 | the byte read and the sequencing state after it |
| Pit8253.Pit.Clock | src/core/pit8253.cpp:104-124 | the loop over pulses leaves the counter of as many single pulses and reports their edges |
| PitCounting.ClockedConcat | src/core/pit8253.cpp:104-124 | for every mode, clocking in two steps is clocking at once, for state and edges |
| PitCounting.EdgeBalance | src/core/pit8253.cpp:114-122 | for every mode, rising minus falling edges is the change of the output, and together they are at most the pulses |
| PitCounting.RateGenerator | src/core/pit8253.cpp:224-236 | mode 2 with N >= 2: count N - n mod N, n/N falling and (n-1)/N rising edges after n pulses |
| PitCounting.RateOfOne | src/core/pit8253.cpp:224-236 | mode 2 with N = 1 has period two |
| PitCounting.SquareWave | src/core/pit8253.cpp:237-250 | mode 3 with N >= 2: high exactly while n mod N < ceil(N/2), n/N rising and (n + N/2)/N falling edges |
| PitCounting.SquareOfOne | src/core/pit8253.cpp:237-250 | mode 3 with N = 1 has period two |
| PitCounting.CountDown | src/core/pit8253.cpp:214-223 | modes 0 and 1: one rising edge, at pulse N, and the counter stops |
| PitCounting.ProgrammingLoads | src/core/pit8253.cpp:340-361 | the control word and the count bytes of any access mode configure a counter and load the count, whatever it was doing before |
| PitCounting.RateFromLoad | src/core/pit8253.cpp:153-193 | mode 2 from the load of any count on, binary or decimal: edges, output and count in closed form, N = 1 included |
| PitCounting.SquareFromLoad | src/core/pit8253.cpp:153-193 | mode 3 from the load of any count on: edges and output in closed form |
| PitCounting.CountDownFromLoad | src/core/pit8253.cpp:153-193 | mode 0 from the load on: low at once, and one rise, with pulse N |
| PitCounting.StrobeFromLoad | src/core/pit8253.cpp:153-193 | mode 4 from the load on: low for the one period after pulse N, gate left alone |
| PitCounting.TriggerCountDown | src/core/pit8253.cpp:195-205 | a rising gate starts the one-shot of mode 1 |
| PitCounting.SingleStrobe | src/core/pit8253.cpp:251-264 | modes 4 and 5: low for exactly the pulse period after pulse N |
| PitCounting.LatchedReadIsAtomic | src/core/pit8253.cpp:270-281 | a latched counter read low byte first gives the count of the moment it was latched, whatever is clocked in between |
| PitPrograms.ProgramIsReady | src/core/pit8253.cpp:126-193 | a control word and its count bytes leave the counter they name in the mode of bits 1 to 3 with the count that the bytes make by bits 0, 4 and 5, whatever it was doing; the other counters and all gates are left alone |
| PitPrograms.ProgramRuns | src/core/pit8253.cpp:21-268 | from the bits of the control word on, for every mode, count and gate: with a high gate a counter runs at once, in modes 1 and 5 from the next rise of the gate on, and with a low gate it waits for it; output, rises and falls after n pulses in closed form |
| PitPrograms.GatePauses | src/core/pit8253.cpp:60-64 | in mode 0 a low gate stops the count, and a high one lets it go on from there |
| PitPrograms.GateRestarts | src/core/pit8253.cpp:71-82 | in modes 2 and 3 a falling gate sets the output high, and a rising one starts the count anew |
| PitPrograms.ReadyShows | src/core/pit8253.cpp:207-268 | the count a running counter shows after n pulses, in mode 3 in steps of two |
| PitPrograms.ReadyReads | src/core/pit8253.cpp:270-281 | the low byte, the high byte, or the two in turn, as bits 4 and 5 of the control word say |
| PitPrograms.LatchCommand | src/core/pit8253.cpp:35-44 | a control word with bits 4 and 5 clear latches the count, unless one is latched already |
| Ppi8255.BitIsSet | src/core/ppi8255.cpp:264-285 | setting a port C bit sets it, and setting it back restores the byte |
| Ppi8255.Ppi.Write | src/core/ppi8255.cpp:36-69 | port write, mode set or bit set/reset, and the interrupts after it |
| Ppi8255.Ppi.Read | src/core/ppi8255.cpp:22-34 | value read and handshake flags after it |
| PpiHistory.InputBufferHistory | src/core/ppi8255.cpp:99-109 | IBF is set exactly when a strobe fell since the last read, and the latch holds the byte of the last strobe |
| PpiHistory.OutputBufferHistory | src/core/ppi8255.cpp:111-124 | OBF is low exactly when a write came after the last falling acknowledge |
| PpiHistory.AcknowledgedHistory | src/core/ppi8255.cpp:111-124 | the acknowledge flag is set exactly when the line rose since the last write |
| PpiHistory.AlwaysSettled | src/core/ppi8255.cpp:287-304 | INTR A and INTR B equal their enable, flag and pin formula after every operation |
| PpiHistory.RunIsHistory | src/core/ppi8255.cpp:36-138 | after any run since the mode was set the handshakes are those of the events of their own group |
| PpiHistory.ReadReturnsLastStrobe | src/core/ppi8255.cpp:320-330 | over any run, for both groups and in modes 1 and 2: a read of a receiving port returns the byte of the last strobe, and IBF tells whether it is new |
| PpiHistory.OutputFollowsHistory | src/core/ppi8255.cpp:111-124 | over any run, for both groups and in modes 1 and 2: OBF is low exactly while a byte written has not been acknowledged |
| PpiHistory.InterruptsFollowHistory | src/core/ppi8255.cpp:287-304 | over any run and in every mode both interrupts follow from the events since the mode was set and the enable flags alone |
| PortWords.ModeIsSet | src/core/ppi8255.cpp:59-66 | the mode word bit by bit: modes and directions of both groups; outputs cleared, handshakes idle, interrupts off |
| PortWords.ModeShows | src/core/ppi8255.cpp:22-69 | what the three ports then read as in mode 0 |
| PortWords.BitIsWritten | src/core/ppi8255.cpp:264-285 | the bit word: bits 1 to 3 name the bit of port C or the interrupt enable that bit 0 sets or clears, and nothing else changes |
| PortWords.GroupAShown | src/core/ppi8255.cpp:331-371 | the handshake bits of group A in mode 1 on port C |
| PortWords.BothWaysShown | src/core/ppi8255.cpp:331-371 | and in mode 2 |
| PortWords.GroupBShown | src/core/ppi8255.cpp:331-371 | and of group B |
| PortWords.PortCShows | src/core/ppi8255.cpp:331-371 | port C as a program polls it with both groups in mode 1, bit by bit |
| Uart8251.BuildFrame | src/core/uart8251.cpp:370-394 | the frame loops build start bit, data bits, parity and stop bits as the mode word says |
| Uart8251.Uart.ClockTransmit | src/core/uart8251.cpp:98-112 | the transmitter after any number of edges |
| Uart8251.Uart.ClockReceive | src/core/uart8251.cpp:114-126 | serializer, sampler and receive register after any number of edges; what the register then holds is in UartRegisters |
| Uart8251.Uart.DoWriteControl | src/core/uart8251.cpp:249-271 | mode word, SYN characters and commands are taken in order |
| Uart8251.Uart.ReceiveByte | src/core/uart8251.cpp:128-150 | overrun keeps the old character and is flagged; errors stick; a framing error on zero is a break |
| UartRegisters.RegisterRemembers | src/core/uart8251.cpp:128-150 | over any list of characters, reads and error resets: the register holds the first character since the last read, cut to its size; overrun is flagged exactly if, since the errors were last reset, a character came while one was unread; parity, framing and break exactly if a character with that error was kept |
| UartRegisters.OneUnread | src/core/uart8251.cpp:128-150 | at most one character is unread at any moment |
| UartRegisters.RunIsHistory | src/core/uart8251.cpp:114-150 | over any run of edges and port accesses of a programmed chip the register is that of the events of the run |
| UartRegisters.StatusBits | src/core/uart8251.cpp:189-215 | the eight bits of the status byte |
| UartRegisters.StatusTells | src/core/uart8251.cpp:128-215 | so what a program reads after any run, the status bits and the character, follows from the history alone |
| UartWords.FrameOfWord | src/core/uart8251.cpp:370-394 | the frame by the bits of the mode word: levels of the start bit, of each data bit, of parity and stop bits |
| UartWords.OneFrame | src/core/uart8251.cpp:370-394 | there is only one such frame |
| UartWords.WordsInOrder | src/core/uart8251.cpp:249-287 | after a reset the words are taken as mode, SYN characters by bits 0, 1 and 7 of it, and commands |
| UartWords.CommandWord | src/core/uart8251.cpp:289-325 | the command word bit by bit, and what it leaves alone |
| UartWords.ResetWord | src/core/uart8251.cpp:291-302 | bit 6 of a command resets the chip; the pins and the level of the line stay |
| UartWords.InterruptMeans | src/core/uart8251.cpp:229-247 | an interrupt is requested while a character waits or a byte may be written |
| UartWords.HeldBack | src/core/uart8251.cpp:336-341 | without CTS or the enable bit nothing is sent, and the byte stays |
| UartWords.BreakHolds | src/core/uart8251.cpp:98-104 | a break holds the line low and stops the transmitter |
| UartWords.DataWord | src/core/uart8251.cpp:65-73 | a data write fills the transmit buffer with the low bits of the byte |
| UartWire.FrameDelivers | src/core/uart8251.cpp:397-465 | at factor 16 or 64, from an idle sampler, a frame delivers exactly its character at one fixed edge, without an error, for every word length, parity and stop code |
| UartLink.ByteDelivered | src/core/uart8251.cpp:114-126 | one queued byte has been received without an error after exactly frame size times factor edges, and the receiver is at rest again |
| UartLink.QueueDelivered | src/core/uart8251.cpp:524-581 | any list of queued bytes, each read before the next is complete, arrives in order cut to the character size, and no error flag changes |
| UartPair.TxFrame | src/core/uart8251.cpp:327-360 | a buffered byte goes out as exactly its frame |
| UartPair.TxByte | src/core/uart8251.cpp:327-360 | a byte written at any moment while the line rests goes out as exactly its frame, from the next bit time on |
| UartPair.SendingTogether | src/core/uart8251.cpp:327-465 | a byte written to one UART is received by the other, one edge per edge, with no error flag changed |
| UartWords.LineShows | src/core/uart8251.cpp:327-394 | a buffered byte is on the line bit after bit, each for 16 or 64 clocks by bits 0 and 1 of the mode word |
| UartWords.LineHeard | src/core/uart8251.cpp:397-465 | a receiver makes the low bits of the character of those levels, in the middle of the first stop bit |
| UartWords.SynchronousLine | src/core/uart8251.cpp:327-360 | in synchronous modes bit after bit of the buffered byte, or of the SYN characters in turn, is on the line |
| UartStreams.LinkKeepsTheStream | src/core/uart8251.cpp:327-465 | bytes written whenever the transmit buffer is empty, also while a frame is still going out: at every moment the bytes read, received, on the wire and buffered are all bytes written, in order, cut to the character size, and no error flag has changed |
| UartStreams.RestToRest | src/core/uart8251.cpp:327-465 | once the line rests again with the buffer empty, everything written has been received |
| UartFactorOne.StartAtFactorOne | src/core/uart8251.cpp:408-437 | at factor one the repeated look at the start bit samples data bit 0 |
| UartFactorOne.WrongPlace | src/core/uart8251.cpp:397-465 | a receiver that takes a later part of a frame for the character sent finds a wrong parity bit |
| UartFactorOne.NeverFirst | src/core/uart8251.cpp:397-465 | at factor one, from anywhere on the line, the first character received is never the one sent |
| UartFactorOne.FactorDecides | src/core/uart8251.cpp:397-465 | in an asynchronous mode a byte, whatever byte it is, arrives if and only if the factor is not one |
| UartSync.HuntIsSearch | src/core/uart8251.cpp:500-515 | the hunt ends exactly at the first place where the last one or two characters are the SYN pattern, overlaps included; nothing before it reaches the data register |
| UartSync.HuntCommandHunts | src/core/uart8251.cpp:311-318 | the hunt command starts the hunt at a character boundary |
| UartSync.SyncFrame | src/core/uart8251.cpp:467-498 | a character with its parity comes off the line whole; a parity error is seen only with ones left from before a hunt |
| UartSync.HuntOnTheWire | src/core/uart8251.cpp:467-522 | the same search on the level of single receive clock edges |
| FrontEnds.SerialFrontend.SynchronizeSerial | src/frontend/main.cpp:608-670 | one synchronization of the front end, for arbitrary network behaviour; with the network up it leaves an output byte waiting only if the link holds 4,096 bytes, and otherwise an empty UART queue and CTS on; an input byte waits only for a UART queue of 4,096 bytes, and otherwise all that had arrived has entered |
| FrontEnds.SerialFrontend.ExchangeBytes | src/frontend/main.cpp:631-657 | between the polls everything that can move has moved, nothing is lost and nothing else has changed |
| PumpProgress.SynchronizingProgresses | src/frontend/main.cpp:608-670 | the pump never stalls: what a synchronization leaves behind, from the queues alone |
| FrontEnds.SerialFrontend.MoveInputBytes | src/frontend/main.cpp:631-643 | bytes move from the link to the UART while there is room, one may wait |
| FrontEnds.SerialFrontend.MoveOutputBytes | src/frontend/main.cpp:645-656 | bytes move from the UART to the link while it accepts, one may wait |
| FrontEnds.SerialFrontend.QueueTransmit | src/frontend/serial_tcp.cpp:564-571 | the link accepts a byte exactly when it is connected and its queue has room |
| FrontEnds.SerialFrontend.RunFrame | src/frontend/main.cpp:748-751 | a frame run by the machine is a run of the loop: the UART is clocked by counter 1 as the run leaves it, and no more often than the time line allows |
| FrontEnds.SerialFrontend.RunTurn | src/frontend/main.cpp:746-753 | one turn around a machine is one turn of the loop as a value, and does not drop a byte |
| FrontEnds.SerialFrontend.constructor | src/frontend/main.cpp:521-528 | a machine just switched on, told whether the link is connected, is a good start for the loop |
| SerialRuns.RunClocks | src/core/machine.cpp:332-338 | a run clocks the transmitter at most once per pulse of counter 1, whatever the processor and the disk do to that counter |
| SerialRuns.MachineDrivesUart | src/core/machine.cpp:332-338 | the UART after a run of the machine is the one after the clock edges and port accesses of that run, in their order |
| BackPressure.AdvanceWeight | src/core/uart8251.cpp:327-360 | a payload takes at least five bit times, so five per queued byte plus progress grows by at most one an edge |
| BackPressure.RunKeepsBound | src/core/uart8251.cpp:329-333 | while CTS is off, or for 20,064 transmit edges after the queue was drained, the queue is never full |
| BackPressure.RunIsBounded | src/frontend/main.cpp:748-751 | the numeric bound: a frame of instructions of up to 255 cycles gives at most 20,064 transmit edges, and leaves an overrun below 255 |
| BackPressure.SynchronizingDrains | src/frontend/main.cpp:645-657 | after every synchronization CTS is on only if the queue has been emptied |
| BackPressure.BackPressureSuffices | src/frontend/main.cpp:746-753 | over every run of the loop, whatever the network, the processor and the user do, the guard that drops a byte is never taken |
| BackPressure.StartIsGood | src/frontend/main.cpp:527-527 | the state in which the loop is entered, with or without a connection |
| BackPressure.SynchronizingConserves | src/frontend/main.cpp:608-670 | while a connection lasts a synchronization neither loses nor reorders a byte, in either direction |
| BackPressure.RunAppends | src/core/uart8251.cpp:327-335 | a run appends exactly the completed payloads to the queue |
| BackPressure.StreamIsKept | src/frontend/main.cpp:608-670 | while one connection lasts and nothing is reset, accepted ++ pending ++ queued is what was there before followed by every completed payload in order |
| Interrupts3214.VectorIsHighest | src/core/interrupt_controller3214.cpp:45-63 | the vector belongs to the highest active input among the enabled ones, and FFh stands for none |
| Interrupts3214.InterruptController.ActiveInput | src/core/interrupt_controller3214.cpp:45-54 | the descending loop finds that input |
| Interrupts3214.InterruptController.SetMask | src/core/interrupt_controller3214.cpp:18-21 | the mask is cut to eight |
| Keyboards.RepeatCount | src/core/keyboard.cpp:50-54 | a held key repeats once when the countdown ends and once per interval after that |
| Keyboards.HeldKeyRepeats | src/core/keyboard.cpp:41-55 | a held key repeats after 6,000,000 ticks and every 3,000,000 ticks after that |
| Keyboards.RepeatsIgnoreChunks | src/core/keyboard.cpp:41-55 | the repeats and the countdown depend only on the total time |
| Keyboards.Keyboard.Advance | src/core/keyboard.cpp:41-55 | the division gives the same repeats and state as counting tick by tick |
| Keyboards.Keyboard.KeyDown | src/core/keyboard.cpp:18-31 | a new key emits its code and restarts the delay; a key that is held emits nothing |
| Keyboards.Keyboard.KeyUp | src/core/keyboard.cpp:33-39 | only the held key is released |
| Mouse.MotionIsConserved | src/core/machine.cpp:551-630 | over any unclamped run motion put in equals motion decoded from the signals plus what is pending, on each axis; every edge flips one of PD0-PD3; the axes take turns |
| Mouse.TurnsAlternate | src/core/machine.cpp:597-602 | of two edges emitted while both axes wait, with none such between, one is of each axis |
| Mouse.EdgeRate | src/core/machine.cpp:593-595 | T ticks emit at most T/12000 + 1 edges, whatever motion comes in meanwhile |
| Mouse.MotionComesOut | src/core/machine.cpp:586-630 | as many edges come out in a span of time as motion is pending, at most one every 12,000 ticks, and as many counts less are pending afterwards |
| Mouse.MotionIsClamped | src/core/machine.cpp:551-557 | motion that comes in is added to what is pending, up to a million counts each way |
| Mouse.NothingSavedUp | src/core/machine.cpp:625-629 | no operation leaves more than one interval saved up |
| Mouse.AdvancedTwice | src/core/machine.cpp:586-630 | edges and state are independent of how time is cut |
| Mouse.LatchFollowsEdges | src/core/machine.cpp:573-584 | the mouse interrupt is latched exactly by edges that come while it is enabled |
| Mouse.MouseEncoder.Advance | src/core/machine.cpp:586-630 | the loop emits the specified edges |
| Mouse.MouseEncoder.SetButton | src/core/machine.cpp:559-571 | a button moves one line and nothing else |
| DiskController.ControllerInvariant | src/core/machine.cpp:803-971 | in every reachable state: GATE1 is high exactly when timing is off or sync is set; with timing off, and with OUT2 high, the register and the latches are clear; the remembered interrupt level is the formula of both groups |
| DiskController.StepKeeps | src/core/machine.cpp:738-971 | every time step and port access keeps the couplings |
| DiskController.RefreshSettles | src/core/machine.cpp:934-958 | the refresh restores consistency after any change, and never switches the timing |
| DiskController.RefreshOnce | src/core/machine.cpp:934-958 | refreshing a consistent controller changes nothing |
| DiskController.PassedSettles | src/core/machine.cpp:842-894 | a passing cell keeps the couplings and does not switch the timing |
| DiskController.SwitchSettles | src/core/machine.cpp:815-828 | so does switching the timing |
| DiskController.AuxSettles | src/core/machine.cpp:773-790 | so does the auxiliary register, which cannot be set with the timing off |
| DiskSteps.BystanderStands | src/core/machine.cpp:738-829 | reading the timer, programming counter 0, latching a count, switching clock patterns with the timing on, and accesses elsewhere leave the data 8255, the latches and both counters of the disk as they are |
| DiskSteps.DataMoves | src/core/machine.cpp:934-958 | an access to the data 8255 that raises no interrupt changes nothing else of the controller, and counter 2 does not count it |
| DiskPrograms.AuxPort | src/core/machine.cpp:773-790 | OUT 50h by the bits of the byte: RE, WRE, RDM and FOR, set only with the timing on and OUT2 low; without WRE an ordinary write ends, without FOR a format, without RE and FOR the timeout is acknowledged; nothing else of the machine changes |
| DiskPrograms.GateTwoIsHigh | src/core/machine.cpp:282-379 | the gate of counter 2 is high over every run |
| DiskPrograms.LengthIsWritten | src/core/pit8253.cpp:21-193 | OUT 13h,B0h and two bytes to port 12h load counter 2 with the length of a field, OUT2 goes low, and nothing else of the machine changes |
| FieldRead.FieldIsRead | src/core/machine.cpp:871-893 | from any point before the mark, for any time steps and any accesses that do not interfere: when port B is read between cells of the field, the processor gets the first selected mark and the N cells after it and nothing else; OUT2 is low until the N-th cell after the mark and high from then on; nothing is written |
| FieldRead.ReaderIsPaid | src/core/machine.cpp:871-893 | what a reader that keeps up has been given and still holds is the field, as far as it has passed |
| FieldRead.MarkArrives | src/core/machine.cpp:875-892 | the mark is presented and not counted |
| FieldRead.LastByteArrives | src/core/machine.cpp:934-958 | with the last byte OUT2 clears RE, RDM and sync and closes the gate while the data interrupt still stands |
| FieldRead.DataOutranksEnd | src/core/machine.cpp:960-963 | a waiting data byte, vector 00h, comes before a timeout, 02h, and both before the end of data, 04h |
| FieldRead.DataComesBeforeEnd | src/core/machine.cpp:934-971 | from any point before the mark: with the last cell OUT2 is high and the vector is 00h; after the byte has been read it is 04h, or 02h if the timeout has come |
| FieldWrite.FieldIsWritten | src/core/machine.cpp:348-359 | for any time steps and any accesses that do not interfere: when port A is filled at any time between transfers, exactly the cells of the specification are written, at most N, and OUT2 is high exactly when all have been |
| FieldWrite.FieldInOrder | src/core/machine.cpp:867-919 | the field starts with the cell last passed when OUT1 first rises and the byte then in port A, and goes on with the cells that pass after it |
| FieldWrite.SerialInOrder | src/core/machine.cpp:896-911 | the i-th cell after the rise of OUT1 is written at its own tick, with the last byte port A has been filled with and the clocks then chosen |
| FieldWrite.SerialIsCounted | src/core/machine.cpp:896-911 | one cell per cell passed, until N are done |
| FieldWrite.NothingBeforeRise | src/core/machine.cpp:348-357 | nothing is written before OUT1 rises |
| FieldWrite.TransferCounts | src/core/machine.cpp:896-911 | a transfer takes port A, asks for the next byte and counts; the last one ends the write |
| Scenes.SceneTurns | src/core/machine.cpp:312-359 | whatever is written while it turns, the track keeps its speed and its timing, and ends up overlaid with the writes, the last one to a tick counting |
| Scenes.SceneStreams | src/core/machine.cpp:312-322 | the cells shown to the controller have the ticks of the turning track, whatever is written meanwhile |
| Scenes.SilentSceneStreams | src/core/machine.cpp:312-322 | when nothing is written they are the cells of the track |
| Scenes.BayPlaysScene | src/core/machine.cpp:913-919 | a time step of the drives, with the pending cells stored after it, is a step of the turning track under the head |
| DiskRuns.WiresStay | src/core/machine.cpp:803-840 | over any run whatever of a machine whose selected drive, cable signals and disk timing are those that the ports say, they stay so |
| DiskRuns.PowerUpWires | src/core/machine.cpp:255-263 | and they are so at power-up |
| DiskRuns.MachinePlaysScene | src/core/machine.cpp:282-359 | over a run of time steps and accesses that do not interfere, the machine plays the track of its selected drive, and nothing else on the medium changes |
| DiskRuns.OnePasses | src/core/floppy.cpp:120-158 | in a time step no longer than a cell at most one cell passes, across the index too |
| DiskRuns.RunIsAllowed | src/core/machine.cpp:312-322 | so time steps of up to 128 cycles and accesses that do not interfere are what the theorems on fields ask for |
| FieldRuns.MachineReadsField | src/core/machine.cpp:842-894 | on whole-machine runs of any length: reads of port 21h between cells give the processor the first selected mark that passes under the head and the N cells behind it and nothing else, and the medium is as it was |
| FieldRuns.MachineSeesDataFirst | src/core/machine.cpp:934-971 | the 3214 of the machine gives 00h until the last byte has been read, and only then 04h, or 02h |
| FieldRuns.MachineWritesField | src/core/machine.cpp:348-359 | on whole-machine runs: when port A is filled at any time between transfers, exactly the cells of the specification are laid over the track in the bay, in places the track has, and nothing else of the medium changes |
| DiskPrograms.ReadBegins | src/core/machine.cpp:773-894 | a field read from its OUT 50h,01h or 05h on: the processor is given the first mark of that kind and the n cells behind it, and nothing else |
| DiskPrograms.MarkLookedFor | src/core/machine.cpp:871-892 | which mark that is, by data and clocks |
| DiskPrograms.WriteBegins | src/core/machine.cpp:348-790 | a field written from its OUT 50h,02h on: exactly the cells of the specification |
| SectorFields.FieldOfTrack | src/core/machine.cpp:842-894 | on whole-machine runs, wherever the head stands and however often the index passes: the processor is given the bytes of the field whose selected mark comes next around the track |
| SectorFields.SectorIsRead | src/core/machine.cpp:842-894 | off a formatted track, from any phase: FBh, the bytes 3328 * track + 128 * (sector - 1) onwards of the image for the sector in the next slot, across the index too, and a checksum that comes out as zero; then OUT2 is high |
| SectorFields.IdIsRead | src/core/machine.cpp:842-894 | the same for the ID field, which names the track and the sector |
| SectorFields.HeldSectorIsRead | src/core/machine.cpp:842-894 | on a disk with any history of sector writes, from behind the ID field: the data that the disk represents for that sector |
| SectorRewrites.BurstIsRecorded | src/core/floppy.cpp:42-58 | a burst laid over a track cell by cell is the track with the burst recorded |
| SectorRewrites.BurstIsField | src/core/machine.cpp:896-911 | 137 bytes given to port A in time, with the clocks of a sector, are written as that burst to consecutive cells from the cell last passed when OUT1 rises |
| SectorRewrites.MachineRecordsBurst | src/core/machine.cpp:348-359 | on whole-machine runs: the medium in the bay has the burst on it, and nothing else has changed |
| SectorRewrites.SectorIsWritten | src/core/machine.cpp:348-359 | on a disk with any history: a burst sent where the sector may be rewritten leaves a disk that represents the old sectors with exactly that one replaced |
| SectorRewrites.FreshMayBeRewritten | src/core/disk_image_8sd.cpp:96-125 | on a disk just formatted that is from four to twenty-four cells after the ID mark |
| SectorRewrites.RewrittenExport | src/core/disk_image_8sd.cpp:136-194 | the export then is the old image with the bytes from 3328 * track + 128 * (sector - 1) on replaced by the data, and no other changed |
| SectorRewrites.RewrittenIsReadBack | src/core/machine.cpp:842-919 | a sector written through the controller is read back through it: the processor is given the data it has sent |
| FormatTrack.OneRevolution | src/core/machine.cpp:851-865 | over any stretch that reaches the second index the overwritten cells are those of the track, in order |
| FormatTrack.AtMostOneRevolution | src/core/machine.cpp:851-865 | over any stretch at all they are the first ones of the track, none twice |
| FormatTrack.OneCellPasses | src/core/machine.cpp:851-869 | what one cell does to a format: it arms, is overwritten with port A, or ends it |
| FormatTrack.CalmKeepsFormat | src/core/machine.cpp:703-801 | reading the data 8255 or the timer, filling port A, counter 0, clock patterns and accesses elsewhere leave a format where it is |
| FormatTrack.TimePassesFormat | src/core/machine.cpp:842-919 | the cells overwritten in one time step carry the byte in port A and the chosen clocks |
| FormatTrack.ChunksPlay | src/core/machine.cpp:312-359 | however time is cut and whatever the processor does that does not interfere, the writes are those of the whole stream, and the track is overlaid with them |
| FormatTrack.FormatIsOneRevolution | src/core/machine.cpp:851-919 | from any phase and under any chunking, once the second index has passed every cell has been overwritten exactly once, the timing of the track is unchanged, FOR is clear and nothing is written any more |
| FormatRuns.MachineFormatsTrack | src/core/machine.cpp:842-919 | on whole-machine runs with polling and reading of any port: formatting overwrites exactly one revolution of the track in the bay of the machine, and nothing else on the medium |
| DiskPrograms.FormatBegins | src/core/machine.cpp:773-919 | a format from its OUT 50h,10h or 11h on overwrites exactly one revolution |
| MachineTime.StaysInStep | src/core/machine.cpp:312-376 | ticks are three times the cycles, frames and accumulators are exactly what they should be, and timer clocks are counted without drift |
| MachineTime.Rates | src/core/machine.cpp:312-376 | by numbers: three ticks to a cycle, a timer pulse every twelve ticks, a frame every 240,000, all counted from the beginning |
| MachineTime.LaterTwice | src/core/machine.cpp:312-366 | cycle count, frames and timer clocks are independent of how time is cut |
| MachineTime.InstructionTakesItsCycles | src/core/machine.cpp:292-302 | the time steps around the port accesses of an instruction add up to the cycles it took |
| MachineTime.AccessesInTime | src/core/machine.cpp:292-302 | every port access is made when as many cycles have passed as its offset says, and after the accesses before it |
| MachineTime.RunAccounts | src/core/machine.cpp:282-310 | requested cycles plus overrun account for every cycle that passes |
| MachineTime.RequestsAccount | src/core/machine.cpp:282-310 | over any sequence of requests the cycle counter is the sum of the requests plus the overrun |
| MachineTime.FrameClocksAreBounded | src/core/machine.cpp:332-336 | a frame with instructions of up to 255 cycles gives counter 1 at most 20,064 pulses |
| TimeLines.StepsDoNotMatterToDisk | src/core/floppy.cpp:120-171 | visited cells and rotation depend only on the sum of the steps |
| TimeLines.StepsDoNotMatterToMouse | src/core/machine.cpp:586-630 | so do the edges and the state of the mouse |
| TimeLines.StepsDoNotMatterToClocks | src/core/machine.cpp:332-366 | so do frames, timer pulses and the edges of counter 1 |
| MachineModel.WriteIsStep | src/core/machine.cpp:738-801 | a port write is one step of the disk controller and keeps everything sound |
| MachineModel.ReadIsStep | src/core/machine.cpp:703-736 | so is a port read |
| MachineModel.TimeIsStep | src/core/machine.cpp:312-379 | so is a span of time, after which the interrupt network is at rest |
| MachineModel.RunKeeps | src/core/machine.cpp:282-379 | every run keeps the couplings of the controller, the time line and the phases of the mouse |
| MachinePorts.TimingPort | src/core/machine.cpp:803-829 | OUT 60h: bit 6 clear switches the disk timing on, and without it the register and the latches are clear |
| MachinePorts.ClocksChosen | src/core/machine.cpp:896-911 | the clocks of a written cell by bits 0 and 1 of OUT 60h |
| MachinePorts.ReadsWhatItWrites | src/core/machine.cpp:842-894 | while it writes, the controller reads the byte it writes and looks for its mark in that |
| MachinePorts.HeadIsNoted | src/core/machine.cpp:842-847 | the place of the head is noted whatever the controller does |
| MachinePorts.CounterOneActs | src/core/machine.cpp:332-358 | a rise of OUT1 latches the timeout while RE and RDM are set, and starts a write while WRE is |
| MachinePorts.TimeoutAcknowledged | src/core/machine.cpp:50-60 | a control word for counter 1 that is no latch command acknowledges the timeout |
| MachinePorts.SelectionPort | src/core/machine.cpp:831-840 | OUT 22h: bit 5 selects drive B |
| MachinePorts.ScrollPort | src/core/machine.cpp:803-829 | OUT 61h scrolls the picture |
| MachinePorts.SmallPorts | src/core/machine.cpp:703-801 | ports 30h, 50h and 70h, written and read |
| MachinePorts.ChipPorts | src/core/machine.cpp:703-801 | ports 10h to 13h are the timer and 40h to 43h the serial interface |
| MachinePorts.StatusIsRead | src/core/machine.cpp:725-728 | port 62h shows the status of the drive at that moment |
| MachinePorts.VideoInterrupts | src/core/machine.cpp:360-376 | a frame is a pulse of counter 0 and lets the video interrupt through by bit 2 of OUT 60h |
| MachinePorts.MouseInterrupts | src/core/machine.cpp:573-584 | signals that change latch the mouse interrupt by bit 3 |
| MachinePorts.ButtonLine | src/core/machine.cpp:559-571 | which signal a button drives, and at which level |
| MachinePorts.KeyIsRead | src/core/machine.cpp:430-438 | a new key is read at port 01h as its complement, with its interrupt |
| MachinePorts.RepeatIsRead | src/core/machine.cpp:325-328 | so is a key that repeats |
| MachinePorts.ByteIsPrinted | src/core/machine.cpp:741-754 | a byte sent to a printer that is online is printed, and the next is asked for |
| MachinePorts.VectorTable | src/core/machine.cpp:960-968 | the vector of each source, and which comes first |
| MachinePorts.ResetLeaves | src/core/machine.cpp:265-280 | what a reset from outside leaves: no interrupts, ROM mapped, drive B, head unloaded; disks, mouse and connection as they were |
| Machines.Machine.constructor | src/core/machine.cpp:255-263 | a new machine is at rest and stands at its power-up state |
| Machines.Machine.RefreshInterruptSources | src/core/machine.cpp:934-971 | counter 2, the OUT2 reset and the eight 3214 inputs after a refresh |
| Machines.Machine.ConnectInputs | src/core/machine.cpp:960-968 | the eight inputs equal their sources |
| Machines.Machine.TransferFloppyWriteByte | src/core/machine.cpp:896-911 | the cell written and the controller after the transfer |
| Machines.Machine.ProcessFloppyByte | src/core/machine.cpp:842-894 | the controller after a cell has passed |
| Machines.Machine.FlushPendingDiskWrites | src/core/machine.cpp:913-919 | all pending cells go to the selected drive, in order |
| Machines.Machine.SynchronizeControlOutputs | src/core/machine.cpp:803-829 | scroll, cable, timing and GATE1 follow the control port |
| Machines.Machine.SynchronizeDiskSelection | src/core/machine.cpp:831-840 | the drive is selected by PC5, pulled up when it is an input |
| Machines.Machine.WriteIo | src/core/machine.cpp:738-801 | all parts of the machine after a port write, to every port, with the eight inputs at their sources; what the bits of the byte mean is in DiskPrograms and MachinePorts |
| Machines.Machine.ReadIo | src/core/machine.cpp:703-736 | all parts of the machine after a port read, and the byte read, for every port |
| Machines.Machine.AdvanceTimer | src/core/machine.cpp:332-358 | counter 1 clocks the UART, raises the timeout and starts an ordinary write |
| Machines.Machine.AdvanceKeyboard | src/core/machine.cpp:325-328 | every repeat of the span is strobed into the keyboard port |
| Machines.Machine.AdvanceTime | src/core/machine.cpp:312-379 | all parts of the machine after a span of time: disks, controller, keyboard port, mouse, counters, UART, medium, frames |
| Machines.Machine.RunInstruction | src/core/machine.cpp:292-308 | an instruction is its accesses in order, each at its own time, and the time to its end |
| Machines.Machine.RunCycles | src/core/machine.cpp:282-310 | the loop does exactly the steps of the specification, uses as many instructions, leaves its overrun, and all parts of the machine are as after those steps |
| Machines.Machine.Reset | src/core/machine.cpp:265-280 | all parts after a reset: the electronics at their reset state, disks, rotation, heads, mouse position and connection as they were |
| Machines.Machine.KeyboardKeyDown | src/core/machine.cpp:430-438 | a new key is strobed into the keyboard port, a held one is not |
| Machines.Machine.MouseMotion | src/core/machine.cpp:551-557 | motion is queued, and an edge that is due comes at once |
| Machines.Machine.SetSerialConnected | src/core/machine.cpp:471-484 | CTS and DSR follow the connection; a lost one empties both queues and the line, and nothing else of the machine changes |
| Machines.Machine.SetSerialClearToSend | src/core/machine.cpp:486-491 | CTS is on exactly while there is a connection that may send |
| Machines.Machine.QueueSerialReceivedByte | src/core/machine.cpp:498-504 | a byte is queued exactly when there is a connection and room |
| Machines.Machine.TakeSerialTransmittedByte | src/core/machine.cpp:506-509 | the oldest completed byte is taken |

## Left out

- The Z80: it appears only as port accesses at offsets within instructions that take at least one
  cycle, with every offset within the instruction. When an offset lies beyond it the program
  advances time further than the instruction took; that case is not modelled.
- The memory map beyond the read of ports 30h and 50h, ROM mirroring, video RAM and rendering:
  index arithmetic with little state.
- SDL and ImGui front end, option parsing, files: host plumbing. Sockets are an arbitrary
  environment that connects, accepts, delivers and takes what it likes within the link's queues.
- Key tables and code translation: finite tables.
- Wrap-around of 64-bit counters and the saturation of the mouse tick accumulator against it:
  counters are unbounded here.
- Drives inside the floppy subsystem, and tracks inside a drive there, are values, as they are in
  the program; the drive and the track as objects that are updated in place are separate classes
  proved against the same functions. The chips inside the machine are objects.
- UartFactorOne.FactorDecides: says for factor one that the byte sent never arrives, not which wrong
  characters are received in its place.
- UartLink.QueueDelivered: factors 16 and 64 only, for that reason.
- PitCounting.SingleStrobe: the gate is left alone. A gate change during or after the strobe can
  re-arm a finished count or freeze the strobe, so nothing is promised there.
- SpliceTolerance.ToleranceIsExact: is about a freshly formatted disk; for repeated rewrites
  DiskWrites.HistoryRefines lets each start be at most six cells later than the one before.
- DiskRefinement.ExportOf: neither the program nor the model checks CRCs on export.
- FieldRead.FieldIsRead: nothing is claimed about the timeout interrupt I6 during a data field;
  its latch does not look at the sync latch.
- FormatTrack.FormatIsOneRevolution: needs a cell at tick 0; without one a format never starts. WRE
  is off, since an ordinary write started by OUT1 would interfere.
- BackPressure.BackPressureSuffices: is about a loop with a link configured and instructions of at
  most 255 cycles, the range of the offset the processor interface reports.
- DiskRuns.MachinePlaysScene: leaves out writes that interfere with a transfer: the auxiliary
  register, counters 1 and 2, port C and the mode of the data and the control 8255, and switching the
  disk timing off. Calls from outside between the operations (keys, mouse, network, disk changes) are
  not part of these runs.
- DiskRuns.RunIsAllowed: time steps are at most 128 cycles long, a cell; the longest Z80 instruction
  takes 23.
- FormatRuns.MachineFormatsTrack: OUT2 stays low, since a rising OUT2 ends a format.
- FieldRuns.MachineWritesField: the cell last passed when OUT1 rises must be one of the track under
  the head; after a step to another track that holds as soon as a cell of it has passed.
- SectorRewrites.RewrittenIsReadBack: the head stands between the ID field and the new data mark when
  the data mark is looked for; how a program waits for that is its own affair.
- UartSync.HuntIsSearch: characters are aligned; neither the program nor the model aligns bits to
  a SYN pattern.
- Mouse.MotionIsConserved: motion beyond a million pending counts is clamped by the program and
  lost; the law is for runs that do not reach that.
- Printer bytes are recorded in their order of arrival; taking them is not modelled.
- PitPrograms.ReadyShows: in mode 3 for counts of at least two.
