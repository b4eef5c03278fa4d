/** The front-end loop around a machine: it pumps bytes between the link and the machine, and runs
    the machine for a frame in between. */
module FrontEnds {
  import opened Bytes
  import opened Wrappers
  import opened SerialPump
  import opened BackPressure
  import opened PumpProgress
  import opened MachineTime
  import opened Machines
  import M = MachineModel
  import SerialRuns

  function OnPump(f: Front, p: Pump): Front {
    f.(pump := p)
  }

  class SerialFrontend {
    const machine: Machine
    var link: Link
    var pendingInput: Option<byte>
    var pendingOutput: Option<byte>
    ghost var history: History

    /** The link, the slots, and the machine's serial side. */
    ghost function Pumping(): Pump
      reads this, machine, machine.uart
    {
      Pump(machine.uart.State(), link, pendingInput, pendingOutput, machine.serialConnected, machine.serialClearToSend, history)
    }

    /** What the theorems about the loop are stated on. */
    ghost function State(): Front
      reads this, machine, machine.uart
    {
      Front(Pumping(), machine.clock, machine.cpuCycleOverrun)
    }

    /** A machine at rest whose connection is managed by a front end. */
    ghost predicate Valid()
      reads this, machine.Parts(), machine.timer
    {
      machine.Valid() && machine.serialManaged && this !in machine.Parts()
    }

    /** A machine that has just been switched on, and the link in whatever state it is. */
    constructor (m: Machine, l: Link)
      requires m.Valid() && m.State() == M.POWER_UP && m.cpuCycleOverrun == 0
      modifies m.Parts()
      ensures machine == m && Valid() && Good(State())
    {
      machine, link, pendingInput, pendingOutput, history := m, l, None, None, History([], []);
      new;
      StartIsGood(l);
      SetConnected(l.connected);
    }

    method SetConnected(up: bool)
      requires machine.Valid() && this !in machine.Parts()
      modifies machine.Parts()
      ensures Valid() && Pumping() == SerialPump.SetConnected(old(Pumping()), up)
      ensures machine.clock == old(machine.clock) && machine.cpuCycleOverrun == old(machine.cpuCycleOverrun)
    {
      machine.SetSerialConnected(up);
    }

    method SetClearToSend(clear: bool)
      requires Valid()
      modifies machine.Parts()
      ensures Valid() && Pumping() == SerialPump.SetClearToSend(old(Pumping()), clear)
      ensures machine.clock == old(machine.clock) && machine.cpuCycleOverrun == old(machine.cpuCycleOverrun)
    {
      machine.SetSerialClearToSend(clear);
    }

    method QueueReceived(value: byte) returns (ok: bool)
      requires Valid()
      modifies this`history, machine.uart`line
      ensures Valid() && (ok <==> AcceptsInput(old(Pumping())))
      ensures Pumping() == if ok then Entered(old(Pumping()), value) else old(Pumping())
    {
      ok := machine.QueueSerialReceivedByte(value);
      if ok {
        history := history.(entered := history.entered + [value]);
      }
    }

    method TakeCompletedByte() returns (value: Option<byte>)
      requires Valid()
      modifies machine.uart`tx
      ensures Valid()
      ensures var p := old(Pumping());
              if p.uart.tx.completed == [] then value == None && Pumping() == p
              else value == Some(p.uart.tx.completed[0]) && Pumping() == TakeCompleted(p)
    {
      value := machine.TakeSerialTransmittedByte();
    }

    method RetryPendingInput()
      requires Valid()
      modifies this`pendingInput, this`history, machine.uart`line
      ensures Valid() && Pumping() == RetryInput(old(Pumping()))
    {
      if pendingInput.Some? {
        var ok := QueueReceived(pendingInput.value);
        if ok {
          pendingInput := None;
        }
      }
    }

    /** One byte goes from the link to the machine, or into the slot. */
    method MoveInputByte()
      requires Valid() && pendingInput.None? && link.incoming != []
      modifies this`link, this`pendingInput, this`history, machine.uart`line
      ensures Valid() && Pumping() == InputMoved(old(Pumping()))
    {
      var value := link.incoming[0];
      link := link.(incoming := link.incoming[1..]);
      var ok := QueueReceived(value);
      if !ok {
        pendingInput := Some(value);
      }
    }

    method MoveInputBytes()
      requires Valid()
      modifies this`link, this`pendingInput, this`history, machine.uart`line
      ensures Valid() && Pumping() == MoveInput(RetryInput(old(Pumping())))
    {
      ghost var target := MoveInput(RetryInput(Pumping()));
      RetryPendingInput();
      while pendingInput.None? && link.incoming != []
        invariant Valid() && MoveInput(Pumping()) == target
        decreases |link.incoming|
      {
        InputGoesOn(Pumping());
        MoveInputByte();
      }
    }

    method QueueTransmit(value: byte) returns (ok: bool)
      modifies this`link, this`history
      ensures ok <==> AcceptsOutput(old(Pumping()))
      ensures Pumping() == if ok then Sent(old(Pumping()), value) else old(Pumping())
    {
      if !link.connected || |link.outgoing| >= LINK_QUEUE_CAPACITY {
        return false;
      }
      link := link.(outgoing := link.outgoing + [value]);
      history := history.(accepted := history.accepted + [value]);
      return true;
    }

    method RetryPendingOutput()
      requires Valid()
      modifies this`link, this`pendingOutput, this`history
      ensures Valid() && Pumping() == RetryOutput(old(Pumping()))
    {
      if pendingOutput.Some? {
        var ok := QueueTransmit(pendingOutput.value);
        if ok {
          pendingOutput := None;
        }
      }
    }

    /** One byte goes from the machine to the link, or into the slot. */
    method MoveOutputByte()
      requires Valid() && pendingOutput.None? && machine.uart.tx.completed != []
      modifies this`link, this`pendingOutput, this`history, machine.uart`tx
      ensures Valid() && Pumping() == OutputMoved(old(Pumping()))
    {
      var taken := TakeCompletedByte();
      OfferToLink(taken.value);
    }

    method OfferToLink(value: byte)
      modifies this`link, this`pendingOutput, this`history
      ensures var p := old(Pumping());
              Pumping() == if AcceptsOutput(p) then Sent(p, value) else p.(pendingOutput := Some(value))
    {
      var ok := QueueTransmit(value);
      if !ok {
        pendingOutput := Some(value);
      }
    }

    method MoveOutputBytes()
      requires Valid()
      modifies this`link, this`pendingOutput, this`history, machine.uart`tx
      ensures Valid() && Pumping() == MoveOutput(RetryOutput(old(Pumping())))
    {
      ghost var target := MoveOutput(RetryOutput(Pumping()));
      RetryPendingOutput();
      while pendingOutput.None? && machine.uart.tx.completed != []
        invariant Valid() && MoveOutput(Pumping()) == target
        decreases |machine.uart.tx.completed|
      {
        OutputGoesOn(Pumping());
        MoveOutputByte();
      }
    }

    method ExchangeBytes()
      requires Valid()
      modifies this, machine.Parts()
      ensures Valid() && State() == OnPump(old(State()), Exchange(old(Pumping())))
      ensures old(machine.serialConnected && link.connected) ==> Exchanged(old(Pumping()), Pumping())
    {
      if machine.serialConnected && link.connected {
        ExchangeMoves(Pumping());
      }
      MoveInputBytes();
      MoveOutputBytes();
      SetClearToSend(pendingOutput.None?);
    }

    method PollLink(poll: Poll)
      requires Valid()
      modifies this`link
      ensures Valid() && State() == OnPump(old(State()), old(Pumping()).(link := Polled(old(link), poll)))
    {
      link := Polled(link, poll);
    }

    /** Before the exchange; a new connection finds the slots as they are. */
    method NoticeBefore()
      requires Valid()
      modifies this, machine.Parts()
      ensures Valid() && State() == OnPump(old(State()), NoticeFirst(old(Pumping())))
    {
      if machine.serialConnected != link.connected {
        SetConnected(link.connected);
        if !link.connected {
          pendingInput, pendingOutput := None, None;
        }
      }
    }

    method NoticeAfter()
      requires Valid()
      modifies this, machine.Parts()
      ensures Valid() && State() == OnPump(old(State()), NoticeLast(old(Pumping())))
    {
      if machine.serialConnected != link.connected {
        SetConnected(link.connected);
        pendingInput, pendingOutput := None, None;
      }
    }

    /** The front end calls this before and after every run of the machine. */
    method SynchronizeSerial(polls: (Poll, Poll))
      requires Valid()
      modifies this, machine.Parts()
      ensures Valid() && State() == Pumped(old(State()), polls)
      ensures Progresses(old(machine.serialConnected), polls, Pumping())
    {
      SynchronizingProgresses(Pumping(), polls.0, polls.1);
      PollLink(polls.0);
      NoticeBefore();
      if !link.connected {
        return;
      }
      ExchangeBytes();
      PollLink(polls.1);
      NoticeAfter();
    }

    /** A frame's worth of cycles. */
    method RunFrame(instructions: seq<Instruction>) returns (ghost work: Work)
      requires Valid() && AllSane(instructions) && CYCLES_PER_FRAME <= |instructions|
      requires forall k :: 0 <= k < |instructions| ==> instructions[k].executed <= LONGEST_INSTRUCTION
      modifies machine.Parts()
      ensures Valid() && Possible(old(State()).overrun, work) && State() == Ran(old(State()), work)
    {
      ghost var before := machine.State();
      var used;
      ghost var done;
      used, done := machine.RunCycles(CYCLES_PER_FRAME, instructions);
      SerialRuns.MachineDrivesUart(before, done);
      work := Running(instructions, SerialRuns.CountersOne(before, done));
    }

    method RunUnlessPaused(paused: bool, instructions: seq<Instruction>) returns (ghost work: Work)
      requires Valid() && AllSane(instructions) && CYCLES_PER_FRAME <= |instructions|
      requires forall k :: 0 <= k < |instructions| ==> instructions[k].executed <= LONGEST_INSTRUCTION
      modifies machine.Parts()
      ensures Valid() && Possible(old(State()).overrun, work) && State() == Ran(old(State()), work)
    {
      work := Paused;
      if !paused {
        work := RunFrame(instructions);
      }
    }

    method ResetMachine()
      requires Valid()
      modifies machine.Parts()
      ensures Valid() && State() == ResetFront(old(State()))
    {
      machine.Reset();
    }

    /** One turn of the loop. */
    method RunTurn(before: (Poll, Poll), paused: bool, instructions: seq<Instruction>, after: (Poll, Poll), reset: bool)
      returns (ghost turn: Turn)
      requires Valid() && AllSane(instructions) && CYCLES_PER_FRAME <= |instructions|
      requires forall k :: 0 <= k < |instructions| ==> instructions[k].executed <= LONGEST_INSTRUCTION
      modifies this, machine.Parts()
      ensures Valid() && turn.before == before && turn.after == after && turn.reset == reset
      ensures Possible(old(State()).overrun, turn.work) && State() == Turned(old(State()), turn)
      ensures Good(old(State())) ==> TurnNeverDrops(old(State()), turn) && Good(State())
    {
      ghost var start := State();
      SynchronizeSerial(before);
      ghost var work := RunUnlessPaused(paused, instructions);
      SynchronizeSerial(after);
      if reset {
        ResetMachine();
      }
      turn := Turn(before, work, after, reset);
      if Good(start) {
        TurnIsGood(start, turn);
      }
    }
  }
}
