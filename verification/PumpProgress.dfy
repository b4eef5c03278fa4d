/** The pump never stalls: after an exchange a byte waits only where the queue in front of it is full,
    and what has been moved stands in the queues, in order. */
module PumpProgress {
  import opened Bytes
  import opened Wrappers
  import opened Uart8251
  import opened SerialPump
  import opened BackPressure

  // ---------------------------------------------------------------- what stands in the queues

  /** On the way out: the link's queue, the slot, the UART's queue. */
  function Leaving(p: Pump): seq<byte> {
    p.link.outgoing + Slot(p.pendingOutput) + p.uart.tx.completed
  }

  /** On the way in: the UART's queue, the slot, the link's queue. */
  function Arriving(p: Pump): seq<byte> {
    p.uart.line.queue + Slot(p.pendingInput) + p.link.incoming
  }

  /** An output byte waits only for a full link, and CTS says which it is. */
  predicate OutputMoves(q: Pump) {
    && (q.pendingOutput.Some? ==> |q.link.outgoing| >= 4_096 && !q.uart.control.cts)
    && (q.pendingOutput.None? ==> q.uart.tx.completed == [] && q.uart.control.cts)
  }

  /** An input byte waits only for a full UART. */
  predicate InputMoves(q: Pump) {
    && (q.pendingInput.Some? ==> |q.uart.line.queue| >= 4_096)
    && (q.pendingInput.None? ==> q.link.incoming == [])
  }

  /** Nothing but the way in has moved. */
  predicate OnlyInward(p: Pump, q: Pump) {
    && q == p.(uart := p.uart.(line := p.uart.line.(queue := q.uart.line.queue)), link := p.link.(incoming := q.link.incoming),
               pendingInput := q.pendingInput, history := q.history)
    && Arriving(q) == Arriving(p)
  }

  predicate OnlyOutward(p: Pump, q: Pump) {
    && q == p.(uart := p.uart.(tx := p.uart.tx.(completed := q.uart.tx.completed)),
               link := p.link.(outgoing := q.link.outgoing),
               pendingOutput := q.pendingOutput, history := q.history)
    && Leaving(q) == Leaving(p)
  }

  // ---------------------------------------------------------------- the way in

  lemma {:induction false} OneMovesIn(p: Pump)
    requires p.pendingInput.None? && p.link.incoming != []
    ensures OnlyInward(p, InputMoved(p))
    ensures p.connected && InputMoved(p).pendingInput.Some? ==> |InputMoved(p).uart.line.queue| >= 4_096
  {
    assert p.link.incoming == [p.link.incoming[0]] + p.link.incoming[1..];
  }

  lemma {:induction false} AllMoveIn(p: Pump)
    requires p.connected && (p.pendingInput.Some? ==> |p.uart.line.queue| >= 4_096)
    ensures OnlyInward(p, MoveInput(p)) && InputMoves(MoveInput(p))
    decreases p.link.incoming
  {
    if p.pendingInput.None? && p.link.incoming != [] {
      OneMovesIn(p);
      AllMoveIn(InputMoved(p));
    }
  }

  lemma {:induction false} WaitingMovesIn(p: Pump)
    requires p.connected
    ensures OnlyInward(p, RetryInput(p)) && (RetryInput(p).pendingInput.Some? ==> |RetryInput(p).uart.line.queue| >= 4_096)
  {
  }

  // ---------------------------------------------------------------- the way out

  lemma {:induction false} OneMovesOut(p: Pump)
    requires p.pendingOutput.None? && p.uart.tx.completed != []
    ensures OnlyOutward(p, OutputMoved(p))
    ensures p.link.connected && OutputMoved(p).pendingOutput.Some? ==> |OutputMoved(p).link.outgoing| >= 4_096
  {
    assert p.uart.tx.completed == [p.uart.tx.completed[0]] + p.uart.tx.completed[1..];
  }

  lemma {:induction false} AllMoveOut(p: Pump)
    requires p.link.connected && (p.pendingOutput.Some? ==> |p.link.outgoing| >= 4_096)
    ensures OnlyOutward(p, MoveOutput(p))
    ensures MoveOutput(p).pendingOutput.Some? ==> |MoveOutput(p).link.outgoing| >= 4_096
    ensures MoveOutput(p).pendingOutput.None? ==> MoveOutput(p).uart.tx.completed == []
    decreases p.uart.tx.completed
  {
    if p.pendingOutput.None? && p.uart.tx.completed != [] {
      OneMovesOut(p);
      AllMoveOut(OutputMoved(p));
    }
  }

  lemma {:induction false} WaitingMovesOut(p: Pump)
    requires p.link.connected
    ensures OnlyOutward(p, RetryOutput(p)) && (RetryOutput(p).pendingOutput.Some? ==> |RetryOutput(p).link.outgoing| >= 4_096)
  {
  }

  // ---------------------------------------------------------------- one exchange

  /** Between the polls: what can move has moved, nothing is lost, and nothing else has changed. */
  predicate Exchanged(p: Pump, q: Pump) {
    && q.connected && q.link.connected && OutputMoves(q) && InputMoves(q)
    && Leaving(q) == Leaving(p) && Arriving(q) == Arriving(p)
    && q.uart.sampler == p.uart.sampler && q.uart.data == p.uart.data && q.uart.rxd == p.uart.rxd && q.uart.sync == p.uart.sync
    && q.uart.tx == p.uart.tx.(completed := q.uart.tx.completed) && q.uart.line == p.uart.line.(queue := q.uart.line.queue)
    && q.uart.control == p.uart.control.(cts := q.uart.control.cts)
  }

  lemma {:induction false} ExchangeMoves(p: Pump)
    requires p.connected && p.link.connected
    ensures Exchanged(p, Exchange(p))
  {
    WaitingMovesIn(p);
    AllMoveIn(RetryInput(p));
    var r := MoveInput(RetryInput(p));
    WaitingMovesOut(r);
    AllMoveOut(RetryOutput(r));
  }

  // ---------------------------------------------------------------- one synchronization

  /** At the end of a synchronization during which a connection was up: an output byte waits only for a
      link that was full before it sent what it could, or else the UART's queue is empty and CTS is on; an
      input byte waits only for a full UART, or else everything that had been received before the second
      poll has entered. */
  predicate CaughtUp(q: Pump, second: Poll) {
    && q.connected && q.link.connected
    && (q.pendingOutput.Some? ==> |q.link.outgoing| + second.sent >= 4_096 && !q.uart.control.cts)
    && (q.pendingOutput.None? ==> q.uart.tx.completed == [] && q.uart.control.cts)
    && (q.pendingInput.Some? ==> |q.uart.line.queue| >= 4_096)
    && (q.pendingInput.None? ==> q.link.incoming == second.arrived[..Min(|second.arrived|, 4_096)])
  }

  /** At the end of one that found a connection gone: CTS is off, and nothing of it is left. */
  predicate HungUp(q: Pump) {
    && !q.connected && !q.link.connected && q.pendingInput.None? && q.pendingOutput.None?
    && q.link.incoming == [] && q.link.outgoing == []
    && q.uart.tx.completed == [] && q.uart.line.queue == [] && !q.uart.line.active && q.uart.rxd
    && q.uart.sampler.phase == Idle && !q.uart.control.cts && !q.uart.control.dsr
  }

  lemma {:induction false} LastPoll(r: Pump, second: Poll)
    requires r.connected && r.link.connected && OutputMoves(r) && InputMoves(r) && second.up
    ensures CaughtUp(NoticeLast(r.(link := Polled(r.link, second))), second)
  {
  }

  lemma {:induction false} LastHangUp(r: Pump, second: Poll)
    requires r.connected && r.link.connected && !second.up
    ensures HungUp(NoticeLast(r.(link := Polled(r.link, second))))
  {
  }

  lemma {:induction false} FirstNotice(p: Pump, first: Poll)
    ensures var q := NoticeFirst(p.(link := Polled(p.link, first)));
            && q.connected == q.link.connected == first.up
            && (p.connected && !first.up ==> HungUp(q))
  {
  }

  /** What a synchronization leaves behind, whether there was a connection before or not. */
  predicate Progresses(connected: bool, polls: (Poll, Poll), q: Pump) {
    match q
    case Pump(_, _, _, _, _, _, _) =>
      && (polls.0.up && polls.1.up ==> CaughtUp(q, polls.1) && (!connected ==> q.uart.control.dsr))
      && (polls.0.up && !polls.1.up ==> HungUp(q))
      && (connected && !polls.0.up ==> HungUp(q))
  }

  lemma {:induction false} DataSetReady(p: Pump, first: Poll, second: Poll)
    requires first.up && second.up && !p.connected
    ensures Synchronized(p, first, second).uart.control.dsr
  {
    var q := NoticeFirst(p.(link := Polled(p.link, first)));
    ExchangeMoves(q);
  }

  /** A synchronization makes progress: with the network up the pump has caught up, and CTS is on again
      as soon as nothing waits; without it everything of the connection is gone. */
  lemma {:induction false} SynchronizingProgresses(p: Pump, first: Poll, second: Poll)
    ensures Progresses(p.connected, (first, second), Synchronized(p, first, second))
  {
    FirstNotice(p, first);
    var q := NoticeFirst(p.(link := Polled(p.link, first)));
    if first.up {
      ExchangeMoves(q);
      if second.up {
        LastPoll(Exchange(q), second);
        if !p.connected {
          DataSetReady(p, first, second);
        }
      } else {
        LastHangUp(Exchange(q), second);
      }
    }
  }
}
