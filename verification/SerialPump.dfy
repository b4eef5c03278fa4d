/** The serial pump of the front end: between two runs of the machine it moves bytes between the
    TCP link and the UART, with one byte of slack in each direction, and closes CTS when the link
    does not keep up.  The network is an arbitrary environment. */
module SerialPump {
  import opened Bytes
  import opened Wrappers
  import opened Uart8251

  const LINK_QUEUE_CAPACITY: nat := 4_096

  datatype Link = Link(connected: bool, incoming: seq<byte>, outgoing: seq<byte>)

  /** What the network does during one poll of the link: whether there is a connection after it,
      how many bytes go out, and what comes in. */
  datatype Poll = Poll(up: bool, sent: nat, arrived: seq<byte>)

  /** Model-only record of all bytes the link has accepted and all bytes the UART has been given
      since the front end was started. */
  datatype History = History(accepted: seq<byte>, entered: seq<byte>)

  datatype Pump = Pump(uart: UartState, link: Link, pendingInput: Option<byte>, pendingOutput: Option<byte>,
                       connected: bool, clearToSend: bool, history: History)


  function Polled(link: Link, poll: Poll): Link {
    if link.connected && poll.up then
      var room := if |link.incoming| < LINK_QUEUE_CAPACITY then LINK_QUEUE_CAPACITY - |link.incoming| else 0;
      Link(true, link.incoming + poll.arrived[..Min(|poll.arrived|, room)],
           link.outgoing[Min(poll.sent, |link.outgoing|)..])
    else Link(poll.up, [], [])
  }

  // ---------------------------------------------------------------- the machine's side

  function SetConnected(p: Pump, connected: bool): Pump {
    p.(connected := connected, clearToSend := true, uart := Connected(p.uart, connected))
  }

  function SetClearToSend(p: Pump, clear: bool): Pump {
    p.(clearToSend := clear, uart := p.uart.(control := p.uart.control.(cts := p.connected && clear)))
  }

  /** A machine reset; the connection is managed by the front end. */
  function MachineReset(p: Pump): Pump {
    p.(uart := UART_RESET.(control := UART_RESET.control.(cts := p.connected && p.clearToSend, dsr := p.connected)))
  }

  predicate AcceptsInput(p: Pump) {
    p.connected && |p.uart.line.queue| < HOST_QUEUE_CAPACITY
  }

  function Entered(p: Pump, value: byte): Pump {
    p.(uart := p.uart.(line := p.uart.line.(queue := p.uart.line.queue + [value])),
       history := p.history.(entered := p.history.entered + [value]))
  }

  predicate AcceptsOutput(p: Pump) {
    p.link.connected && |p.link.outgoing| < LINK_QUEUE_CAPACITY
  }

  function Sent(p: Pump, value: byte): Pump {
    p.(link := p.link.(outgoing := p.link.outgoing + [value]),
       history := p.history.(accepted := p.history.accepted + [value]))
  }

  // ---------------------------------------------------------------- the two loops

  function RetryInput(p: Pump): Pump {
    if p.pendingInput.Some? && AcceptsInput(p) then Entered(p, p.pendingInput.value).(pendingInput := None) else p
  }

  /** One byte goes from the link to the UART, or into the slot. */
  function InputMoved(p: Pump): Pump
    requires p.link.incoming != []
  {
    var value := p.link.incoming[0];
    var q := p.(link := p.link.(incoming := p.link.incoming[1..]));
    if AcceptsInput(q) then Entered(q, value) else q.(pendingInput := Some(value))
  }

  /** While the input slot is free, bytes go from the link to the UART. */
  function MoveInput(p: Pump): Pump
    decreases p.link.incoming
  {
    if p.pendingInput.Some? || p.link.incoming == [] then p else MoveInput(InputMoved(p))
  }

  lemma {:induction false} InputGoesOn(p: Pump)
    requires p.pendingInput.None? && p.link.incoming != []
    ensures MoveInput(p) == MoveInput(InputMoved(p)) && |InputMoved(p).link.incoming| < |p.link.incoming|
  {
  }

  function RetryOutput(p: Pump): Pump {
    if p.pendingOutput.Some? && AcceptsOutput(p) then Sent(p, p.pendingOutput.value).(pendingOutput := None) else p
  }

  function TakeCompleted(p: Pump): Pump
    requires p.uart.tx.completed != []
  {
    p.(uart := p.uart.(tx := p.uart.tx.(completed := p.uart.tx.completed[1..])))
  }

  /** One byte goes from the UART to the link, or into the slot. */
  function OutputMoved(p: Pump): Pump
    requires p.uart.tx.completed != []
  {
    var value := p.uart.tx.completed[0];
    var q := TakeCompleted(p);
    if AcceptsOutput(q) then Sent(q, value) else q.(pendingOutput := Some(value))
  }

  /** While the output slot is free, bytes go from the UART to the link. */
  function MoveOutput(p: Pump): Pump
    decreases p.uart.tx.completed
  {
    if p.pendingOutput.Some? || p.uart.tx.completed == [] then p else MoveOutput(OutputMoved(p))
  }

  lemma {:induction false} OutputGoesOn(p: Pump)
    requires p.pendingOutput.None? && p.uart.tx.completed != []
    ensures MoveOutput(p) == MoveOutput(OutputMoved(p))
    ensures |OutputMoved(p).uart.tx.completed| < |p.uart.tx.completed|
  {
  }

  // ---------------------------------------------------------------- one synchronization

  function NoticeFirst(p: Pump): Pump {
    if p.connected == p.link.connected then p
    else
      var q := SetConnected(p, p.link.connected);
      if p.link.connected then q else q.(pendingInput := None, pendingOutput := None)
  }

  function NoticeLast(p: Pump): Pump {
    if p.connected == p.link.connected then p
    else SetConnected(p, p.link.connected).(pendingInput := None, pendingOutput := None)
  }

  function Exchange(p: Pump): Pump {
    var q := MoveOutput(RetryOutput(MoveInput(RetryInput(p))));
    SetClearToSend(q, q.pendingOutput.None?)
  }

  function Synchronized(p: Pump, first: Poll, second: Poll): Pump {
    var q := NoticeFirst(p.(link := Polled(p.link, first)));
    if !q.link.connected then q
    else
      var r := Exchange(q);
      NoticeLast(r.(link := Polled(r.link, second)))
  }
}
