/** The two main threads, cut into the statements between which the network thread of the
    same process can run. A `Turn` is one scheduling decision on the client. */
module Threads {
  import opened Pdus
  import opened SlidingWindow
  import opened Handlers

  const MAX_ATTEMPTS: nat := 10
  const MEASURE_PACKETS: nat := 100
  const WINDOW_SIZE: nat := 10

  /** Percentage computed from the counted ACKs; the C `float` is exact on integers. */
  function LossRate(received: nat): real {
    100.0 - 100.0 * (received as real) / (MEASURE_PACKETS as real)
  }

  /** The number of losses tolerated in a window of ten; None refuses the connection. */
  function Negotiate(received: nat): Option<int> {
    var loss := LossRate(received);
    if loss < 2.0 then Some(0)
    else if loss >= 2.0 && loss < 5.0 then Some(1)
    else if loss >= 5.0 && loss < 12.0 then Some(2)
    else if loss >= 12.0 && loss <= 20.0 then Some(3)
    else None
  }

  /** How the last call to mic_tcp_send returned. */
  datatype CallResult = NoCall | Failed | Tolerated | Delivered

  /** Where the client's main thread stands. */
  datatype Pc =
    | Unconnected
    | SynDue
    | AwaitSynAck
    | AckDue
    | LaunchDue
    | MeasuringDue
    | MeasureDue(sent: nat)
    | NegotiateDue
    | EstablishDue
    | Ready(result: CallResult)
    | ReadSeq(msg: Payload)
    | ReadExpected(msg: Payload, seqNum: U32)
    | SendDue(msg: Payload, seqNum: U32, base: U32)
    | WaitDue(msg: Payload, base: U32)
    | Waiting(msg: Payload, base: U32)
    | Woken(msg: Payload, base: U32)
    | CloseEntry
    | FinDue(attempts: nat)
    | FinWaitDue(attempts: nat)
    | FinWaiting(attempts: nat)
    | FinalAckDue(finAckReceived: bool)
    | CloseDue(finAckReceived: bool)
    | Finished

  predicate InSend(pc: Pc) {
    pc.ReadSeq? || pc.ReadExpected? || pc.SendDue? || pc.WaitDue? || pc.Waiting? || pc.Woken?
  }

  predicate InClose(pc: Pc) {
    pc.CloseEntry? || pc.FinDue? || pc.FinWaitDue? || pc.FinWaiting? || pc.FinalAckDue? || pc.CloseDue?
  }

  datatype Client = Client(sock: Sock, pc: Pc, listening: bool)

  datatype Turn =
    | Main(ipOk: bool)                  // the main thread runs its next statement
    | Deliver(pdu: Pdu, ipOk: bool)     // the process receives a PDU
    | Timeout                           // a timed wait ends with ETIMEDOUT
    | WaitError                         // a timed wait ends with another error
    | Spurious                          // a wait ends without a signal
    | CallConnect
    | CallSend(msg: Payload)
    | CallClose

  datatype Out = Out(client: Client, emitted: Option<Pdu>)

  function Goto(c: Client, pc: Pc): Out { Out(c.(pc := pc), None) }

  /** A wait on the condition variable returns 0. */
  function Wake(pc: Pc): Pc {
    match pc
    case Waiting(msg, base) => Woken(msg, base)
    case FinWaiting(_) => FinalAckDue(true)
    case _ => pc
  }

  /** The head of mic_tcp_close's loop when no FIN+ACK has come yet. */
  function FinLoop(attempts: nat): Pc {
    if attempts < MAX_ATTEMPTS then FinDue(attempts) else FinalAckDue(false)
  }

  function Record(s: Sock, received: bool): Sock {
    s.(slidingWindow := Push(s.slidingWindow, s.windowSize, received))
  }

  /** A PDU reaches the listening thread if there is one, mic_tcp_connect's IP_recv if it is
      waiting there, and otherwise nobody. The thread leaves its loop once the state is CLOSED. */
  function Receive(c: Client, p: Pdu, ipOk: bool): Out {
    if c.listening then
      var r := ClientHandle(c.sock, p, ipOk);
      Out(Client(r.sock, if r.signal then Wake(c.pc) else c.pc, r.sock.state != Closed), r.reply)
    else if c.pc.AwaitSynAck? && IsSynAck(p) then
      Goto(c, AckDue)
    else
      Goto(c, c.pc)
  }

  function OnTimeout(c: Client): Out {
    match c.pc
    case AwaitSynAck => Goto(c, SynDue)
    case Waiting(msg, _) =>
      if Tolerates(c.sock.slidingWindow, c.sock.windowSize, c.sock.allowedLosses) then
        Out(c.(sock := Record(c.sock, false), pc := Ready(Tolerated)), None)
      else
        Goto(c, ReadSeq(msg))
    case FinWaiting(k) => Goto(c, FinLoop(k + 1))
    case _ => Goto(c, c.pc)
  }

  /** mic_tcp_connect. */
  function ConnectStep(c: Client, ipOk: bool): Out {
    match c.pc
    case SynDue =>
      if ipOk then Out(c.(sock := c.sock.(state := SynSent), pc := AwaitSynAck), Some(SYN)) else Goto(c, SynDue)
    case AckDue =>
      var r := SendConnectionAcknowledgement(c.sock, ipOk);
      Out(c.(sock := r.sock, pc := if ipOk then LaunchDue else Finished), r.reply)
    case LaunchDue =>
      if ipOk then Out(c.(pc := MeasuringDue, listening := true), None) else Goto(c, Finished)
    case MeasuringDue =>
      Out(c.(sock := c.sock.(state := MeasuringReliability), pc := MeasureDue(0)), None)
    case MeasureDue(i) =>
      Out(c.(pc := if i + 1 < MEASURE_PACKETS then MeasureDue(i + 1) else NegotiateDue), Transmit(ipOk, MEASUREMENT))
    case NegotiateDue =>
      var n := Negotiate(c.sock.receivedPackets);
      if n.Some? then
        Out(c.(sock := c.sock.(windowSize := WINDOW_SIZE, allowedLosses := n.value), pc := EstablishDue), None)
      else
        Out(c.(sock := c.sock.(windowSize := WINDOW_SIZE), pc := CloseEntry), None)
    case EstablishDue =>
      Out(c.(sock := c.sock.(state := Established), pc := Ready(NoCall)), None)
    case _ => Goto(c, c.pc)
  }

  /** mic_tcp_send. */
  function SendStep(c: Client, ipOk: bool): Out {
    match c.pc
    case ReadSeq(msg) => Goto(c, ReadExpected(msg, c.sock.currentSeqNum))
    case ReadExpected(msg, n) => Goto(c, SendDue(msg, n, c.sock.currentSeqNum))
    case SendDue(msg, n, base) =>
      if ipOk then Out(c.(pc := WaitDue(msg, base)), Some(Data(n, msg))) else Goto(c, Ready(Failed))
    case WaitDue(msg, base) => Goto(c, Waiting(msg, base))
    case Woken(msg, base) =>
      if c.sock.currentSeqNum != Next(base) then
        Goto(c, ReadSeq(msg))
      else
        Out(c.(sock := Record(c.sock, true), pc := Ready(Delivered)), None)
    case _ => Goto(c, c.pc)
  }

  /** mic_tcp_close. */
  function CloseStep(c: Client, ipOk: bool): Out {
    match c.pc
    case CloseEntry => Out(c.(sock := c.sock.(state := Closing), pc := FinDue(0)), None)
    case FinDue(k) =>
      if ipOk then Out(c.(pc := FinWaitDue(k)), Some(FIN)) else Goto(c, FinLoop(k + 1))
    case FinWaitDue(k) => Goto(c, FinWaiting(k))
    case FinalAckDue(f) => Out(c.(pc := CloseDue(f)), Transmit(ipOk, Ack(0)))
    case CloseDue(_) => Out(c.(sock := c.sock.(state := Closed), pc := Finished), None)
    case _ => Goto(c, c.pc)
  }

  /** The main thread's next statement; it stays put where it waits. */
  function MainStep(c: Client, ipOk: bool): Out {
    if InSend(c.pc) then SendStep(c, ipOk)
    else if InClose(c.pc) then CloseStep(c, ipOk)
    else ConnectStep(c, ipOk)
  }

  /** One turn of the client. A turn that does not apply leaves everything as it is. */
  function ClientDo(c: Client, t: Turn): Out {
    match t
    case Main(ipOk) => MainStep(c, ipOk)
    case Deliver(p, ipOk) => Receive(c, p, ipOk)
    case Timeout => OnTimeout(c)
    case WaitError =>
      Goto(c, if c.pc.Waiting? then Ready(Failed) else if c.pc.FinWaiting? then Finished else c.pc)
    case Spurious => Goto(c, Wake(c.pc))
    case CallConnect => Goto(c, if c.pc.Unconnected? then SynDue else c.pc)
    case CallSend(msg) =>
      Goto(c, if !c.pc.Ready? then c.pc else if c.sock.state == Established then ReadSeq(msg) else Ready(Failed))
    case CallClose => Goto(c, if c.pc.Ready? then CloseEntry else c.pc)
  }

  // ---- The server's main thread: mic_tcp_accept ----

  datatype AcceptPc = NotCalled | Armed | WaitingSyn | Checking | SynAckDue | TimedWait | Returned(ok: bool)

  datatype Server = Server(sock: Sock, pc: AcceptPc, buffer: seq<Payload>)

  datatype AcceptTurn = AcceptCall | AcceptMain(ipOk: bool) | AcceptError | AcceptSpurious

  datatype AcceptOut = AcceptOut(server: Server, emitted: Option<Pdu>)

  function AcceptGoto(s: Server, pc: AcceptPc): AcceptOut { AcceptOut(s.(pc := pc), None) }

  function AcceptDo(s: Server, t: AcceptTurn): AcceptOut {
    match t
    case AcceptCall =>
      if s.pc.NotCalled? || s.pc.Returned? then AcceptOut(s.(sock := s.sock.(state := Accepting), pc := Armed), None)
      else AcceptGoto(s, s.pc)
    case AcceptMain(ipOk) =>
      (match s.pc
       case Armed => AcceptGoto(s, WaitingSyn)
       case Checking => AcceptGoto(s, if s.sock.state == SynReceived then SynAckDue else Returned(true))
       case SynAckDue => AcceptOut(s.(pc := if ipOk then TimedWait else Checking), Transmit(ipOk, SYN_ACK))
       case TimedWait => AcceptGoto(s, Checking)
       case _ => AcceptGoto(s, s.pc))
    case AcceptError =>
      AcceptGoto(s, if s.pc.WaitingSyn? || s.pc.TimedWait? then Returned(false) else s.pc)
    case AcceptSpurious => AcceptGoto(s, if s.pc.WaitingSyn? then Checking else s.pc)
  }

  /** The server after its network thread's reaction r to a PDU with this payload: a signal ends
      the untimed wait for a SYN, an accepted payload joins the application buffer. */
  function Absorb(s: Server, payload: Payload, r: Reaction): Server {
    Server(r.sock,
           if r.signal && s.pc.WaitingSyn? then Checking else s.pc,
           if r.accepted then s.buffer + [payload] else s.buffer)
  }
}
