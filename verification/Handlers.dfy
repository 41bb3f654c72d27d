/** What one received PDU does to a socket, on each side. */
module Handlers {
  import opened Pdus

  datatype ProtocolState =
    | Idle | Closed | SynSent | MeasuringReliability | Accepting | SynReceived
    | Established | Closing | AwaitingClosing

  /** The fields of `mic_tcp_sock` that the protocol reads. */
  datatype Sock = Sock(
    state: ProtocolState,
    currentSeqNum: U32,
    slidingWindow: nat,
    allowedLosses: int,
    windowSize: nat,
    receivedPackets: nat)

  /** A handler's effect: the new socket, the PDU it sent, whether it put the payload in the
      application buffer, and whether it signalled the socket's condition variable. */
  datatype Reaction = Reaction(sock: Sock, reply: Option<Pdu>, accepted: bool, signal: bool)

  function Ignore(s: Sock): Reaction { Reaction(s, None, false, false) }

  function HandleAwaitingClosing(s: Sock, p: Pdu, ipOk: bool): Reaction {
    if IsAck(p) then
      Reaction(s.(state := Closed), None, false, false)
    else if IsFin(p) then
      Reaction(s, Transmit(ipOk, FIN_ACK), false, false)
    else
      Ignore(s)
  }

  /** `ipOk` tells whether IP_send succeeds for the PDU the handler sends. */
  function ServerHandle(s: Sock, p: Pdu, ipOk: bool): Reaction {
    if s.state != AwaitingClosing && IsFin(p) then
      Reaction(s.(state := AwaitingClosing), Transmit(ipOk, FIN_ACK), false, false)
    else
      match s.state
      case Accepting =>
        if IsSyn(p) then Reaction(s.(state := SynReceived), None, false, true) else Ignore(s)
      case SynReceived =>
        if IsAck(p) then Reaction(s.(state := Established, currentSeqNum := 1), None, false, true) else Ignore(s)
      case Established =>
        if IsData(p) then HandleData(s, p, ipOk) else Ignore(s)
      case AwaitingClosing => HandleAwaitingClosing(s, p, ipOk)
      case Closing => Reaction(s, None, false, IsFinAck(p))
      case _ => Ignore(s)
  }

  function HandleData(s: Sock, p: Pdu, ipOk: bool): Reaction {
    if IsMeasure(p.payload) then
      Reaction(s, Transmit(ipOk, Ack(0)), false, false)
    else
      var accepted := VerifyPdu(p, 0, 0, 0, s.currentSeqNum, 0);
      var expected := if accepted then Next(s.currentSeqNum) else s.currentSeqNum;
      Reaction(s.(currentSeqNum := expected), Transmit(ipOk, Ack(expected)), accepted, false)
  }

  /** Shared by mic_tcp_connect and the client's handler: nothing changes if IP_send fails. */
  function SendConnectionAcknowledgement(s: Sock, ipOk: bool): Reaction {
    if ipOk then
      Reaction(s.(state := Established, currentSeqNum := 1), Some(Ack(0)), false, false)
    else
      Ignore(s)
  }

  function ClientHandle(s: Sock, p: Pdu, ipOk: bool): Reaction {
    if IsSynAck(p) then
      SendConnectionAcknowledgement(s, ipOk)
    else
      match s.state
      case MeasuringReliability =>
        if IsAck(p) then Reaction(s.(receivedPackets := s.receivedPackets + 1), None, false, true) else Ignore(s)
      case Established =>
        if IsAck(p) then
          Reaction(s.(currentSeqNum := p.ackNum), None, false, true)
        else if IsFin(p) then
          Reaction(s.(state := AwaitingClosing), Transmit(ipOk, FIN_ACK), false, false)
        else
          Ignore(s)
      case AwaitingClosing => HandleAwaitingClosing(s, p, ipOk)
      case Closing => Reaction(s, None, false, IsFinAck(p))
      case _ => Ignore(s)
  }
}
