/** How calls end and what PDUs do, one step at a time: which turn ends a call and how, which PDU a
    handler heeds in which state, and what happens when IP_send fails. */
module Outcomes {
  import opened Pdus
  import opened SlidingWindow
  import opened Handlers
  import opened Threads
  import opened Systems

  // ---- PDUs ----

  /** The states in which each kind of PDU means something to a server. */
  predicate ServerExpects(s: ProtocolState, p: Pdu) {
    || IsFin(p)
    || (IsSyn(p) && s == Accepting)
    || (IsAck(p) && (s == SynReceived || s == AwaitingClosing))
    || (IsData(p) && s == Established)
    || (IsFinAck(p) && s == Closing)
  }

  /** A server heeds what it expects and nothing else: any other PDU leaves everything as it is. The
      thread waiting in a call is woken exactly by the SYN, the last ACK of the connection and the
      FIN+ACK. */
  lemma ServerHeeds(s: Sock, p: Pdu, ipOk: bool)
    ensures var r := ServerHandle(s, p, ipOk);
      && (!ServerExpects(s.state, p) ==> r.sock == s && r.reply.None? && !r.accepted)
      && (IsSyn(p) && s.state == Accepting ==> r.sock.state == SynReceived && r.reply.None?)
      && (IsAck(p) && s.state == SynReceived ==>
            r.sock.state == Established && r.sock.currentSeqNum == 1 && r.reply.None?)
      && (IsAck(p) && s.state == AwaitingClosing ==> r.sock.state == Closed && r.reply.None?)
      && (r.signal <==>
          || (IsSyn(p) && s.state == Accepting) || (IsAck(p) && s.state == SynReceived)
          || (IsFinAck(p) && s.state == Closing))
  {
  }

  /** The server answers every FIN, in whatever state and however often it comes; the client does when
      it is ESTABLISHED or has been asked to close before. Nothing but the state changes. */
  lemma FinAnswered(s: Sock, p: Pdu, ipOk: bool)
    requires IsFin(p)
    ensures ServerHandle(s, p, ipOk) ==
            Reaction(s.(state := AwaitingClosing), if ipOk then Some(FIN_ACK) else None, false, false)
    ensures s.state == Established || s.state == AwaitingClosing ==>
              ClientHandle(s, p, ipOk) == ServerHandle(s, p, ipOk)
  {
  }

  predicate ClientExpects(s: ProtocolState, p: Pdu) {
    || IsSynAck(p)
    || (IsAck(p) && (s == MeasuringReliability || s == Established || s == AwaitingClosing))
    || (IsFin(p) && (s == Established || s == AwaitingClosing))
    || (IsFinAck(p) && s == Closing)
  }

  /** The same for the client; closing, both ends react alike. */
  lemma ClientHeeds(s: Sock, p: Pdu, ipOk: bool)
    ensures var r := ClientHandle(s, p, ipOk);
      && !r.accepted
      && (!ClientExpects(s.state, p) ==> r.sock == s && r.reply.None?)
      && (IsAck(p) && s.state == MeasuringReliability ==>
            r.sock == s.(receivedPackets := s.receivedPackets + 1) && r.reply.None?)
      && (IsAck(p) && s.state == Established ==> r.sock == s.(currentSeqNum := p.ackNum) && r.reply.None?)
      && (r.signal <==>
          || (IsAck(p) && (s.state == MeasuringReliability || s.state == Established))
          || (IsFinAck(p) && s.state == Closing))
      && (!IsSynAck(p) && (s.state == AwaitingClosing || (s.state == Closing && !IsFin(p))) ==>
            r == ServerHandle(s, p, ipOk))
  {
  }

  /** A SYN+ACK is acknowledged or it changes nothing: ESTABLISHED, number 1 and the ACK on the wire
      come together, exactly when IP_send succeeds. */
  lemma AcknowledgedOrNothing(c: Client, p: Pdu, ipOk: bool)
    requires IsSynAck(p) && c.listening && c.sock.state != Closed
    ensures var o := ClientDo(c, Deliver(p, ipOk));
      if ipOk then
        && o.emitted == Some(Ack(0)) && o.client == c.(sock := c.sock.(state := Established, currentSeqNum := 1))
      else o.emitted.None? && o.client == c
  {
  }

  /** The listening thread goes on until it finds the socket CLOSED after a PDU. */
  lemma ListensUntilClosed(c: Client, p: Pdu, ipOk: bool)
    requires c.listening
    ensures var o := ClientDo(c, Deliver(p, ipOk)); o.client.listening <==> o.client.sock.state != Closed
  {
  }

  // ---- Turns: mic_tcp_connect ----

  /** Each step of mic_tcp_connect. A SYN is sent until IP_send takes it, then again after each failed
      receive and only then; no other PDU matters. -1 is returned at once only if the ACK cannot be
      sent or the thread not be created; each measurement packet is tried once; below 80 counted ACKs
      the connection is closed. */
  lemma ConnectOutcome(c: Client, t: Turn)
    requires !InSend(c.pc) && !InClose(c.pc) && !c.pc.Ready? && !c.pc.Finished?
    ensures var o := ClientDo(c, t); var pc, pc' := c.pc, o.client.pc;
      && (pc.SynDue? ==> pc' == if t == Main(true) then AwaitSynAck else SynDue)
      && (pc.SynDue? && t == Main(true) ==> o.emitted == Some(SYN) && o.client.sock == c.sock.(state := SynSent))
      && (pc.MeasuringDue? && t.Main? ==>
            pc' == MeasureDue(0) && o.client.sock == c.sock.(state := MeasuringReliability))
      && (pc.AwaitSynAck? && !c.listening ==>
            pc' == if t.Timeout? then SynDue else if t.Deliver? && IsSynAck(t.pdu) then AckDue else AwaitSynAck)
      && (pc.AckDue? && t.Main? ==>
            if t.ipOk then
              && pc' == LaunchDue && o.emitted == Some(Ack(0))
              && o.client.sock.state == Established && o.client.sock.currentSeqNum == 1
            else pc' == Finished && o.emitted.None? && o.client.sock == c.sock)
      && (pc.LaunchDue? && t.Main? ==>
            pc' == (if t.ipOk then MeasuringDue else Finished) && o.client.listening == (t.ipOk || c.listening))
      && (pc.MeasureDue? && t.Main? ==>
            && pc' == (if pc.sent + 1 < 100 then MeasureDue(pc.sent + 1) else NegotiateDue)
            && o.emitted == if t.ipOk then Some(MEASUREMENT) else None)
      && (pc.NegotiateDue? && t.Main? ==>
            && o.client.sock.windowSize == 10
            && pc' == if c.sock.receivedPackets >= 80 then EstablishDue else CloseEntry)
      && (pc.EstablishDue? && t.Main? ==> pc' == Ready(NoCall) && o.client.sock.state == Established)
      && (pc'.Finished? ==> (pc.AckDue? || pc.LaunchDue?) && t == Main(false))
  {
    if c.pc.NegotiateDue? { assert LossRate(c.sock.receivedPackets) == 100.0 - c.sock.receivedPackets as real; }
  }

  // ---- Turns: mic_tcp_send ----

  /** How a send call ends: with -1 exactly if IP_send fails or the wait breaks, as a tolerated loss
      exactly if it times out and the window allows it, as delivered exactly if the number expected is
      there when it wakes; otherwise it goes on, with the same message. */
  lemma SendOutcome(c: Client, t: Turn)
    requires InSend(c.pc)
    ensures var o := ClientDo(c, t); var pc, pc' := c.pc, o.client.pc;
      && (pc' == Ready(Failed) <==> (pc.SendDue? && t == Main(false)) || (pc.Waiting? && t.WaitError?))
      && (pc' == Ready(Tolerated) <==>
          && pc.Waiting? && t.Timeout?
          && Tolerates(c.sock.slidingWindow, c.sock.windowSize, c.sock.allowedLosses))
      && (pc' == Ready(Delivered) <==>
          pc.Woken? && t.Main? && c.sock.currentSeqNum == (pc.base + 1) % 0x1_0000_0000)
      && (!pc'.Ready? ==> InSend(pc') && pc'.msg == pc.msg)
      && pc' != Ready(NoCall)
  {
  }

  /** What a send call puts on the wire: its message under the number it read, exactly when IP_send
      takes it; a transmission that fails leaves nothing behind but the -1. */
  lemma SendEmits(c: Client, t: Turn)
    requires InSend(c.pc) && !t.Deliver?
    ensures var o := ClientDo(c, t);
      && (o.emitted.Some? <==> c.pc.SendDue? && t == Main(true))
      && (o.emitted.Some? ==>
            && o.emitted.value == Data(c.pc.seqNum, c.pc.msg)
            && o.client == c.(pc := WaitDue(c.pc.msg, c.pc.base)))
      && (c.pc.SendDue? && t == Main(false) ==> o.client == c.(pc := Ready(Failed)))
  {
  }

  /** A call on a socket that is not ESTABLISHED returns -1 and does nothing. */
  lemma SendRefused(c: Client, msg: Payload)
    requires c.pc.Ready?
    ensures ClientDo(c, CallSend(msg)) ==
            Out(c.(pc := if c.sock.state == Established then ReadSeq(msg) else Ready(Failed)), None)
  {
  }

  // ---- Turns: mic_tcp_close ----

  /** Each step of mic_tcp_close: a FIN that could not be sent and one whose wait times out count as an
      attempt each, the tenth being the last; a signal leaves the loop, any other error returns -1;
      then the ACK goes out whether or not the loop was left by a signal, and the socket is CLOSED. */
  lemma CloseOutcome(c: Client, t: Turn)
    requires InClose(c.pc) && !t.Deliver?
    ensures var o := ClientDo(c, t); var pc, pc' := c.pc, o.client.pc;
      && (pc.CloseEntry? && t.Main? ==> pc' == FinDue(0) && o.client.sock == c.sock.(state := ProtocolState.Closing))
      && (pc.FinDue? && t == Main(true) ==> pc' == FinWaitDue(pc.attempts) && o.emitted == Some(FIN))
      && ((pc.FinDue? && t == Main(false)) || (pc.FinWaiting? && t.Timeout?) ==>
            && pc' == (if pc.attempts + 1 < 10 then FinDue(pc.attempts + 1) else FinalAckDue(false))
            && o.emitted.None?)
      && (pc.FinWaiting? && t.WaitError? ==> pc' == Finished && o.client.sock == c.sock)
      && (pc.FinWaiting? && t.Spurious? ==> pc' == FinalAckDue(true))
      && (pc.FinalAckDue? && t.Main? ==>
            && pc' == CloseDue(pc.finAckReceived)
            && o.emitted == if t.ipOk then Some(Ack(0)) else None)
      && (pc.CloseDue? && t.Main? ==> pc' == Finished && o.client.sock == c.sock.(state := Closed))
  {
  }

  // ---- Turns: mic_tcp_accept ----

  /** How mic_tcp_accept ends: with -1 exactly when one of its waits breaks, with 0 exactly when it
      finds the state moved on from SYN_RECEIVED; a SYN+ACK that could not be sent leads back to the
      state check. */
  lemma AcceptOutcome(s: Server, t: AcceptTurn)
    requires !s.pc.NotCalled? && !s.pc.Returned?
    ensures var o := AcceptDo(s, t); var pc, pc' := s.pc, o.server.pc;
      && o.server.sock == s.sock && o.server.buffer == s.buffer
      && (pc' == Returned(false) <==> t.AcceptError? && (pc.WaitingSyn? || pc.TimedWait?))
      && (pc' == Returned(true) <==> t.AcceptMain? && pc.Checking? && s.sock.state != SynReceived)
      && (o.emitted.Some? <==> pc.SynAckDue? && t == AcceptMain(true))
      && (o.emitted.Some? ==> o.emitted.value == SYN_ACK && pc' == TimedWait)
      && (pc.SynAckDue? && t == AcceptMain(false) ==> pc' == Checking)
      && (pc.Checking? && t.AcceptMain? && s.sock.state == SynReceived ==> pc' == SynAckDue)
      && (pc.TimedWait? && t.AcceptMain? ==> pc' == Checking)
  {
  }

  // ---- IP_send failing ----

  /** Nothing enters a channel by a statement whose IP_send fails. */
  lemma FailedSendIsSilent(env: Env, st: State)
    ensures Do(env, st, ClientTurn(Main(false))).up == st.up
    ensures Do(env, st, ClientTurn(Main(false))).log.transmitted == st.log.transmitted
    ensures Do(env, st, ServerTurn(AcceptMain(false))).down == st.down
  {
  }

  /** Nor by a handler whose IP_send fails. */
  lemma FailedReplyIsSilent(st: State, f: Flight, p: Pdu)
    ensures ApplyServer(st, f, false).down == st.down
    ensures ApplyClient(st, Deliver(p, false)).up == st.up
  {
  }
}
