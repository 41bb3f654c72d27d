/** The receiver on its own: what it accepts, for every sequence of incoming PDUs and of
    calls to mic_tcp_accept. */
module ServerLog {
  import opened Pdus
  import opened Handlers

  /** What any reaction of the server respects. */
  predicate Facts(s: Sock, p: Pdu, r: Reaction) {
    && (r.accepted ==>
          && s.state == Established && r.sock == s.(currentSeqNum := Next(s.currentSeqNum))
          && IsData(p) && IsText(p.payload)
          && (s.currentSeqNum == 0 || p.seqNum == s.currentSeqNum))
    && (!r.accepted ==>
          if s.state == SynReceived && r.sock.state == Established then r.sock.currentSeqNum == 1 && IsAck(p)
          else r.sock.currentSeqNum == s.currentSeqNum && (r.sock.state == Established ==> s.state == Established))
    && (r.reply.Some? && IsAck(r.reply.value) ==>
          && s.state == Established && r.sock.state == Established && IsData(p)
          && r.reply.value.ackNum == if IsText(p.payload) then r.sock.currentSeqNum else 0)
    && (r.reply.Some? ==> IsAck(r.reply.value) || r.reply.value == FIN_ACK)
    && (r.signal ==> r.sock.state == SynReceived || r.sock.state == Established || s.state == Closing)
  }

  lemma FactsHold(s: Sock, p: Pdu, ipOk: bool)
    ensures Facts(s, p, ServerHandle(s, p, ipOk))
  {
  }

  /** What becomes of a data PDU at an ESTABLISHED server, the C string of its payload alone telling a
      measurement packet from a message: a message is accepted exactly when it carries the expected
      number (any number once the 32-bit counter has wrapped to 0), and every message is acknowledged
      with the number expected next, if IP_send succeeds. */
  lemma MessageDelivered(s: Sock, p: Pdu, ipOk: bool)
    requires s.state == Established && p.syn == p.ack == p.fin == 0
    ensures var r := ServerHandle(s, p, ipOk);
      if CString(p.payload) == "mesure" then
        !r.accepted && r.sock == s && r.reply == if ipOk then Some(Ack(0)) else None
      else
        && (r.accepted <==> p.seqNum == s.currentSeqNum || s.currentSeqNum == 0)
        && r.sock.currentSeqNum == (if r.accepted then (s.currentSeqNum + 1) % 0x1_0000_0000 else s.currentSeqNum)
        && r.reply == if ipOk then Some(Ack(r.sock.currentSeqNum)) else None
  {
  }

  // ---- Runs of the receiver ----

  datatype Event = Receive(pdu: Pdu, ipOk: bool) | AcceptCall

  /** The socket with the PDUs it accepted since the last mic_tcp_accept. */
  datatype Receiver = Receiver(sock: Sock, log: seq<Pdu>)

  function Step(v: Receiver, e: Event): Receiver {
    match e
    case AcceptCall => Receiver(v.sock.(state := Accepting), [])
    case Receive(p, ipOk) =>
      var r := ServerHandle(v.sock, p, ipOk);
      Receiver(r.sock, if r.accepted then v.log + [p] else v.log)
  }

  function Run(v: Receiver, events: seq<Event>): Receiver {
    if events == [] then v else Step(Run(v, events[..|events| - 1]), events[|events| - 1])
  }

  /** Sequence number of the j-th slot, in 32 bits. */
  function SlotNumber(j: nat): U32 { j % MOD32 }

  /** The connection is not established yet. */
  predicate Early(s: ProtocolState) { s == ProtocolState.Idle || s == Accepting || s == SynReceived }

  ghost predicate LogInv(v: Receiver) {
    && (v.sock.state == Established ==> v.sock.currentSeqNum == SlotNumber(|v.log| + 1))
    && (Early(v.sock.state) ==> v.log == [])
    && forall j :: 0 <= j < |v.log| ==>
         && IsData(v.log[j]) && IsText(v.log[j].payload)
         && (v.log[j].seqNum == SlotNumber(j + 1) || SlotNumber(j + 1) == 0)
  }

  lemma NextSlot(j: nat)
    ensures Next(SlotNumber(j)) == SlotNumber(j + 1)
  {
  }

  lemma StepKeeps(v: Receiver, e: Event)
    requires LogInv(v)
    ensures LogInv(Step(v, e))
  {
    if e.Receive? {
      FactsHold(v.sock, e.pdu, e.ipOk);
      StaysEarly(v.sock, e.pdu, e.ipOk);
      ReceiveKeeps(v, e.pdu, ServerHandle(v.sock, e.pdu, e.ipOk));
    }
  }

  lemma StaysEarly(s: Sock, p: Pdu, ipOk: bool)
    ensures Early(ServerHandle(s, p, ipOk).sock.state) ==> Early(s.state)
  {
  }

  lemma ReceiveKeeps(v: Receiver, p: Pdu, r: Reaction)
    requires LogInv(v) && Facts(v.sock, p, r) && (Early(r.sock.state) ==> Early(v.sock.state))
    ensures LogInv(Receiver(r.sock, if r.accepted then v.log + [p] else v.log))
  {
    NextSlot(|v.log| + 1);
  }

  /** For every sequence of events from a fresh socket: while ESTABLISHED the expected number
      counts the payloads accepted since the accept, the j-th of them carried number j (or slot j
      is the wildcard 0), and nothing is accepted before the connection is established. */
  lemma {:induction false} ReceiverLog(v: Receiver, events: seq<Event>)
    requires v.log == [] && v.sock.state == ProtocolState.Idle
    ensures LogInv(Run(v, events))
  {
    if events != [] {
      ReceiverLog(v, events[..|events| - 1]);
      StepKeeps(Run(v, events[..|events| - 1]), events[|events| - 1]);
    }
  }

  predicate Shut(s: ProtocolState) { s == AwaitingClosing || s == Closed }

  /** After a FIN the log is frozen, whatever arrives, until mic_tcp_accept is called again. */
  lemma {:induction false} FrozenAfterFin(v: Receiver, fin: Pdu, ipOk: bool, events: seq<Event>)
    requires IsFin(fin) && forall e :: e in events ==> e.Receive?
    ensures var w := Run(Step(v, Receive(fin, ipOk)), events);
      w.log == v.log && Shut(w.sock.state) && w.sock.currentSeqNum == v.sock.currentSeqNum
  {
    if events != [] {
      FrozenAfterFin(v, fin, ipOk, events[..|events| - 1]);
      assert events[|events| - 1].Receive?;
    }
  }
}
