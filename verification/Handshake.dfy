/** What a returned connect and an established server know of each other, on any channel. */
module Handshake {
  import opened Pdus
  import opened Handlers
  import opened Threads
  import opened Systems

  predicate Connecting(pc: Pc) { pc.Unconnected? || pc.SynDue? || pc.AwaitSynAck? }

  /** The states a server that has been ESTABLISHED can be in, accept being called once. */
  predicate Past(s: ProtocolState) { s == Established || s == AwaitingClosing || s == Closed }

  /** mic_tcp_accept has not woken up to its first SYN. */
  predicate BeforeSyn(pc: AcceptPc) { pc.NotCalled? || pc.Armed? || pc.WaitingSyn? }

  /** mic_tcp_accept has woken up, and is not about to send a SYN+ACK. */
  predicate Served(pc: AcceptPc) { !BeforeSyn(pc) && !pc.SynAckDue? }

  ghost predicate Inv(st: State) {
    var c, s, g := st.client, st.server, st.log;
    // nobody has a SYN+ACK before the server sends one
    && (BeforeSyn(s.pc) ==> !g.gotSynAck && forall p :: p in st.down ==> !IsSynAck(p))
    // the client has a SYN+ACK before it leaves the connection loop, and ACKs nothing before
    && (g.gotSynAck || (Connecting(c.pc) && !c.listening))
    && (forall f :: f in st.up && IsAck(f.pdu) ==> g.gotSynAck)
    // only an ESTABLISHED server sends plain ACKs
    && (s.sock.state == Established ==> g.serverUp)
    && (s.pc.NotCalled? ==> s.sock.state != Accepting && s.sock.state != SynReceived)
    && (forall p :: p in st.down && IsAck(p) ==> g.serverUp)
    && (c.sock.receivedPackets > 0 ==> g.serverUp)
    && (g.serverUp ==> g.gotSynAck && Past(s.sock.state) && !s.pc.NotCalled?)
    // a send call is possible only after a successful measurement
    && (InSend(c.pc) || c.pc.Ready? ==> g.connected)
    && (g.connected || c.pc.EstablishDue? ==> g.measured >= 80 && c.sock.receivedPackets >= g.measured)
  }

  lemma NegotiationTable(received: nat)
    ensures Negotiate(received) ==
      if received >= 99 then Some(0)
      else if received >= 96 then Some(1)
      else if received >= 89 then Some(2)
      else if received >= 80 then Some(3)
      else None
    ensures received <= 100 ==> LossRate(received) == (100 - received) as real
  {
  }

  predicate GetsSynAck(c: Client, t: Turn) { t.Deliver? && Receptive(c) && IsSynAck(t.pdu) }

  predicate Facts(c: Client, t: Turn, o: Out) {
    // nothing but a SYN+ACK takes the client out of the connection loop, and no ACK precedes it
    && (Connecting(c.pc) && !c.listening && !GetsSynAck(c, t) ==>
          && Connecting(o.client.pc) && !o.client.listening
          && (o.emitted.Some? ==> !IsAck(o.emitted.value)))
    && (o.client.sock.receivedPackets == c.sock.receivedPackets
        || (o.client.sock.receivedPackets == c.sock.receivedPackets + 1 && t.Deliver? && Receptive(c) && IsAck(t.pdu)))
    && (InSend(o.client.pc) ==> InSend(c.pc) || c.pc.Ready?)
    && (o.client.pc.Ready? ==> InSend(c.pc) || c.pc.Ready? || c.pc.EstablishDue?)
    && (o.client.pc.EstablishDue? ==>
          c.pc.EstablishDue? || (c.pc.NegotiateDue? && t.Main? && c.sock.receivedPackets >= 80))
  }

  lemma FactsHold(c: Client, t: Turn)
    ensures Facts(c, t, ClientDo(c, t))
  {
    if t.Main? { MainFacts(c, t); }
  }

  lemma MainFacts(c: Client, t: Turn)
    requires t.Main?
    ensures Facts(c, t, MainStep(c, t.ipOk))
  {
    if InSend(c.pc) { SendFacts(c, t); } else if InClose(c.pc) { CloseFacts(c, t); } else { ConnectFacts(c, t); }
  }

  lemma SendFacts(c: Client, t: Turn)
    requires t.Main? && InSend(c.pc)
    ensures Facts(c, t, SendStep(c, t.ipOk))
  {
  }

  lemma CloseFacts(c: Client, t: Turn)
    requires t.Main? && InClose(c.pc)
    ensures Facts(c, t, CloseStep(c, t.ipOk))
  {
  }

  lemma ConnectFacts(c: Client, t: Turn)
    requires t.Main? && !InSend(c.pc) && !InClose(c.pc)
    ensures Facts(c, t, ConnectStep(c, t.ipOk))
  {
    NegotiationTable(c.sock.receivedPackets);
  }

  lemma AdvanceKeeps(st: State, t: Turn, o: Out)
    requires Inv(st) && Facts(st.client, t, o)
    requires t.Deliver? && Receptive(st.client) && IsAck(t.pdu) ==> st.log.serverUp
    requires t.Deliver? && IsSynAck(t.pdu) ==> !BeforeSyn(st.server.pc)
    ensures Inv(Advance(st, t, o))
  {
  }

  lemma ClientKeeps(st: State, t: Turn)
    requires Inv(st)
    requires t.Deliver? && Receptive(st.client) && IsAck(t.pdu) ==> st.log.serverUp
    requires t.Deliver? && IsSynAck(t.pdu) ==> !BeforeSyn(st.server.pc)
    ensures Inv(ApplyClient(st, t))
  {
    FactsHold(st.client, t);
    AdvanceKeeps(st, t, ClientDo(st.client, t));
  }

  /** How a PDU moves the server with respect to being established. */
  predicate ServerMoves(s: Sock, p: Pdu, r: Reaction) {
    var s' := r.sock.state;
    && (Past(s.state) ==> Past(s'))
    && (s' == Established && s.state != Established ==> s.state == SynReceived && IsAck(p))
    && (s' == Accepting ==> s.state == Accepting)
    && (s' == SynReceived ==> s.state == SynReceived || s.state == Accepting)
    && (r.reply.Some? ==> !IsSynAck(r.reply.value))
    && (r.reply.Some? && IsAck(r.reply.value) ==> s.state == Established)
  }

  lemma ServerMovesHold(s: Sock, p: Pdu, ipOk: bool)
    ensures ServerMoves(s, p, ServerHandle(s, p, ipOk))
  {
  }

  lemma ReactKeeps(st: State, f: Flight, r: Reaction)
    requires Inv(st) && ServerMoves(st.server.sock, f.pdu, r)
    requires IsAck(f.pdu) ==> st.log.gotSynAck
    ensures Inv(React(st, f, r))
  {
  }

  lemma ServerKeeps(st: State, f: Flight, ipOk: bool)
    requires Inv(st)
    requires IsAck(f.pdu) ==> st.log.gotSynAck
    ensures Inv(ApplyServer(st, f, ipOk))
  {
    ServerMovesHold(st.server.sock, f.pdu, ipOk);
    ReactKeeps(st, f, ServerHandle(st.server.sock, f.pdu, ipOk));
  }

  lemma AcceptKeeps(st: State, t: AcceptTurn)
    requires Inv(st)
    ensures Inv(ApplyAccept(st, t))
  {
  }

  lemma UpKeeps(env: Env, st: State, i: nat, keep: bool, ipOk: bool)
    requires Inv(st)
    ensures Inv(Do(env, st, DeliverUp(i, keep, ipOk)))
  {
    if i < |st.up| { ServerKeeps(st.(up := Rest(st.up, i, keep)), st.up[i], ipOk); }
  }

  lemma DownKeeps(env: Env, st: State, i: nat, keep: bool, ipOk: bool)
    requires Inv(st)
    ensures Inv(Do(env, st, DeliverDown(i, keep, ipOk)))
  {
    if i < |st.down| { ClientKeeps(st.(down := Rest(st.down, i, keep)), Deliver(st.down[i], ipOk)); }
  }

  lemma Preserved(env: Env, st: State, a: Action)
    requires Inv(st)
    ensures Inv(Do(env, st, a))
  {
    match a
    case ClientTurn(t) => if !t.Deliver? { ClientKeeps(st, t); }
    case ServerTurn(t) => AcceptKeeps(st, t);
    case DeliverUp(i, keep, ipOk) => UpKeeps(env, st, i, keep, ipOk);
    case DeliverDown(i, keep, ipOk) => DownKeeps(env, st, i, keep, ipOk);
    case _ =>
  }

  lemma {:induction false} Holds(env: Env, acts: seq<Action>)
    ensures Inv(Exec(env, INITIAL, acts))
  {
    if acts != [] {
      Holds(env, acts[..|acts| - 1]);
      Preserved(env, Exec(env, INITIAL, acts[..|acts| - 1]), acts[|acts| - 1]);
    }
  }

  /** On any channel: when mic_tcp_connect has returned 0 the server has been ESTABLISHED, and
      a server that has been ESTABLISHED was answering a client that received a SYN+ACK. */
  lemma HandshakeAgreement(env: Env, acts: seq<Action>)
    ensures var g := Exec(env, INITIAL, acts).log;
      && (g.connected ==> g.serverUp)
      && (g.serverUp ==> g.gotSynAck)
  {
    Holds(env, acts);
  }

  // ---- When mic_tcp_accept is not preempted ----

  /** A SYN+ACK is due only while the ACK that answers one has not come. */
  predicate Prompt(s: Server) { s.pc.SynAckDue? ==> s.sock.state == SynReceived }

  lemma PromptKept(env: Env, st: State, a: Action)
    requires env.atomicAccept && Prompt(st.server)
    ensures Prompt(Do(env, st, a).server)
  {
  }

  lemma {:induction false} PromptHolds(env: Env, acts: seq<Action>)
    requires env.atomicAccept
    ensures Prompt(Exec(env, INITIAL, acts).server)
  {
    if acts != [] {
      PromptHolds(env, acts[..|acts| - 1]);
      PromptKept(env, Exec(env, INITIAL, acts[..|acts| - 1]), acts[|acts| - 1]);
    }
  }
}
