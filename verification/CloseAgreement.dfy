/** Closing by the client after a successful connect, over channels that keep order and do not
    duplicate. The run starts with the very first PDU, and mic_tcp_accept is not preempted between its
    state check and its SYN+ACK; LateSynAck shows what is different when it is. */
module CloseAgreement {
  import opened Pdus
  import opened Handlers
  import opened Threads
  import opened Systems
  import opened LockStep
  import Handshake
  import ServerLog

  /** Ordered channels, no preemption in mic_tcp_accept and no spurious wake-ups. */
  predicate Undisturbed(env: Env) { Fifo(env) && env.atomicAccept && !env.spurious }

  // ---- No SYN+ACK outlives a counted measurement ACK ----

  ghost predicate SynInv(st: State) {
    && Handshake.Prompt(st.server)
    && (forall i, j :: 0 <= i < j < |st.down| && IsAck(st.down[i]) ==> !IsSynAck(st.down[j]))
    && (st.client.sock.receivedPackets > 0 ==> forall p :: p in st.down ==> !IsSynAck(p))
  }

  lemma SynUpKeeps(st: State, f: Flight, ipOk: bool)
    requires SynInv(st) && !st.server.pc.SynAckDue?
    ensures SynInv(ApplyServer(st, f, ipOk))
  {
    ServerLog.FactsHold(st.server.sock, f.pdu, ipOk);
    SynReactKeeps(st, f, ServerHandle(st.server.sock, f.pdu, ipOk));
  }

  lemma SynReactKeeps(st: State, f: Flight, r: Reaction)
    requires SynInv(st) && !st.server.pc.SynAckDue? && ServerLog.Facts(st.server.sock, f.pdu, r)
    ensures SynInv(React(st, f, r))
  {
  }

  lemma SynAcceptKeeps(st: State, t: AcceptTurn)
    requires SynInv(st) && Handshake.Inv(st)
    ensures SynInv(ApplyAccept(st, t))
  {
  }

  /** p was at the head of the channel, st.down is what was behind it. */
  lemma SynClientKeeps(st: State, t: Turn)
    requires SynInv(st)
    requires t.Deliver? && Receptive(st.client) && IsAck(t.pdu) ==> forall p :: p in st.down ==> !IsSynAck(p)
    ensures SynInv(ApplyClient(st, t))
  {
    Handshake.FactsHold(st.client, t);
    SynAdvanceKeeps(st, t, ClientDo(st.client, t));
  }

  lemma SynAdvanceKeeps(st: State, t: Turn, o: Out)
    requires SynInv(st) && Handshake.Facts(st.client, t, o)
    requires t.Deliver? && Receptive(st.client) && IsAck(t.pdu) ==> forall p :: p in st.down ==> !IsSynAck(p)
    ensures SynInv(Advance(st, t, o))
  {
  }

  lemma SynDownKeeps(st: State, ipOk: bool)
    requires SynInv(st) && st.down != []
    ensures SynInv(ApplyClient(st.(down := RemoveAt(st.down, 0)), Deliver(st.down[0], ipOk)))
  {
    SynClientKeeps(st.(down := RemoveAt(st.down, 0)), Deliver(st.down[0], ipOk));
  }

  lemma SynPreserved(env: Env, st: State, a: Action)
    requires SynInv(st) && Handshake.Inv(st) && Undisturbed(env)
    ensures SynInv(Do(env, st, a))
  {
    match a
    case ClientTurn(t) => if !t.Deliver? { SynClientKeeps(st, t); }
    case ServerTurn(t) => SynAcceptKeeps(st, t);
    case DeliverUp(i, keep, ipOk) =>
      if i < |st.up| && !st.server.pc.SynAckDue? {
        SynUpKeeps(st.(up := Rest(st.up, i, keep)), st.up[i], ipOk);
      }
    case DeliverDown(i, keep, ipOk) => if st.down != [] { SynDownKeeps(st, ipOk); }
    case _ => SynLossKeeps(env, st, a);
  }

  lemma SynLossKeeps(env: Env, st: State, a: Action)
    requires SynInv(st) && (a.LoseUp? || a.LoseDown? || a.Recv?)
    ensures SynInv(Do(env, st, a))
  {
  }

  // ---- Order of the last PDUs ----

  predicate FinLooping(pc: Pc) { pc.FinDue? || pc.FinWaitDue? || pc.FinWaiting? }

  predicate LeftLoopAcked(pc: Pc) {
    (pc.FinalAckDue? || pc.CloseDue?) && pc.finAckReceived
  }

  /** No ACK follows a FIN, or reaches a server that has seen one, except a final ACK in last
      place; n leaves that place out. */
  ghost predicate AcksFirst(up: seq<Flight>, n: int, server: ProtocolState) {
    forall j :: 0 <= j < n && j < |up| && IsAck(up[j].pdu) ==>
      server != AwaitingClosing && forall i :: 0 <= i < j ==> !IsFin(up[i].pdu)
  }

  /** Only a closing client sends a FIN, and only a FIN closes the server. */
  ghost predicate Unclosed(st: State) {
    var c, s, g := st.client, st.server.sock.state, st.log;
    && (!InClosing(c.pc) ==> !ServerLog.Shut(s) && !g.sawFin && forall f :: f in st.up ==> !IsFin(f.pdu))
    && (g.finalAck ==> c.pc.CloseDue? || c.pc.Finished?)
    && (ServerLog.Shut(s) ==> g.sawFin)
    && (forall p :: p in st.down ==> !IsFin(p) && (IsFinAck(p) ==> g.sawFin))
  }

  ghost predicate FinInv(st: State) {
    var c, s, g := st.client, st.server.sock.state, st.log;
    && Unclosed(st)
    && (g.connected ==>
          && InDataPhase(c.pc) && c.sock.state != AwaitingClosing
          && (FinLooping(c.pc) ==> c.sock.state == ProtocolState.Closing)
          && (LeftLoopAcked(c.pc) ==> g.sawFin)
          && AcksFirst(st.up, |st.up| - (if g.finalAck then 1 else 0), s)
          && (s == Closed ==> g.finalAck && st.up == [])
          && (g.sawFin ==> ServerLog.Shut(s)))
  }

  predicate Facts(c: Client, t: Turn, o: Out) {
    var pc, pc', e := c.pc, o.client.pc, o.emitted;
    && (e.Some? && IsFin(e.value) ==> InClosing(pc'))
    && (InClosing(pc) ==> InClosing(pc'))
    && (pc.FinalAckDue? && t.Main? ==> pc'.CloseDue?)
    && (pc.CloseDue? || pc.Finished? ==> pc'.CloseDue? || pc'.Finished?)
    && (pc'.Ready? && !InDataPhase(pc) ==> o.client.sock.state == Established && e.None? && t.Main?)
    && (InDataPhase(pc) && c.sock.state != AwaitingClosing && !t.Spurious?
        && !(t.Deliver? && (IsSynAck(t.pdu) || IsFin(t.pdu)))
        && (FinLooping(pc) ==> c.sock.state == ProtocolState.Closing) ==>
          && InDataPhase(pc') && o.client.sock.state != AwaitingClosing
          && (FinLooping(pc') ==> o.client.sock.state == ProtocolState.Closing)
          && (e.Some? ==> t.Main? && (IsAck(e.value) ==> pc.FinalAckDue?))
          && (LeftLoopAcked(pc') ==> LeftLoopAcked(pc) || (t.Deliver? && IsFinAck(t.pdu) && Receptive(c)))
          && (pc.CloseDue? || pc.Finished? ==> e.None?))
  }

  lemma FactsHold(c: Client, t: Turn)
    ensures Facts(c, t, ClientDo(c, t))
  {
    if t.Main? { MainFacts(c, t); } else if t.Deliver? { ReceiveFacts(c, t); }
  }

  lemma MainFacts(c: Client, t: Turn)
    requires t.Main?
    ensures Facts(c, t, MainStep(c, t.ipOk))
  {
    if InSend(c.pc) { SendFacts(c, t); } else if InClose(c.pc) { CloseFacts(c, t); } else { ConnectFacts(c, t); }
  }

  lemma SendFacts(c: Client, t: Turn)
    requires t.Main? && InSend(c.pc)
    ensures Facts(c, t, SendStep(c, t.ipOk))
  {
  }

  lemma CloseFacts(c: Client, t: Turn)
    requires t.Main? && InClose(c.pc)
    ensures Facts(c, t, CloseStep(c, t.ipOk))
  {
  }

  lemma ConnectFacts(c: Client, t: Turn)
    requires t.Main? && !InSend(c.pc) && !InClose(c.pc)
    ensures Facts(c, t, ConnectStep(c, t.ipOk))
  {
  }

  lemma ReceiveFacts(c: Client, t: Turn)
    requires t.Deliver?
    ensures Facts(c, t, Receive(c, t.pdu, t.ipOk))
  {
  }

  lemma UnclosedAdvance(st: State, t: Turn, o: Out)
    requires Unclosed(st) && Facts(st.client, t, o)
    ensures Unclosed(Advance(st, t, o))
  {
  }

  lemma UnclosedTurn(st: State, t: Turn)
    requires Unclosed(st)
    ensures Unclosed(ApplyClient(st, t))
  {
    FactsHold(st.client, t);
    UnclosedAdvance(st, t, ClientDo(st.client, t));
  }

  lemma UnclosedReact(st: State, f: Flight, r: Reaction)
    requires Unclosed(st) && ServerMoves(st.server.sock.state, f.pdu, r.sock.state)
    requires ServerLog.Facts(st.server.sock, f.pdu, r)
    requires r.reply.Some? && IsFinAck(r.reply.value) ==> r.sock.state == AwaitingClosing
    requires IsFin(f.pdu) ==> InClosing(st.client.pc)
    ensures Unclosed(React(st, f, r))
  {
  }

  lemma UnclosedUp(env: Env, st: State, i: nat, keep: bool, ipOk: bool)
    requires Unclosed(st)
    ensures Unclosed(Do(env, st, DeliverUp(i, keep, ipOk)))
  {
    if i < |st.up| {
      var f, rest := st.up[i], st.(up := Rest(st.up, i, keep));
      assert f in st.up && forall h :: h in rest.up ==> h in st.up;
      ServerMovesHold(st.server.sock, f.pdu, ipOk);
      ServerLog.FactsHold(st.server.sock, f.pdu, ipOk);
      UnclosedReact(rest, f, ServerHandle(st.server.sock, f.pdu, ipOk));
    }
  }

  lemma UnclosedDown(env: Env, st: State, i: nat, keep: bool, ipOk: bool)
    requires Unclosed(st)
    ensures Unclosed(Do(env, st, DeliverDown(i, keep, ipOk)))
  {
    if i < |st.down| {
      assert forall p :: p in Rest(st.down, i, keep) ==> p in st.down;
      UnclosedTurn(st.(down := Rest(st.down, i, keep)), Deliver(st.down[i], ipOk));
    }
  }

  lemma UnclosedPreserved(env: Env, st: State, a: Action)
    requires Unclosed(st)
    ensures Unclosed(Do(env, st, a))
  {
    match a
    case ClientTurn(t) => UnclosedTurn(st, t);
    case DeliverUp(i, keep, ipOk) => UnclosedUp(env, st, i, keep, ipOk);
    case DeliverDown(i, keep, ipOk) => UnclosedDown(env, st, i, keep, ipOk);
    case _ =>
  }

  lemma {:induction false} UnclosedHolds(env: Env, acts: seq<Action>)
    ensures Unclosed(Exec(env, INITIAL, acts))
  {
    if acts != [] {
      UnclosedHolds(env, acts[..|acts| - 1]);
      UnclosedPreserved(env, Exec(env, INITIAL, acts[..|acts| - 1]), acts[|acts| - 1]);
    }
  }

  lemma FinAdvanceKeeps(st: State, t: Turn, o: Out)
    requires FinInv(st) && Facts(st.client, t, o) && !t.Spurious?
    requires o.client.pc.Ready? ==> st.log.connected || !InDataPhase(st.client.pc)
    requires st.log.connected && t.Deliver? ==> !IsSynAck(t.pdu) && !IsFin(t.pdu)
    requires t.Deliver? && IsFinAck(t.pdu) ==> st.log.sawFin
    ensures FinInv(Advance(st, t, o))
  {
  }

  /** How a PDU moves the server with respect to closing. */
  predicate ServerMoves(s: ProtocolState, p: Pdu, s': ProtocolState) {
    || s' == s
    || (IsFin(p) && s' == AwaitingClosing)
    || (s == AwaitingClosing && IsAck(p) && s' == Closed)
    || (!ServerLog.Shut(s) && !ServerLog.Shut(s'))
  }

  lemma ServerMovesHold(s: Sock, p: Pdu, ipOk: bool)
    ensures var r := ServerHandle(s, p, ipOk);
      && ServerMoves(s.state, p, r.sock.state)
      && (r.reply.Some? && IsFinAck(r.reply.value) ==> r.sock.state == AwaitingClosing)
  {
  }

  /** f was at the head of the channel, `up` is what was behind it. */
  lemma AcksFirstKept(f: Flight, up: seq<Flight>, n: int, s: ProtocolState, s': ProtocolState)
    requires AcksFirst([f] + up, n + 1, s) && ServerMoves(s, f.pdu, s')
    requires s' == AwaitingClosing ==> s == AwaitingClosing || IsFin(f.pdu)
    ensures AcksFirst(up, n, s')
  {
    forall j | 0 <= j < n && j < |up| && IsAck(up[j].pdu)
      ensures s' != AwaitingClosing && forall i :: 0 <= i < j ==> !IsFin(up[i].pdu)
    {
      AckBehind(f, up, n, s, j);
    }
  }

  lemma AckBehind(f: Flight, up: seq<Flight>, n: int, s: ProtocolState, j: nat)
    requires AcksFirst([f] + up, n + 1, s) && j < n && j < |up| && IsAck(up[j].pdu)
    ensures s != AwaitingClosing && !IsFin(f.pdu) && forall i :: 0 <= i < j ==> !IsFin(up[i].pdu)
  {
    var all := [f] + up;
    assert all[j + 1] == up[j] && all[0] == f;
    assert forall i :: 0 <= i < j ==> up[i] == all[i + 1];
  }

  /** The ACK that closes the server is the final one, alone in the channel. */
  lemma FinalAckAlone(f: Flight, up: seq<Flight>, n: int)
    requires AcksFirst([f] + up, n + 1, AwaitingClosing) && IsAck(f.pdu)
    ensures n < 0
  {
    assert ([f] + up)[0] == f;
  }

  lemma FinReactKeeps(st: State, f: Flight, r: Reaction)
    requires FinInv(st.(up := [f] + st.up)) && ServerMoves(st.server.sock.state, f.pdu, r.sock.state)
    requires ServerLog.Facts(st.server.sock, f.pdu, r)
    requires r.reply.Some? && IsFinAck(r.reply.value) ==> r.sock.state == AwaitingClosing
    ensures FinInv(React(st, f, r))
  {
    var s, s' := st.server.sock.state, r.sock.state;
    assert ([f] + st.up)[0] == f && forall h :: h in st.up ==> h in [f] + st.up;
    if st.log.connected {
      var n := |st.up| - if st.log.finalAck then 1 else 0;
      AcksFirstKept(f, st.up, n, s, s');
      if s == AwaitingClosing && s' == Closed { FinalAckAlone(f, st.up, n); }
    }
  }

  lemma FinLossKeeps(st: State, i: nat)
    requires FinInv(st) && i < |st.up|
    ensures FinInv(st.(up := RemoveAt(st.up, i)))
  {
  }

  lemma FinAcceptKeeps(st: State, t: AcceptTurn)
    requires FinInv(st) && (st.log.connected ==> !st.server.pc.NotCalled?)
    ensures FinInv(ApplyAccept(st, t))
  {
  }

  lemma FinClientKeeps(st: State, t: Turn)
    requires FinInv(st) && !t.Spurious?
    requires st.client.pc.Ready? || InSend(st.client.pc) ==> st.log.connected
    requires st.log.connected && t.Deliver? ==> !IsSynAck(t.pdu) && !IsFin(t.pdu)
    requires t.Deliver? && IsFinAck(t.pdu) ==> st.log.sawFin
    ensures FinInv(ApplyClient(st, t))
  {
    FactsHold(st.client, t);
    Handshake.FactsHold(st.client, t);
    FinAdvanceKeeps(st, t, ClientDo(st.client, t));
  }

  /** Once connected, no SYN+ACK is in flight. */
  ghost predicate NoSynAck(st: State) { st.log.connected ==> forall p :: p in st.down ==> !IsSynAck(p) }

  lemma FinUpKeeps(st: State, ipOk: bool)
    requires FinInv(st) && st.up != []
    ensures FinInv(ApplyServer(st.(up := RemoveAt(st.up, 0)), st.up[0], ipOk))
  {
    var rest := st.(up := RemoveAt(st.up, 0));
    assert [st.up[0]] + rest.up == st.up;
    ServerMovesHold(st.server.sock, st.up[0].pdu, ipOk);
    ServerLog.FactsHold(st.server.sock, st.up[0].pdu, ipOk);
    FinReactKeeps(rest, st.up[0], ServerHandle(st.server.sock, st.up[0].pdu, ipOk));
  }

  lemma FinDownKeeps(st: State, ipOk: bool)
    requires FinInv(st) && NoSynAck(st) && Handshake.Inv(st) && st.down != []
    ensures FinInv(ApplyClient(st.(down := RemoveAt(st.down, 0)), Deliver(st.down[0], ipOk)))
  {
    assert st.down[0] in st.down;
    FinClientKeeps(st.(down := RemoveAt(st.down, 0)), Deliver(st.down[0], ipOk));
  }

  lemma FinPreserved(env: Env, st: State, a: Action)
    requires FinInv(st) && NoSynAck(st) && Handshake.Inv(st) && Fifo(env) && !env.spurious
    ensures FinInv(Do(env, st, a))
  {
    match a
    case ClientTurn(t) => if !t.Deliver? && !t.Spurious? { FinClientKeeps(st, t); }
    case ServerTurn(t) => FinAcceptKeeps(st, t);
    case DeliverUp(i, keep, ipOk) => if st.up != [] { FinUpKeeps(st, ipOk); }
    case DeliverDown(i, keep, ipOk) => if st.down != [] { FinDownKeeps(st, ipOk); }
    case LoseUp(i) => if i < |st.up| { FinLossKeeps(st, i); }
    case _ =>
  }

  lemma {:induction false} Holds(env: Env, acts: seq<Action>)
    requires Undisturbed(env)
    ensures SynInv(Exec(env, INITIAL, acts)) && FinInv(Exec(env, INITIAL, acts))
  {
    if acts != [] {
      var before, a := acts[..|acts| - 1], acts[|acts| - 1];
      Holds(env, before);
      Handshake.Holds(env, before);
      SynPreserved(env, Exec(env, INITIAL, before), a);
      FinPreserved(env, Exec(env, INITIAL, before), a);
    }
  }

  /** Close agreement, once mic_tcp_connect has returned 0: a client that leaves the loop with a
      FIN+ACK has had its FIN seen by the server, and the server is CLOSED only after the final
      ACK was sent, with nothing of the client's left in flight. */
  lemma CloseAgreement(env: Env, acts: seq<Action>)
    requires Undisturbed(env) && Exec(env, INITIAL, acts).log.connected
    ensures var st := Exec(env, INITIAL, acts);
      && (LeftLoopAcked(st.client.pc) ==> st.log.sawFin)
      && (st.server.sock.state == Closed ==> st.log.finalAck && st.up == [])
  {
    Holds(env, acts);
  }

  /** Closed by a client that had connected. */
  ghost predicate ClosedAt(env: Env, acts: seq<Action>) {
    var st := Exec(env, INITIAL, acts); st.log.connected && st.server.sock.state == Closed
  }

  lemma ClosedStays(env: Env, st: State, a: Action)
    requires FinInv(st) && Handshake.Inv(st) && st.log.connected && st.server.sock.state == Closed
    ensures var st' := Do(env, st, a); st'.log.connected && st'.server.sock.state == Closed
  {
  }

  lemma ClosedNext(env: Env, acts: seq<Action>, a: Action)
    requires Undisturbed(env) && ClosedAt(env, acts)
    ensures ClosedAt(env, acts + [a])
  {
    ExecStep(env, INITIAL, acts, a);
    Holds(env, acts);
    Handshake.Holds(env, acts);
    ClosedStays(env, Exec(env, INITIAL, acts), a);
  }

  /** And then it never leaves CLOSED, whatever happens next. */
  lemma {:induction false} ClosedForGood(env: Env, acts: seq<Action>, more: seq<Action>)
    requires Undisturbed(env) && ClosedAt(env, acts)
    ensures ClosedAt(env, acts + more)
  {
    if more == [] {
      assert acts + more == acts;
    } else {
      var before, a := more[..|more| - 1], more[|more| - 1];
      ClosedForGood(env, acts, before);
      ClosedNext(env, acts + before, a);
      assert acts + more == acts + before + [a];
    }
  }
}
