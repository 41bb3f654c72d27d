/** Sequence numbers and delivery order on any channel, from the very first PDU on. */
module InOrder {
  import opened Pdus
  import opened Handlers
  import opened Threads
  import opened Systems
  import AppBuffer
  import Handshake
  import Provenance
  import ServerLog

  /** The number the server expects, or will expect once it is ESTABLISHED. */
  function Slot(st: State): int { |st.log.accepted| + 1 }

  function LastCall(accepted: seq<Flight>): nat {
    if accepted == [] then 0 else accepted[|accepted| - 1].call
  }

  /** Sequence numbers held in the main thread's locals. */
  predicate LocalsAtMost(pc: Pc, n: int) {
    (pc.ReadExpected? || pc.SendDue?) ==> pc.seqNum <= n
  }

  ghost predicate Numbers(st: State) {
    var c, s, g := st.client, st.server.sock, st.log;
    && (if g.serverUp then s.currentSeqNum == Slot(st) else g.accepted == [])
    && (s.state == Established ==> g.serverUp)
    // the client's number and every number in flight is at most the server's
    && c.sock.currentSeqNum <= Slot(st)
    && LocalsAtMost(c.pc, Slot(st))
    && (forall p :: p in st.down && IsAck(p) ==> p.ackNum <= Slot(st))
    && (forall f :: f in st.up && IsData(f.pdu) ==> f.pdu.seqNum <= Slot(st) && f.call <= |g.msgs|)
    // what could still be accepted is no older than what was accepted last
    && LastCall(g.accepted) <= |g.msgs|
    && (forall f :: f in st.up && IsData(f.pdu) && f.pdu.seqNum == Slot(st) ==> f.call >= LastCall(g.accepted))
    && (forall i :: 0 <= i < |g.accepted| ==> g.accepted[i].pdu.seqNum == i + 1)
    && (forall i, j :: 0 <= i < j < |g.accepted| ==> g.accepted[i].call <= g.accepted[j].call)
  }

  predicate Facts(c: Client, t: Turn, o: Out) {
    && (o.client.sock.currentSeqNum == c.sock.currentSeqNum
        || o.client.sock.currentSeqNum == 1
        || (t.Deliver? && Receptive(c) && IsAck(t.pdu) && o.client.sock.currentSeqNum == t.pdu.ackNum))
    && (o.client.pc.ReadExpected? || o.client.pc.SendDue? ==>
          || ((c.pc.ReadExpected? || c.pc.SendDue?) && o.client.pc.seqNum == c.pc.seqNum)
          || o.client.pc.seqNum == c.sock.currentSeqNum)
    && (o.emitted.Some? && IsData(o.emitted.value) ==>
          o.emitted.value.seqNum == if c.pc.SendDue? then c.pc.seqNum else 0)
  }

  lemma FactsHold(c: Client, t: Turn)
    ensures Facts(c, t, ClientDo(c, t))
  {
    if t.Main? { MainFacts(c, t); } else if t.Deliver? { ReceiveFacts(c, t); }
  }

  lemma MainFacts(c: Client, t: Turn)
    requires t.Main?
    ensures Facts(c, t, MainStep(c, t.ipOk))
  {
    if InSend(c.pc) { SendFacts(c, t); } else if InClose(c.pc) { CloseFacts(c, t); } else { ConnectFacts(c, t); }
  }

  lemma SendFacts(c: Client, t: Turn)
    requires t.Main? && InSend(c.pc)
    ensures Facts(c, t, SendStep(c, t.ipOk))
  {
  }

  lemma CloseFacts(c: Client, t: Turn)
    requires t.Main? && InClose(c.pc)
    ensures Facts(c, t, CloseStep(c, t.ipOk))
  {
  }

  lemma ConnectFacts(c: Client, t: Turn)
    requires t.Main? && !InSend(c.pc) && !InClose(c.pc)
    ensures Facts(c, t, ConnectStep(c, t.ipOk))
  {
  }

  lemma ReceiveFacts(c: Client, t: Turn)
    requires t.Deliver?
    ensures Facts(c, t, Receive(c, t.pdu, t.ipOk))
  {
  }

  lemma AdvanceKeeps(st: State, t: Turn, o: Out)
    requires Numbers(st) && Facts(st.client, t, o)
    requires t.Deliver? && Receptive(st.client) && IsAck(t.pdu) ==> t.pdu.ackNum <= Slot(st)
    ensures Numbers(Advance(st, t, o))
  {
  }

  lemma ClientKeeps(st: State, t: Turn)
    requires Numbers(st)
    requires t.Deliver? && Receptive(st.client) && IsAck(t.pdu) ==> t.pdu.ackNum <= Slot(st)
    ensures Numbers(ApplyClient(st, t))
  {
    FactsHold(st.client, t);
    AdvanceKeeps(st, t, ClientDo(st.client, t));
  }

  lemma ReactKeeps(st: State, f: Flight, r: Reaction)
    requires Numbers(st) && ServerLog.Facts(st.server.sock, f.pdu, r)
    requires NoWrap(React(st, f, r)) && (st.log.serverUp ==> Handshake.Past(st.server.sock.state))
    requires IsData(f.pdu) ==> f.pdu.seqNum <= Slot(st) && f.call <= |st.log.msgs|
    requires IsData(f.pdu) && f.pdu.seqNum == Slot(st) ==> f.call >= LastCall(st.log.accepted)
    ensures Numbers(React(st, f, r))
  {
    if r.accepted { AcceptedKeeps(st, f, r); } else { RefusedKeeps(st, f, r); }
  }

  lemma AcceptedKeeps(st: State, f: Flight, r: Reaction)
    requires Numbers(st) && ServerLog.Facts(st.server.sock, f.pdu, r) && r.accepted
    requires NoWrap(React(st, f, r)) && (st.log.serverUp ==> Handshake.Past(st.server.sock.state))
    requires IsData(f.pdu) ==> f.pdu.seqNum <= Slot(st) && f.call <= |st.log.msgs|
    requires IsData(f.pdu) && f.pdu.seqNum == Slot(st) ==> f.call >= LastCall(st.log.accepted)
    ensures Numbers(React(st, f, r))
  {
    var g, g' := st.log, React(st, f, r).log;
    assert g'.accepted == g.accepted + [f] && LastCall(g'.accepted) == f.call;
    assert r.sock.currentSeqNum == |g.accepted| + 2 && (st.log.serverUp ==> f.pdu.seqNum == |g.accepted| + 1);
  }

  lemma RefusedKeeps(st: State, f: Flight, r: Reaction)
    requires Numbers(st) && ServerLog.Facts(st.server.sock, f.pdu, r) && !r.accepted
    requires st.log.serverUp ==> Handshake.Past(st.server.sock.state)
    ensures Numbers(React(st, f, r))
  {
  }

  lemma ServerKeeps(st: State, f: Flight, ipOk: bool)
    requires Numbers(st) && NoWrap(ApplyServer(st, f, ipOk))
    requires st.log.serverUp ==> Handshake.Past(st.server.sock.state)
    requires IsData(f.pdu) ==> f.pdu.seqNum <= Slot(st) && f.call <= |st.log.msgs|
    requires IsData(f.pdu) && f.pdu.seqNum == Slot(st) ==> f.call >= LastCall(st.log.accepted)
    ensures Numbers(ApplyServer(st, f, ipOk))
  {
    ServerLog.FactsHold(st.server.sock, f.pdu, ipOk);
    ReactKeeps(st, f, ServerHandle(st.server.sock, f.pdu, ipOk));
  }

  lemma Taken(st: State, i: nat, keep: bool)
    requires Numbers(st) && i < |st.up|
    ensures Numbers(st.(up := Rest(st.up, i, keep)))
    ensures var f := st.up[i];
      && (IsData(f.pdu) ==> f.pdu.seqNum <= Slot(st) && f.call <= |st.log.msgs|)
      && (IsData(f.pdu) && f.pdu.seqNum == Slot(st) ==> f.call >= LastCall(st.log.accepted))
  {
    assert st.up[i] in st.up && forall f :: f in Rest(st.up, i, keep) ==> f in st.up;
  }

  lemma DeliveryKeeps(env: Env, st: State, i: nat, keep: bool, ipOk: bool)
    requires Numbers(st) && NoWrap(Do(env, st, DeliverUp(i, keep, ipOk)))
    requires st.log.serverUp ==> Handshake.Past(st.server.sock.state)
    ensures Numbers(Do(env, st, DeliverUp(i, keep, ipOk)))
  {
    if i < |st.up| {
      Taken(st, i, keep);
      var rest := st.(up := Rest(st.up, i, keep));
      if NoWrap(ApplyServer(rest, st.up[i], ipOk)) { ServerKeeps(rest, st.up[i], ipOk); }
    }
  }

  lemma AcceptKeeps(st: State, t: AcceptTurn)
    requires Numbers(st)
    requires st.log.serverUp ==> Handshake.Past(st.server.sock.state) && !st.server.pc.NotCalled?
    ensures Numbers(ApplyAccept(st, t))
  {
  }

  lemma DownKeeps(env: Env, st: State, i: nat, keep: bool, ipOk: bool)
    requires Numbers(st)
    ensures Numbers(Do(env, st, DeliverDown(i, keep, ipOk)))
  {
    if i < |st.down| { ClientKeeps(st.(down := Rest(st.down, i, keep)), Deliver(st.down[i], ipOk)); }
  }

  lemma TurnKeeps(env: Env, st: State, t: Turn)
    requires Numbers(st)
    ensures Numbers(Do(env, st, ClientTurn(t)))
  {
    if !t.Deliver? { ClientKeeps(st, t); }
  }

  /** What is lost or received by the application is no matter of numbers. */
  lemma LossKeeps(env: Env, st: State, a: Action)
    requires Numbers(st) && (a.LoseUp? || a.LoseDown? || a.Recv?)
    ensures Numbers(Do(env, st, a))
  {
  }

  lemma Preserved(env: Env, st: State, a: Action)
    requires Numbers(st) && NoWrap(Do(env, st, a))
    requires st.log.serverUp ==> Handshake.Past(st.server.sock.state) && !st.server.pc.NotCalled?
    ensures Numbers(Do(env, st, a))
  {
    match a
    case ClientTurn(t) => TurnKeeps(env, st, t);
    case ServerTurn(t) => AcceptKeeps(st, t);
    case DeliverUp(i, keep, ipOk) => DeliveryKeeps(env, st, i, keep, ipOk);
    case DeliverDown(i, keep, ipOk) => DownKeeps(env, st, i, keep, ipOk);
    case _ => LossKeeps(env, st, a);
  }

  lemma {:induction false} Holds(env: Env, acts: seq<Action>)
    requires NoWrap(Exec(env, INITIAL, acts))
    ensures Numbers(Exec(env, INITIAL, acts))
  {
    if acts != [] {
      var before, a := acts[..|acts| - 1], acts[|acts| - 1];
      var st := Exec(env, INITIAL, before);
      LogsGrow(env, st, a);
      Holds(env, before);
      Handshake.Holds(env, before);
      Preserved(env, st, a);
    }
  }

  /** In-order delivery on any channel, with any interleaving, up to the 2^32-th payload: slot k
      holds a PDU the client really sent under number k, carrying the message of the send call it
      came from, and those calls come in order. No number in use exceeds the server's. */
  lemma InOrderDelivery(env: Env, acts: seq<Action>)
    requires NoWrap(Exec(env, INITIAL, acts))
    ensures var st := Exec(env, INITIAL, acts); var g := st.log;
      && (forall i :: 0 <= i < |g.accepted| ==>
            var f := g.accepted[i];
            && f in g.transmitted && f.pdu.seqNum == i + 1
            && 1 <= f.call <= |g.msgs| && f.pdu.payload == g.msgs[f.call - 1])
      && (forall i, j :: 0 <= i < j < |g.accepted| ==> g.accepted[i].call <= g.accepted[j].call)
      && (g.serverUp ==>
            && st.client.sock.currentSeqNum <= st.server.sock.currentSeqNum
            && forall f :: f in st.up && IsData(f.pdu) ==> f.pdu.seqNum <= st.server.sock.currentSeqNum)
      && (!g.serverUp ==> g.accepted == [] && st.client.sock.currentSeqNum <= 1)
  {
    var st := Exec(env, INITIAL, acts);
    Holds(env, acts);
    Provenance.Holds(env, INITIAL, acts);
    forall i | 0 <= i < |st.log.accepted|
      ensures var f := st.log.accepted[i];
        f in st.log.transmitted && 1 <= f.call <= |st.log.msgs| && f.pdu.payload == st.log.msgs[f.call - 1]
    {
      assert st.log.accepted[i] in st.log.accepted;
    }
  }

  /** The i-th mic_tcp_recv returned the message of send call a, cut to the caller's room. */
  predicate Carries(g: Log, i: nat, a: nat)
    requires i < |g.received|
  {
    1 <= a <= |g.msgs| && Fits(g.received[i].data, g.msgs[a - 1], g.received[i].max)
  }

  lemma ReceiptCarries(env: Env, acts: seq<Action>, i: nat)
    requires NoWrap(Exec(env, INITIAL, acts)) && i < |Exec(env, INITIAL, acts).log.received|
    ensures var g := Exec(env, INITIAL, acts).log; i < |g.accepted| && Carries(g, i, g.accepted[i].call)
  {
    InOrderDelivery(env, acts);
    AppBuffer.Holds(env, INITIAL, acts);
  }

  /** The same order seen by the receiving application: the i-th mic_tcp_recv returned the message of
      the call whose payload was accepted i-th, and those calls come in order. */
  lemma OrderedReception(env: Env, acts: seq<Action>, i: nat, j: nat)
    requires NoWrap(Exec(env, INITIAL, acts))
    requires i < j < |Exec(env, INITIAL, acts).log.received|
    ensures var g := Exec(env, INITIAL, acts).log;
      && j < |g.accepted| && g.accepted[i].call <= g.accepted[j].call
      && Carries(g, i, g.accepted[i].call) && Carries(g, j, g.accepted[j].call)
  {
    ReceiptCarries(env, acts, i);
    ReceiptCarries(env, acts, j);
    CallsAscend(env, acts, i, j);
  }

  lemma CallsAscend(env: Env, acts: seq<Action>, i: nat, j: nat)
    requires NoWrap(Exec(env, INITIAL, acts))
    requires i < j < |Exec(env, INITIAL, acts).log.accepted|
    ensures var g := Exec(env, INITIAL, acts).log; g.accepted[i].call <= g.accepted[j].call
  {
    InOrderDelivery(env, acts);
  }
}
