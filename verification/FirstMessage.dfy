/** The first success of a connection whose client holds number 1 and whose measurement is over: on
    any channel, with any interleaving and a SYN+ACK still to come, it is the caller's own. */
module FirstMessage {
  import opened Pdus
  import opened Handlers
  import opened Threads
  import opened Systems
  import opened LockStep
  import opened OwnMessage
  import Connected
  import Handshake
  import InOrder
  import Provenance
  import ServerLog

  /** Nothing bears number 0. */
  ghost predicate Positive(st: State) {
    var c, g := st.client, st.log;
    && g.serverUp && InDataPhase(c.pc) && ClientNumber(st) >= 1
    && (HasBase(c.pc) ==> c.pc.base >= 1)
    && (InSend(c.pc) ==> c.pc.msg in g.msgs)
    && (forall p :: p in st.down && IsAck(p) ==> p.ackNum >= 1)
    && (forall f :: f in st.up && IsData(f.pdu) ==> f.pdu.payload in g.msgs)
    && (forall e :: e in g.completed ==> e.call >= 1)
  }

  ghost predicate FirstOwn(g: Log) { Completion(1, true) in g.completed ==> Delivers(g, 1) }

  ghost predicate Inv(st: State) { Positive(st) && FirstOwn(st.log) }

  predicate Facts(c: Client, t: Turn, o: Out) {
    var pc, pc', e := c.pc, o.client.pc, o.emitted;
    && (o.client.sock.currentSeqNum == c.sock.currentSeqNum || o.client.sock.currentSeqNum == 1
        || (t.Deliver? && IsAck(t.pdu) && o.client.sock.currentSeqNum == t.pdu.ackNum))
    && (HasBase(pc') ==> (HasBase(pc) && pc'.base == pc.base) || pc'.base == c.sock.currentSeqNum)
    && (Completes(pc, pc') && pc'.result.Delivered? ==> pc.Woken? && c.sock.currentSeqNum == Next(pc.base))
    && (e.Some? && IsData(e.value) ==> pc.SendDue? && e.value.payload == pc.msg)
    && (InSend(pc') ==> if InSend(pc) then pc'.msg == pc.msg else StartsCall(c, t) && pc'.msg == t.msg)
    && InDataPhase(pc')
  }

  lemma FactsHold(c: Client, t: Turn)
    requires InDataPhase(c.pc)
    ensures Facts(c, t, ClientDo(c, t))
  {
    if t.Main? { MainFacts(c, t); } else if t.Deliver? { ReceiveFacts(c, t); }
  }

  lemma MainFacts(c: Client, t: Turn)
    requires InDataPhase(c.pc) && t.Main?
    ensures Facts(c, t, MainStep(c, t.ipOk))
  {
  }

  lemma ReceiveFacts(c: Client, t: Turn)
    requires InDataPhase(c.pc) && t.Deliver?
    ensures Facts(c, t, Receive(c, t.pdu, t.ipOk))
  {
  }

  lemma PositiveAdvance(st: State, t: Turn, o: Out)
    requires Positive(st) && Facts(st.client, t, o)
    requires t.Deliver? && IsAck(t.pdu) ==> t.pdu.ackNum >= 1
    ensures Positive(Advance(st, t, o))
  {
  }

  /** What the first slot holds when the first call is acknowledged. */
  lemma FirstSlot(st: State)
    requires Positive(st) && InOrder.Numbers(st) && Provenance.Inv(st)
    requires st.client.pc.Woken? && ClientNumber(st) == Next(st.client.pc.base) && |st.log.msgs| == 1
    ensures Delivers(st.log, 1)
  {
    assert st.log.accepted[0] in st.log.accepted;
    assert Holding(st.log, 0, 1);
  }

  lemma OwnAdvance(st: State, t: Turn, o: Out)
    requires Inv(st) && InOrder.Numbers(st) && Provenance.Inv(st) && Facts(st.client, t, o)
    ensures FirstOwn(Advance(st, t, o).log)
  {
    var g, g' := st.log, Advance(st, t, o).log;
    if Completion(1, true) in g.completed {
      DeliversLater(g, g', 1);
    } else if Completion(1, true) in g'.completed {
      FirstSlot(st);
      DeliversLater(g, g', 1);
    }
  }

  lemma ClientKeeps(st: State, t: Turn)
    requires Inv(st) && InOrder.Numbers(st) && Provenance.Inv(st)
    requires t.Deliver? && IsAck(t.pdu) ==> t.pdu.ackNum >= 1
    ensures Inv(ApplyClient(st, t))
  {
    FactsHold(st.client, t);
    PositiveAdvance(st, t, ClientDo(st.client, t));
    OwnAdvance(st, t, ClientDo(st.client, t));
  }

  lemma ReactKeeps(st: State, f: Flight, r: Reaction)
    requires Inv(st) && ServerLog.Facts(st.server.sock, f.pdu, r)
    requires r.reply.Some? && IsAck(r.reply.value) ==> r.reply.value.ackNum >= 1
    ensures Inv(React(st, f, r))
  {
    if Completion(1, true) in st.log.completed { DeliversLater(st.log, React(st, f, r).log, 1); }
  }

  /** The server acknowledges nothing with 0 any more. */
  lemma ReplyPositive(st: State, f: Flight, ipOk: bool)
    requires st.log.serverUp && InOrder.Numbers(st) && Handshake.Past(st.server.sock.state)
    requires NoWrap(ApplyServer(st, f, ipOk)) && (IsData(f.pdu) ==> IsText(f.pdu.payload))
    ensures var r := ServerHandle(st.server.sock, f.pdu, ipOk);
      r.reply.Some? && IsAck(r.reply.value) ==> r.reply.value.ackNum >= 1
  {
    ServerLog.FactsHold(st.server.sock, f.pdu, ipOk);
  }

  lemma UpKeeps(env: Env, st: State, i: nat, keep: bool, ipOk: bool)
    requires Inv(st) && InOrder.Numbers(st) && Handshake.Inv(st) && Tame(Do(env, st, DeliverUp(i, keep, ipOk)))
    ensures Inv(Do(env, st, DeliverUp(i, keep, ipOk)))
  {
    if Do(env, st, DeliverUp(i, keep, ipOk)) != st {
      var f, rest := st.up[i], st.(up := Rest(st.up, i, keep));
      Taken(st, rest, i, keep);
      ReplyPositive(rest, f, ipOk);
      ServerLog.FactsHold(st.server.sock, f.pdu, ipOk);
      ReactKeeps(rest, f, ServerHandle(st.server.sock, f.pdu, ipOk));
    }
  }

  lemma Taken(st: State, rest: State, i: nat, keep: bool)
    requires Inv(st) && InOrder.Numbers(st) && i < |st.up| && rest == st.(up := Rest(st.up, i, keep))
    ensures Inv(rest) && InOrder.Numbers(rest)
    ensures IsData(st.up[i].pdu) ==> st.up[i].pdu.payload in st.log.msgs
  {
    InOrder.Taken(st, i, keep);
    assert st.up[i] in st.up && forall f :: f in rest.up ==> f in st.up;
  }

  lemma DownKeeps(env: Env, st: State, i: nat, keep: bool, ipOk: bool)
    requires Inv(st) && InOrder.Numbers(st) && Provenance.Inv(st)
    ensures Inv(Do(env, st, DeliverDown(i, keep, ipOk)))
  {
    if i < |st.down| {
      var rest := st.(down := Rest(st.down, i, keep));
      assert st.down[i] in st.down && forall p :: p in rest.down ==> p in st.down;
      ClientKeeps(rest, Deliver(st.down[i], ipOk));
    }
  }

  lemma LossKeeps(env: Env, st: State, a: Action)
    requires Inv(st) && (a.LoseUp? || a.LoseDown? || a.Recv? || a.ServerTurn?)
    ensures Inv(Do(env, st, a))
  {
    var st' := Do(env, st, a);
    if Completion(1, true) in st.log.completed { DeliversLater(st.log, st'.log, 1); }
  }

  ghost predicate Full(st: State) { Inv(st) && InOrder.Numbers(st) && Provenance.Inv(st) && Handshake.Inv(st) }

  lemma Preserved(env: Env, st: State, a: Action)
    requires Full(st) && Tame(Do(env, st, a))
    ensures Full(Do(env, st, a))
  {
    InOrder.Preserved(env, st, a);
    Provenance.Preserved(env, st, a);
    Handshake.Preserved(env, st, a);
    match a
    case ClientTurn(t) => if !t.Deliver? { ClientKeeps(st, t); }
    case DeliverUp(i, keep, ipOk) => UpKeeps(env, st, i, keep, ipOk);
    case DeliverDown(i, keep, ipOk) => DownKeeps(env, st, i, keep, ipOk);
    case _ => LossKeeps(env, st, a);
  }

  lemma {:induction false} Holds(env: Env, st: State, acts: seq<Action>)
    requires Full(st) && Tame(Exec(env, st, acts))
    ensures Full(Exec(env, st, acts))
  {
    if acts != [] {
      var before, a := acts[..|acts| - 1], acts[|acts| - 1];
      TameBefore(env, Exec(env, st, before), a);
      Holds(env, st, before);
      Preserved(env, Exec(env, st, before), a);
    }
  }

  /** From any state a connect that returned 0 can leave with number 1 and the measurement over, on
      any channel: if the first call is acknowledged, its message was accepted. */
  lemma FirstSuccessIsOwn(env: Env, st: State, acts: seq<Action>)
    requires Connected.Known(st) && Connected.JustConnected(st) && Connected.Clean(st)
    requires Tame(Exec(env, st, acts))
    ensures var g := Exec(env, st, acts).log;
      forall e :: e in g.completed && e.ok && e.call <= 1 ==> Delivers(g, e.call)
  {
    Holds(env, st, acts);
    FirstEntry(Exec(env, st, acts));
  }

  lemma FirstEntry(st: State)
    requires Inv(st)
    ensures forall e :: e in st.log.completed && e.ok && e.call <= 1 ==> Delivers(st.log, e.call)
  {
    forall e | e in st.log.completed && e.ok && e.call <= 1
      ensures Delivers(st.log, e.call)
    {
      assert e == Completion(1, true);
    }
  }
}
