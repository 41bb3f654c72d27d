/** The data phase when ACKs are not reordered: the two numbers move in lock step. The data
    direction may lose, duplicate and reorder, and threads interleave statement by statement. */
module LockStep {
  import opened Pdus
  import opened SlidingWindow
  import opened LossBudget
  import opened Handlers
  import opened Threads
  import opened Systems
  import ServerLog
  import Handshake
  import Window

  /** Both ends established with number 1, and of the connection phase nothing in flight that could
      change that: no measurement packet, no measurement ACK, and no SYN+ACK still to be sent. One
      already on its way is harmless, for no ACK is ahead of it. */
  ghost predicate Drained(st: State) {
    var c, s, g := st.client, st.server, st.log;
    && c.sock.state == Established && c.sock.currentSeqNum == 1 && c.pc.Ready? && c.listening
    && c.sock.slidingWindow == 0 && c.sock.windowSize == WINDOW_SIZE && 0 <= c.sock.allowedLosses <= 3
    && s.sock.state == Established && s.sock.currentSeqNum == 1 && Handshake.Served(s.pc)
    && g.serverUp && g.msgs == [] && g.numbers == [] && g.completed == [] && g.accepted == []
    && (forall f :: f in g.transmitted ==> f.call == 0)
    && (forall f :: f in st.up ==> !IsData(f.pdu) && !IsFin(f.pdu))
    && (forall p :: p in st.down ==> !IsAck(p) && !IsFin(p))
  }

  /** No application message reads as the measurement string. */
  ghost predicate PlainMessages(st: State) { forall m :: m in st.log.msgs ==> CString(m) != "mesure" }

  ghost predicate Tame(st: State) { NoWrap(st) && PlainMessages(st) }

  function ClientNumber(st: State): int { st.client.sock.currentSeqNum }
  function ServerNumber(st: State): int { st.server.sock.currentSeqNum }

  /** Completed sends that were acknowledged. */
  function Wins(st: State): nat { Successes(Window.Outcomes(st.log.completed)) }

  predicate HasBase(pc: Pc) { pc.SendDue? || pc.WaitDue? || pc.Waiting? || pc.Woken? }

  predicate InClosing(pc: Pc) { InClose(pc) || pc.Finished? }

  predicate InDataPhase(pc: Pc) { !Window.Unsettled(pc) && !pc.EstablishDue? }

  ghost predicate Sorted(acks: seq<Pdu>) {
    forall i, j :: 0 <= i < j < |acks| && IsAck(acks[i]) && IsAck(acks[j]) ==> acks[i].ackNum <= acks[j].ackNum
  }

  ghost predicate AcksBetween(acks: seq<Pdu>, lo: int, hi: int) {
    forall p :: p in acks ==> !IsFin(p) && (IsAck(p) ==> lo <= p.ackNum <= hi)
  }

  /** A SYN+ACK, which sets the client's number to 1, comes before every ACK. */
  ghost predicate SynAcksFirst(down: seq<Pdu>, number: int) {
    && (number > 1 ==> forall p :: p in down ==> !IsSynAck(p))
    && (forall i, j :: 0 <= i < j < |down| && IsAck(down[i]) ==> !IsSynAck(down[j]))
  }

  ghost predicate UpInv(st: State) {
    forall f :: f in st.up ==>
      && (IsData(f.pdu) ==> f.pdu.seqNum <= ClientNumber(st) && f.pdu.payload in st.log.msgs)
      && (IsFin(f.pdu) ==> InClosing(st.client.pc))
  }

  ghost predicate LocalsInv(st: State) {
    var pc := st.client.pc;
    && InDataPhase(pc)
    && (st.client.sock.state == Established ==> st.client.listening)
    && (InSend(pc) ==> pc.msg in st.log.msgs)
    && (pc.ReadExpected? || pc.SendDue? ==> pc.seqNum <= ClientNumber(st))
    && (HasBase(pc) ==> Wins(st) + 1 <= pc.base <= ClientNumber(st))
  }

  ghost predicate Inv(st: State) {
    && Handshake.Served(st.server.pc)
    && ServerNumber(st) == |st.log.accepted| + 1
    && (st.server.sock.state == Established || (Handshake.Past(st.server.sock.state) && InClosing(st.client.pc)))
    && Wins(st) + 1 <= ClientNumber(st) <= ServerNumber(st) <= ClientNumber(st) + 1
    && AcksBetween(st.down, ClientNumber(st), ServerNumber(st)) && Sorted(st.down)
    && SynAcksFirst(st.down, ClientNumber(st))
    && UpInv(st) && LocalsInv(st)
  }

  predicate Facts(c: Client, t: Turn, o: Out) {
    var pc, pc', e := c.pc, o.client.pc, o.emitted;
    && (o.client.sock.currentSeqNum == c.sock.currentSeqNum
        || (t.Deliver? && Receptive(c) && IsAck(t.pdu) && o.client.sock.currentSeqNum == t.pdu.ackNum))
    && (pc'.ReadExpected? || pc'.SendDue? ==>
          ((pc.ReadExpected? || pc.SendDue?) && pc'.seqNum == pc.seqNum) || pc'.seqNum == c.sock.currentSeqNum)
    && (HasBase(pc') ==>
          (HasBase(pc) && pc'.base == pc.base) || pc'.base == c.sock.currentSeqNum)
    && (Completes(pc, pc') ==>
          && (pc'.result.Delivered? ==>
                pc.Woken? && c.sock.currentSeqNum == Next(pc.base) && o.client.sock.currentSeqNum == Next(pc.base)))
    && (e.Some? && IsData(e.value) ==> pc.SendDue? && e.value == Data(pc.seqNum, pc.msg))
    && (e.Some? && IsFin(e.value) ==> InClosing(pc'))
    && (InSend(pc') ==> if InSend(pc) then pc'.msg == pc.msg else StartsCall(c, t) && pc'.msg == t.msg)
    && InDataPhase(pc') && (InClosing(pc) ==> InClosing(pc'))
    && (o.client.sock.state == Established ==>
          o.client.listening || (c.sock.state == Established && !c.listening))
  }

  lemma FactsHold(c: Client, t: Turn)
    requires InDataPhase(c.pc) && (t.Deliver? && IsSynAck(t.pdu) ==> c.sock.currentSeqNum == 1)
    ensures Facts(c, t, ClientDo(c, t))
  {
    if t.Main? { MainFacts(c, t); } else if t.Deliver? { ReceiveFacts(c, t); }
  }

  lemma MainFacts(c: Client, t: Turn)
    requires InDataPhase(c.pc) && t.Main?
    ensures Facts(c, t, MainStep(c, t.ipOk))
  {
    if InSend(c.pc) { SendFacts(c, t); }
  }

  lemma SendFacts(c: Client, t: Turn)
    requires InSend(c.pc) && t.Main?
    ensures Facts(c, t, SendStep(c, t.ipOk))
  {
  }

  lemma ReceiveFacts(c: Client, t: Turn)
    requires InDataPhase(c.pc) && t.Deliver? && (IsSynAck(t.pdu) ==> c.sock.currentSeqNum == 1)
    ensures Facts(c, t, Receive(c, t.pdu, t.ipOk))
  {
  }

  lemma OutcomesGrow(completed: seq<Completion>, x: Completion)
    ensures Window.Outcomes(completed + [x]) == Window.Outcomes(completed) + [x.ok]
    ensures Successes(Window.Outcomes(completed + [x])) == Successes(Window.Outcomes(completed)) + Bit(x.ok)
  {
    var h := Window.Outcomes(completed);
    assert Window.Outcomes(completed + [x]) == h + [x.ok];
    assert (h + [x.ok])[..|h|] == h;
  }

  lemma WinsAdvance(st: State, t: Turn, o: Out)
    ensures var st' := Advance(st, t, o);
      Wins(st') == Wins(st) + if Completes(st.client.pc, o.client.pc) then Bit(o.client.pc.result.Delivered?) else 0
  {
    if Completes(st.client.pc, o.client.pc) {
      var calls := |st.log.msgs| + if StartsCall(st.client, t) then 1 else 0;
      OutcomesGrow(st.log.completed, Completion(calls, o.client.pc.result.Delivered?));
    }
  }

  /** A delivered ACK is at least every number seen and at most every ACK behind it, and no SYN+ACK
      is behind it; a delivered SYN+ACK finds the number it sets. */
  predicate AckInOrder(st: State, t: Turn) {
    && (t.Deliver? && IsAck(t.pdu) ==>
          && ClientNumber(st) <= t.pdu.ackNum <= ServerNumber(st)
          && (forall p :: p in st.down && IsAck(p) ==> t.pdu.ackNum <= p.ackNum)
          && forall p :: p in st.down ==> !IsSynAck(p))
    && (t.Deliver? && IsSynAck(t.pdu) ==> ClientNumber(st) == 1)
  }

  lemma LocalsAdvance(st: State, t: Turn, o: Out)
    requires Inv(st) && Facts(st.client, t, o) && AckInOrder(st, t)
    ensures LocalsInv(Advance(st, t, o))
  {
    WinsAdvance(st, t, o);
  }

  lemma AdvanceKeeps(st: State, t: Turn, o: Out)
    requires Inv(st) && Facts(st.client, t, o) && AckInOrder(st, t)
    ensures Inv(Advance(st, t, o))
  {
    WinsAdvance(st, t, o);
    LocalsAdvance(st, t, o);
  }

  lemma ReactKeeps(st: State, f: Flight, r: Reaction)
    requires Inv(st) && Tame(React(st, f, r)) && ServerLog.Facts(st.server.sock, f.pdu, r)
    requires IsData(f.pdu) ==> f.pdu.seqNum <= ClientNumber(st) && f.pdu.payload in st.log.msgs
    requires IsFin(f.pdu) ==> InClosing(st.client.pc)
    requires r.sock.state == st.server.sock.state || IsFin(f.pdu) || st.server.sock.state != Established
    requires Handshake.Past(r.sock.state)
    ensures Inv(React(st, f, r))
  {
    assert IsData(f.pdu) ==> IsText(f.pdu.payload);
    if r.reply.Some? { ReplyKeeps(st.down, r.reply.value, ClientNumber(st), ServerNumber(st), r.sock.currentSeqNum); }
  }

  /** A reply joins the ACKs in flight at the end. */
  lemma ReplyKeeps(down: seq<Pdu>, p: Pdu, lo: int, hi: int, hi': int)
    requires AcksBetween(down, lo, hi) && Sorted(down) && SynAcksFirst(down, lo) && lo <= hi <= hi'
    requires !IsFin(p) && !IsSynAck(p) && (IsAck(p) ==> p.ackNum == hi')
    ensures AcksBetween(down + [p], lo, hi') && Sorted(down + [p]) && SynAcksFirst(down + [p], lo)
  {
  }

  lemma ServerLeavesOnFin(s: Sock, p: Pdu, ipOk: bool)
    requires Handshake.Past(s.state)
    ensures var r := ServerHandle(s, p, ipOk);
      Handshake.Past(r.sock.state) && (r.sock.state == s.state || IsFin(p) || s.state != Established)
  {
  }

  lemma UpKeeps(env: Env, st: State, i: nat, keep: bool, ipOk: bool)
    requires Inv(st) && Tame(Do(env, st, DeliverUp(i, keep, ipOk)))
    ensures Inv(Do(env, st, DeliverUp(i, keep, ipOk)))
  {
    if i < |st.up| {
      var f, rest := st.up[i], st.(up := Rest(st.up, i, keep));
      var r := ServerHandle(st.server.sock, f.pdu, ipOk);
      ServerLog.FactsHold(st.server.sock, f.pdu, ipOk);
      ServerLeavesOnFin(st.server.sock, f.pdu, ipOk);
      if Tame(React(rest, f, r)) { ReactKeeps(rest, f, r); }
    }
  }

  lemma RestOrdered(down: seq<Pdu>, keep: bool, number: int)
    requires down != [] && Sorted(down) && SynAcksFirst(down, number)
    ensures Sorted(Rest(down, 0, keep)) && SynAcksFirst(Rest(down, 0, keep), number)
    ensures IsAck(down[0]) ==>
              forall p :: p in Rest(down, 0, keep) ==> !IsSynAck(p) && (IsAck(p) ==> down[0].ackNum <= p.ackNum)
  {
    var rest := Rest(down, 0, keep);
    assert forall j :: 0 <= j < |rest| ==> rest[j] == down[if keep then j else j + 1];
  }

  /** The PDU at the head of the channel is taken from it, or a copy of it is. */
  lemma Taken(st: State, keep: bool, ipOk: bool)
    requires Inv(st) && st.down != []
    ensures var rest := st.(down := Rest(st.down, 0, keep));
      Inv(rest) && AckInOrder(rest, Deliver(st.down[0], ipOk))
  {
    RestOrdered(st.down, keep, ClientNumber(st));
    assert st.down[0] in st.down && forall p :: p in Rest(st.down, 0, keep) ==> p in st.down;
  }

  lemma ClientKeeps(st: State, t: Turn)
    requires Inv(st) && AckInOrder(st, t)
    ensures Inv(ApplyClient(st, t))
  {
    FactsHold(st.client, t);
    AdvanceKeeps(st, t, ClientDo(st.client, t));
  }

  lemma DownKeeps(env: Env, st: State, i: nat, keep: bool, ipOk: bool)
    requires Inv(st) && !env.down.reorders
    ensures Inv(Do(env, st, DeliverDown(i, keep, ipOk)))
  {
    if i < |st.down| && i == 0 {
      Taken(st, keep, ipOk);
      ClientKeeps(st.(down := Rest(st.down, 0, keep)), Deliver(st.down[0], ipOk));
    }
  }

  lemma TurnKeeps(env: Env, st: State, t: Turn)
    requires Inv(st)
    ensures Inv(Do(env, st, ClientTurn(t)))
  {
    if !t.Deliver? { ClientKeeps(st, t); }
  }

  lemma AcceptKeeps(st: State, t: AcceptTurn)
    requires Inv(st)
    ensures Inv(ApplyAccept(st, t))
  {
  }

  lemma LossOrdered(down: seq<Pdu>, i: nat, number: int)
    requires i < |down| && Sorted(down) && SynAcksFirst(down, number)
    ensures Sorted(RemoveAt(down, i)) && SynAcksFirst(RemoveAt(down, i), number)
  {
  }

  lemma LossKeeps(st: State, i: nat)
    requires Inv(st)
    ensures i < |st.up| ==> Inv(st.(up := RemoveAt(st.up, i)))
    ensures i < |st.down| ==> Inv(st.(down := RemoveAt(st.down, i)))
  {
    if i < |st.up| { assert forall f :: f in RemoveAt(st.up, i) ==> f in st.up; }
    if i < |st.down| {
      LossOrdered(st.down, i, ClientNumber(st));
      assert forall p :: p in RemoveAt(st.down, i) ==> p in st.down;
    }
  }

  lemma RecvKeeps(st: State, max: nat)
    requires Inv(st)
    ensures Inv(ApplyRecv(st, max))
  {
  }

  lemma Preserved(env: Env, st: State, a: Action)
    requires Inv(st) && Tame(Do(env, st, a)) && !env.down.reorders
    ensures Inv(Do(env, st, a))
  {
    match a
    case ClientTurn(t) => TurnKeeps(env, st, t);
    case DeliverUp(i, keep, ipOk) => UpKeeps(env, st, i, keep, ipOk);
    case DeliverDown(i, keep, ipOk) => DownKeeps(env, st, i, keep, ipOk);
    case ServerTurn(t) => AcceptKeeps(st, t);
    case LoseUp(i) => LossKeeps(st, i);
    case LoseDown(i) => LossKeeps(st, i);
    case Recv(max) => RecvKeeps(st, max);
  }

  lemma TameBefore(env: Env, st: State, a: Action)
    requires Tame(Do(env, st, a))
    ensures Tame(st)
  {
    LogsGrow(env, st, a);
    forall m | m in st.log.msgs
      ensures CString(m) != "mesure"
    {
      assert m in Do(env, st, a).log.msgs;
    }
  }

  lemma {:induction false} Holds(env: Env, st: State, acts: seq<Action>)
    requires Drained(st) && !env.down.reorders && Tame(Exec(env, st, acts))
    ensures Inv(Exec(env, st, acts))
  {
    if acts != [] {
      var before, a := acts[..|acts| - 1], acts[|acts| - 1];
      TameBefore(env, Exec(env, st, before), a);
      Holds(env, st, before);
      Preserved(env, Exec(env, st, before), a);
    }
  }

  /** Lock step: the server is never behind the client nor more than one ahead, ACKs in flight
      lie between the two and arrive in order, and every acknowledged send is matched by a payload
      the server accepted. */
  lemma LockStepNumbers(env: Env, st: State, acts: seq<Action>)
    requires Drained(st) && !env.down.reorders && Tame(Exec(env, st, acts))
    ensures var st' := Exec(env, st, acts);
      && ClientNumber(st') <= ServerNumber(st') <= ClientNumber(st') + 1
      && Sorted(st'.down) && AcksBetween(st'.down, ClientNumber(st'), ServerNumber(st'))
      && SynAcksFirst(st'.down, ClientNumber(st'))
      && Wins(st') <= |st'.log.accepted|
  {
    Holds(env, st, acts);
  }

  /** End-to-end partial reliability: of n completed sends, the server has accepted at least
      n - L * ceil(n / 10), whatever was lost, repeated or timed out, L being the allowance. */
  lemma PartialReliability(env: Env, st: State, acts: seq<Action>)
    requires Drained(st) && !env.down.reorders && Tame(Exec(env, st, acts))
    ensures Reliable(Exec(env, st, acts), st.client.sock.allowedLosses)
  {
    Holds(env, st, acts);
    WindowStart(st);
    Window.Holds(env, st, acts);
    AllowanceFixed(env, st, acts);
    ReliableState(Exec(env, st, acts));
  }

  /** Of n completed sends, at least n - allowed * ceil(n / 10) payloads were accepted. */
  ghost predicate Reliable(st: State, allowed: int) {
    var n := |st.log.completed|;
    st.client.sock.allowedLosses == allowed && |st.log.accepted| >= n - allowed * ((n + 9) / 10)
  }

  lemma WindowStart(st: State)
    requires Drained(st)
    ensures Window.Inv(st)
  {
    assert Window.Outcomes(st.log.completed) == [];
  }

  lemma ReliableState(st: State)
    requires Window.Inv(st) && Wins(st) <= |st.log.accepted|
    ensures Reliable(st, st.client.sock.allowedLosses)
  {
    var h := Window.Outcomes(st.log.completed);
    Window.BudgetOfState(st, 0, |h|);
    assert h[0..|h|] == h;
    CountsTotal(h);
  }

  lemma {:induction false} AllowanceFixed(env: Env, st: State, acts: seq<Action>)
    requires Drained(st) && !env.down.reorders && Tame(Exec(env, st, acts))
    ensures Exec(env, st, acts).client.sock.allowedLosses == st.client.sock.allowedLosses
  {
    if acts != [] {
      var before, a := acts[..|acts| - 1], acts[|acts| - 1];
      var mid := Exec(env, st, before);
      TameBefore(env, mid, a);
      AllowanceFixed(env, st, before);
      Holds(env, st, before);
      if a.ClientTurn? { Window.FactsHold(mid.client, a.turn); }
      if a.DeliverDown? && a.i < |mid.down| { Window.FactsHold(mid.client, Deliver(mid.down[a.i], a.ipOk)); }
    }
  }
}
