/** When a success of mic_tcp_send speaks of its own message, with threads interleaved statement by
    statement: ACKs are not reordered, nothing else is assumed of the network or the schedule. */
module OwnMessage {
  import opened Pdus
  import opened Threads
  import opened Systems
  import opened LockStep
  import InOrder
  import Provenance
  import StopAndWait

  /** Slot i holds the message of this send call. */
  predicate Holding(g: Log, i: nat, call: nat) {
    && i < |g.accepted| && g.accepted[i].call == call
    && 1 <= call <= |g.msgs| && g.accepted[i].pdu.payload == g.msgs[call - 1]
  }

  /** The server accepted the message of this send call. */
  ghost predicate Delivers(g: Log, call: nat) { exists i: nat :: Holding(g, i, call) }

  /** A transmission of one of the first `calls` send calls. */
  predicate OfCall(f: Flight, calls: int) { IsData(f.pdu) && 0 < f.call <= calls }

  /** Each call completed at most once, in order. */
  ghost predicate Calls(st: State) {
    var g := st.log;
    && |g.numbers| == |g.msgs|
    && (InSend(st.client.pc) ==> g.numbers != [])
    && (forall i :: 0 <= i < |g.completed| ==> 1 <= g.completed[i].call <= StopAndWait.Returned(st))
    && (forall i, j :: 0 <= i < j < |g.completed| ==> g.completed[i].call < g.completed[j].call)
  }

  /** No number sent so far exceeds the client's, or the one the expected ACK is counted from. */
  ghost predicate Bounded(st: State) {
    var pc, n := st.client.pc, ClientNumber(st);
    && (InSend(pc) && st.log.numbers != [] ==>
          StopAndWait.Current(st) <= n && (HasBase(pc) ==> StopAndWait.Current(st) <= pc.base))
    && (pc.SendDue? ==> pc.seqNum <= pc.base)
    && (forall f :: f in st.log.transmitted && OfCall(f, f.call) ==>
          f.call <= |st.log.msgs| && f.pdu.seqNum <= n && (HasBase(pc) ==> f.pdu.seqNum <= pc.base))
  }

  /** Whatever was sent up to an acknowledged call is below every number used afterwards. */
  ghost predicate Behind(g: Log, e: Completion, n: int) {
    forall f :: f in g.transmitted && OfCall(f, e.call) ==>
      f.pdu.seqNum < n && forall j :: e.call <= j < |g.numbers| ==> f.pdu.seqNum < g.numbers[j]
  }

  ghost predicate AllBehind(st: State) {
    forall e :: e in st.log.completed && e.ok ==> Behind(st.log, e, ClientNumber(st))
  }

  /** The call opens its block: it is the first, or the one before it was acknowledged. */
  predicate Opens(g: Log, call: nat) { call <= 1 || StopAndWait.Acknowledged(g, call - 1) }

  ghost predicate Own(g: Log) {
    forall e :: e in g.completed && e.ok && e.call >= 1 && Opens(g, e.call) ==> Delivers(g, e.call)
  }

  ghost predicate Inv(st: State) { Calls(st) && Bounded(st) && AllBehind(st) && Own(st.log) }

  predicate Facts(c: Client, t: Turn, o: Out) {
    && (o.client.pc.SendDue? ==>
          || o.client.pc == c.pc
          || (c.pc.ReadExpected? && o.client.pc == SendDue(c.pc.msg, c.pc.seqNum, c.sock.currentSeqNum)))
    && (StartsCall(c, t) ==> !InSend(c.pc) && InSend(o.client.pc))
    && (InSend(c.pc) && !InSend(o.client.pc) ==> o.client.pc.Ready?)
  }

  lemma FactsHold(c: Client, t: Turn)
    ensures Facts(c, t, ClientDo(c, t))
  {
    if t.Main? { MainFacts(c, t); }
  }

  lemma MainFacts(c: Client, t: Turn)
    requires t.Main?
    ensures Facts(c, t, MainStep(c, t.ipOk))
  {
  }

  lemma CallsKept(st: State, t: Turn, o: Out)
    requires Calls(st) && Facts(st.client, t, o) && LockStep.Facts(st.client, t, o)
    ensures Calls(Advance(st, t, o))
  {
  }

  lemma BoundedKept(st: State, t: Turn, o: Out)
    requires Calls(st) && Bounded(st) && LocalsInv(st) && Facts(st.client, t, o) && LockStep.Facts(st.client, t, o)
    requires ClientNumber(st) <= o.client.sock.currentSeqNum
    ensures Bounded(Advance(st, t, o))
  {
  }

  lemma BehindKept(st: State, t: Turn, o: Out, e: Completion)
    requires Calls(st) && Facts(st.client, t, o) && LockStep.Facts(st.client, t, o)
    requires ClientNumber(st) <= o.client.sock.currentSeqNum
    requires Behind(st.log, e, ClientNumber(st)) && e.call <= StopAndWait.Returned(st)
    ensures Behind(Advance(st, t, o).log, e, o.client.sock.currentSeqNum)
  {
  }

  /** The call in progress is acknowledged. */
  predicate Wins(st: State, o: Out) {
    Completes(st.client.pc, o.client.pc) && o.client.pc.result.Delivered?
  }

  lemma BehindStarts(st: State, t: Turn, o: Out)
    requires Calls(st) && Bounded(st) && LocalsInv(st) && Facts(st.client, t, o) && LockStep.Facts(st.client, t, o)
    requires Wins(st, o) && ClientNumber(st) >= 1
    ensures Behind(Advance(st, t, o).log, Completion(|st.log.msgs|, true), o.client.sock.currentSeqNum)
  {
  }

  lemma AllBehindKept(st: State, t: Turn, o: Out)
    requires Calls(st) && Bounded(st) && LocalsInv(st) && Facts(st.client, t, o) && LockStep.Facts(st.client, t, o)
    requires ClientNumber(st) <= o.client.sock.currentSeqNum && ClientNumber(st) >= 1 && AllBehind(st)
    ensures AllBehind(Advance(st, t, o))
  {
    var st' := Advance(st, t, o);
    forall e | e in st'.log.completed && e.ok
      ensures Behind(st'.log, e, ClientNumber(st'))
    {
      if e in st.log.completed {
        BehindKept(st, t, o, e);
      } else {
        BehindStarts(st, t, o);
      }
    }
  }

  lemma NotEarlier(g: Log, e: Completion, n: int, f: Flight)
    requires Behind(g, e, n) && f in g.transmitted && IsData(f.pdu)
    requires f.call > 0 && e.call < |g.numbers| && g.numbers[e.call] <= f.pdu.seqNum
    ensures f.call > e.call
  {
  }

  /** The slot a success speaks of was filled by its own call, if that call opens its block. */
  lemma WinnerDelivers(st: State, o: Out)
    requires LockStep.Inv(st) && InOrder.Numbers(st) && Provenance.Inv(st) && Inv(st)
    requires st.client.pc.Woken? && ClientNumber(st) == st.client.pc.base + 1 && Opens(st.log, |st.log.msgs|)
    ensures Delivers(st.log, |st.log.msgs|)
  {
    var g, base, n := st.log, st.client.pc.base, |st.log.msgs|;
    var f := g.accepted[base - 1];
    assert f in g.accepted && f.pdu.seqNum == base;
    assert g.numbers[n - 1] <= base;
    if n > 1 {
      var e :| e in g.completed && e.call == n - 1 && e.ok;
      NotEarlier(g, e, ClientNumber(st), f);
    }
    assert Holding(g, base - 1, n);
  }

  lemma DeliversLater(g: Log, g': Log, call: nat)
    requires Delivers(g, call) && g.accepted <= g'.accepted && g.msgs <= g'.msgs
    ensures Delivers(g', call)
  {
    var i: nat :| Holding(g, i, call);
    assert Holding(g', i, call);
  }

  lemma OwnLater(g: Log, g': Log)
    requires Own(g) && g'.completed == g.completed && g.accepted <= g'.accepted && g.msgs <= g'.msgs
    ensures Own(g')
  {
    forall e | e in g'.completed && e.ok && e.call >= 1 && Opens(g', e.call)
      ensures Delivers(g', e.call)
    {
      assert Opens(g, e.call);
      DeliversLater(g, g', e.call);
    }
  }

  lemma OwnSnoc(g: Log, g': Log, e: Completion)
    requires Own(g) && g'.completed == g.completed + [e] && g'.accepted == g.accepted && g.msgs <= g'.msgs
    requires forall d :: d in g.completed ==> d.call < e.call
    requires e.ok && e.call >= 1 && Opens(g, e.call) ==> Delivers(g, e.call)
    ensures Own(g')
  {
    forall d | d in g'.completed && d.ok && d.call >= 1 && Opens(g', d.call)
      ensures Delivers(g', d.call)
    {
      assert Opens(g, d.call);
      DeliversLater(g, g', d.call);
    }
  }

  lemma OwnKept(st: State, t: Turn, o: Out)
    requires LockStep.Inv(st) && InOrder.Numbers(st) && Provenance.Inv(st) && Inv(st)
    requires Facts(st.client, t, o) && LockStep.Facts(st.client, t, o)
    ensures Own(Advance(st, t, o).log)
  {
    if Completes(st.client.pc, o.client.pc) { OwnReturn(st, t, o); } else { OwnLater(st.log, Advance(st, t, o).log); }
  }

  /** The log of a call that returns. */
  lemma ReturnLogged(st: State, t: Turn, o: Out)
    requires Completes(st.client.pc, o.client.pc) && Facts(st.client, t, o)
    ensures var g, g' := st.log, Advance(st, t, o).log;
      && g'.completed == g.completed + [Completion(|g.msgs|, o.client.pc.result.Delivered?)]
      && g'.msgs == g.msgs && g'.accepted == g.accepted
  {
  }

  lemma OwnReturn(st: State, t: Turn, o: Out)
    requires LockStep.Inv(st) && InOrder.Numbers(st) && Provenance.Inv(st) && Inv(st)
    requires Facts(st.client, t, o) && LockStep.Facts(st.client, t, o) && Completes(st.client.pc, o.client.pc)
    ensures Own(Advance(st, t, o).log)
  {
    var e := Completion(|st.log.msgs|, o.client.pc.result.Delivered?);
    ReturnLogged(st, t, o);
    if e.ok && Opens(st.log, e.call) { WinnerDelivers(st, o); }
    OwnSnoc(st.log, Advance(st, t, o).log, e);
  }

  /** Everything known of a state of the data phase, fine-grained. */
  ghost predicate Full(st: State) {
    LockStep.Inv(st) && InOrder.Numbers(st) && Provenance.Inv(st) && Inv(st)
  }

  lemma AdvanceKeeps(st: State, t: Turn, o: Out)
    requires Full(st) && Facts(st.client, t, o) && LockStep.Facts(st.client, t, o) && AckInOrder(st, t)
    ensures Inv(Advance(st, t, o))
  {
    CallsKept(st, t, o);
    BoundedKept(st, t, o);
    AllBehindKept(st, t, o);
    OwnKept(st, t, o);
  }

  /** Only the channels and the server differ, the server's log growing. */
  predicate SameClient(st: State, st': State) {
    && st'.client == st.client && st'.log.numbers == st.log.numbers && st'.log.msgs == st.log.msgs
    && st'.log.transmitted == st.log.transmitted && st'.log.completed == st.log.completed
    && st.log.accepted <= st'.log.accepted
  }

  lemma ElsewhereKeeps(st: State, st': State)
    requires Inv(st) && SameClient(st, st')
    ensures Inv(st')
  {
    OwnLater(st.log, st'.log);
  }

  lemma Taken(st: State, keep: bool, ipOk: bool)
    requires Full(st) && st.down != []
    ensures var rest := st.(down := Rest(st.down, 0, keep));
      Full(rest) && AckInOrder(rest, Deliver(st.down[0], ipOk))
  {
    LockStep.Taken(st, keep, ipOk);
    ElsewhereKeeps(st, st.(down := Rest(st.down, 0, keep)));
  }

  lemma TurnApplied(st: State, t: Turn)
    requires Full(st) && AckInOrder(st, t)
    ensures Inv(ApplyClient(st, t))
  {
    LockStep.FactsHold(st.client, t);
    FactsHold(st.client, t);
    AdvanceKeeps(st, t, ClientDo(st.client, t));
  }

  lemma DownKeeps(env: Env, st: State, i: nat, keep: bool, ipOk: bool)
    requires Full(st) && !env.down.reorders
    ensures Inv(Do(env, st, DeliverDown(i, keep, ipOk)))
  {
    if i < |st.down| && i == 0 {
      Taken(st, keep, ipOk);
      TurnApplied(st.(down := Rest(st.down, 0, keep)), Deliver(st.down[0], ipOk));
    }
  }

  lemma TurnKeeps(env: Env, st: State, t: Turn)
    requires Full(st)
    ensures Inv(Do(env, st, ClientTurn(t)))
  {
    if !t.Deliver? { TurnApplied(st, t); }
  }

  lemma Elsewhere(env: Env, st: State, a: Action)
    requires !a.ClientTurn? && !a.DeliverDown?
    ensures SameClient(st, Do(env, st, a))
  {
  }

  lemma Preserved(env: Env, st: State, a: Action)
    requires Full(st) && !env.down.reorders && Tame(Do(env, st, a))
    ensures Full(Do(env, st, a))
  {
    LockStep.Preserved(env, st, a);
    InOrder.Preserved(env, st, a);
    Provenance.Preserved(env, st, a);
    if a.ClientTurn? {
      TurnKeeps(env, st, a.turn);
    } else if a.DeliverDown? {
      DownKeeps(env, st, a.i, a.keep, a.ipOk);
    } else {
      Elsewhere(env, st, a);
      ElsewhereKeeps(st, Do(env, st, a));
    }
  }

  lemma {:induction false} Holds(env: Env, st: State, acts: seq<Action>)
    requires Drained(st) && !env.down.reorders && Tame(Exec(env, st, acts))
    ensures Full(Exec(env, st, acts))
  {
    if acts != [] {
      var before, a := acts[..|acts| - 1], acts[|acts| - 1];
      TameBefore(env, Exec(env, st, before), a);
      Holds(env, st, before);
      Preserved(env, Exec(env, st, before), a);
    }
  }

  /** A success speaks of its own message, delivered at least once, when its call is the first or
      the call before it was acknowledged; whatever interrupts the sender between two statements. */
  lemma OpeningSuccessIsOwn(env: Env, st: State, acts: seq<Action>)
    requires Drained(st) && !env.down.reorders && Tame(Exec(env, st, acts))
    ensures Own(Exec(env, st, acts).log)
  {
    Holds(env, st, acts);
  }
}
