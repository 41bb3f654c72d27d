/** The loss window of a connection, along every run. */
module Window {
  import opened SlidingWindow
  import opened LossBudget
  import opened Threads
  import opened Systems

  function Outcomes(completed: seq<Completion>): seq<bool> {
    seq(|completed|, i requires 0 <= i < |completed| => completed[i].ok)
  }

  /** The connection is not negotiated yet. */
  predicate Unsettled(pc: Pc) { !InSend(pc) && !InClose(pc) && !pc.Ready? && !pc.Finished? && !pc.EstablishDue? }

  ghost predicate Inv(st: State) {
    var c, h := st.client, Outcomes(st.log.completed);
    && c.sock.slidingWindow == WindowAfter(h, WINDOW_SIZE)
    && Earned(h, WINDOW_SIZE, c.sock.allowedLosses)
    && (InSend(c.pc) || c.pc.Ready? || c.pc.EstablishDue? ==> c.sock.windowSize == WINDOW_SIZE)
    && (Unsettled(c.pc) ==> h == [])
    && 0 <= c.sock.allowedLosses <= 3
  }

  predicate Facts(c: Client, t: Turn, o: Out) {
    var s, s' := c.sock, o.client.sock;
    && (if Completes(c.pc, o.client.pc) then
          var ok := o.client.pc.result.Delivered?;
          && s'.slidingWindow == Push(s.slidingWindow, s.windowSize, ok)
          && (ok || Tolerates(s.slidingWindow, s.windowSize, s.allowedLosses))
        else s'.slidingWindow == s.slidingWindow)
    && (s'.allowedLosses == s.allowedLosses || (Unsettled(c.pc) && 0 <= s'.allowedLosses <= 3))
    && (s'.windowSize == s.windowSize || s'.windowSize == WINDOW_SIZE)
    && (InSend(o.client.pc) || o.client.pc.Ready? || o.client.pc.EstablishDue? ==>
          InSend(c.pc) || c.pc.Ready? || c.pc.EstablishDue? || s'.windowSize == WINDOW_SIZE)
    && (Unsettled(o.client.pc) ==> Unsettled(c.pc))
  }

  lemma FactsHold(c: Client, t: Turn)
    ensures Facts(c, t, ClientDo(c, t))
  {
    if t.Main? { MainFacts(c, t); } else if t.Deliver? { ReceiveFacts(c, t); }
  }

  lemma MainFacts(c: Client, t: Turn)
    requires t.Main?
    ensures Facts(c, t, MainStep(c, t.ipOk))
  {
    if InSend(c.pc) { SendFacts(c, t); } else if InClose(c.pc) { CloseFacts(c, t); } else { ConnectFacts(c, t); }
  }

  lemma SendFacts(c: Client, t: Turn)
    requires t.Main? && InSend(c.pc)
    ensures Facts(c, t, SendStep(c, t.ipOk))
  {
  }

  lemma CloseFacts(c: Client, t: Turn)
    requires t.Main? && InClose(c.pc)
    ensures Facts(c, t, CloseStep(c, t.ipOk))
  {
  }

  lemma ConnectFacts(c: Client, t: Turn)
    requires t.Main? && !InSend(c.pc) && !InClose(c.pc)
    ensures Facts(c, t, ConnectStep(c, t.ipOk))
  {
  }

  lemma ReceiveFacts(c: Client, t: Turn)
    requires t.Deliver?
    ensures Facts(c, t, Receive(c, t.pdu, t.ipOk))
  {
  }

  lemma AdvanceKeeps(st: State, t: Turn, o: Out)
    requires Inv(st) && Facts(st.client, t, o)
    ensures Inv(Advance(st, t, o))
  {
    var h, h' := Outcomes(st.log.completed), Outcomes(Advance(st, t, o).log.completed);
    if Completes(st.client.pc, o.client.pc) {
      var ok := o.client.pc.result.Delivered?;
      assert h' == h + [ok] && h'[..|h|] == h;
      EarnedAppend(h, ok, WINDOW_SIZE, st.client.sock.allowedLosses);
    } else {
      assert h' == h;
    }
  }

  lemma ClientKeeps(st: State, t: Turn)
    requires Inv(st)
    ensures Inv(ApplyClient(st, t))
  {
    FactsHold(st.client, t);
    AdvanceKeeps(st, t, ClientDo(st.client, t));
  }

  lemma DownKeeps(env: Env, st: State, i: nat, keep: bool, ipOk: bool)
    requires Inv(st)
    ensures Inv(Do(env, st, DeliverDown(i, keep, ipOk)))
  {
    if i < |st.down| { ClientKeeps(st.(down := Rest(st.down, i, keep)), Deliver(st.down[i], ipOk)); }
  }

  lemma Elsewhere(env: Env, st: State, a: Action)
    requires Inv(st) && !a.ClientTurn? && !a.DeliverDown?
    ensures Inv(Do(env, st, a))
  {
    var st' := Do(env, st, a);
    assert st'.client == st.client && st'.log.completed == st.log.completed;
  }

  lemma Preserved(env: Env, st: State, a: Action)
    requires Inv(st)
    ensures Inv(Do(env, st, a))
  {
    match a
    case ClientTurn(t) => ClientKeeps(st, t);
    case DeliverDown(i, keep, ipOk) => DownKeeps(env, st, i, keep, ipOk);
    case _ => Elsewhere(env, st, a);
  }

  lemma {:induction false} Holds(env: Env, st: State, acts: seq<Action>)
    requires Inv(st)
    ensures Inv(Exec(env, st, acts))
  {
    if acts != [] {
      Holds(env, st, acts[..|acts| - 1]);
      Preserved(env, Exec(env, st, acts[..|acts| - 1]), acts[|acts| - 1]);
    }
  }

  /** On any channel, from the first PDU on: among any consecutive completed sends, the tolerated
      losses stay within the allowance for every ten. */
  lemma LossBudgetOfRun(env: Env, acts: seq<Action>, i: nat, j: nat)
    requires i <= j <= |Exec(env, INITIAL, acts).log.completed|
    ensures var st := Exec(env, INITIAL, acts); var h := Outcomes(st.log.completed);
      && 0 <= st.client.sock.allowedLosses <= 3
      && Losses(h[i..j]) <= Budget(j - i, WINDOW_SIZE, st.client.sock.allowedLosses)
      && (st.client.sock.allowedLosses == 0 ==> forall k :: 0 <= k < |h| ==> h[k])
  {
    var st := Exec(env, INITIAL, acts);
    Holds(env, INITIAL, acts);
    BudgetOfState(st, i, j);
  }

  lemma BudgetOfState(st: State, i: nat, j: nat)
    requires Inv(st) && i <= j <= |st.log.completed|
    ensures var h := Outcomes(st.log.completed);
      && Losses(h[i..j]) <= Budget(j - i, WINDOW_SIZE, st.client.sock.allowedLosses)
      && (st.client.sock.allowedLosses == 0 ==> forall k :: 0 <= k < |h| ==> h[k])
  {
    var h := Outcomes(st.log.completed);
    RunBudget(h, WINDOW_SIZE, st.client.sock.allowedLosses, i, j);
    forall k | 0 <= k < |h| && !h[k]
      ensures st.client.sock.allowedLosses > 0
    {
      FirstLoss(h, WINDOW_SIZE, st.client.sock.allowedLosses, k);
    }
  }
}
