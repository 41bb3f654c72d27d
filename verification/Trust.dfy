/** When a caller may read the success of mic_tcp_send as "my own message was delivered": exact
    conditions, on what the caller and the client's socket can see. Threads interleave statement by
    statement; ACKs are not reordered. */
module Trust {
  import opened Pdus
  import opened SlidingWindow
  import opened LossBudget
  import opened Threads
  import opened Systems
  import opened LockStep
  import opened OwnMessage
  import opened CallHistory
  import opened Runs
  import BorrowedSuccess
  import StopAndWait
  import Window

  // ---- After a history of results ----

  /** The calls returned h, and the one after them was acknowledged. */
  ghost predicate SucceedsAfter(g: Log, h: seq<CallResult>) { Completions(h + [Delivered]) <= g.completed }

  /** After the results h, a success means that the caller's own message was delivered. */
  ghost predicate NextTrusted(st: State, h: seq<CallResult>) {
    forall env: Env, acts: seq<Action> ::
      !env.down.reorders && Tame(Exec(env, st, acts)) && SucceedsAfter(Exec(env, st, acts).log, h) ==>
        Delivers(Exec(env, st, acts).log, |h| + 1)
  }

  /** The last call was acknowledged, or there was none. */
  predicate Settled(h: seq<CallResult>) { h == [] || h[|h| - 1].Delivered? }

  lemma NextIn(g: Log, h: seq<CallResult>)
    requires SucceedsAfter(g, h)
    ensures Completion(|h| + 1, true) in g.completed
    ensures h != [] && h[|h| - 1].Delivered? ==> Completion(|h|, true) in g.completed
  {
    CompletionsSnoc(h, Delivered);
    var a := Completions(h + [Delivered]);
    assert a[|a| - 1] == Completion(|h| + 1, true) && g.completed[|a| - 1] == a[|a| - 1];
    if h != [] && h[|h| - 1].Delivered? {
      var b := Completions(h);
      assert b[|b| - 1] == Completion(|h|, true) && g.completed[|b| - 1] == a[|b| - 1] == b[|b| - 1];
    }
  }

  lemma SettledIsOwn(g: Log, h: seq<CallResult>)
    requires Own(g) && SucceedsAfter(g, h) && Settled(h)
    ensures Delivers(g, |h| + 1)
  {
    NextIn(g, h);
    assert Opens(g, |h| + 1);
  }

  /** Only histories that the window affords occur. */
  lemma HistoryAfforded(g: Log, h: seq<CallResult>, allowed: int)
    requires SucceedsAfter(g, h) && Earned(Window.Outcomes(g.completed), WINDOW_SIZE, allowed)
    ensures Affordable(h, allowed)
  {
    CompletionsSnoc(h, Delivered);
    var a, b := Completions(h), Completions(h + [Delivered]);
    assert a == b[..|a|] == g.completed[..|a|];
    var o := Window.Outcomes(g.completed);
    assert o[..|a|] == Window.Outcomes(a);
    EarnedPrefix(o, |a|, WINDOW_SIZE, allowed);
  }

  lemma RunAfforded(env: Env, st: State, acts: seq<Action>, h: seq<CallResult>)
    requires Drained(st) && !env.down.reorders && Tame(Exec(env, st, acts))
    requires SucceedsAfter(Exec(env, st, acts).log, h)
    ensures Affordable(h, st.client.sock.allowedLosses)
  {
    WindowStart(st);
    Window.Holds(env, st, acts);
    AllowanceFixed(env, st, acts);
    HistoryAfforded(Exec(env, st, acts).log, h, st.client.sock.allowedLosses);
  }

  lemma BorrowedIsNotOwn(g: Log, h: seq<CallResult>, k: U32, a: Payload, b: Payload)
    requires BorrowedSuccess.Borrowed(g, h, k, a, b)
    ensures SucceedsAfter(g, h) && !Delivers(g, |h| + 1)
  {
    assert forall i :: 0 <= i < |g.accepted| ==> g.accepted[i] in g.accepted;
  }

  lemma UnsettledIsNotOwn(st: State, h: seq<CallResult>)
    requires Drained(st) && Returns(h) && |h| + 1 < MOD32 && !Settled(h)
    requires Affordable(h, st.client.sock.allowedLosses)
    ensures exists acts ::
      Tame(Exec(CALM, st, acts)) && SucceedsAfter(Exec(CALM, st, acts).log, h)
      && !Delivers(Exec(CALM, st, acts).log, |h| + 1)
  {
    var before, o := h[..|h| - 1], h[|h| - 1];
    assert before + [o] == h;
    var r, k := BorrowedSuccess.Borrow(st, before, o, "a", "b");
    BorrowedIsNotOwn(r.st.log, h, k, "a", "b");
    assert Tame(Exec(CALM, st, r.acts)) && SucceedsAfter(Exec(CALM, st, r.acts).log, h);
  }

  /** The caller's own results decide. From any drained start, after any history of results that can
      occur, a success is sure to mean that the caller's own message was delivered if and only if the
      call before was acknowledged, or there was none. */
  lemma TrustAfterResults(st: State, h: seq<CallResult>)
    requires Drained(st) && Returns(h) && |h| + 1 < MOD32
    ensures NextTrusted(st, h) <==> Settled(h) || !Affordable(h, st.client.sock.allowedLosses)
  {
    if Settled(h) || !Affordable(h, st.client.sock.allowedLosses) {
      forall env: Env, acts: seq<Action> |
        !env.down.reorders && Tame(Exec(env, st, acts)) && SucceedsAfter(Exec(env, st, acts).log, h)
        ensures Delivers(Exec(env, st, acts).log, |h| + 1)
      {
        RunAfforded(env, st, acts, h);
        OpeningSuccessIsOwn(env, st, acts);
        SettledIsOwn(Exec(env, st, acts).log, h);
      }
    } else {
      UnsettledIsNotOwn(st, h);
    }
  }

  // ---- By the number of calls ----

  /** Each of the first `calls` send calls that was acknowledged delivered its own message. */
  ghost predicate Truthful(g: Log, calls: nat) {
    forall e :: e in g.completed && e.ok && e.call <= calls ==> Delivers(g, e.call)
  }

  /** No call returned -1, though it may: the caller is told. */
  ghost predicate Unfailing(st: State) { Tame(st) && StopAndWait.NoFailures(st) }

  ghost predicate Trustworthy(st: State, calls: nat) {
    forall env: Env, acts: seq<Action> ::
      !env.down.reorders && Unfailing(Exec(env, st, acts)) ==> Truthful(Exec(env, st, acts).log, calls)
  }

  /** The same over all runs, with calls that return -1. */
  ghost predicate AlwaysTrustworthy(st: State, calls: nat) {
    forall env: Env, acts: seq<Action> ::
      !env.down.reorders && Tame(Exec(env, st, acts)) ==> Truthful(Exec(env, st, acts).log, calls)
  }

  /** The window cannot afford a tolerated loss before the last of these calls. */
  predicate Lossless(calls: nat, allowed: int) { allowed == 0 || calls + allowed <= 12 }

  lemma CompletedInOrder(st: State, i: nat)
    requires Calls(st) && StopAndWait.NoFailures(st) && i < |st.log.completed|
    ensures st.log.completed[i].call == i + 1
  {
    StopAndWait.CallsAtLeast(st.log.completed, i);
    StopAndWait.CallsRoom(st.log.completed, i, |st.log.completed| - 1);
  }

  lemma NoLossBefore(st: State, i: nat)
    requires Window.Inv(st) && i < |st.log.completed| && !st.log.completed[i].ok
    ensures !Lossless(i + 2, st.client.sock.allowedLosses)
  {
    var h := Window.Outcomes(st.log.completed);
    FirstLoss(h, WINDOW_SIZE, st.client.sock.allowedLosses, i);
    CountsTotal(h[..i]);
  }

  lemma LosslessOpens(st: State, calls: nat, j: nat)
    requires Calls(st) && Window.Inv(st) && StopAndWait.NoFailures(st)
    requires j < |st.log.completed| && st.log.completed[j].call <= calls
    requires Lossless(calls, st.client.sock.allowedLosses)
    ensures Opens(st.log, st.log.completed[j].call)
  {
    CompletedInOrder(st, j);
    if j > 0 {
      var e := st.log.completed[j - 1];
      CompletedInOrder(st, j - 1);
      if !e.ok { NoLossBefore(st, j - 1); }
      assert e in st.log.completed;
    }
  }

  lemma LosslessIsOwn(st: State, calls: nat)
    requires Calls(st) && Own(st.log) && Window.Inv(st) && StopAndWait.NoFailures(st)
    requires Lossless(calls, st.client.sock.allowedLosses)
    ensures Truthful(st.log, calls)
  {
    forall j | 0 <= j < |st.log.completed| && st.log.completed[j].ok && st.log.completed[j].call <= calls
      ensures Delivers(st.log, st.log.completed[j].call)
    {
      LosslessOpens(st, calls, j);
      assert st.log.completed[j] in st.log.completed;
    }
  }

  lemma RunLossless(env: Env, st: State, acts: seq<Action>, calls: nat)
    requires Drained(st) && !env.down.reorders && Unfailing(Exec(env, st, acts))
    requires Lossless(calls, st.client.sock.allowedLosses)
    ensures Truthful(Exec(env, st, acts).log, calls)
  {
    WindowStart(st);
    Window.Holds(env, st, acts);
    AllowanceFixed(env, st, acts);
    OwnMessage.Holds(env, st, acts);
    LosslessIsOwn(Exec(env, st, acts), calls);
  }

  // ---- The first loss the window affords ----

  function AllWell(n: nat): seq<CallResult> { seq(n, _ => Delivered) }

  lemma {:induction false} AllWellOutcomes(n: nat)
    ensures Window.Outcomes(Completions(AllWell(n))) == seq(n, _ => true)
  {
    if n > 0 {
      AllWellOutcomes(n - 1);
      assert AllWell(n)[..n - 1] == AllWell(n - 1);
      LockStep.OutcomesGrow(Completions(AllWell(n - 1)), Completion(n, true));
      assert seq(n, _ => true) == seq(n - 1, _ => true) + [true];
    }
  }

  lemma {:induction false} AllWellSuccesses(n: nat)
    ensures Successes(seq(n, _ => true)) == n
  {
    if n > 0 {
      AllWellSuccesses(n - 1);
      assert seq(n, _ => true)[..n - 1] == seq(n - 1, _ => true);
    }
  }

  /** The earliest tolerated loss: after 11 - L acknowledged calls. */
  lemma LossAfforded(allowed: nat)
    requires 1 <= allowed <= 3
    ensures Affordable(AllWell(11 - allowed) + [Tolerated], allowed)
  {
    var n := 11 - allowed;
    var o: seq<bool> := seq(n, _ => true);
    AllWellOutcomes(n);
    AllWellSuccesses(n);
    assert Recent(o, WINDOW_SIZE) == o;
    ToleratesMeans(o, WINDOW_SIZE, allowed);
    EarnedAppend(o, false, WINDOW_SIZE, allowed);
    CompletionsSnoc(AllWell(n), Tolerated);
    LockStep.OutcomesGrow(Completions(AllWell(n)), Completion(n + 1, false));
  }

  lemma {:induction false} UnfailingCompletions(h: seq<CallResult>)
    requires forall i :: 0 <= i < |h| ==> h[i].Tolerated? || h[i].Delivered?
    ensures |Completions(h)| == |h|
  {
    if h != [] { UnfailingCompletions(h[..|h| - 1]); }
  }

  /** A run whose log falsifies the claim for the call after h. */
  lemma FalsifiedAfter(st: State, h: seq<CallResult>, o: CallResult, calls: nat) returns (r: Run)
    requires Drained(st) && Returns(h) && |h| + 2 < MOD32 && (o.Failed? || o.Tolerated?)
    requires Affordable(h + [o], st.client.sock.allowedLosses) && calls >= |h| + 2
    ensures Continues(At(CALM, st), r) && Tame(r.st) && !Truthful(r.st.log, calls)
    ensures r.st.client.pc.Ready? && |r.st.log.numbers| == |h| + 2
    ensures r.st.log.completed == Completions(h + [o] + [Delivered])
  {
    var k;
    r, k := BorrowedSuccess.Borrow(st, h, o, "a", "b");
    BorrowedIsNotOwn(r.st.log, h + [o], k, "a", "b");
    NextIn(r.st.log, h + [o]);
  }

  lemma UnfailingEnd(st: State, h: seq<CallResult>)
    requires Tame(st) && st.client.pc.Ready? && st.log.completed == Completions(h) && |st.log.numbers| == |h|
    requires forall i :: 0 <= i < |h| ==> h[i].Tolerated? || h[i].Delivered?
    ensures Unfailing(st)
  {
    UnfailingCompletions(h);
  }

  lemma EndsWell(n: nat, st: State)
    requires Tame(st) && st.client.pc.Ready? && |st.log.numbers| == n + 2
    requires st.log.completed == Completions(AllWell(n) + [Tolerated] + [Delivered])
    ensures Unfailing(st)
  {
    UnfailingEnd(st, AllWell(n) + [Tolerated] + [Delivered]);
  }

  lemma LossRun(st: State, calls: nat) returns (r: Run)
    requires Drained(st) && !Lossless(calls, st.client.sock.allowedLosses)
    ensures Continues(At(CALM, st), r) && Unfailing(r.st) && !Truthful(r.st.log, calls)
  {
    var n := 11 - st.client.sock.allowedLosses;
    LossAfforded(st.client.sock.allowedLosses);
    r := FalsifiedAfter(st, AllWell(n), Tolerated, calls);
    EndsWell(n, r.st);
  }

  lemma LossFalsifies(st: State, calls: nat)
    requires Drained(st) && !Lossless(calls, st.client.sock.allowedLosses)
    ensures exists acts :: Unfailing(Exec(CALM, st, acts)) && !Truthful(Exec(CALM, st, acts).log, calls)
  {
    var r := LossRun(st, calls);
    assert Unfailing(Exec(CALM, st, r.acts)) && !Truthful(Exec(CALM, st, r.acts).log, calls);
  }

  /** From any drained start, in runs whose calls do not return -1: all successes among the first
      `calls` calls are the callers' own exactly when no loss is allowed, or the calls are so few
      that none before the last can be lost. */
  lemma TrustAfterDrain(st: State, calls: nat)
    requires Drained(st)
    ensures Trustworthy(st, calls) <==> Lossless(calls, st.client.sock.allowedLosses)
  {
    if Lossless(calls, st.client.sock.allowedLosses) {
      forall env: Env, acts: seq<Action> | !env.down.reorders && Unfailing(Exec(env, st, acts))
        ensures Truthful(Exec(env, st, acts).log, calls)
      {
        RunLossless(env, st, acts, calls);
      }
    } else {
      LossFalsifies(st, calls);
    }
  }

  lemma FirstIsOwn(env: Env, st: State, acts: seq<Action>, calls: nat)
    requires Drained(st) && !env.down.reorders && Tame(Exec(env, st, acts)) && calls <= 1
    ensures Truthful(Exec(env, st, acts).log, calls)
  {
    OwnMessage.Holds(env, st, acts);
    var g := Exec(env, st, acts).log;
    forall e | e in g.completed && e.ok && e.call <= calls
      ensures Delivers(g, e.call)
    {
      assert Opens(g, e.call);
    }
  }

  lemma FailureFalsifies(st: State, calls: nat)
    requires Drained(st) && calls >= 2
    ensures exists acts :: Tame(Exec(CALM, st, acts)) && !Truthful(Exec(CALM, st, acts).log, calls)
  {
    assert Window.Outcomes(Completions([Failed])) == [];
    assert [] + [Failed] == [Failed];
    var r := FalsifiedAfter(st, [], Failed, calls);
    assert Tame(Exec(CALM, st, r.acts)) && !Truthful(Exec(CALM, st, r.acts).log, calls);
  }

  /** With calls that return -1, even for an allowance of 0, only the first call is sure: a call that
      fails after its payload was accepted leaves its number to the next. */
  lemma TrustDespiteFailures(st: State, calls: nat)
    requires Drained(st)
    ensures AlwaysTrustworthy(st, calls) <==> calls <= 1
  {
    if calls <= 1 {
      forall env: Env, acts: seq<Action> | !env.down.reorders && Tame(Exec(env, st, acts))
        ensures Truthful(Exec(env, st, acts).log, calls)
      {
        FirstIsOwn(env, st, acts, calls);
      }
    } else {
      FailureFalsifies(st, calls);
    }
  }
}
