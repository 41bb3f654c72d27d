/** What the protocol guarantees per message when ACKs are not reordered and the client's
    network thread runs only while mic_tcp_send waits. */
module StopAndWait {
  import opened Pdus
  import opened Handlers
  import opened Threads
  import opened Systems
  import opened LockStep
  import InOrder
  import Provenance
  import Window

  /** The send call in progress uses number n throughout. */
  predicate AtNumber(c: Client, n: U32) {
    var pc := c.pc;
    && c.sock.state == Established
    && (pc.ReadExpected? || pc.SendDue? ==> pc.seqNum == n)
    && (HasBase(pc) ==> pc.base == n)
    && (if pc.Woken? then n <= c.sock.currentSeqNum <= n + 1 else c.sock.currentSeqNum == n)
  }

  predicate Ascending(ns: seq<U32>) {
    forall i, j :: 0 <= i < j < |ns| ==> ns[i] <= ns[j]
  }

  /** No later call shares the number of an acknowledged one. */
  predicate BlockClosed(ns: seq<U32>, e: Completion) {
    1 <= e.call <= |ns| && (e.ok ==> forall j :: e.call <= j < |ns| ==> ns[j] > ns[e.call - 1])
  }

  /** Every transmission of a call carries its number. */
  ghost predicate OneNumberSent(g: Log) {
    forall f :: f in g.transmitted && IsData(f.pdu) && f.call > 0 ==>
      f.call <= |g.numbers| && f.pdu.seqNum == g.numbers[f.call - 1]
  }

  ghost predicate NumbersAscend(st: State) {
    var c, g := st.client, st.log;
    && |g.numbers| == |g.msgs| && Ascending(g.numbers)
    && (forall i :: 0 <= i < |g.numbers| ==> 1 <= g.numbers[i] <= i + 1 && g.numbers[i] <= c.sock.currentSeqNum)
    && (InSend(c.pc) ==> g.numbers != [] && AtNumber(c, g.numbers[|g.numbers| - 1]))
  }

  /** One number per call, in ascending order. */
  ghost predicate OneNumber(st: State) { NumbersAscend(st) && OneNumberSent(st.log) }

  /** An acknowledged call is the last one with its number; c is the client's number and
      `limit` the last call that has returned. */
  ghost predicate BlocksOf(ns: seq<U32>, completed: seq<Completion>, c: int, limit: int) {
    && (forall i :: 0 <= i < |completed| ==>
          var e := completed[i]; BlockClosed(ns, e) && e.call <= limit && (e.ok ==> ns[e.call - 1] < c))
    && (forall i, j :: 0 <= i < j < |completed| ==> completed[i].call < completed[j].call)
  }

  function Returned(st: State): int { |st.log.numbers| - if InSend(st.client.pc) then 1 else 0 }

  ghost predicate Blocks(st: State) {
    BlocksOf(st.log.numbers, st.log.completed, ClientNumber(st), Returned(st))
  }

  ghost predicate Inv(st: State) { OneNumber(st) && Blocks(st) }

  predicate Facts(c: Client, t: Turn, o: Out, n: U32) {
    var pc, pc', e := c.pc, o.client.pc, o.emitted;
    && (InSend(pc') ==>
          if InSend(pc) then AtNumber(o.client, n) else StartsCall(c, t) && AtNumber(o.client, c.sock.currentSeqNum))
    && (StartsCall(c, t) ==> !InSend(pc) && InSend(pc'))
    && (e.Some? && IsData(e.value) ==> InSend(pc) && e.value.seqNum == n)
    && (Completes(pc, pc') && pc'.result.Delivered? ==> o.client.sock.currentSeqNum == Next(n))
    && o.client.sock.currentSeqNum >= c.sock.currentSeqNum
  }

  lemma FactsHold(c: Client, t: Turn, n: U32)
    requires InDataPhase(c.pc) && (InSend(c.pc) ==> AtNumber(c, n))
    requires t.Deliver? ==>
               && Settled(c.pc) && !IsFin(t.pdu) && (IsSynAck(t.pdu) ==> c.sock.currentSeqNum == 1)
               && (IsAck(t.pdu) ==> c.sock.currentSeqNum <= t.pdu.ackNum <= c.sock.currentSeqNum + 1)
    ensures Facts(c, t, ClientDo(c, t), n)
  {
    if t.Main? { MainFacts(c, t, n); } else if t.Deliver? { ReceiveFacts(c, t, n); }
  }

  lemma MainFacts(c: Client, t: Turn, n: U32)
    requires InDataPhase(c.pc) && t.Main? && (InSend(c.pc) ==> AtNumber(c, n))
    ensures Facts(c, t, MainStep(c, t.ipOk), n)
  {
    if InSend(c.pc) { SendFacts(c, t, n); }
  }

  lemma SendFacts(c: Client, t: Turn, n: U32)
    requires InSend(c.pc) && t.Main? && AtNumber(c, n)
    ensures Facts(c, t, SendStep(c, t.ipOk), n)
  {
  }

  lemma ReceiveFacts(c: Client, t: Turn, n: U32)
    requires InDataPhase(c.pc) && t.Deliver? && (InSend(c.pc) ==> AtNumber(c, n))
    requires Settled(c.pc) && !IsFin(t.pdu) && (IsSynAck(t.pdu) ==> c.sock.currentSeqNum == 1)
    requires IsAck(t.pdu) ==> c.sock.currentSeqNum <= t.pdu.ackNum <= c.sock.currentSeqNum + 1
    ensures Facts(c, t, Receive(c, t.pdu, t.ipOk), n)
  {
  }

  /** The number of the call in progress. */
  function Current(st: State): U32 {
    if st.log.numbers == [] then 0 else st.log.numbers[|st.log.numbers| - 1]
  }

  lemma NumberKept(st: State, t: Turn, o: Out)
    requires OneNumber(st) && Facts(st.client, t, o, Current(st))
    requires 1 <= ClientNumber(st) <= |st.log.msgs| + 1
    ensures OneNumber(Advance(st, t, o))
  {
    AscendKept(st, t, o);
    SentKept(st, t, o);
  }

  lemma AscendKept(st: State, t: Turn, o: Out)
    requires NumbersAscend(st) && Facts(st.client, t, o, Current(st))
    requires 1 <= ClientNumber(st) <= |st.log.msgs| + 1
    ensures NumbersAscend(Advance(st, t, o))
  {
  }

  lemma SentKept(st: State, t: Turn, o: Out)
    requires OneNumber(st) && Facts(st.client, t, o, Current(st))
    ensures OneNumberSent(Advance(st, t, o).log)
  {
  }

  lemma BlocksSnoc(ns: seq<U32>, completed: seq<Completion>, c: int, x: Completion)
    requires BlocksOf(ns, completed, c, |ns| - 1) && x.call == |ns| > 0 && (x.ok ==> ns[|ns| - 1] < c)
    ensures BlocksOf(ns, completed + [x], c, |ns|)
  {
  }

  lemma BlocksExtend(ns: seq<U32>, completed: seq<Completion>, c: int, n: U32)
    requires BlocksOf(ns, completed, c, |ns|) && n == c
    ensures BlocksOf(ns + [n], completed, c, |ns|)
  {
  }

  lemma BlocksLater(ns: seq<U32>, completed: seq<Completion>, c: int, c': int, limit: int, limit': int)
    requires BlocksOf(ns, completed, c, limit) && c <= c' && limit <= limit'
    ensures BlocksOf(ns, completed, c', limit')
  {
  }

  lemma BlocksKept(st: State, t: Turn, o: Out)
    requires OneNumber(st) && Blocks(st) && Facts(st.client, t, o, Current(st))
    ensures Blocks(Advance(st, t, o))
  {
    if StartsCall(st.client, t) {
      BlocksAtCall(st, t, o);
    } else if Completes(st.client.pc, o.client.pc) {
      BlocksAtReturn(st, t, o);
    } else {
      BlocksLater(st.log.numbers, st.log.completed, ClientNumber(st), o.client.sock.currentSeqNum,
                  Returned(st), Returned(Advance(st, t, o)));
    }
  }

  lemma BlocksAtCall(st: State, t: Turn, o: Out)
    requires OneNumber(st) && Blocks(st) && Facts(st.client, t, o, Current(st)) && StartsCall(st.client, t)
    ensures Blocks(Advance(st, t, o))
  {
    var g, c := st.log, st.client.sock.currentSeqNum;
    BlocksExtend(g.numbers, g.completed, c, c);
    BlocksLater(g.numbers + [c], g.completed, c, o.client.sock.currentSeqNum, |g.numbers|, |g.numbers|);
    var g' := Advance(st, t, o).log;
    assert g'.numbers == g.numbers + [c] && g'.completed == g.completed && Returned(Advance(st, t, o)) == |g.numbers|;
  }

  lemma BlocksAtReturn(st: State, t: Turn, o: Out)
    requires OneNumber(st) && Blocks(st) && Facts(st.client, t, o, Current(st))
    requires Completes(st.client.pc, o.client.pc) && !StartsCall(st.client, t)
    ensures Blocks(Advance(st, t, o))
  {
    var g, c' := st.log, o.client.sock.currentSeqNum;
    ReturnLogged(st, t, o);
    BlocksLater(g.numbers, g.completed, ClientNumber(st), c', Returned(st), |g.numbers| - 1);
    BlocksSnoc(g.numbers, g.completed, c', Completion(|g.msgs|, o.client.pc.result.Delivered?));
  }

  lemma ReturnLogged(st: State, t: Turn, o: Out)
    requires Completes(st.client.pc, o.client.pc) && !StartsCall(st.client, t)
    ensures var st' := Advance(st, t, o);
      && st'.log.completed == st.log.completed + [Completion(|st.log.msgs|, o.client.pc.result.Delivered?)]
      && st'.log.numbers == st.log.numbers && Returned(st') == |st.log.numbers|
  {
  }

  /** Everything known of a state of the data phase. */
  ghost predicate Full(st: State) {
    LockStep.Inv(st) && Inv(st) && InOrder.Numbers(st) && Provenance.Inv(st)
  }

  /** Slot k + 1 was filled by a message of a call that used number k + 1. */
  predicate Owned(g: Log, k: nat)
    requires k < |g.accepted|
  {
    var f := g.accepted[k];
    1 <= f.call <= |g.numbers| == |g.msgs| && g.numbers[f.call - 1] == k + 1 && f.pdu.payload == g.msgs[f.call - 1]
  }

  /** The log of a state whose client number is c and whose first `limit` calls have returned. */
  ghost predicate Ledger(g: Log, c: int, limit: int) {
    && |g.numbers| == |g.msgs| && Ascending(g.numbers)
    && (forall i :: 0 <= i < |g.numbers| ==> 1 <= g.numbers[i] <= i + 1)
    && (forall k :: 0 <= k < |g.accepted| ==> Owned(g, k))
    && BlocksOf(g.numbers, g.completed, c, limit)
    && 1 <= c <= |g.accepted| + 1 && limit <= |g.msgs| <= limit + 1
  }

  lemma LedgerOf(st: State)
    requires Full(st)
    ensures Ledger(st.log, ClientNumber(st), Returned(st))
  {
    forall k | 0 <= k < |st.log.accepted|
      ensures Owned(st.log, k)
    {
      assert st.log.accepted[k] in st.log.accepted;
    }
  }

  lemma OwnersIncrease(g: Log, c: int, limit: int, i: nat, j: nat)
    requires Ledger(g, c, limit) && i < j < |g.accepted|
    ensures g.accepted[i].call < g.accepted[j].call
  {
    assert Owned(g, i) && Owned(g, j);
  }

  lemma {:induction false} OwnersSpread(g: Log, c: int, limit: int, k: nat)
    requires Ledger(g, c, limit) && k < |g.accepted|
    ensures k + 1 <= g.accepted[k].call <= |g.msgs|
  {
    assert Owned(g, k);
    if k > 0 {
      OwnersSpread(g, c, limit, k - 1);
      OwnersIncrease(g, c, limit, k - 1, k);
    }
  }

  lemma NumberBound(g: Log, c: int, limit: int)
    requires Ledger(g, c, limit)
    ensures 1 <= c <= |g.msgs| + 1 && |g.accepted| <= |g.msgs|
  {
    if g.accepted != [] { OwnersSpread(g, c, limit, |g.accepted| - 1); }
  }

  lemma ClientKeeps(st: State, t: Turn)
    requires Inv(st) && LockStep.LocalsInv(st) && 1 <= ClientNumber(st) <= |st.log.msgs| + 1
    requires t.Deliver? ==>
               && Settled(st.client.pc) && !IsFin(t.pdu) && (IsSynAck(t.pdu) ==> ClientNumber(st) == 1)
               && (IsAck(t.pdu) ==> ClientNumber(st) <= t.pdu.ackNum <= ClientNumber(st) + 1)
    ensures Inv(ApplyClient(st, t))
  {
    FactsHold(st.client, t, Current(st));
    NumberKept(st, t, ClientDo(st.client, t));
    BlocksKept(st, t, ClientDo(st.client, t));
  }

  lemma HearingKeeps(env: Env, st: State, i: nat, keep: bool, ipOk: bool)
    requires Inv(st) && LockStep.LocalsInv(st) && 1 <= ClientNumber(st) <= |st.log.msgs| + 1
    requires env.atomicWait && AcksBetween(st.down, ClientNumber(st), ClientNumber(st) + 1)
    requires SynAcksFirst(st.down, ClientNumber(st))
    ensures Inv(Do(env, st, DeliverDown(i, keep, ipOk)))
  {
    var st' := Do(env, st, DeliverDown(i, keep, ipOk));
    if i < |st.down| && Settled(st.client.pc) {
      var p := st.down[i];
      assert p in st.down;
      var rest := st.(down := Rest(st.down, i, keep));
      RestSame(st, rest);
      ClientKeeps(rest, Deliver(p, ipOk));
      assert st' == st || st' == ApplyClient(rest, Deliver(p, ipOk));
    }
  }

  lemma RestSame(st: State, st': State)
    requires Inv(st) && SameSends(st, st')
    ensures Inv(st') && (LockStep.LocalsInv(st) ==> LockStep.LocalsInv(st'))
  {
  }

  /** Nothing about the client or its sends differs. */
  predicate SameSends(st: State, st': State) {
    && st'.client == st.client && st'.log.numbers == st.log.numbers && st'.log.msgs == st.log.msgs
    && st'.log.transmitted == st.log.transmitted && st'.log.completed == st.log.completed
  }

  lemma Preserved(env: Env, st: State, a: Action)
    requires Inv(st) && LockStep.LocalsInv(st) && 1 <= ClientNumber(st) <= |st.log.msgs| + 1
    requires env.atomicWait && AcksBetween(st.down, ClientNumber(st), ClientNumber(st) + 1)
    requires SynAcksFirst(st.down, ClientNumber(st))
    ensures Inv(Do(env, st, a))
  {
    match a
    case ClientTurn(t) => if !t.Deliver? { ClientKeeps(st, t); }
    case DeliverDown(i, keep, ipOk) => HearingKeeps(env, st, i, keep, ipOk);
    case _ => Elsewhere(env, st, a);
  }

  lemma Elsewhere(env: Env, st: State, a: Action)
    requires Inv(st) && !a.ClientTurn? && !a.DeliverDown?
    ensures Inv(Do(env, st, a))
  {
    ElsewhereSame(env, st, a);
    RestSame(st, Do(env, st, a));
  }

  lemma ElsewhereSame(env: Env, st: State, a: Action)
    requires !a.ClientTurn? && !a.DeliverDown?
    ensures SameSends(st, Do(env, st, a))
  {
  }

  predicate Atomic(env: Env) { env.atomicWait && !env.down.reorders }

  lemma {:induction false} Holds(env: Env, st: State, acts: seq<Action>)
    requires Drained(st) && Atomic(env) && Tame(Exec(env, st, acts))
    ensures Full(Exec(env, st, acts))
  {
    if acts != [] {
      var before, a := acts[..|acts| - 1], acts[|acts| - 1];
      var mid := Exec(env, st, before);
      TameBefore(env, mid, a);
      Holds(env, st, before);
      LedgerOf(mid);
      NumberBound(mid.log, ClientNumber(mid), Returned(mid));
      StepFull(env, mid, a);
    }
  }

  lemma StepFull(env: Env, st: State, a: Action)
    requires Full(st) && Atomic(env) && Tame(Do(env, st, a)) && 1 <= ClientNumber(st) <= |st.log.msgs| + 1
    ensures Full(Do(env, st, a))
  {
    LockStep.Preserved(env, st, a);
    Preserved(env, st, a);
    InOrder.Preserved(env, st, a);
    Provenance.Preserved(env, st, a);
  }

  /** At most once, for every allowance: a message travels under one number only, and the calls
      whose payloads the server accepted are strictly increasing. */
  lemma AtMostOnce(env: Env, st: State, acts: seq<Action>)
    requires Drained(st) && Atomic(env) && Tame(Exec(env, st, acts))
    ensures var g := Exec(env, st, acts).log;
      && (forall f, f' :: f in g.transmitted && f' in g.transmitted ==>
            IsData(f.pdu) && IsData(f'.pdu) && f.call == f'.call > 0 ==> f.pdu.seqNum == f'.pdu.seqNum)
      && (forall i, j :: 0 <= i < j < |g.accepted| ==> g.accepted[i].call < g.accepted[j].call)
  {
    var st' := Exec(env, st, acts);
    Holds(env, st, acts);
    LedgerOf(st');
    forall i, j | 0 <= i < j < |st'.log.accepted|
      ensures st'.log.accepted[i].call < st'.log.accepted[j].call
    {
      OwnersIncrease(st'.log, ClientNumber(st'), Returned(st'), i, j);
    }
  }

  /** Call number `call` was acknowledged. */
  predicate Acknowledged(g: Log, call: nat) {
    exists e :: e in g.completed && e.call == call && e.ok
  }

  /** What the success e says in state st. */
  ghost predicate Honest(g: Log, e: Completion) {
    && |g.numbers| == |g.msgs| && 1 <= e.call <= |g.msgs| && Ascending(g.numbers)
    && var n := g.numbers[e.call - 1];
    && (forall j :: e.call <= j < |g.numbers| ==> g.numbers[j] > n)
    && 1 <= n <= |g.accepted|
    && var f := g.accepted[n - 1];
    && 1 <= f.call <= e.call && g.numbers[f.call - 1] == n && f.pdu.payload == g.msgs[f.call - 1]
    && (e.call == 1 || Acknowledged(g, e.call - 1) ==> f.call == e.call)
  }

  /** Honest success: the calls that used a number form one block, in which an acknowledged call
      can only come last; the slot of an acknowledged call is filled, by a message of its block;
      and by its own message when it opens the block, that is when it is the first call or the
      call before it was acknowledged too. */
  lemma HonestSuccess(env: Env, st: State, acts: seq<Action>)
    requires Drained(st) && Atomic(env) && Tame(Exec(env, st, acts))
    ensures var g := Exec(env, st, acts).log;
      forall e :: e in g.completed && e.ok ==> Honest(g, e)
  {
    Holds(env, st, acts);
    var st' := Exec(env, st, acts);
    LedgerOf(st');
    forall e | e in st'.log.completed && e.ok
      ensures Honest(st'.log, e)
    {
      HonestLedger(st'.log, ClientNumber(st'), Returned(st'), e);
    }
  }

  lemma HonestLedger(g: Log, c: int, limit: int, e: Completion)
    requires Ledger(g, c, limit) && e in g.completed && e.ok
    ensures Honest(g, e)
  {
    var n := g.numbers[e.call - 1];
    assert n < c;
    assert Owned(g, n - 1);
    if e.call > 1 && Acknowledged(g, e.call - 1) {
      var d :| d in g.completed && d.call == e.call - 1 && d.ok;
      assert BlockClosed(g.numbers, d);
    }
  }

  /** Finished calls all completed (none returned -1). */
  predicate NoFailures(st: State) { |st.log.completed| == Returned(st) }

  lemma {:induction false} CallsInOrder(g: Log, c: int, limit: int, i: nat)
    requires Ledger(g, c, limit) && |g.completed| == limit && i < limit
    ensures g.completed[i].call == i + 1
  {
    CallsAtLeast(g.completed, i);
    CallsRoom(g.completed, i, limit - 1);
  }

  lemma {:induction false} CallsAtLeast(e: seq<Completion>, i: nat)
    requires i < |e| && e[0].call >= 1 && forall a, b :: 0 <= a < b < |e| ==> e[a].call < e[b].call
    ensures e[i].call >= i + 1
  {
    if i > 0 { CallsAtLeast(e, i - 1); }
  }

  lemma {:induction false} CallsRoom(e: seq<Completion>, i: nat, j: nat)
    requires i <= j < |e| && forall a, b :: 0 <= a < b < |e| ==> e[a].call < e[b].call
    ensures e[j].call >= e[i].call + (j - i)
  {
    if i < j { CallsRoom(e, i, j - 1); }
  }

  predicate AllOk(completed: seq<Completion>) {
    forall k :: 0 <= k < |completed| ==> completed[k].ok
  }

  lemma {:induction false} NumbersCount(g: Log, c: int, limit: int, j: nat)
    requires Ledger(g, c, limit) && |g.completed| == limit && AllOk(g.completed) && j < |g.numbers|
    ensures g.numbers[j] == j + 1
  {
    if j > 0 {
      NumbersCount(g, c, limit, j - 1);
      CallsInOrder(g, c, limit, j - 1);
      assert BlockClosed(g.numbers, g.completed[j - 1]);
    }
  }

  /** The log is exactly the messages sent. */
  predicate Exact(g: Log) {
    var n := |g.completed|;
    && n <= |g.accepted| <= n + 1 && |g.accepted| <= |g.msgs|
    && (forall k :: 0 <= k < |g.accepted| ==> g.accepted[k].call == k + 1 && g.accepted[k].pdu.payload == g.msgs[k])
    && (forall k :: 0 <= k < n ==> g.completed[k] == Completion(k + 1, true))
  }

  /** Exact stop-and-wait when the allowance is 0: after n completed sends (no call having
      returned -1) the server has accepted n or n + 1 payloads, and they are the messages sent, in
      order, with none lost or repeated. */
  lemma ExactWhenNoLossAllowed(env: Env, st: State, acts: seq<Action>)
    requires Drained(st) && Atomic(env) && Tame(Exec(env, st, acts))
    requires st.client.sock.allowedLosses == 0 && NoFailures(Exec(env, st, acts))
    ensures Exact(Exec(env, st, acts).log)
  {
    Holds(env, st, acts);
    AllSucceed(env, st, acts);
    var st' := Exec(env, st, acts);
    LedgerOf(st');
    ExactLedger(st'.log, ClientNumber(st'), Returned(st'));
  }

  lemma ExactLedger(g: Log, c: int, n: int)
    requires Ledger(g, c, n) && |g.completed| == n && AllOk(g.completed)
    ensures Exact(g)
  {
    NumberBound(g, c, n);
    forall k | 0 <= k < n
      ensures g.completed[k] == Completion(k + 1, true)
    {
      CallsInOrder(g, c, n, k);
    }
    forall k | 0 <= k < |g.accepted|
      ensures g.accepted[k].call == k + 1 && g.accepted[k].pdu.payload == g.msgs[k]
    {
      assert Owned(g, k);
      NumbersCount(g, c, n, g.accepted[k].call - 1);
    }
    if n > 0 {
      NumbersCount(g, c, n, n - 1);
      assert g.completed[n - 1].ok && BlockClosed(g.numbers, g.completed[n - 1]);
    }
  }

  lemma AllSucceed(env: Env, st: State, acts: seq<Action>)
    requires Drained(st) && Atomic(env) && Tame(Exec(env, st, acts)) && st.client.sock.allowedLosses == 0
    ensures AllOk(Exec(env, st, acts).log.completed)
  {
    var st' := Exec(env, st, acts);
    WindowStart(st);
    Window.Holds(env, st, acts);
    AllowanceFixed(env, st, acts);
    var h := Window.Outcomes(st'.log.completed);
    Window.BudgetOfState(st', 0, |h|);
    assert forall k :: 0 <= k < |h| ==> h[k] == st'.log.completed[k].ok;
  }
}
