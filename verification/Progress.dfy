/** Once losses and timeouts stop, the send in progress ends in success: every further step of
    the server, of the client's network thread or of its main thread uses up a finite rank. */
module Progress {
  import opened Pdus
  import opened Handlers
  import opened Threads
  import opened Systems
  import opened LockStep
  import ServerLog
  import StopAndWait

  /** Ordered channels, and a sender not disturbed between two statements. */
  predicate Orderly(env: Env) { Fifo(env) && env.atomicWait }

  /** Deliveries and the main thread's own statements: no loss, no timeout, no failure. */
  predicate Quiet(a: Action) {
    a == ClientTurn(Main(true)) || a == DeliverUp(0, false, true) || a == DeliverDown(0, false, true)
  }

  function First<T>(s: seq<T>, p: T -> bool): (k: nat)
    ensures k <= |s|
    ensures k < |s| ==> p(s[k])
  {
    if s == [] || p(s[0]) then 0 else 1 + First(s[1..], p)
  }

  lemma {:induction false} FirstSnoc<T>(s: seq<T>, x: T, p: T -> bool)
    ensures First(s + [x], p) == if First(s, p) < |s| then First(s, p) else if p(x) then |s| else |s| + 1
  {
    if s == [] {
      assert s + [x] == [x] && [x][1..] == [];
    } else if !p(s[0]) {
      assert (s + [x])[1..] == s[1..] + [x];
      FirstSnoc(s[1..], x, p);
    }
  }

  /** A data PDU whose delivery makes the server send ACK number n + 1. */
  predicate Triggers(f: Flight, n: U32, ahead: bool) {
    IsData(f.pdu) && (ahead || f.pdu.seqNum == n)
  }

  function Trigger(n: U32, ahead: bool): Flight -> bool { (f: Flight) => Triggers(f, n, ahead) }

  function AckOf(k: int): Pdu -> bool { (p: Pdu) => IsAck(p) && p.ackNum == k }

  /** The server has accepted the slot the client is still sending. */
  predicate Ahead(st: State, n: U32) { ServerNumber(st) == n + 1 }

  /** The client has read the ACK it waits for, but not checked it yet. */
  predicate Answered(st: State, n: U32) { st.client.pc.Woken? && ClientNumber(st) == n + 1 }

  /** The message is about to be transmitted again. */
  predicate Pending(st: State) { !st.client.pc.WaitDue? && !st.client.pc.Waiting? }

  predicate AckComing(st: State, n: U32) { Ahead(st, n) && First(st.down, AckOf(n + 1)) < |st.down| }

  predicate DataComing(st: State, n: U32) {
    Pending(st) || First(st.up, Trigger(n, Ahead(st, n))) < |st.up|
  }

  /** A send with number n is in progress, and a packet for n, or the ACK it waits for, is on
      its way. */
  ghost predicate Fed(st: State, n: U32) {
    && InSend(st.client.pc) && StopAndWait.AtNumber(st.client, n) && st.client.listening
    && (Answered(st, n) || AckComing(st, n) || DataComing(st, n))
  }

  ghost predicate Flowing(st: State, n: U32) {
    && Fed(st, n) && LockStep.Inv(st) && PlainMessages(st)
    && Within(st, n)
  }

  /** Room for the payload being sent, and nothing beyond its number in flight. */
  ghost predicate Within(st: State, n: U32) {
    && |st.log.accepted| + (if Ahead(st, n) then 0 else 1) < MOD32 - 1
    && ServerNumber(st) <= n + 1
    && forall f :: f in st.up && IsData(f.pdu) ==> f.pdu.seqNum <= n
  }

  function Distance(pc: Pc): nat {
    match pc
    case Woken(_, _) => 5
    case ReadSeq(_) => 4
    case ReadExpected(_, _) => 3
    case SendDue(_, _, _) => 2
    case WaitDue(_, _) => 1
    case _ => 0
  }

  function UpLoad(st: State): nat { |st.up| + if Pending(st) then 1 else 0 }

  /** Twice the PDUs ahead of the one that counts, plus what they can still cause. */
  function Coarse(st: State, n: U32): nat {
    if AckComing(st, n) then
      2 * First(st.down, AckOf(n + 1)) + UpLoad(st) + 1
    else
      2 * First(st.up, Trigger(n, Ahead(st, n))) + |st.down| + 2 * (UpLoad(st) + |st.down|) + 1
  }

  function Rank(st: State, n: U32): nat {
    if Answered(st, n) then 1 + |st.up| else 8 * Coarse(st, n) + Distance(st.client.pc)
  }

  predicate Succeeded(before: State, after: State) {
    && before.log.completed < after.log.completed
    && after.log.completed[|before.log.completed|].ok
  }

  ghost predicate Advances(before: State, after: State, n: U32) {
    || Succeeded(before, after)
    || (Fed(after, n) && Rank(after, n) < Rank(before, n) && after.log.completed == before.log.completed)
  }

  lemma MainAdvances(st: State, n: U32)
    requires Fed(st, n) && !st.client.pc.Waiting?
    ensures Advances(st, ApplyClient(st, Main(true)), n)
  {
    if st.client.pc.SendDue? {
      SendAdvances(st, n);
    } else if st.client.pc.Woken? {
      CheckAdvances(st, n);
    }
  }

  lemma SendAdvances(st: State, n: U32)
    requires Fed(st, n) && st.client.pc.SendDue?
    ensures Advances(st, ApplyClient(st, Main(true)), n)
  {
    FirstSnoc(st.up, Flight(Data(n, st.client.pc.msg), |st.log.msgs|), Trigger(n, Ahead(st, n)));
  }

  lemma CheckAdvances(st: State, n: U32)
    requires Fed(st, n) && st.client.pc.Woken?
    ensures Advances(st, ApplyClient(st, Main(true)), n)
  {
  }

  /** What a PDU does to a client waiting for its ACK. */
  function Hears(c: Client, p: Pdu): Client
    requires c.pc.Waiting?
  {
    if IsAck(p) then Client(c.sock.(currentSeqNum := p.ackNum), Woken(c.pc.msg, c.pc.base), true) else c
  }

  /** What it sends in return: a SYN+ACK is acknowledged. */
  function Returns(p: Pdu): Option<Pdu> { if IsSynAck(p) then Some(Ack(0)) else None }

  lemma WaitingReceives(c: Client, p: Pdu)
    requires c.pc.Waiting? && c.listening && c.sock.state == Established && !IsFin(p)
    requires IsSynAck(p) ==> c.sock.currentSeqNum == 1
    ensures ClientDo(c, Deliver(p, true)) == Out(Hears(c, p), Returns(p))
  {
  }

  /** The PDU at the head of the channel to the client, delivered. */
  function Heard(st: State): State
    requires st.client.pc.Waiting? && st.down != []
  {
    var p := st.down[0];
    Advance(st.(down := st.down[1..]), Deliver(p, true), Out(Hears(st.client, p), Returns(p)))
  }

  /** A stale ACK costs a resend, behind everything in flight. */
  lemma HearingAdvances(st: State, n: U32)
    requires Fed(st, n) && st.client.pc.Waiting? && st.down != [] && !IsSynAck(st.down[0])
    requires var p := st.down[0]; IsAck(p) ==> n <= p.ackNum <= ServerNumber(st) <= n + 1
    ensures Advances(st, Heard(st), n)
  {
  }

  /** And a SYN+ACK an ACK that the server ignores. */
  lemma SynAckAdvances(st: State, n: U32)
    requires Fed(st, n) && st.client.pc.Waiting? && st.down != [] && IsSynAck(st.down[0])
    ensures Advances(st, Heard(st), n)
  {
    FirstSnoc(st.up, Flight(Ack(0), |st.log.msgs|), Trigger(n, Ahead(st, n)));
  }

  lemma DownAdvances(st: State, n: U32)
    requires Fed(st, n) && st.client.pc.Waiting? && st.down != []
    requires var p := st.down[0];
      && !IsFin(p) && (IsSynAck(p) ==> ClientNumber(st) == 1)
      && (IsAck(p) ==> n <= p.ackNum <= ServerNumber(st) <= n + 1)
    ensures Advances(st, ApplyClient(st.(down := RemoveAt(st.down, 0)), Deliver(st.down[0], true)), n)
  {
    assert RemoveAt(st.down, 0) == st.down[1..];
    WaitingReceives(st.client, st.down[0]);
    if IsSynAck(st.down[0]) { SynAckAdvances(st, n); } else { HearingAdvances(st, n); }
  }

  /** What an ESTABLISHED server does with the next PDU. */
  function Answer(s: Sock, p: Pdu): Reaction {
    if IsData(p) then
      var accepted := p.seqNum == s.currentSeqNum || s.currentSeqNum == 0;
      var k := if accepted then Next(s.currentSeqNum) else s.currentSeqNum;
      Reaction(s.(currentSeqNum := k), Some(Ack(k)), accepted, false)
    else Ignore(s)
  }

  lemma EstablishedReacts(s: Sock, p: Pdu)
    requires s.state == Established && !IsFin(p) && (IsData(p) ==> IsText(p.payload))
    ensures ServerHandle(s, p, true) == Answer(s, p)
  {
  }

  predicate NextFits(st: State, n: U32) {
    && st.up != [] && (IsData(st.up[0].pdu) ==> st.up[0].pdu.seqNum <= n)
    && 1 <= ServerNumber(st) <= n + 1 < MOD32 && ClientNumber(st) <= ServerNumber(st)
  }

  function AfterAnswer(st: State): State
    requires st.up != []
  {
    React(st.(up := st.up[1..]), st.up[0], Answer(st.server.sock, st.up[0].pdu))
  }

  lemma AnswerAdvances(st: State, n: U32)
    requires Fed(st, n) && NextFits(st, n)
    ensures Advances(st, AfterAnswer(st), n)
  {
    if IsData(st.up[0].pdu) { EchoAdvances(st, n); }
  }

  /** Every data PDU costs the server one ACK, behind everything in flight. */
  lemma EchoAdvances(st: State, n: U32)
    requires Fed(st, n) && NextFits(st, n) && IsData(st.up[0].pdu)
    ensures Advances(st, AfterAnswer(st), n)
  {
    var p := st.up[0].pdu;
    EchoSnoc(st, n);
    if AckComing(st, n) {
      EchoBehindAck(st, n);
    } else if Triggers(st.up[0], n, Ahead(st, n)) {
      EchoTriggered(st, n);
    } else {
      EchoStale(st, n);
    }
  }

  lemma EchoSnoc(st: State, n: U32)
    requires st.up != [] && IsData(st.up[0].pdu)
    ensures var k := Answer(st.server.sock, st.up[0].pdu).sock.currentSeqNum; var d := AfterAnswer(st).down;
      && |d| == |st.down| + 1
      && First(d, AckOf(n + 1)) == if First(st.down, AckOf(n + 1)) < |st.down| then First(st.down, AckOf(n + 1))
                                   else if k == n + 1 then |st.down| else |st.down| + 1
  {
    FirstSnoc(st.down, Ack(Answer(st.server.sock, st.up[0].pdu).sock.currentSeqNum), AckOf(n + 1));
  }

  lemma EchoBehindAck(st: State, n: U32)
    requires Fed(st, n) && NextFits(st, n) && IsData(st.up[0].pdu) && AckComing(st, n)
    ensures Advances(st, AfterAnswer(st), n)
  {
    EchoSnoc(st, n);
  }

  lemma EchoAcks(st: State, n: U32)
    requires Fed(st, n) && NextFits(st, n) && !AckComing(st, n) && Triggers(st.up[0], n, Ahead(st, n))
    ensures var st' := AfterAnswer(st); AckComing(st', n) && First(st'.down, AckOf(n + 1)) <= |st.down|
  {
    EchoSnoc(st, n);
  }

  lemma EchoRank(st: State, st': State, n: U32)
    requires !AckComing(st, n) && AckComing(st', n) && st'.client == st.client && st.up != []
    requires First(st'.down, AckOf(n + 1)) <= |st.down| && |st'.up| == |st.up| - 1
    ensures Rank(st', n) < Rank(st, n)
  {
  }

  lemma EchoTriggered(st: State, n: U32)
    requires Fed(st, n) && NextFits(st, n) && !AckComing(st, n) && Triggers(st.up[0], n, Ahead(st, n))
    ensures Advances(st, AfterAnswer(st), n)
  {
    EchoAcks(st, n);
    EchoRank(st, AfterAnswer(st), n);
  }

  lemma EchoStale(st: State, n: U32)
    requires Fed(st, n) && NextFits(st, n) && IsData(st.up[0].pdu)
    requires !AckComing(st, n) && !Triggers(st.up[0], n, Ahead(st, n))
    ensures Advances(st, AfterAnswer(st), n)
  {
    EchoSnoc(st, n);
  }

  lemma UpAdvances(st: State, n: U32)
    requires Fed(st, n) && st.up != [] && st.server.sock.state == Established
    requires 1 <= ServerNumber(st) <= n + 1 < MOD32 && ClientNumber(st) <= ServerNumber(st)
    requires var p := st.up[0].pdu; !IsFin(p) && (IsData(p) ==> p.seqNum <= n && IsText(p.payload))
    ensures Advances(st, ApplyServer(st.(up := RemoveAt(st.up, 0)), st.up[0], true), n)
  {
    assert RemoveAt(st.up, 0) == st.up[1..];
    EstablishedReacts(st.server.sock, st.up[0].pdu);
    AnswerAdvances(st, n);
  }

  lemma MainWithin(st: State, n: U32)
    requires Flowing(st, n)
    ensures Within(ApplyClient(st, Main(true)), n)
  {
    StopAndWait.FactsHold(st.client, Main(true), n);
    SentWithin(st, Main(true), MainStep(st.client, true), n);
  }

  lemma SentWithin(st: State, t: Turn, o: Out, n: U32)
    requires Within(st, n) && (o.emitted.Some? && IsData(o.emitted.value) ==> o.emitted.value.seqNum == n)
    ensures Within(Advance(st, t, o), n)
  {
  }

  lemma UpWithin(st: State, n: U32)
    requires Within(st, n) && st.up != [] && n <= ServerNumber(st) <= n + 1 && 1 <= n
    requires st.server.sock.state == Established && ServerNumber(st) == |st.log.accepted| + 1
    ensures Within(ApplyServer(st.(up := RemoveAt(st.up, 0)), st.up[0], true), n)
  {
    ServerLog.FactsHold(st.server.sock, st.up[0].pdu, true);
    ReactWithin(st.(up := RemoveAt(st.up, 0)), st.up[0], ServerHandle(st.server.sock, st.up[0].pdu, true), n);
  }

  lemma ReactWithin(st: State, f: Flight, r: Reaction, n: U32)
    requires Within(st, n) && n <= ServerNumber(st) <= n + 1 && 1 <= n
    requires st.server.sock.state == Established && ServerNumber(st) == |st.log.accepted| + 1
    requires IsData(f.pdu) ==> f.pdu.seqNum <= n
    requires ServerLog.Facts(st.server.sock, f.pdu, r)
    ensures Within(React(st, f, r), n)
  {
  }

  /** What lock step says about the PDU the server would get next. */
  lemma NextUp(st: State, n: U32)
    requires Flowing(st, n)
    ensures 1 <= n <= ServerNumber(st) <= n + 1 < MOD32 && ClientNumber(st) <= ServerNumber(st)
    ensures st.server.sock.state == Established && ServerNumber(st) == |st.log.accepted| + 1
    ensures st.up != [] ==>
              var p := st.up[0].pdu; !IsFin(p) && (IsData(p) ==> p.seqNum <= n && IsText(p.payload))
  {
    if st.up != [] { assert st.up[0] in st.up; }
  }

  lemma NextDown(st: State, n: U32)
    requires Flowing(st, n) && st.client.pc.Waiting? && st.down != []
    ensures var p := st.down[0];
      && !IsFin(p) && (IsSynAck(p) ==> ClientNumber(st) == 1)
      && (IsAck(p) ==> n <= p.ackNum <= ServerNumber(st) <= n + 1)
  {
    assert st.down[0] in st.down;
  }

  /** The send has succeeded, or is still flowing with a lower rank. */
  ghost predicate Closer(st: State, st': State, n: U32) {
    || Succeeded(st, st')
    || (Flowing(st', n) && Rank(st', n) < Rank(st, n) && st'.log.completed == st.log.completed)
  }

  lemma CloserAfter(env: Env, st: State, a: Action, n: U32, st': State)
    requires Orderly(env) && Flowing(st, n) && st' == Do(env, st, a)
    requires Within(st', n) && Advances(st, st', n) && st'.log.msgs == st.log.msgs
    ensures Closer(st, st', n)
  {
    if !Succeeded(st, st') {
      assert Tame(st');
      LockStep.Preserved(env, st, a);
    }
  }

  lemma MainCloser(env: Env, st: State, n: U32)
    requires Orderly(env) && Flowing(st, n) && !st.client.pc.Waiting?
    ensures Closer(st, Do(env, st, ClientTurn(Main(true))), n)
  {
    MainAdvances(st, n);
    MainWithin(st, n);
    CloserAfter(env, st, ClientTurn(Main(true)), n, ApplyClient(st, Main(true)));
  }

  lemma UpCloser(env: Env, st: State, n: U32)
    requires Orderly(env) && Flowing(st, n) && Do(env, st, DeliverUp(0, false, true)) != st
    ensures Closer(st, Do(env, st, DeliverUp(0, false, true)), n)
  {
    NextUp(st, n);
    UpAdvances(st, n);
    UpWithin(st, n);
    CloserAfter(env, st, DeliverUp(0, false, true), n, Do(env, st, DeliverUp(0, false, true)));
  }

  lemma DownCloser(env: Env, st: State, n: U32)
    requires Orderly(env) && Flowing(st, n) && Do(env, st, DeliverDown(0, false, true)) != st
    ensures Closer(st, Do(env, st, DeliverDown(0, false, true)), n)
  {
    NextDown(st, n);
    DownAdvances(st, n);
    WaitingReceives(st.client, st.down[0]);
    CloserAfter(env, st, DeliverDown(0, false, true), n, Do(env, st, DeliverDown(0, false, true)));
  }

  /** A quiet step that changes anything leads closer to success. */
  lemma QuietAdvances(env: Env, st: State, a: Action, n: U32)
    requires Orderly(env) && Flowing(st, n) && Quiet(a) && Do(env, st, a) != st
    ensures Closer(st, Do(env, st, a), n)
  {
    match a
    case ClientTurn(_) => if !st.client.pc.Waiting? { MainCloser(env, st, n); }
    case DeliverUp(_, _, _) => UpCloser(env, st, n);
    case DeliverDown(_, _, _) => DownCloser(env, st, n);
  }

  lemma MainMoves(env: Env, st: State, n: U32)
    requires Orderly(env) && Flowing(st, n) && !st.client.pc.Waiting?
    ensures Do(env, st, ClientTurn(Main(true))) != st
  {
    MainCloser(env, st, n);
  }

  lemma UpMoves(env: Env, st: State, n: U32)
    requires Orderly(env) && Flowing(st, n) && st.up != []
    ensures Do(env, st, DeliverUp(0, false, true)) != st
  {
    NextUp(st, n);
    assert |Do(env, st, DeliverUp(0, false, true)).up| == |st.up| - 1;
  }

  lemma DownMoves(env: Env, st: State, n: U32)
    requires Orderly(env) && Flowing(st, n) && st.client.pc.Waiting? && st.down != []
    ensures Do(env, st, DeliverDown(0, false, true)) != st
  {
    NextDown(st, n);
    assert |Do(env, st, DeliverDown(0, false, true)).down| == |st.down| - 1;
  }

  /** Until then some quiet step does change something. */
  lemma NeverStuck(env: Env, st: State, n: U32)
    requires Orderly(env) && Flowing(st, n)
    ensures exists a :: Effective(env, st, a)
  {
    if !st.client.pc.Waiting? {
      MainMoves(env, st, n);
      assert Effective(env, st, ClientTurn(Main(true)));
    } else if st.up != [] {
      UpMoves(env, st, n);
      assert Effective(env, st, DeliverUp(0, false, true));
    } else {
      DownMoves(env, st, n);
      assert Effective(env, st, DeliverDown(0, false, true));
    }
  }

  /** A quiet action that changes anything. */
  predicate Effective(env: Env, st: State, a: Action) { Quiet(a) && Do(env, st, a) != st }

  /** Every action of the schedule is effective where it is taken. */
  ghost predicate Busy(env: Env, st: State, acts: seq<Action>) {
    acts == [] ||
    var n := |acts| - 1;
    Busy(env, st, acts[..n]) && Effective(env, Exec(env, st, acts[..n]), acts[n])
  }

  /** Where a schedule of effective quiet steps has brought the send that began at st. */
  ghost predicate StillFlowing(st: State, st': State, n: U32, steps: nat) {
    Flowing(st', n) && Rank(st', n) + steps <= Rank(st, n) && st'.log.completed == st.log.completed
  }

  lemma OneCloser(env: Env, st: State, acts: seq<Action>, n: U32)
    requires Orderly(env) && Busy(env, st, acts) && acts != []
    requires StillFlowing(st, Exec(env, st, acts[..|acts| - 1]), n, |acts| - 1)
    ensures Succeeded(st, Exec(env, st, acts)) || StillFlowing(st, Exec(env, st, acts), n, |acts|)
  {
    QuietAdvances(env, Exec(env, st, acts[..|acts| - 1]), acts[|acts| - 1], n);
  }

  /** The first k actions of the schedule complete, as acknowledged, the send in progress at st. */
  ghost predicate CompletedBy(env: Env, st: State, acts: seq<Action>, k: nat) {
    k <= |acts| && Succeeded(st, Exec(env, st, acts[..k]))
  }

  /** Some prefix of the schedule does. */
  ghost predicate Completed(env: Env, st: State, acts: seq<Action>) {
    exists k: nat :: CompletedBy(env, st, acts, k)
  }

  lemma CompletedEarlier(env: Env, st: State, acts: seq<Action>, n: nat)
    requires n <= |acts| && Completed(env, st, acts[..n])
    ensures Completed(env, st, acts)
  {
    var k: nat :| CompletedBy(env, st, acts[..n], k);
    assert acts[..n][..k] == acts[..k];
    assert CompletedBy(env, st, acts, k);
  }

  lemma CompletedNow(env: Env, st: State, acts: seq<Action>)
    requires Succeeded(st, Exec(env, st, acts))
    ensures Completed(env, st, acts)
  {
    assert acts[..|acts|] == acts;
    assert CompletedBy(env, st, acts, |acts|);
  }

  lemma {:induction false} RankRunsDown(env: Env, st: State, acts: seq<Action>, n: U32)
    requires Orderly(env) && Flowing(st, n) && Busy(env, st, acts)
    ensures Completed(env, st, acts) || StillFlowing(st, Exec(env, st, acts), n, |acts|)
  {
    if acts != [] {
      var before := acts[..|acts| - 1];
      RankRunsDown(env, st, before, n);
      if Completed(env, st, before) {
        CompletedEarlier(env, st, acts, |acts| - 1);
      } else {
        OneCloser(env, st, acts, n);
        if Succeeded(st, Exec(env, st, acts)) { CompletedNow(env, st, acts); }
      }
    }
  }

  lemma FlowingTerminates(env: Env, st: State, acts: seq<Action>, n: U32)
    requires Orderly(env) && Flowing(st, n) && Busy(env, st, acts)
    ensures |acts| > Rank(st, n) ==> Completed(env, st, acts)
    ensures Completed(env, st, acts) || exists a :: Effective(env, Exec(env, st, acts), a)
  {
    RankRunsDown(env, st, acts, n);
    if !Completed(env, st, acts) { NeverStuck(env, Exec(env, st, acts), n); }
  }

  /** A send is in progress, and a packet with its number is in flight, or the ACK it waits for
      is, or has been read. */
  ghost predicate InFlight(st: State) {
    var n := StopAndWait.Current(st);
    && InSend(st.client.pc)
    && (|| Answered(st, n)
        || (exists f :: f in st.up && IsData(f.pdu) && f.pdu.seqNum == n)
        || (exists p :: p in st.down && IsAck(p) && p.ackNum == n + 1))
  }

  /** Termination of the send loop. Take any run of the data phase, with any losses and timeouts,
      that leads to a state where a packet of the current send is in flight. From there on, without
      loss or timeout, every interleaving of deliveries and statements longer than the rank has
      completed the send as acknowledged, and no interleaving can come to a stop before that. */
  lemma SendTerminates(env: Env, start: State, past: seq<Action>, acts: seq<Action>)
    requires Drained(start) && Orderly(env) && Tame(Exec(env, start, past))
    requires var st := Exec(env, start, past);
      InFlight(st) && |st.log.accepted| + 1 < MOD32 - 1 && Busy(env, st, acts)
    ensures var st := Exec(env, start, past);
      && (|acts| > Rank(st, StopAndWait.Current(st)) ==> Completed(env, st, acts))
      && (Completed(env, st, acts) || exists a :: Effective(env, Exec(env, st, acts), a))
  {
    var st := Exec(env, start, past);
    StopAndWait.Holds(env, start, past);
    FlowingFromReachable(st);
    FlowingTerminates(env, st, acts, StopAndWait.Current(st));
  }

  lemma FlowingFromReachable(st: State)
    requires StopAndWait.Full(st) && PlainMessages(st) && |st.log.accepted| + 1 < MOD32 - 1
    requires InFlight(st)
    ensures Flowing(st, StopAndWait.Current(st))
  {
    WithinReachable(st);
    FedFromReachable(st);
  }

  lemma FedFromReachable(st: State)
    requires StopAndWait.Full(st) && InFlight(st) && Within(st, StopAndWait.Current(st))
    ensures Fed(st, StopAndWait.Current(st))
  {
    var n := StopAndWait.Current(st);
    ComingFound(st, n);
    assert StopAndWait.AtNumber(st.client, n) && st.client.listening;
  }

  /** What is in flight is found. */
  lemma ComingFound(st: State, n: U32)
    requires LockStep.Inv(st) && (Answered(st, n)
             || (exists f :: f in st.up && IsData(f.pdu) && f.pdu.seqNum == n)
             || (exists p :: p in st.down && IsAck(p) && p.ackNum == n + 1))
    requires n <= ServerNumber(st) <= n + 1
    ensures Answered(st, n) || AckComing(st, n) || DataComing(st, n)
  {
    FirstFinds(st.up, Trigger(n, Ahead(st, n)));
    FirstFinds(st.down, AckOf(n + 1));
  }

  lemma WithinReachable(st: State)
    requires StopAndWait.Full(st) && PlainMessages(st) && |st.log.accepted| + 1 < MOD32 - 1
    requires InSend(st.client.pc)
    ensures Within(st, StopAndWait.Current(st))
  {
    var n := StopAndWait.Current(st);
    forall f | f in st.up && IsData(f.pdu)
      ensures f.pdu.seqNum <= n
    {
      assert f.pdu.payload in st.log.msgs && f in st.log.transmitted;
    }
    StopAndWait.LedgerOf(st);
    if st.log.accepted != [] {
      assert StopAndWait.Owned(st.log, |st.log.accepted| - 1);
    }
  }

  lemma {:induction false} FirstFinds<T>(s: seq<T>, p: T -> bool)
    ensures First(s, p) < |s| <==> exists i :: 0 <= i < |s| && p(s[i])
  {
    if s != [] && !p(s[0]) {
      FirstFinds(s[1..], p);
      assert forall i :: 1 <= i < |s| ==> s[i] == s[1..][i - 1];
    }
  }
}
