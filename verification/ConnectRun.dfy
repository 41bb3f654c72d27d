/** Runs from the very first SYN to a mic_tcp_connect that returns 0, with as many measurement ACKs
    counted and as many measurement packets still in flight as wanted. */
module ConnectRun {
  import opened Pdus
  import opened Handlers
  import opened Threads
  import opened Systems
  import opened Runs
  import Handshake

  /** No send call was made, no payload accepted. */
  predicate Silent(st: State) {
    st.log.msgs == [] && st.log.numbers == [] && st.log.completed == [] && st.log.accepted == []
  }

  predicate Empty(st: State) { st.up == [] && st.down == [] }

  /** A run from the beginning, mic_tcp_accept being preempted once if it can be. */
  ghost predicate Begun(r: Run, env: Env) { Continues(At(env, INITIAL), r) && (env == CALM || env == HASTY) }

  const LINKED: Sock := INITIAL_SOCK.(state := Established, currentSeqNum := 1)

  /** The server once established: mic_tcp_accept has returned, or, preempted, has yet to send a
      SYN+ACK that it decided on before. */
  function Served(env: Env): Server {
    Server(LINKED, if env.atomicAccept then Returned(true) else SynAckDue, [])
  }

  // ---- Handshake ----

  /** The state once mic_tcp_accept stands at pc. */
  function Accepts(pc: AcceptPc): State {
    INITIAL.(server := Server(INITIAL_SOCK.(state := Accepting), pc, []))
  }

  lemma AcceptSteps()
    ensures ApplyAccept(INITIAL, AcceptCall) == Accepts(Armed)
    ensures ApplyAccept(Accepts(Armed), AcceptMain(true)) == Accepts(WaitingSyn)
  {
  }

  lemma AcceptCalled(env: Env) returns (r: Run)
    requires env == CALM || env == HASTY
    ensures Begun(r, env) && r.st == Accepts(WaitingSyn)
  {
    r := CallAccept(At(env, INITIAL));
    r := EnterWait(r);
  }

  lemma CallAccept(r: Run) returns (r': Run)
    requires Real(r) && r.st == INITIAL
    ensures Continues(r, r') && r'.st == Accepts(Armed)
  {
    AcceptSteps();
    r' := Go(r, ServerTurn(AcceptCall));
  }

  lemma EnterWait(r: Run) returns (r': Run)
    requires Real(r) && r.st == Accepts(Armed)
    ensures Continues(r, r') && r'.st == Accepts(WaitingSyn)
  {
    AcceptSteps();
    r' := Go(r, ServerTurn(AcceptMain(true)));
  }

  lemma ConnectCalled(env: Env) returns (r: Run)
    requires env == CALM || env == HASTY
    ensures Begun(r, env) && Silent(r.st) && Empty(r.st)
    ensures r.st.server == Server(INITIAL_SOCK.(state := Accepting), WaitingSyn, [])
    ensures r.st.client == Client(INITIAL_SOCK, SynDue, false)
  {
    r := AcceptCalled(env);
    r := Go(r, ClientTurn(CallConnect));
  }

  lemma Syn(env: Env) returns (r: Run)
    requires env == CALM || env == HASTY
    ensures Begun(r, env) && Silent(r.st) && r.st.up == [Flight(SYN, 0)] && r.st.down == []
    ensures r.st.server == Server(INITIAL_SOCK.(state := Accepting), WaitingSyn, [])
    ensures r.st.client == Client(INITIAL_SOCK.(state := SynSent), AwaitSynAck, false)
  {
    r := ConnectCalled(env);
    r := Runs.Main(r);
  }

  lemma SynHeard(env: Env) returns (r: Run)
    requires env == CALM || env == HASTY
    ensures Begun(r, env) && Silent(r.st) && Empty(r.st)
    ensures r.st.server == Server(INITIAL_SOCK.(state := SynReceived), Checking, [])
    ensures r.st.client == Client(INITIAL_SOCK.(state := SynSent), AwaitSynAck, false)
  {
    r := Syn(env);
    r := ReachServer(r);
  }

  lemma SynAck(env: Env) returns (r: Run)
    requires env == CALM || env == HASTY
    ensures Begun(r, env) && Silent(r.st) && r.st.up == [] && r.st.down == [SYN_ACK]
    ensures r.st.server == Server(INITIAL_SOCK.(state := SynReceived), TimedWait, [])
    ensures r.st.client == Client(INITIAL_SOCK.(state := SynSent), AwaitSynAck, false)
  {
    r := SynHeard(env);
    r := Go(r, ServerTurn(AcceptMain(true)));
    r := Go(r, ServerTurn(AcceptMain(true)));
  }

  lemma Answered(env: Env) returns (r: Run)
    requires env == CALM || env == HASTY
    ensures Begun(r, env) && Silent(r.st) && Empty(r.st)
    ensures r.st.server == Server(INITIAL_SOCK.(state := SynReceived), TimedWait, [])
    ensures r.st.client == Client(INITIAL_SOCK.(state := SynSent), AckDue, false)
  {
    r := SynAck(env);
    r := ReachClient(r);
  }

  lemma Acknowledged(env: Env) returns (r: Run)
    requires env == CALM || env == HASTY
    ensures Begun(r, env) && Silent(r.st) && r.st.up == [Flight(Ack(0), 0)] && r.st.down == []
    ensures r.st.server == Server(INITIAL_SOCK.(state := SynReceived), TimedWait, [])
    ensures r.st.client == Client(LINKED, LaunchDue, false)
  {
    r := Answered(env);
    r := Runs.Main(r);
  }

  /** The wait of mic_tcp_accept times out just before the ACK comes. */
  lemma Preempted() returns (r: Run)
    ensures Begun(r, HASTY) && Silent(r.st) && r.st.up == [Flight(Ack(0), 0)] && r.st.down == []
    ensures r.st.server == Server(INITIAL_SOCK.(state := SynReceived), SynAckDue, [])
    ensures r.st.client == Client(LINKED, LaunchDue, false)
  {
    r := Acknowledged(HASTY);
    r := Go(r, ServerTurn(AcceptMain(true)));
    r := Go(r, ServerTurn(AcceptMain(true)));
  }

  lemma Returning() returns (r: Run)
    ensures Begun(r, CALM) && Silent(r.st) && Empty(r.st)
    ensures r.st.server == Server(LINKED, TimedWait, []) && r.st.client == Client(LINKED, LaunchDue, false)
  {
    r := Acknowledged(CALM);
    r := ReachServer(r);
  }

  lemma LastAck(env: Env) returns (r: Run)
    requires env == CALM || env == HASTY
    ensures Begun(r, env) && Silent(r.st) && Empty(r.st)
    ensures r.st.server == Served(env) && r.st.client == Client(LINKED, LaunchDue, false)
  {
    if env.atomicAccept {
      r := Returning();
      r := Go(r, ServerTurn(AcceptMain(true)));
      r := Go(r, ServerTurn(AcceptMain(true)));
    } else {
      r := Preempted();
      r := ReachServer(r);
    }
  }

  // ---- Measurement ----

  /** n measurement packets on their way to the server. */
  function Flying(n: nat): seq<Flight> { seq(n, _ => Flight(MEASUREMENT, 0)) }

  function LinkedSock(state: ProtocolState, allowed: int, size: nat, counted: nat): Sock {
    Sock(state, 1, 0, allowed, size, counted)
  }

  /** The client's main thread at pc, no send call made, n measurement packets in flight. */
  predicate Measured(st: State, env: Env, sock: Sock, pc: Pc, n: nat) {
    && Silent(st) && st.server == Served(env) && st.up == Flying(n) && st.down == []
    && st.client == Client(sock, pc, true)
  }

  function Counting(counted: nat): Sock { LinkedSock(MeasuringReliability, 0, 0, counted) }

  function PcAfter(sent: nat): Pc { if sent < 100 then MeasureDue(sent) else NegotiateDue }

  lemma Launched(env: Env) returns (r: Run)
    requires env == CALM || env == HASTY
    ensures Begun(r, env) && Silent(r.st) && Empty(r.st)
    ensures r.st.server == Served(env) && r.st.client == Client(LINKED, MeasuringDue, true)
  {
    r := LastAck(env);
    r := Runs.Main(r);
  }

  lemma Start(env: Env) returns (r: Run)
    requires env == CALM || env == HASTY
    ensures Begun(r, env) && Measured(r.st, env, Counting(0), MeasureDue(0), 0)
  {
    r := Launched(env);
    r := Runs.Main(r);
  }

  lemma FlyingOneMore(n: nat)
    ensures Flying(n) + [Flight(MEASUREMENT, 0)] == Flying(n + 1)
    ensures RemoveAt(Flying(n + 1), 0) == Flying(n) && Flying(n + 1)[0] == Flight(MEASUREMENT, 0)
  {
  }

  lemma PacketSent(st: State, env: Env, sock: Sock, sent: nat, n: nat)
    requires sent < 100 && Measured(st, env, sock, MeasureDue(sent), n)
    ensures Measured(ApplyClient(st, Turn.Main(true)), env, sock, PcAfter(sent + 1), n + 1)
  {
    FlyingOneMore(n);
  }

  /** One more measurement packet. */
  lemma Packet(r: Run, env: Env, sock: Sock, sent: nat, n: nat) returns (r': Run)
    requires Begun(r, env) && sent < 100 && Measured(r.st, env, sock, MeasureDue(sent), n)
    ensures Begun(r', env) && Measured(r'.st, env, sock, PcAfter(sent + 1), n + 1)
  {
    PacketSent(r.st, env, sock, sent, n);
    r' := Runs.Main(r);
  }

  lemma PacketEchoed(st: State, env: Env, sock: Sock, pc: Pc, n: nat)
    requires Measured(st, env, sock, pc, n + 1) && (env == CALM || env == HASTY)
    ensures var st' := Do(env, st, DeliverUp(0, false, true));
      && Measured(st'.(down := []), env, sock, pc, n) && st'.down == [Ack(0)]
      && st'.log.connected == st.log.connected
  {
    FlyingOneMore(n);
  }

  /** The server acknowledges the first of them. */
  lemma Echo(r: Run, env: Env, sock: Sock, pc: Pc, n: nat) returns (r': Run)
    requires Begun(r, env) && Measured(r.st, env, sock, pc, n + 1)
    ensures Begun(r', env) && Measured(r'.st.(down := []), env, sock, pc, n)
    ensures r'.st.down == [Ack(0)] && r'.st.log.connected == r.st.log.connected
  {
    PacketEchoed(r.st, env, sock, pc, n);
    r' := Go(r, DeliverUp(0, false, true));
  }

  /** And the client counts the ACK. */
  lemma Reply(r: Run, env: Env, sock: Sock, pc: Pc, n: nat) returns (r': Run)
    requires Begun(r, env) && Measured(r.st, env, sock, pc, n + 1)
    requires sock.state == MeasuringReliability && (pc.MeasureDue? || pc.NegotiateDue? || pc.EstablishDue?)
    ensures Begun(r', env)
    ensures Measured(r'.st, env, sock.(receivedPackets := sock.receivedPackets + 1), pc, n)
  {
    r' := Echo(r, env, sock, pc, n);
    r' := Go(r', DeliverDown(0, false, true));
    assert RemoveAt([Ack(0)], 0) == [];
  }

  /** i packets, each acknowledged at once. */
  lemma {:induction false} Rounds(env: Env, i: nat) returns (r: Run)
    requires i <= 100 && (env == CALM || env == HASTY)
    ensures Begun(r, env) && Measured(r.st, env, Counting(i), PcAfter(i), 0)
  {
    if i == 0 {
      r := Start(env);
    } else {
      r := Rounds(env, i - 1);
      r := Packet(r, env, Counting(i - 1), i - 1, 0);
      r := Reply(r, env, Counting(i - 1), PcAfter(i), 0);
    }
  }

  /** Then more packets, up to the i-th, none of them acknowledged yet. */
  lemma {:induction false} Burst(env: Env, m: nat, i: nat) returns (r: Run)
    requires m <= i <= 100 && (env == CALM || env == HASTY)
    ensures Begun(r, env) && Measured(r.st, env, Counting(m), PcAfter(i), i - m)
  {
    if i == m {
      r := Rounds(env, m);
    } else {
      r := Burst(env, m, i - 1);
      r := Packet(r, env, Counting(m), i - 1, i - 1 - m);
    }
  }

  /** The allowance for m counted ACKs. */
  function Allowance(m: nat): int { if m >= 99 then 0 else if m >= 96 then 1 else if m >= 89 then 2 else 3 }

  function Judged(m: nat, counted: nat): Sock {
    LinkedSock(MeasuringReliability, Allowance(m), WINDOW_SIZE, counted)
  }

  /** The loss rate is computed from m ACKs, and more are counted until there are k. */
  lemma {:induction false} Negotiated(env: Env, m: nat, k: nat) returns (r: Run)
    requires 80 <= m <= k <= 100 && (env == CALM || env == HASTY)
    ensures Begun(r, env) && Measured(r.st, env, Judged(m, k), EstablishDue, 100 - k)
    decreases k
  {
    if k == m {
      r := Burst(env, m, 100);
      Handshake.NegotiationTable(m);
      r := Runs.Main(r);
    } else {
      r := Negotiated(env, m, k - 1);
      r := Reply(r, env, Judged(m, k - 1), EstablishDue, 100 - k);
    }
  }

  /** The client's socket after a connect that measured m and counted k ACKs. */
  function FinalSock(m: nat, k: nat): Sock { LinkedSock(Established, Allowance(m), WINDOW_SIZE, k) }

  /** mic_tcp_connect has returned 0 with 100 - k measurement packets still in flight. */
  lemma Connect(env: Env, m: nat, k: nat) returns (r: Run)
    requires 80 <= m <= k <= 100 && (env == CALM || env == HASTY)
    ensures Begun(r, env) && r.st.log.connected
    ensures Measured(r.st, env, FinalSock(m, k), Ready(NoCall), 100 - k)
  {
    r := Negotiated(env, m, k);
    r := Runs.Main(r);
  }
}
