/** From the handshake to the data phase: when a connect that returned 0 leaves the drained start
    that the data-phase theorems assume, and what the client can know of it. */
module Connected {
  import opened Pdus
  import opened Handlers
  import opened Threads
  import opened Systems
  import opened LockStep
  import CloseAgreement
  import Handshake
  import InOrder
  import Measurement
  import Provenance
  import ServerLog
  import Window

  predicate Measuring(pc: Pc) { pc.MeasuringDue? || pc.MeasureDue? || pc.NegotiateDue? || pc.EstablishDue? }

  /** Without a FIN, the listening thread and the ESTABLISHED state last. */
  predicate Alive(c: Client) {
    && (Handshake.Connecting(c.pc) || c.pc.AckDue? || c.pc.LaunchDue? ==> !c.listening)
    && (c.pc.LaunchDue? ==> c.sock.state == Established)
    && (Measuring(c.pc) ==> c.listening && (c.sock.state == Established || c.sock.state == MeasuringReliability))
    && (InSend(c.pc) || c.pc.Ready? ==> c.listening && c.sock.state == Established)
  }

  lemma AliveKept(c: Client, t: Turn)
    requires Alive(c) && !(t.Deliver? && IsFin(t.pdu))
    ensures Alive(ClientDo(c, t).client)
  {
    if t.Main? { AliveMain(c, t); }
  }

  lemma AliveMain(c: Client, t: Turn)
    requires Alive(c) && t.Main?
    ensures Alive(MainStep(c, t.ipOk).client)
  {
  }

  /** Before the first send call there is nothing of one in the logs, and the server has
      acknowledged nothing but measurement packets. */
  ghost predicate Fresh(st: State) {
    var g := st.log;
    && |g.numbers| == |g.msgs| && (InSend(st.client.pc) ==> g.msgs != [])
    && (g.msgs == [] ==>
          && g.completed == [] && (forall f :: f in g.transmitted ==> f.call == 0)
          && forall p :: p in st.down && IsAck(p) ==> p.ackNum == 0)
  }

  lemma FreshAdvance(st: State, t: Turn, o: Out)
    requires Fresh(st) && (InSend(o.client.pc) ==> InSend(st.client.pc) || StartsCall(st.client, t))
    ensures Fresh(Advance(st, t, o))
  {
  }

  lemma FreshKept(st: State, t: Turn)
    requires Fresh(st)
    ensures Fresh(ApplyClient(st, t))
  {
    Provenance.FactsHold(st.client, t);
    FreshAdvance(st, t, ClientDo(st.client, t));
  }

  lemma FreshReact(st: State, f: Flight, r: Reaction)
    requires Fresh(st) && ServerLog.Facts(st.server.sock, f.pdu, r)
    requires st.log.msgs == [] && IsData(f.pdu) ==> !IsText(f.pdu.payload)
    ensures Fresh(React(st, f, r))
  {
  }

  lemma FreshAnswer(st: State, f: Flight, ipOk: bool)
    requires Fresh(st)
    requires st.log.msgs == [] && IsData(f.pdu) ==> !IsText(f.pdu.payload)
    ensures Fresh(ApplyServer(st, f, ipOk))
  {
    ServerLog.FactsHold(st.server.sock, f.pdu, ipOk);
    FreshReact(st, f, ServerHandle(st.server.sock, f.pdu, ipOk));
  }

  lemma DownKeeps(env: Env, st: State, i: nat, keep: bool, ipOk: bool)
    requires Alive(st.client) && Fresh(st) && forall p :: p in st.down ==> !IsFin(p)
    ensures var st' := Do(env, st, DeliverDown(i, keep, ipOk)); Alive(st'.client) && Fresh(st')
  {
    if i < |st.down| {
      AliveKept(st.client, Deliver(st.down[i], ipOk));
      FreshKept(st.(down := Rest(st.down, i, keep)), Deliver(st.down[i], ipOk));
    }
  }

  lemma Preserved(env: Env, st: State, a: Action)
    requires Alive(st.client) && Fresh(st) && forall p :: p in st.down ==> !IsFin(p)
    requires Provenance.Inv(st)
    ensures Alive(Do(env, st, a).client) && Fresh(Do(env, st, a))
  {
    match a
    case ClientTurn(t) =>
      if !t.Deliver? {
        AliveKept(st.client, t);
        FreshKept(st, t);
      }
    case DeliverUp(i, keep, ipOk) =>
      if i < |st.up| { FreshAnswer(st.(up := Rest(st.up, i, keep)), st.up[i], ipOk); }
    case DeliverDown(i, keep, ipOk) => DownKeeps(env, st, i, keep, ipOk);
    case _ =>
  }

  lemma {:induction false} Holds(env: Env, acts: seq<Action>)
    ensures var st := Exec(env, INITIAL, acts); Alive(st.client) && Fresh(st)
  {
    if acts != [] {
      var before, a := acts[..|acts| - 1], acts[|acts| - 1];
      Holds(env, before);
      CloseAgreement.UnclosedHolds(env, before);
      Provenance.Holds(env, INITIAL, before);
      Preserved(env, Exec(env, INITIAL, before), a);
    }
  }

  /** mic_tcp_connect has returned 0 and mic_tcp_send has not begun its work. */
  predicate JustConnected(st: State) { st.client.pc.Ready? && st.log.msgs == [] }

  /** What is known of every reachable state, on any channel. */
  ghost predicate Known(st: State) {
    && Handshake.Inv(st) && CloseAgreement.Unclosed(st) && Provenance.Inv(st)
    && Window.Inv(st) && InOrder.Numbers(st) && Alive(st.client) && Fresh(st)
  }

  lemma NothingAccepted(st: State)
    requires Provenance.Inv(st)
    ensures st.log.accepted != [] ==> st.log.msgs != []
  {
    if st.log.accepted != [] {
      assert st.log.accepted[0] in st.log.accepted;
    }
  }

  lemma AllKnown(env: Env, acts: seq<Action>)
    requires Exec(env, INITIAL, acts).log.msgs == []
    ensures Known(Exec(env, INITIAL, acts))
  {
    Holds(env, acts);
    Handshake.Holds(env, acts);
    CloseAgreement.UnclosedHolds(env, acts);
    Provenance.Holds(env, INITIAL, acts);
    NothingAccepted(Exec(env, INITIAL, acts));
    InOrder.Holds(env, acts);
    WindowKnown(env, acts);
  }

  lemma WindowKnown(env: Env, acts: seq<Action>)
    ensures Window.Inv(Exec(env, INITIAL, acts))
  {
    assert Window.Outcomes(INITIAL.log.completed) == [];
    Window.Holds(env, INITIAL, acts);
  }

  /** The client's number is 1, and no measurement packet or measurement ACK is in flight. */
  ghost predicate Clean(st: State) {
    ClientNumber(st) == 1 && (forall f :: f in st.up ==> !IsData(f.pdu)) && (forall p :: p in st.down ==> !IsAck(p))
  }

  lemma DrainedWhenClean(st: State)
    requires Known(st) && JustConnected(st)
    ensures st.server.sock.state == Established && ServerNumber(st) == 1 && ClientNumber(st) <= 1
    ensures !Handshake.BeforeSyn(st.server.pc)
    ensures Drained(st) <==> Clean(st) && !st.server.pc.SynAckDue?
  {
    NothingAccepted(st);
    assert Window.Outcomes(st.log.completed) == [];
  }

  /** On any channel, when mic_tcp_connect has returned 0 and before the first send: the server is
      ESTABLISHED and expects number 1, and the state is the drained start exactly when the client's
      number is 1, no measurement packet or ACK is in flight, and mic_tcp_accept, which may have been
      preempted after its state check, has no SYN+ACK to send. It has none if accept is atomic. */
  lemma DrainedAfterConnect(env: Env, acts: seq<Action>)
    requires JustConnected(Exec(env, INITIAL, acts))
    ensures var st := Exec(env, INITIAL, acts);
      && st.server.sock.state == Established && ServerNumber(st) == 1 && ClientNumber(st) <= 1
      && (Drained(st) <==> Clean(st) && !st.server.pc.SynAckDue?)
      && (env.atomicAccept ==> !st.server.pc.SynAckDue?)
  {
    AllKnown(env, acts);
    DrainedWhenClean(Exec(env, INITIAL, acts));
    if env.atomicAccept { Handshake.PromptHolds(env, acts); }
  }

  // ---- What the client can see of it ----

  predicate NoCopies(env: Env) { !env.up.duplicates && !env.down.duplicates }

  lemma CountZero<T>(s: seq<T>, p: T -> bool)
    requires Measurement.Count(s, p) == 0
    ensures forall x :: x in s ==> !p(x)
  {
    if s != [] { CountZero(s[..|s| - 1], p); }
  }

  lemma CleanWhenAllCounted(st: State)
    requires Measurement.Inv(st) && JustConnected(st) && st.client.sock.receivedPackets >= 100
    ensures Clean(st)
  {
    CountZero(st.up, Measurement.DataFlight);
    CountZero(st.down, IsAck);
  }

  /** On channels that do not duplicate, a hundred counted ACKs mean that the client's number is 1 and
      nothing of the measurement is in flight. */
  lemma AllCountedMeansClean(env: Env, acts: seq<Action>)
    requires NoCopies(env) && JustConnected(Exec(env, INITIAL, acts))
    requires Exec(env, INITIAL, acts).client.sock.receivedPackets >= 100
    ensures Clean(Exec(env, INITIAL, acts))
  {
    Measurement.Holds(env, acts);
    CleanWhenAllCounted(Exec(env, INITIAL, acts));
  }
}
