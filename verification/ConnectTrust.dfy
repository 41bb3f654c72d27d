/** Trust seen from mic_tcp_connect: what state it must leave behind, and what the client's socket
    tells of that state. The connect may have run on any channel. */
module ConnectTrust {
  import opened Pdus
  import opened Handlers
  import opened Systems
  import opened LockStep
  import opened OwnMessage
  import opened Runs
  import opened Trust
  import opened Connected
  import ConnectRun
  import FalseSuccess
  import FirstMessage
  import Handshake
  import LateSynAck
  import Measurement
  import Window

  lemma PoisedAfterConnect(st: State)
    requires Known(st) && JustConnected(st)
    ensures FalseSuccess.Poised(st) && ClientNumber(st) <= 1 && !st.log.sawFin && !st.log.finalAck
    ensures forall f :: f in st.up && IsData(f.pdu) ==> !IsText(f.pdu.payload)
    ensures forall p :: p in st.down && IsAck(p) ==> p.ackNum == 0
  {
    NothingAccepted(st);
    DrainedWhenClean(st);
  }

  lemma StrayFalsifies(st: State, calls: nat)
    requires Known(st) && JustConnected(st) && !Clean(st) && calls >= 1
    ensures exists acts :: Unfailing(Exec(HASTY, st, acts)) && !Truthful(Exec(HASTY, st, acts).log, calls)
  {
    PoisedAfterConnect(st);
    var r := FalseSuccess.Spoil(At(HASTY, st));
    r := FalseSuccess.Lie(r, "a");
    LiedIsFalse(r.st, "a", calls);
    assert Unfailing(Exec(HASTY, st, r.acts)) && !Truthful(Exec(HASTY, st, r.acts).log, calls);
  }

  lemma LiedIsFalse(st: State, msg: Payload, calls: nat)
    requires FalseSuccess.Lied(st, msg) && calls >= 1 && IsText(msg)
    ensures Unfailing(st) && !Truthful(st.log, calls)
  {
    assert st.log.completed[0] in st.log.completed && !Delivers(st.log, 1);
  }

  lemma RepeatedIsFalse(st: State, a: Payload, b: Payload, calls: nat)
    requires LateSynAck.Repeated(st, a, b) && calls >= 2 && IsText(a) && IsText(b)
    ensures Unfailing(st) && !Truthful(st.log, calls)
  {
    assert st.log.completed[1] in st.log.completed && !Delivers(st.log, 2);
  }

  lemma LateSynAckFalsifies(st: State, calls: nat)
    requires Known(st) && JustConnected(st) && Clean(st) && st.server.pc.SynAckDue? && calls >= 2
    ensures exists acts :: Unfailing(Exec(HASTY, st, acts)) && !Truthful(Exec(HASTY, st, acts).log, calls)
  {
    PoisedAfterConnect(st);
    var r := LateSynAck.Repeat(At(HASTY, st), "a", "b");
    RepeatedIsFalse(r.st, "a", "b", calls);
    assert Unfailing(Exec(HASTY, st, r.acts)) && !Truthful(Exec(HASTY, st, r.acts).log, calls);
  }

  lemma FirstCallTrusted(st: State)
    requires Known(st) && JustConnected(st) && Clean(st)
    ensures Trustworthy(st, 1)
  {
    forall env: Env, acts: seq<Action> | !env.down.reorders && Unfailing(Exec(env, st, acts))
      ensures Truthful(Exec(env, st, acts).log, 1)
    {
      FirstMessage.FirstSuccessIsOwn(env, st, acts);
    }
  }

  lemma TrustWhenKnown(st: State, calls: nat)
    requires Known(st) && JustConnected(st) && calls >= 1
    ensures Trustworthy(st, calls) <==>
            && Clean(st) && Lossless(calls, st.client.sock.allowedLosses)
            && (calls == 1 || !st.server.pc.SynAckDue?)
  {
    DrainedWhenClean(st);
    if !Clean(st) {
      StrayFalsifies(st, calls);
    } else if !st.server.pc.SynAckDue? {
      TrustAfterDrain(st, calls);
    } else if calls == 1 {
      FirstCallTrusted(st);
    } else {
      LateSynAckFalsifies(st, calls);
    }
  }

  /** When mic_tcp_connect has returned 0, on any channel, and before the first send: trust in the
      first `calls` calls takes, besides what it takes after a drained start, that the client's number
      is 1, that nothing of the measurement is in flight, and, beyond the first call, that
      mic_tcp_accept, preempted, has no SYN+ACK still to send; it has none if accept is atomic. */
  lemma TrustAfterConnect(env: Env, past: seq<Action>, calls: nat)
    requires JustConnected(Exec(env, INITIAL, past)) && calls >= 1
    ensures var st := Exec(env, INITIAL, past); var lossless := Lossless(calls, st.client.sock.allowedLosses);
      && (Trustworthy(st, calls) <==> Clean(st) && lossless && (calls == 1 || !st.server.pc.SynAckDue?))
      && (env.atomicAccept ==> (Trustworthy(st, calls) <==> Clean(st) && lossless))
  {
    AllKnown(env, past);
    TrustWhenKnown(Exec(env, INITIAL, past), calls);
    DrainedAfterConnect(env, past);
  }

  // ---- What the client's socket can tell ----

  /** A state of a connected client with this socket, reached on channels that do not duplicate;
      `atomic` leaves out the runs in which mic_tcp_accept is preempted before its SYN+ACK. */
  ghost predicate Shows(env: Env, past: seq<Action>, sock: Sock, atomic: bool) {
    && NoCopies(env) && (atomic ==> env.atomicAccept) && JustConnected(Exec(env, INITIAL, past))
    && Exec(env, INITIAL, past).client.sock == sock
  }

  /** Whatever state the socket belongs to can be trusted. */
  ghost predicate SocketTrusted(sock: Sock, calls: nat, atomic: bool) {
    forall env: Env, past: seq<Action> ::
      Shows(env, past, sock, atomic) ==> Trustworthy(Exec(env, INITIAL, past), calls)
  }

  lemma SocketAfterConnect(st: State)
    requires Known(st) && Measurement.Inv(st) && JustConnected(st) && ClientNumber(st) == 1
    ensures var m, s := st.log.measured, st.client.sock;
      80 <= m <= s.receivedPackets <= 100 && s == ConnectRun.FinalSock(m, s.receivedPackets)
  {
    Handshake.NegotiationTable(st.log.measured);
    assert Window.Outcomes(st.log.completed) == [];
  }

  lemma SomeShown(env: Env, past: seq<Action>, sock: Sock, calls: nat, atomic: bool)
    requires Shows(env, past, sock, atomic) && !Trustworthy(Exec(env, INITIAL, past), calls)
    ensures !SocketTrusted(sock, calls, atomic)
  {
  }

  /** Another run, with the same socket, that leaves measurement packets in flight. */
  lemma LookalikeStray(m: nat, k: nat, calls: nat, atomic: bool)
    requires 80 <= m <= k < 100 && calls >= 1
    ensures !SocketTrusted(ConnectRun.FinalSock(m, k), calls, atomic)
  {
    var r := ConnectRun.Connect(CALM, m, k);
    assert r.st.up[0] in r.st.up && IsData(r.st.up[0].pdu);
    TrustAfterConnect(CALM, r.acts, calls);
    SomeShown(CALM, r.acts, ConnectRun.FinalSock(m, k), calls, atomic);
  }

  /** And another, with nothing in flight, that leaves mic_tcp_accept about to send a SYN+ACK. */
  lemma LookalikeLate(m: nat, calls: nat)
    requires 80 <= m <= 100 && calls >= 2
    ensures !SocketTrusted(ConnectRun.FinalSock(m, 100), calls, false)
  {
    var r := ConnectRun.Connect(HASTY, m, 100);
    TrustAfterConnect(HASTY, r.acts, calls);
    SomeShown(HASTY, r.acts, ConnectRun.FinalSock(m, 100), calls, false);
  }

  /** What the socket must show: a hundred counted ACKs, and few enough calls. */
  predicate Reassuring(sock: Sock, calls: nat, atomic: bool) {
    && sock.receivedPackets == 100
    && if atomic then Lossless(calls, sock.allowedLosses) else calls == 1
  }

  lemma ReassuringSuffices(sock: Sock, calls: nat, atomic: bool)
    requires Reassuring(sock, calls, atomic) && calls >= 1 && sock.allowedLosses <= 3
    ensures SocketTrusted(sock, calls, atomic)
  {
    forall env: Env, past: seq<Action> | Shows(env, past, sock, atomic)
      ensures Trustworthy(Exec(env, INITIAL, past), calls)
    {
      AllCountedMeansClean(env, past);
      TrustAfterConnect(env, past, calls);
    }
  }

  /** What the client's socket alone warrants, on channels that do not duplicate. If mic_tcp_accept is
      not preempted: trust in the first `calls` calls exactly when it counted a hundred ACKs and no
      loss can be afforded before the last. If it may be: trust in the first call, exactly when it
      counted a hundred; never in more. */
  lemma TrustInSocket(env: Env, past: seq<Action>, calls: nat, atomic: bool)
    requires NoCopies(env) && (atomic ==> env.atomicAccept) && JustConnected(Exec(env, INITIAL, past)) && calls >= 1
    ensures var s := Exec(env, INITIAL, past).client.sock;
      SocketTrusted(s, calls, atomic) <==> Reassuring(s, calls, atomic)
  {
    var st := Exec(env, INITIAL, past);
    AllKnown(env, past);
    Measurement.Holds(env, past);
    TrustAfterConnect(env, past, calls);
    SocketCases(st, calls, atomic);
    if !Trustworthy(st, calls) { SomeShown(env, past, st.client.sock, calls, atomic); }
  }

  lemma SocketCases(st: State, calls: nat, atomic: bool)
    requires Known(st) && Measurement.Inv(st) && JustConnected(st) && calls >= 1
    ensures var s := st.client.sock;
      && (Reassuring(s, calls, atomic) ==> SocketTrusted(s, calls, atomic))
      && (!Reassuring(s, calls, atomic) ==> !SocketTrusted(s, calls, atomic) || !Trustworthy(st, calls))
  {
    var s := st.client.sock;
    if Reassuring(s, calls, atomic) {
      ReassuringSuffices(s, calls, atomic);
    } else {
      TrustWhenKnown(st, calls);
      if ClientNumber(st) == 1 && Lossless(calls, s.allowedLosses) {
        SocketAfterConnect(st);
        if s.receivedPackets < 100 {
          LookalikeStray(st.log.measured, s.receivedPackets, calls, atomic);
        } else {
          LookalikeLate(st.log.measured, calls);
        }
      }
    }
  }
}
