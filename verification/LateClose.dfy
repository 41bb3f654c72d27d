/** Closing after a connect on any channel: each promise of the close holds, over ordered channels
    from then on, exactly when no SYN+ACK is in flight and mic_tcp_accept is not about to send one. */
module LateClose {
  import opened Pdus
  import opened Handlers
  import opened Systems
  import opened Runs
  import opened CloseAgreement
  import opened Connected
  import ConnectTrust
  import Handshake
  import LateSynAck

  /** From now on the channels are ordered, and no wait ends without a signal. */
  predicate Plain(env: Env) { Fifo(env) && !env.spurious }

  /** A client that leaves the FIN loop with a FIN+ACK has had its FIN seen. */
  ghost predicate AckedMeansSeen(st: State) {
    forall env: Env, acts: seq<Action> :: Plain(env) ==>
      var st' := Exec(env, st, acts); LeftLoopAcked(st'.client.pc) ==> st'.log.sawFin
  }

  /** A server that is CLOSED was sent the final ACK, and nothing more is on its way to it. */
  ghost predicate ClosedMeansDone(st: State) {
    forall env: Env, acts: seq<Action> :: Plain(env) ==>
      var st' := Exec(env, st, acts); st'.server.sock.state == Closed ==> st'.log.finalAck && st'.up == []
  }

  /** A server that is CLOSED stays so. */
  ghost predicate ClosedIsFinal(st: State) {
    forall env: Env, acts: seq<Action>, a: Action :: Plain(env) ==>
      var st' := Exec(env, st, acts); st'.server.sock.state == Closed ==> Do(env, st', a).server.sock.state == Closed
  }

  /** No SYN+ACK is in flight or to be sent. */
  ghost predicate SynAcksOver(st: State) { !LateSynAck.Coming(st) }

  // ---- Without a SYN+ACK ----

  ghost predicate Inv(st: State) {
    && FinInv(st) && Handshake.Inv(st) && st.log.connected && Handshake.Served(st.server.pc)
    && forall p :: p in st.down ==> !IsSynAck(p)
  }

  lemma UpQuiet(env: Env, st: State, i: nat, keep: bool, ipOk: bool)
    requires forall p :: p in st.down ==> !IsSynAck(p)
    ensures forall p :: p in Do(env, st, DeliverUp(i, keep, ipOk)).down ==> !IsSynAck(p)
  {
    if i < |st.up| { Handshake.ServerMovesHold(st.server.sock, st.up[i].pdu, ipOk); }
  }

  lemma StillOver(env: Env, st: State, a: Action)
    requires Inv(st)
    ensures var st' := Do(env, st, a);
      st'.log.connected && Handshake.Served(st'.server.pc) && forall p :: p in st'.down ==> !IsSynAck(p)
  {
    if a.DeliverUp? { UpQuiet(env, st, a.i, a.keep, a.ipOk); }
  }

  lemma {:induction false} Holds(env: Env, st: State, acts: seq<Action>)
    requires Inv(st) && Plain(env)
    ensures Inv(Exec(env, st, acts))
  {
    if acts != [] {
      var before, a := acts[..|acts| - 1], acts[|acts| - 1];
      Holds(env, st, before);
      Handshake.Preserved(env, Exec(env, st, before), a);
      FinPreserved(env, Exec(env, st, before), a);
      StillOver(env, Exec(env, st, before), a);
    }
  }

  lemma OverHolds(st: State)
    requires Known(st) && JustConnected(st) && SynAcksOver(st)
    ensures Inv(st)
  {
    DrainedWhenClean(st);
    forall p | p in st.down
      ensures !IsSynAck(p)
    {
      var i :| 0 <= i < |st.down| && st.down[i] == p;
    }
  }

  lemma OverSuffices(st: State)
    requires Known(st) && JustConnected(st) && SynAcksOver(st)
    ensures AckedMeansSeen(st) && ClosedMeansDone(st) && ClosedIsFinal(st)
  {
    OverHolds(st);
    forall env: Env, acts: seq<Action> | Plain(env)
      ensures Inv(Exec(env, st, acts))
    {
      Holds(env, st, acts);
    }
    forall env: Env, acts: seq<Action>, a: Action |
      Plain(env) && Exec(env, st, acts).server.sock.state == Closed
      ensures Do(env, Exec(env, st, acts), a).server.sock.state == Closed
    {
      ClosedStays(env, Exec(env, st, acts), a);
    }
  }

  // ---- With one ----

  lemma Prepare(st: State) returns (r: Run)
    requires Known(st) && JustConnected(st) && !SynAcksOver(st)
    ensures Continues(At(CALM, st), r) && LateSynAck.Alone(r.st)
  {
    ConnectTrust.PoisedAfterConnect(st);
    r := LateSynAck.Isolate(At(CALM, st));
  }

  lemma ComingFalsifies(st: State)
    requires Known(st) && JustConnected(st) && !SynAcksOver(st)
    ensures !AckedMeansSeen(st) && !ClosedMeansDone(st) && !ClosedIsFinal(st)
  {
    var r := Prepare(st);
    var acked := LateSynAck.MistakenAck(r);
    assert LeftLoopAcked(Exec(CALM, st, acked.acts).client.pc) && !Exec(CALM, st, acked.acts).log.sawFin;
    var closed, reopened := LateSynAck.MistakenFinalAck(r);
    var st' := Exec(CALM, st, closed.acts);
    assert st'.server.sock.state == Closed && !st'.log.finalAck;
    assert Do(CALM, st', DeliverUp(0, false, true)).server.sock.state != Closed;
  }

  /** When mic_tcp_connect has returned 0, on any channel, and before the first send: that leaving the
      loop with a FIN+ACK means a FIN was seen, that CLOSED means the final ACK was sent, and that
      CLOSED is final, each holds of all runs from there over ordered channels if and only if no
      SYN+ACK is in flight or to be sent. */
  lemma CloseAfterConnect(env: Env, past: seq<Action>)
    requires JustConnected(Exec(env, INITIAL, past))
    ensures var st := Exec(env, INITIAL, past);
      && (AckedMeansSeen(st) <==> SynAcksOver(st))
      && (ClosedMeansDone(st) <==> SynAcksOver(st))
      && (ClosedIsFinal(st) <==> SynAcksOver(st))
  {
    var st := Exec(env, INITIAL, past);
    AllKnown(env, past);
    if SynAcksOver(st) { OverSuffices(st); } else { ComingFalsifies(st); }
  }
}
