/** How mic_tcp_accept and the listening thread end, in every run. */
module Endings {
  import opened Pdus
  import opened Handlers
  import opened Threads
  import opened Systems
  import Handshake

  // ---- mic_tcp_accept ----

  lemma AcceptFailsOnce(env: Env, st: State, a: Action)
    requires st.server.pc != Returned(false)
    ensures Do(env, st, a).server.pc == Returned(false) ==> a == ServerTurn(AcceptError)
  {
  }

  lemma ReturnedStays(env: Env, st: State, a: Action)
    requires st.server.pc.Returned?
    ensures Do(env, st, a).server.pc == st.server.pc
  {
  }

  /** mic_tcp_accept returns -1 only if one of its waits broke. */
  lemma {:induction false} AcceptFailsOnlyByError(env: Env, acts: seq<Action>)
    ensures Exec(env, INITIAL, acts).server.pc == Returned(false) ==> ServerTurn(AcceptError) in acts
  {
    if acts != [] {
      var before, a := acts[..|acts| - 1], acts[|acts| - 1];
      AcceptFailsOnlyByError(env, before);
      if Exec(env, INITIAL, before).server.pc != Returned(false) {
        AcceptFailsOnce(env, Exec(env, INITIAL, before), a);
      }
    }
  }

  predicate Answering(pc: AcceptPc) { pc.Checking? || pc.SynAckDue? || pc.TimedWait? || pc == Returned(true) }

  /** After the first SYN the socket is in SYN_RECEIVED or has moved on from there. */
  ghost predicate Moved(st: State) {
    var s, state := st.server, st.server.sock.state;
    && state != ProtocolState.Closing
    && (Answering(s.pc) ==> state == SynReceived || Handshake.Past(state))
    && (s.pc == Returned(true) ==> Handshake.Past(state))
    && (Handshake.Past(state) ==> st.log.serverUp || st.log.sawFin)
  }

  predicate Moves(s: Sock, r: Reaction) {
    && (r.signal ==> r.sock.state == SynReceived || r.sock.state == Established || s.state == ProtocolState.Closing)
    && (s.state == SynReceived ==> r.sock.state == SynReceived || Handshake.Past(r.sock.state))
    && (Handshake.Past(s.state) ==> Handshake.Past(r.sock.state))
    && (r.sock.state == ProtocolState.Closing ==> s.state == ProtocolState.Closing)
    && (r.sock.state == Closed ==> s.state == Closed || s.state == AwaitingClosing)
  }

  lemma MovesHold(s: Sock, p: Pdu, ipOk: bool)
    ensures Moves(s, ServerHandle(s, p, ipOk))
  {
  }

  lemma ReactMoves(st: State, f: Flight, r: Reaction)
    requires Moved(st) && Moves(st.server.sock, r)
    ensures Moved(React(st, f, r))
  {
  }

  lemma UpMoves(st: State, f: Flight, ipOk: bool)
    requires Moved(st)
    ensures Moved(ApplyServer(st, f, ipOk))
  {
    MovesHold(st.server.sock, f.pdu, ipOk);
    ReactMoves(st, f, ServerHandle(st.server.sock, f.pdu, ipOk));
  }

  lemma MovedKept(env: Env, st: State, a: Action)
    requires Moved(st) && !env.spurious
    ensures Moved(Do(env, st, a))
  {
    if a.DeliverUp? && a.i < |st.up| { UpMoves(st.(up := Rest(st.up, a.i, a.keep)), st.up[a.i], a.ipOk); }
  }

  lemma {:induction false} MovedHolds(env: Env, acts: seq<Action>)
    requires !env.spurious
    ensures Moved(Exec(env, INITIAL, acts))
  {
    if acts != [] {
      MovedHolds(env, acts[..|acts| - 1]);
      MovedKept(env, Exec(env, INITIAL, acts[..|acts| - 1]), acts[|acts| - 1]);
    }
  }

  /** mic_tcp_accept returns -1 only if one of its waits broke, and, without spurious wake-ups, 0 only if
      the server has been ESTABLISHED or has seen a FIN. */
  lemma AcceptEndings(env: Env, acts: seq<Action>)
    ensures var st := Exec(env, INITIAL, acts);
      && (st.server.pc == Returned(false) ==> ServerTurn(AcceptError) in acts)
      && (st.server.pc == Returned(true) && !env.spurious ==> st.log.serverUp || st.log.sawFin)
  {
    AcceptFailsOnlyByError(env, acts);
    if !env.spurious { MovedHolds(env, acts); }
  }

  // ---- The listening thread ----

  /** The listening thread was created, and has ended. */
  predicate Deaf(c: Client) {
    && !c.listening && !Handshake.Connecting(c.pc) && !c.pc.AckDue? && !c.pc.LaunchDue?
  }

  lemma TurnDeaf(c: Client, t: Turn)
    requires Deaf(c)
    ensures Deaf(ClientDo(c, t).client) && (t.Deliver? ==> ClientDo(c, t) == Out(c, None))
  {
  }

  lemma DeafKept(env: Env, st: State, a: Action)
    requires Deaf(st.client)
    ensures Deaf(Do(env, st, a).client) && (a.DeliverDown? ==> Do(env, st, a) == st)
  {
    if a.ClientTurn? { TurnDeaf(st.client, a.turn); }
  }

  lemma {:induction false} DeafForGood(env: Env, st: State, acts: seq<Action>)
    requires Deaf(st.client)
    ensures Deaf(Exec(env, st, acts).client)
  {
    if acts != [] {
      DeafForGood(env, st, acts[..|acts| - 1]);
      DeafKept(env, Exec(env, st, acts[..|acts| - 1]), acts[|acts| - 1]);
    }
  }

  /** Where a client with a listening thread can stand. */
  predicate Launched(c: Client) { c.listening ==> !Handshake.Connecting(c.pc) && !c.pc.AckDue? && !c.pc.LaunchDue? }

  lemma TurnLaunched(c: Client, t: Turn)
    requires Launched(c)
    ensures Launched(ClientDo(c, t).client)
  {
  }

  lemma {:induction false} LaunchedHolds(env: Env, acts: seq<Action>)
    ensures Launched(Exec(env, INITIAL, acts).client)
  {
    if acts != [] {
      var before, a := acts[..|acts| - 1], acts[|acts| - 1];
      var st := Exec(env, INITIAL, before);
      LaunchedHolds(env, before);
      if a.ClientTurn? { TurnLaunched(st.client, a.turn); }
      if a.DeliverDown? && a.i < |st.down| { TurnLaunched(st.client, Deliver(st.down[a.i], a.ipOk)); }
    }
  }

  /** The state after the client has handled the i-th PDU in flight. */
  function Handled(st: State, i: nat, ipOk: bool): State
    requires i < |st.down|
  {
    ApplyClient(st.(down := RemoveAt(st.down, i)), Deliver(st.down[i], ipOk))
  }

  /** In every reachable state: once a PDU has been handled and left the socket CLOSED, no other PDU is
      ever handled, whatever follows; until then the thread goes on. */
  lemma ClosedHandlesNoMore(env: Env, past: seq<Action>, i: nat, ipOk: bool, acts: seq<Action>)
    requires var st := Exec(env, INITIAL, past); st.client.listening && i < |st.down|
    ensures var st' := Handled(Exec(env, INITIAL, past), i, ipOk);
      && (st'.client.listening <==> st'.client.sock.state != Closed)
      && (st'.client.sock.state == Closed ==>
            forall j, keep, ok ::
              var later := Exec(env, st', acts); Do(env, later, DeliverDown(j, keep, ok)) == later)
  {
    var st := Exec(env, INITIAL, past);
    var st' := Handled(st, i, ipOk);
    LaunchedHolds(env, past);
    TurnLaunched(st.client, Deliver(st.down[i], ipOk));
    if st'.client.sock.state == Closed { DeafLater(env, st', acts); }
  }

  lemma DeafLater(env: Env, st: State, acts: seq<Action>)
    requires Deaf(st.client)
    ensures forall j, keep, ok ::
              var later := Exec(env, st, acts); Do(env, later, DeliverDown(j, keep, ok)) == later
  {
    DeafForGood(env, st, acts);
    forall j, keep, ok
      ensures var later := Exec(env, st, acts); Do(env, later, DeliverDown(j, keep, ok)) == later
    {
      DeafKept(env, Exec(env, st, acts), DeliverDown(j, keep, ok));
    }
  }
}
