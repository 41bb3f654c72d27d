/** What mic_tcp_recv returns, along every run: the accepted payloads, in order. */
module AppBuffer {
  import opened Pdus
  import opened Handlers
  import opened Systems

  /** What was received, then what is queued, is what was accepted. */
  ghost predicate Inv(st: State) {
    var g, b := st.log, st.server.buffer;
    && |g.received| + |b| == |g.accepted|
    && (forall i :: 0 <= i < |b| ==> b[i] == g.accepted[|g.received| + i].pdu.payload)
    && (forall i :: 0 <= i < |g.received| ==>
          Fits(g.received[i].data, g.accepted[i].pdu.payload, g.received[i].max))
  }

  lemma ReactKeeps(st: State, f: Flight, r: Reaction)
    requires Inv(st)
    ensures Inv(React(st, f, r))
  {
    var st' := React(st, f, r);
    if r.accepted {
      assert st'.server.buffer == st.server.buffer + [f.pdu.payload] && st'.log.accepted == st.log.accepted + [f];
    } else {
      assert st'.server.buffer == st.server.buffer && st'.log.accepted == st.log.accepted;
    }
  }

  lemma RecvKeeps(st: State, max: nat)
    requires Inv(st)
    ensures Inv(ApplyRecv(st, max))
  {
  }

  lemma UpKeeps(env: Env, st: State, i: nat, keep: bool, ipOk: bool)
    requires Inv(st)
    ensures Inv(Do(env, st, DeliverUp(i, keep, ipOk)))
  {
    if i < |st.up| {
      ReactKeeps(st.(up := Rest(st.up, i, keep)), st.up[i], ServerHandle(st.server.sock, st.up[i].pdu, ipOk));
    }
  }

  /** Neither the queue nor the two logs it stands between differ. */
  predicate SameQueue(st: State, st': State) {
    && st'.server.buffer == st.server.buffer && st'.log.accepted == st.log.accepted
    && st'.log.received == st.log.received
  }

  lemma Elsewhere(env: Env, st: State, a: Action)
    requires !a.DeliverUp? && !a.Recv?
    ensures SameQueue(st, Do(env, st, a))
  {
  }

  lemma SameKeeps(st: State, st': State)
    requires Inv(st) && SameQueue(st, st')
    ensures Inv(st')
  {
  }

  lemma Preserved(env: Env, st: State, a: Action)
    requires Inv(st)
    ensures Inv(Do(env, st, a))
  {
    match a
    case DeliverUp(i, keep, ipOk) => UpKeeps(env, st, i, keep, ipOk);
    case Recv(max) => RecvKeeps(st, max);
    case _ =>
      Elsewhere(env, st, a);
      SameKeeps(st, Do(env, st, a));
  }

  lemma {:induction false} Holds(env: Env, st: State, acts: seq<Action>)
    requires Inv(st)
    ensures Inv(Exec(env, st, acts))
  {
    if acts != [] {
      Holds(env, st, acts[..|acts| - 1]);
      Preserved(env, Exec(env, st, acts[..|acts| - 1]), acts[|acts| - 1]);
    }
  }

  function Payloads(accepted: seq<Flight>): seq<Payload> {
    seq(|accepted|, i requires 0 <= i < |accepted| => accepted[i].pdu.payload)
  }

  ghost predicate Prefix(st: State) {
    var g, k := st.log, |st.log.received|;
    && k <= |g.accepted|
    && (forall i :: 0 <= i < k ==> Fits(g.received[i].data, Payloads(g.accepted)[i], g.received[i].max))
    && st.server.buffer == Payloads(g.accepted)[k..]
  }

  /** For any interleaving of deliveries and calls: the results of mic_tcp_recv are the accepted
      payloads in order, from the first, each cut to the room its caller gave; the queue holds
      exactly the rest. */
  lemma ReceivedPrefix(env: Env, acts: seq<Action>)
    ensures Prefix(Exec(env, INITIAL, acts))
  {
    Holds(env, INITIAL, acts);
    PrefixOfState(Exec(env, INITIAL, acts));
  }

  lemma PrefixOfState(st: State)
    requires Inv(st)
    ensures Prefix(st)
  {
  }
}
