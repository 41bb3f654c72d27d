/** What must have been on the wire, in every run from the beginning, on any channel: a PDU of every
    call that waits or has completed, and the ACK of every client that is connected; and nothing of a
    call that has returned comes after it. */
module OwnPdu {
  import opened Pdus
  import opened Handlers
  import opened Threads
  import opened Systems
  import Handshake
  import Window

  predicate OfCall(g: Log, f: Flight, call: nat) {
    1 <= call <= |g.msgs| && f.call == call && IsData(f.pdu) && f.pdu.payload == g.msgs[call - 1]
  }

  /** The message of this send call was transmitted. */
  ghost predicate Transmits(g: Log, call: nat) { exists f :: f in g.transmitted && OfCall(g, f, call) }

  /** The packet of the round in progress is out. */
  predicate Sent(pc: Pc) { pc.WaitDue? || pc.Waiting? || pc.Woken? }

  /** ESTABLISHED or measuring, or with a listening thread, or anywhere in the code past the ACK. */
  predicate Linked(c: Client) {
    || c.sock.state == Established || c.sock.state == MeasuringReliability || c.listening
    || !(Handshake.Connecting(c.pc) || c.pc.AckDue? || c.pc.Finished?)
  }

  ghost predicate Acknowledged(g: Log) { exists f :: f in g.transmitted && IsAck(f.pdu) }

  ghost predicate Inv(st: State) {
    var c, g := st.client, st.log;
    && (InSend(c.pc) ==> g.msgs != [] && c.pc.msg == g.msgs[|g.msgs| - 1])
    && (Sent(c.pc) ==> Transmits(g, |g.msgs|))
    && (forall e :: e in g.completed ==> Transmits(g, e.call))
    && (Linked(c) ==> Acknowledged(g))
  }

  predicate Facts(c: Client, t: Turn, o: Out) {
    var pc, pc', e := c.pc, o.client.pc, o.emitted;
    && (InSend(pc') ==> if InSend(pc) then pc'.msg == pc.msg else StartsCall(c, t) && pc'.msg == t.msg)
    && (StartsCall(c, t) ==> !InSend(pc) && !Sent(pc') && e.None?)
    && (Sent(pc') ==> Sent(pc) || (pc.SendDue? && e.Some? && IsData(e.value) && e.value.payload == pc.msg))
    && (Completes(pc, pc') ==> Sent(pc) && e.None?)
    && (Linked(o.client) ==> Linked(c) || (e.Some? && IsAck(e.value)))
    && (e.Some? && IsData(e.value) ==> InSend(pc) || pc.MeasureDue?)
    && (Window.Unsettled(pc') ==> Window.Unsettled(pc))
  }

  lemma FactsHold(c: Client, t: Turn)
    ensures Facts(c, t, ClientDo(c, t))
  {
    if t.Main? { MainFacts(c, t); } else if t.Deliver? { ReceiveFacts(c, t); }
  }

  lemma MainFacts(c: Client, t: Turn)
    requires t.Main?
    ensures Facts(c, t, MainStep(c, t.ipOk))
  {
    if InSend(c.pc) { SendFacts(c, t); } else if InClose(c.pc) { CloseFacts(c, t); } else { ConnectFacts(c, t); }
  }

  lemma SendFacts(c: Client, t: Turn)
    requires t.Main? && InSend(c.pc)
    ensures Facts(c, t, SendStep(c, t.ipOk))
  {
  }

  lemma CloseFacts(c: Client, t: Turn)
    requires t.Main? && InClose(c.pc)
    ensures Facts(c, t, CloseStep(c, t.ipOk))
  {
  }

  lemma ConnectFacts(c: Client, t: Turn)
    requires t.Main? && !InSend(c.pc) && !InClose(c.pc)
    ensures Facts(c, t, ConnectStep(c, t.ipOk))
  {
  }

  lemma ReceiveFacts(c: Client, t: Turn)
    requires t.Deliver?
    ensures Facts(c, t, Receive(c, t.pdu, t.ipOk))
  {
  }

  lemma TransmitsLater(g: Log, g': Log, call: nat)
    requires Transmits(g, call) && g.transmitted <= g'.transmitted && g.msgs <= g'.msgs
    ensures Transmits(g', call)
  {
    var f :| f in g.transmitted && OfCall(g, f, call);
    assert f in g'.transmitted && OfCall(g', f, call);
  }

  lemma AcknowledgedLater(g: Log, g': Log)
    requires Acknowledged(g) && g.transmitted <= g'.transmitted
    ensures Acknowledged(g')
  {
    var f :| f in g.transmitted && IsAck(f.pdu);
    assert f in g'.transmitted;
  }

  lemma CallsKept(st: State, t: Turn, o: Out)
    requires Inv(st) && Facts(st.client, t, o)
    ensures var g' := Advance(st, t, o).log;
      (Sent(o.client.pc) ==> Transmits(g', |g'.msgs|)) && forall e :: e in g'.completed ==> Transmits(g', e.call)
  {
    var g, g' := st.log, Advance(st, t, o).log;
    forall call | Transmits(g, call)
      ensures Transmits(g', call)
    {
      TransmitsLater(g, g', call);
    }
    if Sent(o.client.pc) && !Sent(st.client.pc) {
      var f := Flight(o.emitted.value, |g.msgs|);
      assert f in g'.transmitted && OfCall(g', f, |g'.msgs|);
    }
  }

  lemma AckKept(st: State, t: Turn, o: Out)
    requires Inv(st) && Facts(st.client, t, o)
    ensures Linked(o.client) ==> Acknowledged(Advance(st, t, o).log)
  {
    var g, g' := st.log, Advance(st, t, o).log;
    if Linked(st.client) {
      AcknowledgedLater(g, g');
    } else if Linked(o.client) {
      var f := Flight(o.emitted.value, |g.msgs| + if StartsCall(st.client, t) then 1 else 0);
      assert f in g'.transmitted;
    }
  }

  lemma ClientKeeps(st: State, t: Turn)
    requires Inv(st)
    ensures Inv(ApplyClient(st, t))
  {
    FactsHold(st.client, t);
    CallsKept(st, t, ClientDo(st.client, t));
    AckKept(st, t, ClientDo(st.client, t));
  }

  /** Nothing the invariants speak of differs. */
  predicate SameSending(st: State, st': State) {
    && st'.client == st.client && st'.log.msgs == st.log.msgs
    && st'.log.transmitted == st.log.transmitted && st'.log.completed == st.log.completed
  }

  lemma Elsewhere(env: Env, st: State, a: Action)
    requires !a.ClientTurn? && !a.DeliverDown?
    ensures SameSending(st, Do(env, st, a))
  {
  }

  lemma SameKeeps(st: State, st': State)
    requires Inv(st) && SameSending(st, st')
    ensures Inv(st')
  {
    forall call | Transmits(st.log, call)
      ensures Transmits(st'.log, call)
    {
      TransmitsLater(st.log, st'.log, call);
    }
    if Linked(st.client) { AcknowledgedLater(st.log, st'.log); }
  }

  lemma DownKeeps(env: Env, st: State, i: nat, keep: bool, ipOk: bool)
    requires Inv(st)
    ensures Inv(Do(env, st, DeliverDown(i, keep, ipOk)))
  {
    if i < |st.down| {
      var rest := st.(down := Rest(st.down, i, keep));
      SameKeeps(st, rest);
      ClientKeeps(rest, Deliver(st.down[i], ipOk));
    }
  }

  lemma Preserved(env: Env, st: State, a: Action)
    requires Inv(st)
    ensures Inv(Do(env, st, a))
  {
    if a.ClientTurn? {
      ClientKeeps(st, a.turn);
    } else if a.DeliverDown? {
      DownKeeps(env, st, a.i, a.keep, a.ipOk);
    } else {
      Elsewhere(env, st, a);
      SameKeeps(st, Do(env, st, a));
    }
  }

  lemma {:induction false} Holds(env: Env, acts: seq<Action>)
    ensures Inv(Exec(env, INITIAL, acts))
  {
    if acts != [] {
      Holds(env, acts[..|acts| - 1]);
      Preserved(env, Exec(env, INITIAL, acts[..|acts| - 1]), acts[|acts| - 1]);
    }
  }

  /** Every call that waits for its ACK, or has completed, put a PDU of its own on the wire; so a call
      whose IP_send has refused every transmission did neither. */
  lemma WaitsOnlyForItsOwn(env: Env, acts: seq<Action>)
    ensures var st := Exec(env, INITIAL, acts);
      && (Sent(st.client.pc) ==> Transmits(st.log, |st.log.msgs|))
      && (forall e :: e in st.log.completed ==> Transmits(st.log, e.call))
  {
    Holds(env, acts);
  }

  /** A client is ESTABLISHED or measuring only if an ACK of the connection was transmitted. */
  lemma EstablishedOnlyByAck(env: Env, acts: seq<Action>)
    ensures var st := Exec(env, INITIAL, acts); var s := st.client.sock.state;
      s == Established || s == MeasuringReliability ==> Acknowledged(st.log)
  {
    Holds(env, acts);
  }

  // ---- After a call has returned ----

  /** What was transmitted since st0 is of later calls. */
  ghost predicate Later(st0: State, st: State) {
    var g0, g := st0.log, st.log;
    && g0.transmitted <= g.transmitted && g0.msgs <= g.msgs && !Window.Unsettled(st.client.pc)
    && (InSend(st.client.pc) ==> |g.msgs| > |g0.msgs|)
    && forall k :: |g0.transmitted| <= k < |g.transmitted| && IsData(g.transmitted[k].pdu) ==>
                     g.transmitted[k].call > |g0.msgs|
  }

  lemma LaterAdvance(st0: State, st: State, t: Turn, o: Out)
    requires Later(st0, st) && Facts(st.client, t, o)
    ensures Later(st0, Advance(st, t, o))
  {
  }

  lemma LaterTurn(st0: State, st: State, t: Turn)
    requires Later(st0, st)
    ensures Later(st0, ApplyClient(st, t))
  {
    FactsHold(st.client, t);
    LaterAdvance(st0, st, t, ClientDo(st.client, t));
  }

  lemma LaterStep(env: Env, st0: State, st: State, a: Action)
    requires Later(st0, st)
    ensures Later(st0, Do(env, st, a))
  {
    if a.ClientTurn? {
      LaterTurn(st0, st, a.turn);
    } else if a.DeliverDown? {
      if a.i < |st.down| { LaterTurn(st0, st.(down := Rest(st.down, a.i, a.keep)), Deliver(st.down[a.i], a.ipOk)); }
    } else {
      Elsewhere(env, st, a);
    }
  }

  /** Once a call has returned, with -1 or otherwise, no PDU of it or of an earlier one follows. */
  lemma {:induction false} NothingAfterReturn(env: Env, st: State, acts: seq<Action>)
    requires st.client.pc.Ready?
    ensures Later(st, Exec(env, st, acts))
  {
    if acts != [] {
      NothingAfterReturn(env, st, acts[..|acts| - 1]);
      LaterStep(env, st, Exec(env, st, acts[..|acts| - 1]), acts[|acts| - 1]);
    }
  }
}
