/** Every data PDU in flight or accepted is one the client really transmitted, carrying the
    message of the send call it is attributed to. Holds on any channel, from any start that
    has nothing of the kind in flight. */
module Provenance {
  import opened Pdus
  import opened Threads
  import opened Systems

  predicate Genuine(f: Flight, msgs: seq<Payload>) {
    !IsText(f.pdu.payload) || (1 <= f.call <= |msgs| && f.pdu.payload == msgs[f.call - 1])
  }

  ghost predicate Inv(st: State) {
    var g := st.log;
    && (InSend(st.client.pc) ==> g.msgs != [] && st.client.pc.msg == g.msgs[|g.msgs| - 1])
    && (forall f :: f in st.up && IsData(f.pdu) ==> f in g.transmitted && Genuine(f, g.msgs))
    && (forall f :: f in g.accepted ==>
          f in g.transmitted && IsData(f.pdu) && Genuine(f, g.msgs) && IsText(f.pdu.payload))
  }

  /** The data PDUs the client sends, and how it gets to be in a send call. */
  predicate Facts(c: Client, t: Turn, o: Out) {
    && (o.emitted.Some? && IsData(o.emitted.value) ==>
          !IsText(o.emitted.value.payload) || (InSend(c.pc) && t.Main? && o.emitted.value.payload == c.pc.msg))
    && (InSend(o.client.pc) ==>
          if InSend(c.pc) then o.client.pc.msg == c.pc.msg else StartsCall(c, t) && o.client.pc.msg == t.msg)
    && (InSend(c.pc) ==> !StartsCall(c, t))
  }

  lemma FactsHold(c: Client, t: Turn)
    ensures Facts(c, t, ClientDo(c, t))
  {
    if t.Main? { MainFacts(c, t); } else if t.Deliver? { ReceiveFacts(c, t); }
  }

  lemma MainFacts(c: Client, t: Turn)
    requires t.Main?
    ensures Facts(c, t, MainStep(c, t.ipOk))
  {
    if InSend(c.pc) { SendFacts(c, t); } else if InClose(c.pc) { CloseFacts(c, t); } else { ConnectFacts(c, t); }
  }

  lemma SendFacts(c: Client, t: Turn)
    requires t.Main? && InSend(c.pc)
    ensures Facts(c, t, SendStep(c, t.ipOk))
  {
  }

  lemma CloseFacts(c: Client, t: Turn)
    requires t.Main? && InClose(c.pc)
    ensures Facts(c, t, CloseStep(c, t.ipOk))
  {
  }

  lemma ConnectFacts(c: Client, t: Turn)
    requires t.Main? && !InSend(c.pc) && !InClose(c.pc)
    ensures Facts(c, t, ConnectStep(c, t.ipOk))
  {
    MeasurementIsNoText();
    if c.pc.MeasureDue? { MeasureFacts(c, t); }
  }

  lemma MeasureFacts(c: Client, t: Turn)
    requires t.Main? && c.pc.MeasureDue?
    ensures Facts(c, t, ConnectStep(c, t.ipOk))
  {
    MeasurementIsNoText();
  }

  lemma ReceiveFacts(c: Client, t: Turn)
    requires t.Deliver?
    ensures Facts(c, t, Receive(c, t.pdu, t.ipOk))
  {
  }

  lemma AdvanceKeeps(st: State, t: Turn, o: Out)
    requires Inv(st) && Facts(st.client, t, o)
    ensures Inv(Advance(st, t, o))
  {
  }

  lemma ClientKeeps(st: State, t: Turn)
    requires Inv(st)
    ensures Inv(ApplyClient(st, t))
  {
    FactsHold(st.client, t);
    AdvanceKeeps(st, t, ClientDo(st.client, t));
  }

  lemma ServerKeeps(st: State, f: Flight, ipOk: bool)
    requires Inv(st)
    requires IsData(f.pdu) ==> f in st.log.transmitted && Genuine(f, st.log.msgs)
    ensures Inv(ApplyServer(st, f, ipOk))
  {
  }

  lemma UpKeeps(env: Env, st: State, i: nat, keep: bool, ipOk: bool)
    requires Inv(st)
    ensures Inv(Do(env, st, DeliverUp(i, keep, ipOk)))
  {
    if i < |st.up| { ServerKeeps(st.(up := Rest(st.up, i, keep)), st.up[i], ipOk); }
  }

  lemma DownKeeps(env: Env, st: State, i: nat, keep: bool, ipOk: bool)
    requires Inv(st)
    ensures Inv(Do(env, st, DeliverDown(i, keep, ipOk)))
  {
    if i < |st.down| { ClientKeeps(st.(down := Rest(st.down, i, keep)), Deliver(st.down[i], ipOk)); }
  }

  lemma Preserved(env: Env, st: State, a: Action)
    requires Inv(st)
    ensures Inv(Do(env, st, a))
  {
    match a
    case ClientTurn(t) => ClientKeeps(st, t);
    case DeliverUp(i, keep, ipOk) => UpKeeps(env, st, i, keep, ipOk);
    case DeliverDown(i, keep, ipOk) => DownKeeps(env, st, i, keep, ipOk);
    case _ =>
  }

  lemma {:induction false} Holds(env: Env, st: State, acts: seq<Action>)
    requires Inv(st)
    ensures Inv(Exec(env, st, acts))
  {
    if acts != [] {
      Holds(env, st, acts[..|acts| - 1]);
      Preserved(env, Exec(env, st, acts[..|acts| - 1]), acts[|acts| - 1]);
    }
  }
}
