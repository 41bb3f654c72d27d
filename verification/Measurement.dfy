/** The reliability measurement on a channel that does not duplicate. */
module Measurement {
  import opened Pdus
  import opened SlidingWindow
  import opened Handlers
  import opened Threads
  import opened Systems
  import Window
  import Handshake
  import ServerLog

  predicate DataFlight(f: Flight) { IsData(f.pdu) }

  function Count<T>(s: seq<T>, p: T -> bool): nat {
    if s == [] then 0 else Count(s[..|s| - 1], p) + Bit(p(s[|s| - 1]))
  }

  lemma {:induction false} CountRemove<T>(s: seq<T>, i: nat, p: T -> bool)
    requires i < |s|
    ensures Count(RemoveAt(s, i), p) + Bit(p(s[i])) == Count(s, p)
  {
    var n := |s| - 1;
    if i == n {
      assert RemoveAt(s, i) == s[..n];
    } else {
      assert RemoveAt(s, i)[..n - 1] == RemoveAt(s[..n], i);
      CountRemove(s[..n], i, p);
    }
  }

  lemma CountSnoc<T>(s: seq<T>, x: T, p: T -> bool)
    ensures Count(s + [x], p) == Count(s, p) + Bit(p(x))
  {
    assert (s + [x])[..|s|] == s;
  }

  /** How many measurement packets may have been sent by this point. */
  function Attempts(pc: Pc): nat {
    match pc
    case MeasureDue(i) => i
    case _ => if Handshake.Connecting(pc) || pc.AckDue? || pc.LaunchDue? || pc.MeasuringDue? then 0 else MEASURE_PACKETS
  }

  function Sent(st: State): nat { Count(st.log.transmitted, DataFlight) }

  /** Counted ACKs, with the measurement packets and ACKs still in flight. */
  function Outstanding(st: State): nat {
    st.client.sock.receivedPackets + Count(st.up, DataFlight) + Count(st.down, IsAck)
  }

  /** The listening thread exists, or is about to, and no send call was made. */
  predicate Linked(pc: Pc) {
    pc.LaunchDue? || pc.MeasuringDue? || pc.MeasureDue? || pc.NegotiateDue? || pc.EstablishDue? || pc.Ready?
  }

  /** An ACK that was read without being counted, and left its number behind. */
  predicate Strayed(c: Client) { Linked(c.pc) && c.sock.currentSeqNum != 1 }

  /** `held` PDUs have been taken from a channel and are being handled. */
  ghost predicate Holding(st: State, held: nat) {
    var c, g := st.client, st.log;
    && (g.msgs == [] ==> Outstanding(st) + held + Bit(Strayed(c)) <= Sent(st) <= Attempts(c.pc))
    && (!g.connected ==> g.msgs == [])
    && (InSend(c.pc) ==> g.msgs != [])
    && (c.pc.MeasureDue? ==> c.pc.sent < MEASURE_PACKETS)
    && (InSend(c.pc) || c.pc.Ready? ==> g.connected)
    && (g.connected ==> !Window.Unsettled(c.pc) && !c.pc.EstablishDue?)
    && (g.connected || c.pc.EstablishDue? ==>
          g.measured <= MEASURE_PACKETS && Negotiate(g.measured) == Some(c.sock.allowedLosses))
  }

  ghost predicate Inv(st: State) { Holding(st, 0) }

  predicate Counted(c: Client, t: Turn) { t.Deliver? && Receptive(c) && IsAck(t.pdu) }

  predicate Facts(c: Client, t: Turn, o: Out) {
    var c', data := o.client, o.emitted.Some? && IsData(o.emitted.value);
    && (InSend(c.pc) || c'.sock.receivedPackets + Bit(Strayed(c')) <=
                        c.sock.receivedPackets + Bit(Strayed(c)) + Bit(Counted(c, t)))
    && c.sock.receivedPackets <= c'.sock.receivedPackets <= c.sock.receivedPackets + Bit(Counted(c, t))
    && (InSend(c.pc) || Attempts(c.pc) + Bit(data) <= Attempts(c'.pc))
    && (InSend(c'.pc) ==> InSend(c.pc) || StartsCall(c, t))
    && (c'.pc.Ready? ==> InSend(c.pc) || c.pc.Ready? || c.pc.EstablishDue?)
    && (c'.pc.MeasureDue? ==> c'.pc.sent < MEASURE_PACKETS)
    && (Window.Unsettled(c'.pc) ==> Window.Unsettled(c.pc))
    && (c'.pc.EstablishDue? ==>
          || c.pc.EstablishDue?
          || (c.pc.NegotiateDue? && t.Main? && Negotiate(c.sock.receivedPackets) == Some(c'.sock.allowedLosses)))
    && (c'.sock.allowedLosses == c.sock.allowedLosses || (c.pc.NegotiateDue? && t.Main?))
  }

  lemma FactsHold(c: Client, t: Turn)
    requires c.pc.MeasureDue? ==> c.pc.sent < MEASURE_PACKETS
    ensures Facts(c, t, ClientDo(c, t))
  {
    if t.Main? { MainFacts(c, t); } else if t.Deliver? { ReceiveFacts(c, t); } else { WaitFacts(c, t); }
  }

  lemma MainFacts(c: Client, t: Turn)
    requires t.Main? && (c.pc.MeasureDue? ==> c.pc.sent < MEASURE_PACKETS)
    ensures Facts(c, t, MainStep(c, t.ipOk))
  {
    if InSend(c.pc) { SendFacts(c, t); } else if InClose(c.pc) { CloseFacts(c, t); } else { ConnectFacts(c, t); }
  }

  lemma SendFacts(c: Client, t: Turn)
    requires t.Main? && InSend(c.pc)
    ensures Facts(c, t, SendStep(c, t.ipOk))
  {
  }

  lemma CloseFacts(c: Client, t: Turn)
    requires t.Main? && InClose(c.pc)
    ensures Facts(c, t, CloseStep(c, t.ipOk))
  {
  }

  lemma ConnectFacts(c: Client, t: Turn)
    requires t.Main? && !InSend(c.pc) && !InClose(c.pc) && (c.pc.MeasureDue? ==> c.pc.sent < MEASURE_PACKETS)
    ensures Facts(c, t, ConnectStep(c, t.ipOk))
  {
    if c.pc.MeasureDue? || c.pc.NegotiateDue? || c.pc.EstablishDue? {
      MeasureFacts(c, t);
    } else {
      HandshakeFacts(c, t);
    }
  }

  lemma MeasureFacts(c: Client, t: Turn)
    requires t.Main? && (c.pc.MeasureDue? || c.pc.NegotiateDue? || c.pc.EstablishDue?)
    requires c.pc.MeasureDue? ==> c.pc.sent < MEASURE_PACKETS
    ensures Facts(c, t, ConnectStep(c, t.ipOk))
  {
  }

  lemma HandshakeFacts(c: Client, t: Turn)
    requires t.Main? && !InSend(c.pc) && !InClose(c.pc)
    requires !c.pc.MeasureDue? && !c.pc.NegotiateDue? && !c.pc.EstablishDue?
    ensures Facts(c, t, ConnectStep(c, t.ipOk))
  {
  }

  /** A wait ends, or a call begins. */
  lemma WaitFacts(c: Client, t: Turn)
    requires !t.Main? && !t.Deliver? && (c.pc.MeasureDue? ==> c.pc.sent < MEASURE_PACKETS)
    ensures Facts(c, t, ClientDo(c, t))
  {
    if t.Timeout? { TimeoutFacts(c, t); } else { CallFacts(c, t); }
  }

  lemma TimeoutFacts(c: Client, t: Turn)
    requires t.Timeout? && (c.pc.MeasureDue? ==> c.pc.sent < MEASURE_PACKETS)
    ensures Facts(c, t, OnTimeout(c))
  {
  }

  lemma CallFacts(c: Client, t: Turn)
    requires !t.Main? && !t.Deliver? && !t.Timeout? && (c.pc.MeasureDue? ==> c.pc.sent < MEASURE_PACKETS)
    ensures Facts(c, t, ClientDo(c, t))
  {
  }

  lemma ReceiveFacts(c: Client, t: Turn)
    requires t.Deliver? && (c.pc.MeasureDue? ==> c.pc.sent < MEASURE_PACKETS)
    ensures Facts(c, t, Receive(c, t.pdu, t.ipOk))
  {
  }

  lemma AdvanceKeeps(st: State, t: Turn, o: Out)
    requires Holding(st, Bit(Counted(st.client, t))) && Facts(st.client, t, o)
    ensures Inv(Advance(st, t, o))
  {
    if o.emitted.Some? {
      var f := Flight(o.emitted.value, |st.log.msgs| + if StartsCall(st.client, t) then 1 else 0);
      CountSnoc(st.up, f, DataFlight);
      CountSnoc(st.log.transmitted, f, DataFlight);
    }
  }

  lemma ReactKeeps(st: State, f: Flight, r: Reaction)
    requires Holding(st, Bit(DataFlight(f))) && ServerLog.Facts(st.server.sock, f.pdu, r)
    ensures Inv(React(st, f, r))
  {
    if r.reply.Some? { CountSnoc(st.down, r.reply.value, IsAck); }
  }

  lemma LossKeeps(st: State, i: nat)
    requires Inv(st)
    ensures i < |st.up| ==> Holding(st.(up := RemoveAt(st.up, i)), Bit(DataFlight(st.up[i])))
    ensures i < |st.down| ==> Holding(st.(down := RemoveAt(st.down, i)), Bit(IsAck(st.down[i])))
  {
    if i < |st.up| { CountRemove(st.up, i, DataFlight); }
    if i < |st.down| { CountRemove(st.down, i, IsAck); }
  }

  lemma AcceptKeeps(st: State, t: AcceptTurn)
    requires Inv(st)
    ensures Inv(ApplyAccept(st, t))
  {
    CountSnoc(st.down, SYN_ACK, IsAck);
  }

  lemma UpKeeps(env: Env, st: State, i: nat, ipOk: bool)
    requires Inv(st)
    ensures Inv(Do(env, st, DeliverUp(i, false, ipOk)))
  {
    if i < |st.up| {
      LossKeeps(st, i);
      ServerLog.FactsHold(st.server.sock, st.up[i].pdu, ipOk);
      ReactKeeps(st.(up := RemoveAt(st.up, i)), st.up[i], ServerHandle(st.server.sock, st.up[i].pdu, ipOk));
    }
  }

  lemma DownKeeps(env: Env, st: State, i: nat, ipOk: bool)
    requires Inv(st)
    ensures Inv(Do(env, st, DeliverDown(i, false, ipOk)))
  {
    if i < |st.down| && Receptive(st.client) {
      var t := Deliver(st.down[i], ipOk);
      LossKeeps(st, i);
      FactsHold(st.client, t);
      AdvanceKeeps(st.(down := RemoveAt(st.down, i)), t, ClientDo(st.client, t));
    }
  }

  lemma TurnKeeps(env: Env, st: State, t: Turn)
    requires Inv(st)
    ensures Inv(Do(env, st, ClientTurn(t)))
  {
    if !t.Deliver? {
      FactsHold(st.client, t);
      AdvanceKeeps(st, t, ClientDo(st.client, t));
    }
  }

  lemma LosingKeeps(env: Env, st: State, i: nat)
    requires Inv(st)
    ensures Inv(Do(env, st, LoseUp(i))) && Inv(Do(env, st, LoseDown(i)))
  {
    LossKeeps(st, i);
  }

  lemma Preserved(env: Env, st: State, a: Action)
    requires Inv(st) && !env.up.duplicates && !env.down.duplicates
    ensures Inv(Do(env, st, a))
  {
    match a
    case ClientTurn(t) => TurnKeeps(env, st, t);
    case ServerTurn(t) => AcceptKeeps(st, t);
    case DeliverUp(i, keep, ipOk) => if !keep { UpKeeps(env, st, i, ipOk); }
    case DeliverDown(i, keep, ipOk) => if !keep { DownKeeps(env, st, i, ipOk); }
    case LoseUp(i) => LosingKeeps(env, st, i);
    case LoseDown(i) => LosingKeeps(env, st, i);
    case Recv(_) =>
  }

  lemma {:induction false} Holds(env: Env, acts: seq<Action>)
    requires !env.up.duplicates && !env.down.duplicates
    ensures Inv(Exec(env, INITIAL, acts))
  {
    if acts != [] {
      Holds(env, acts[..|acts| - 1]);
      Preserved(env, Exec(env, INITIAL, acts[..|acts| - 1]), acts[|acts| - 1]);
    }
  }

  /** On channels that do not duplicate: until the first mic_tcp_send, counted ACKs plus measurement
      packets and ACKs in flight never exceed the packets sent, at most 100, and stay below that
      when an ACK was read without being counted; a connect that returned 0 measured r of them, the
      loss rate was exactly 100 - r, and the allowance is the one of the table, which refuses r
      below 80. */
  lemma MeasurementConservation(env: Env, acts: seq<Action>)
    requires !env.up.duplicates && !env.down.duplicates
    ensures var st := Exec(env, INITIAL, acts); var r := st.log.measured;
      && (st.log.msgs == [] ==> Outstanding(st) + Bit(Strayed(st.client)) <= Sent(st) <= 100)
      && (!st.log.connected ==> st.log.msgs == [])
      && (st.log.connected ==>
            && 80 <= r <= 100 && LossRate(r) == (100 - r) as real
            && st.client.sock.allowedLosses == if r >= 99 then 0 else if r >= 96 then 1 else if r >= 89 then 2 else 3)
  {
    Holds(env, acts);
    Handshake.NegotiationTable(Exec(env, INITIAL, acts).log.measured);
  }
}
