/** How often the client sends what, counted over every run from the beginning, on any channel: a SYN
    again after each failed receive and only then, a hundred measurement packets, ten FINs before it
    gives up. What IP_send refuses is counted with what it sends. */
module Attempts {
  import opened Pdus
  import opened SlidingWindow
  import opened Handlers
  import opened Threads
  import opened Systems
  import opened Measurement
  import Handshake
  import Window

  /** How many steps of the run were of the kind p. */
  ghost function Steps(env: Env, acts: seq<Action>, p: (State, Action) -> bool): nat {
    if acts == [] then 0
    else
      var n := |acts| - 1;
      Steps(env, acts[..n], p) + Bit(p(Exec(env, INITIAL, acts[..n]), acts[n]))
  }

  const FAILS: Action := ClientTurn(Main(false))
  const EXPIRES: Action := ClientTurn(Timeout)

  /** mic_tcp_connect's IP_recv reports a failure. */
  predicate ReceiveFails(st: State, a: Action) { st.client.pc.AwaitSynAck? && a == EXPIRES }

  /** IP_send fails for a measurement packet, or for a FIN. */
  predicate PacketFails(st: State, a: Action) { st.client.pc.MeasureDue? && a == FAILS }
  predicate FinFails(st: State, a: Action) { st.client.pc.FinDue? && a == FAILS }

  /** The wait for a FIN+ACK times out. */
  predicate FinExpires(st: State, a: Action) { st.client.pc.FinWaiting? && a == EXPIRES }

  predicate SynFlight(f: Flight) { IsSyn(f.pdu) }

  /** A measurement packet: data sent before any send call. */
  predicate PacketFlight(f: Flight) { IsData(f.pdu) && f.call == 0 }

  predicate FinFlight(f: Flight) { IsFin(f.pdu) }

  // ---- One turn ----

  /** SYNs sent against failed receives. */
  predicate SynTally(pc: Pc, sent: nat, failed: nat) {
    if pc.Unconnected? || pc.SynDue? then sent == failed else sent == failed + 1
  }

  /** Measurement packets sent and refused. */
  predicate PacketTally(pc: Pc, sent: nat, refused: nat) {
    if pc.MeasureDue? then sent + refused == pc.sent < 100
    else if Handshake.Connecting(pc) || pc.AckDue? || pc.LaunchDue? || pc.MeasuringDue? then sent + refused == 0
    else pc.Finished? || sent + refused == 100
  }

  /** FINs sent, refused and timed out. */
  predicate FinTally(pc: Pc, sent: nat, refused: nat, expired: nat) {
    match pc
    case FinDue(k) => sent + refused == k < 10 && sent == expired
    case FinWaitDue(k) => sent + refused == k + 1 <= 10 && sent == expired + 1
    case FinWaiting(k) => sent + refused == k + 1 <= 10 && sent == expired + 1
    case FinalAckDue(acked) => FinResult(acked, sent, refused, expired)
    case CloseDue(acked) => FinResult(acked, sent, refused, expired)
    case Finished => sent + refused <= 10
    case _ => sent + refused + expired == 0
  }

  /** The loop was left by a signal during the last wait, or after ten attempts in vain. */
  predicate FinResult(acked: bool, sent: nat, refused: nat, expired: nat) {
    if acked then 1 <= sent + refused <= 10 && sent == expired + 1
    else sent + refused == 10 && sent == expired
  }

  /** What a run counts besides what was sent. */
  datatype Counts = Counts(receives: nat, packets: nat, fins: nat, expired: nat)

  /** What was sent: SYNs, measurement packets, FINs. */
  datatype Sent = Sent(syns: nat, packets: nat, fins: nat)

  predicate Tallies(pc: Pc, sent: Sent, n: Counts) {
    && SynTally(pc, sent.syns, n.receives) && PacketTally(pc, sent.packets, n.packets)
    && FinTally(pc, sent.fins, n.fins, n.expired)
  }

  function Kind(o: Out, kind: Pdu -> bool): nat { if o.emitted.Some? && kind(o.emitted.value) then 1 else 0 }

  /** After a turn of a client at pc; data sent by mic_tcp_send is no measurement packet. */
  function MoreSent(sent: Sent, pc: Pc, o: Out): Sent {
    Sent(sent.syns + Kind(o, IsSyn), sent.packets + (if InSend(pc) then 0 else Kind(o, IsData)),
         sent.fins + Kind(o, IsFin))
  }

  function More(n: Counts, c: Client, t: Turn): Counts {
    Counts(n.receives + Bit(c.pc.AwaitSynAck? && t.Timeout?), n.packets + Bit(c.pc.MeasureDue? && t == Main(false)),
           n.fins + Bit(c.pc.FinDue? && t == Main(false)), n.expired + Bit(c.pc.FinWaiting? && t.Timeout?))
  }

  predicate TurnTallies(c: Client, t: Turn, o: Out, sent: Sent, n: Counts) {
    var pc, pc' := c.pc, o.client.pc;
    && Tallies(pc', MoreSent(sent, pc, o), More(n, c, t))
    && (InSend(pc') ==> InSend(pc) || StartsCall(c, t))
    && (Window.Unsettled(pc') ==> Window.Unsettled(pc))
    && (o.emitted.Some? && IsData(o.emitted.value) ==> InSend(pc) || pc.MeasureDue?)
  }

  lemma TurnKeeps(c: Client, t: Turn, sent: Sent, n: Counts)
    requires Tallies(c.pc, sent, n)
    ensures TurnTallies(c, t, ClientDo(c, t), sent, n)
  {
    if t.Main? {
      MainKeeps(c, t, sent, n);
    } else if t.Deliver? {
      ReceiveKeeps(c, t, sent, n);
    } else {
      WaitKeeps(c, t, sent, n);
    }
  }

  lemma MainKeeps(c: Client, t: Turn, sent: Sent, n: Counts)
    requires Tallies(c.pc, sent, n) && t.Main?
    ensures TurnTallies(c, t, MainStep(c, t.ipOk), sent, n)
  {
    if InSend(c.pc) {
      SendKeeps(c, t, sent, n);
    } else if InClose(c.pc) {
      CloseKeeps(c, t, sent, n);
    } else {
      ConnectKeeps(c, t, sent, n);
    }
  }

  lemma SendKeeps(c: Client, t: Turn, sent: Sent, n: Counts)
    requires Tallies(c.pc, sent, n) && t.Main? && InSend(c.pc)
    ensures TurnTallies(c, t, SendStep(c, t.ipOk), sent, n)
  {
  }

  lemma CloseKeeps(c: Client, t: Turn, sent: Sent, n: Counts)
    requires Tallies(c.pc, sent, n) && t.Main? && InClose(c.pc)
    ensures TurnTallies(c, t, CloseStep(c, t.ipOk), sent, n)
  {
  }

  lemma ConnectKeeps(c: Client, t: Turn, sent: Sent, n: Counts)
    requires Tallies(c.pc, sent, n) && t.Main? && !InSend(c.pc) && !InClose(c.pc)
    ensures TurnTallies(c, t, ConnectStep(c, t.ipOk), sent, n)
  {
  }

  lemma ReceiveKeeps(c: Client, t: Turn, sent: Sent, n: Counts)
    requires Tallies(c.pc, sent, n) && t.Deliver?
    ensures TurnTallies(c, t, Receive(c, t.pdu, t.ipOk), sent, n)
  {
  }

  lemma WaitKeeps(c: Client, t: Turn, sent: Sent, n: Counts)
    requires Tallies(c.pc, sent, n) && !t.Main? && !t.Deliver?
    ensures TurnTallies(c, t, ClientDo(c, t), sent, n)
  {
    if t.Timeout? {
      TimeoutKeeps(c, t, sent, n);
    } else if t.WaitError? || t.Spurious? {
      BreakKeeps(c, t, sent, n);
    } else {
      CallKeeps(c, t, sent, n);
    }
  }

  lemma TimeoutKeeps(c: Client, t: Turn, sent: Sent, n: Counts)
    requires Tallies(c.pc, sent, n) && t.Timeout?
    ensures TurnTallies(c, t, OnTimeout(c), sent, n)
  {
  }

  lemma BreakKeeps(c: Client, t: Turn, sent: Sent, n: Counts)
    requires Tallies(c.pc, sent, n) && (t.WaitError? || t.Spurious?)
    ensures TurnTallies(c, t, ClientDo(c, t), sent, n)
  {
  }

  lemma CallKeeps(c: Client, t: Turn, sent: Sent, n: Counts)
    requires Tallies(c.pc, sent, n) && (t.CallConnect? || t.CallSend? || t.CallClose?)
    ensures TurnTallies(c, t, ClientDo(c, t), sent, n)
  {
  }

  /** The same for the FINs alone. */
  lemma FinTurn(c: Client, t: Turn, sent: nat, refused: nat, expired: nat)
    requires FinTally(c.pc, sent, refused, expired) && (InClose(c.pc) || c.pc.Finished?)
    ensures var o := ClientDo(c, t);
      && FinTally(o.client.pc, sent + Kind(o, IsFin), refused + Bit(t == Main(false) && c.pc.FinDue?),
                  expired + Bit(t.Timeout? && c.pc.FinWaiting?))
      && (InClose(o.client.pc) || o.client.pc.Finished?)
  {
    TurnKeeps(c, t, Sent(1, 100, sent), Counts(0, 0, refused, expired));
    StaysClosing(c, t);
  }

  lemma StaysClosing(c: Client, t: Turn)
    requires InClose(c.pc) || c.pc.Finished?
    ensures var pc := ClientDo(c, t).client.pc; InClose(pc) || pc.Finished?
  {
  }

  // ---- Runs ----

  ghost function CountsOf(env: Env, acts: seq<Action>): Counts {
    Counts(Steps(env, acts, ReceiveFails), Steps(env, acts, PacketFails),
           Steps(env, acts, FinFails), Steps(env, acts, FinExpires))
  }

  function SentIn(transmitted: seq<Flight>): Sent {
    Sent(Count(transmitted, SynFlight), Count(transmitted, PacketFlight), Count(transmitted, FinFlight))
  }

  ghost predicate Inv(st: State, n: Counts) {
    var pc, g := st.client.pc, st.log;
    && Tallies(pc, SentIn(g.transmitted), n)
    && (InSend(pc) ==> g.msgs != []) && (Window.Unsettled(pc) ==> g.msgs == [])
  }

  lemma OneMoreSent(transmitted: seq<Flight>, f: Flight)
    ensures var sent, sent' := SentIn(transmitted), SentIn(transmitted + [f]);
      && sent'.syns == sent.syns + Bit(IsSyn(f.pdu)) && sent'.fins == sent.fins + Bit(IsFin(f.pdu))
      && sent'.packets == sent.packets + Bit(IsData(f.pdu) && f.call == 0)
  {
    CountSnoc(transmitted, f, SynFlight);
    CountSnoc(transmitted, f, PacketFlight);
    CountSnoc(transmitted, f, FinFlight);
  }

  lemma AdvanceKeeps(st: State, n: Counts, t: Turn, o: Out)
    requires Inv(st, n) && TurnTallies(st.client, t, o, SentIn(st.log.transmitted), n)
    ensures Inv(Advance(st, t, o), More(n, st.client, t))
  {
    if o.emitted.Some? {
      var calls := |st.log.msgs| + if StartsCall(st.client, t) then 1 else 0;
      OneMoreSent(st.log.transmitted, Flight(o.emitted.value, calls));
    }
  }

  lemma ClientKeeps(st: State, n: Counts, t: Turn)
    requires Inv(st, n)
    ensures Inv(ApplyClient(st, t), More(n, st.client, t))
  {
    TurnKeeps(st.client, t, SentIn(st.log.transmitted), n);
    AdvanceKeeps(st, n, t, ClientDo(st.client, t));
  }

  lemma TurnPreserves(env: Env, st: State, n: Counts, t: Turn)
    requires Inv(st, n)
    ensures Inv(Do(env, st, ClientTurn(t)), After(n, st, ClientTurn(t)))
  {
    AfterTurn(st, n, t);
    if !t.Deliver? { ClientKeeps(st, n, t); }
  }

  lemma AfterTurn(st: State, n: Counts, t: Turn)
    ensures After(n, st, ClientTurn(t)) == if t.Deliver? then n else More(n, st.client, t)
  {
  }

  lemma AfterOther(st: State, n: Counts, a: Action)
    requires !a.ClientTurn?
    ensures After(n, st, a) == n
  {
  }

  lemma DownPreserves(env: Env, st: State, n: Counts, i: nat, keep: bool, ipOk: bool)
    requires Inv(st, n)
    ensures Inv(Do(env, st, DeliverDown(i, keep, ipOk)), n)
  {
    if i < |st.down| { ClientKeeps(st.(down := Rest(st.down, i, keep)), n, Deliver(st.down[i], ipOk)); }
  }

  lemma ElsewherePreserves(env: Env, st: State, n: Counts, a: Action)
    requires Inv(st, n) && !a.ClientTurn? && !a.DeliverDown?
    ensures Inv(Do(env, st, a), n)
  {
    var st' := Do(env, st, a);
    assert st'.client == st.client && st'.log.transmitted == st.log.transmitted && st'.log.msgs == st.log.msgs;
  }

  /** The counts after one more action. */
  ghost function After(n: Counts, st: State, a: Action): Counts {
    Counts(n.receives + Bit(ReceiveFails(st, a)), n.packets + Bit(PacketFails(st, a)),
           n.fins + Bit(FinFails(st, a)), n.expired + Bit(FinExpires(st, a)))
  }

  lemma Preserved(env: Env, st: State, n: Counts, a: Action)
    requires Inv(st, n)
    ensures Inv(Do(env, st, a), After(n, st, a))
  {
    if a.ClientTurn? {
      TurnPreserves(env, st, n, a.turn);
    } else {
      AfterOther(st, n, a);
      if a.DeliverDown? { DownPreserves(env, st, n, a.i, a.keep, a.ipOk); } else { ElsewherePreserves(env, st, n, a); }
    }
  }

  lemma {:induction false} Holds(env: Env, acts: seq<Action>)
    ensures Inv(Exec(env, INITIAL, acts), CountsOf(env, acts))
  {
    if acts != [] {
      var before, a := acts[..|acts| - 1], acts[|acts| - 1];
      Holds(env, before);
      Preserved(env, Exec(env, INITIAL, before), CountsOf(env, before), a);
    }
  }

  /** On any channel: when no SYN+ACK has been found yet, the SYNs sent are as many as the failed
      receives, and one more while waiting or once it was found. */
  lemma SynAfterEachFailure(env: Env, acts: seq<Action>)
    ensures var st := Exec(env, INITIAL, acts);
      Count(st.log.transmitted, SynFlight) ==
      Steps(env, acts, ReceiveFails) + if st.client.pc.Unconnected? || st.client.pc.SynDue? then 0 else 1
  {
    Holds(env, acts);
  }

  /** The loss rate is computed: connected, sending, closing, or about to be one of these. */
  predicate Judging(pc: Pc) { pc.NegotiateDue? || pc.EstablishDue? || pc.Ready? || InSend(pc) || InClose(pc) }

  /** On any channel: a hundred measurement packets, no more and no fewer, were sent or refused by
      IP_send before the loss rate is computed. */
  lemma HundredPackets(env: Env, acts: seq<Action>)
    ensures var st := Exec(env, INITIAL, acts);
      Judging(st.client.pc) ==> Count(st.log.transmitted, PacketFlight) + Steps(env, acts, PacketFails) == 100
  {
    Holds(env, acts);
  }

  predicate GaveUp(pc: Pc) { (pc.FinalAckDue? || pc.CloseDue?) && !pc.finAckReceived }
  predicate Answered(pc: Pc) { (pc.FinalAckDue? || pc.CloseDue?) && pc.finAckReceived }

  /** On any channel: mic_tcp_close gives up exactly after ten attempts, each a FIN that IP_send refused
      or one whose wait timed out; it leaves with a FIN+ACK while waiting for the answer to its last
      FIN, all before having timed out; and it never sends more than ten. */
  lemma TenAttempts(env: Env, acts: seq<Action>)
    ensures var st := Exec(env, INITIAL, acts);
      var sent, refused, expired :=
        Count(st.log.transmitted, FinFlight), Steps(env, acts, FinFails), Steps(env, acts, FinExpires);
      && sent + refused <= 10
      && (GaveUp(st.client.pc) ==> sent + refused == 10 && sent == expired)
      && (Answered(st.client.pc) ==> sent == expired + 1)
  {
    Holds(env, acts);
  }

  /** In particular, on any channel, mic_tcp_close sends at most ten FINs. */
  lemma AtMostTenFins(env: Env, acts: seq<Action>)
    ensures Count(Exec(env, INITIAL, acts).log.transmitted, FinFlight) <= MAX_ATTEMPTS == 10
  {
    TenAttempts(env, acts);
  }
}
