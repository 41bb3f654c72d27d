/** The close comes to its end. Once losses, timeouts and failures stop, with a FIN of the waiting client
    or the FIN+ACK it waits for in flight, every interleaving of deliveries and statements leaves the
    loop with the FIN+ACK and then leaves both ends CLOSED; a FIN that finds the server in
    AWAITING_CLOSING, its FIN+ACK having been lost, does as well as the first. */
module CloseProgress {
  import opened Pdus
  import opened Handlers
  import opened Threads
  import opened Systems
  import opened Connected
  import CloseAgreement
  import Handshake
  import LateClose
  import LockStep
  import Outcomes
  import Progress
  import ServerLog

  // ---- What is known of a connected client on its way to the end ----

  /** Nobody has asked the client to close, and its listening thread is there. */
  predicate Attentive(c: Client) {
    && LockStep.InDataPhase(c.pc)
    && (!c.pc.Finished? ==> c.listening && (c.sock.state == Established || c.sock.state == ProtocolState.Closing))
  }

  lemma AttentiveKept(c: Client, t: Turn)
    requires Attentive(c) && !(t.Deliver? && (IsFin(t.pdu) || IsSynAck(t.pdu)))
    ensures Attentive(ClientDo(c, t).client)
  {
  }

  ghost predicate Known(st: State) { LateClose.Inv(st) && Attentive(st.client) }

  lemma KnownKept(env: Env, st: State, a: Action)
    requires Known(st) && LateClose.Plain(env)
    ensures Known(Do(env, st, a))
  {
    Handshake.Preserved(env, st, a);
    CloseAgreement.FinPreserved(env, st, a);
    LateClose.StillOver(env, st, a);
    if a.ClientTurn? && !a.turn.Deliver? { AttentiveKept(st.client, a.turn); }
    if a.DeliverDown? && a.i < |st.down| { AttentiveKept(st.client, Deliver(st.down[a.i], a.ipOk)); }
  }

  lemma {:induction false} KnownHolds(env: Env, start: State, acts: seq<Action>)
    requires Connected.Known(start) && JustConnected(start) && LateClose.SynAcksOver(start) && LateClose.Plain(env)
    ensures Known(Exec(env, start, acts))
  {
    if acts == [] {
      LateClose.OverHolds(start);
    } else {
      KnownHolds(env, start, acts[..|acts| - 1]);
      KnownKept(env, Exec(env, start, acts[..|acts| - 1]), acts[|acts| - 1]);
    }
  }

  // ---- The end game ----

  /** A FIN is on its way to the server, or its answer to the client. */
  predicate FinComing(st: State) {
    || (exists i :: 0 <= i < |st.up| && IsFin(st.up[i].pdu))
    || (exists i :: 0 <= i < |st.down| && IsFinAck(st.down[i]))
  }

  /** The final ACK closed the server or is still the last PDU on its way. */
  predicate AckComing(st: State) {
    || st.server.sock.state == Closed
    || (st.server.sock.state == AwaitingClosing && st.up != [] && IsAck(st.up[|st.up| - 1].pdu))
  }

  predicate Stage(st: State) {
    match st.client.pc
    case FinWaiting(_) => FinComing(st)
    case FinalAckDue(acked) => acked
    case CloseDue(acked) => acked && st.log.finalAck && AckComing(st)
    case Finished => st.client.sock.state == Closed && st.log.finalAck && AckComing(st)
    case _ => false
  }

  ghost predicate Ending(st: State) { Known(st) && Stage(st) }

  predicate Done(st: State) {
    && st.client.pc.Finished? && st.client.sock.state == Closed && st.server.sock.state == Closed
    && st.log.finalAck && st.up == []
  }

  function Weight(pc: Pc): nat {
    match pc
    case FinWaiting(_) => 6
    case FinalAckDue(_) => 5
    case CloseDue(_) => 2
    case _ => 0
  }

  /** Bounds the steps that are left. */
  function Rank(st: State): nat {
    2 * |st.up| + (if st.client.listening then |st.down| else 0) + Weight(st.client.pc)
  }

  lemma MainEnds(st: State)
    requires Ending(st) && !st.client.pc.FinWaiting? && !st.client.pc.Finished?
    ensures var st' := ApplyClient(st, Turn.Main(true)); Stage(st') && Rank(st') < Rank(st)
  {
  }

  /** The next PDU reaches the server: a FIN is answered, whether it is the first or not. */
  function Up(st: State): State
    requires st.up != []
  {
    ApplyServer(st.(up := st.up[1..]), st.up[0], true)
  }

  function Down(st: State): State
    requires st.down != []
  {
    ApplyClient(st.(down := st.down[1..]), Deliver(st.down[0], true))
  }

  lemma UpComing(st: State)
    requires st.up != [] && FinComing(st)
    ensures FinComing(Up(st))
  {
    var st' := Up(st);
    if IsFin(st.up[0].pdu) {
      Outcomes.FinAnswered(st.server.sock, st.up[0].pdu, true);
      assert IsFinAck(st'.down[|st.down|]);
    } else if i :| 0 <= i < |st.up| && IsFin(st.up[i].pdu) {
      assert IsFin(st'.up[i - 1].pdu);
    } else {
      var i :| 0 <= i < |st.down| && IsFinAck(st.down[i]);
      assert IsFinAck(st'.down[i]);
    }
  }

  lemma UpEnds(st: State)
    requires Ending(st) && st.up != []
    ensures Stage(Up(st)) && Rank(Up(st)) < Rank(st)
  {
    if st.client.pc.FinWaiting? { UpComing(st); }
  }

  lemma DownEnds(st: State)
    requires Ending(st) && st.down != [] && st.client.listening
    ensures Stage(Down(st)) && Rank(Down(st)) < Rank(st)
  {
  }

  /** A quiet step that changes anything leads closer to the end. */
  lemma QuietEnds(env: Env, st: State, a: Action)
    requires LateClose.Plain(env) && Ending(st) && Progress.Effective(env, st, a)
    ensures Ending(Do(env, st, a)) && Rank(Do(env, st, a)) < Rank(st)
  {
    KnownKept(env, st, a);
    match a
    case ClientTurn(_) => TurnMoves(env, st);
    case DeliverUp(_, _, _) =>
      assert RemoveAt(st.up, 0) == st.up[1..];
      UpEnds(st);
    case DeliverDown(_, _, _) =>
      assert RemoveAt(st.down, 0) == st.down[1..];
      DownEnds(st);
  }

  lemma TurnMoves(env: Env, st: State)
    requires Ending(st) && Do(env, st, ClientTurn(Turn.Main(true))) != st
    ensures var st' := Do(env, st, ClientTurn(Turn.Main(true))); Stage(st') && Rank(st') < Rank(st)
  {
    MainEnds(st);
  }

  /** Until both ends are CLOSED some quiet step changes something. */
  lemma NeverStuck(env: Env, st: State)
    requires LateClose.Plain(env) && Ending(st) && !Done(st)
    ensures exists a :: Progress.Effective(env, st, a)
  {
    if st.up != [] {
      UpMoves(env, st);
      assert Progress.Effective(env, st, DeliverUp(0, false, true));
    } else if st.client.pc.FinWaiting? {
      DownMoves(env, st);
      assert Progress.Effective(env, st, DeliverDown(0, false, true));
    } else {
      MainMoves(env, st);
      assert Progress.Effective(env, st, ClientTurn(Turn.Main(true)));
    }
  }

  lemma UpMoves(env: Env, st: State)
    requires LateClose.Plain(env) && Ending(st) && st.up != []
    ensures Do(env, st, DeliverUp(0, false, true)) != st
  {
    assert |Do(env, st, DeliverUp(0, false, true)).up| < |st.up|;
  }

  lemma DownMoves(env: Env, st: State)
    requires LateClose.Plain(env) && Ending(st) && st.client.pc.FinWaiting? && st.down != []
    ensures Do(env, st, DeliverDown(0, false, true)) != st
  {
    assert RemoveAt(st.down, 0) == st.down[1..];
    DownEnds(st);
  }

  lemma MainMoves(env: Env, st: State)
    requires Ending(st) && !st.client.pc.FinWaiting? && !st.client.pc.Finished?
    ensures Do(env, st, ClientTurn(Turn.Main(true))) != st
  {
    MainEnds(st);
  }

  // ---- Schedules ----

  /** After the first k actions the client had left the loop with the FIN+ACK. */
  ghost predicate LeftBy(env: Env, st: State, acts: seq<Action>, k: nat) {
    k <= |acts| && Exec(env, st, acts[..k]).client.pc == FinalAckDue(true)
  }

  /** It has left it so, or is still waiting. */
  ghost predicate LeftAcked(env: Env, st: State, acts: seq<Action>) {
    Exec(env, st, acts).client.pc.FinWaiting? || exists k: nat :: LeftBy(env, st, acts, k)
  }

  lemma LeavesAcked(env: Env, st: State, a: Action)
    requires Ending(st) && Ending(Do(env, st, a)) && Progress.Effective(env, st, a) && st.client.pc.FinWaiting?
    ensures var pc := Do(env, st, a).client.pc; pc.FinWaiting? || pc == FinalAckDue(true)
  {
  }

  lemma LeftLater(env: Env, st: State, acts: seq<Action>)
    requires acts != [] && LeftAcked(env, st, acts[..|acts| - 1])
    requires var mid := Exec(env, st, acts[..|acts| - 1]); var pc := Exec(env, st, acts).client.pc;
      mid.client.pc.FinWaiting? ==> pc.FinWaiting? || pc == FinalAckDue(true)
    ensures LeftAcked(env, st, acts)
  {
    var before := acts[..|acts| - 1];
    if Exec(env, st, before).client.pc.FinWaiting? {
      assert acts[..|acts|] == acts;
      assert Exec(env, st, acts).client.pc.FinWaiting? || LeftBy(env, st, acts, |acts|);
    } else {
      var k: nat :| LeftBy(env, st, before, k);
      assert before[..k] == acts[..k];
      assert LeftBy(env, st, acts, k);
    }
  }

  lemma {:induction false} RankRunsDown(env: Env, st: State, acts: seq<Action>)
    requires LateClose.Plain(env) && Ending(st) && st.client.pc.FinWaiting? && Progress.Busy(env, st, acts)
    ensures Ending(Exec(env, st, acts)) && Rank(Exec(env, st, acts)) + |acts| <= Rank(st)
    ensures LeftAcked(env, st, acts)
  {
    if acts != [] {
      var before, a := acts[..|acts| - 1], acts[|acts| - 1];
      RankRunsDown(env, st, before);
      QuietEnds(env, Exec(env, st, before), a);
      if Exec(env, st, before).client.pc.FinWaiting? { LeavesAcked(env, Exec(env, st, before), a); }
      LeftLater(env, st, acts);
    }
  }

  /** Termination of the close. Take any connect on any channel after which no SYN+ACK is to come, and
      from there any run over ordered channels, with any losses, timeouts and failures, to a state where
      the client waits for a FIN+ACK and a FIN or a FIN+ACK is in flight. From then on, without loss,
      timeout or failure, no interleaving is longer than the rank, and one that cannot go on has left
      the loop with the FIN+ACK and both ends CLOSED. */
  lemma CloseTerminates(env0: Env, connect: seq<Action>, env: Env, past: seq<Action>, acts: seq<Action>)
    requires var start := Exec(env0, INITIAL, connect); JustConnected(start) && LateClose.SynAcksOver(start)
    requires LateClose.Plain(env)
    requires var st := Exec(env, Exec(env0, INITIAL, connect), past);
      st.client.pc.FinWaiting? && FinComing(st) && Progress.Busy(env, st, acts)
    ensures var st := Exec(env, Exec(env0, INITIAL, connect), past); var st' := Exec(env, st, acts);
      && |acts| <= Rank(st)
      && (|| (exists a :: Progress.Effective(env, st', a))
          || (Done(st') && exists k: nat :: LeftBy(env, st, acts, k)))
  {
    var start := Exec(env0, INITIAL, connect);
    var st := Exec(env, start, past);
    AllKnown(env0, connect);
    KnownHolds(env, start, past);
    RankRunsDown(env, st, acts);
    if !Done(Exec(env, st, acts)) { NeverStuck(env, Exec(env, st, acts)); }
  }
}
