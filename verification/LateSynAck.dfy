/** What one SYN+ACK too late can do. mic_tcp_accept unlocks the socket between its state check and
    the SYN+ACK it sends; preempted there, it sends that SYN+ACK to a client which has long been
    connected. The client takes it in any state: it sets its number back to 1, its state back to
    ESTABLISHED, and sends an ACK. */
module LateSynAck {
  import opened Pdus
  import opened Handlers
  import opened Threads
  import opened Systems
  import opened Runs
  import opened ConnectRun
  import opened FalseSuccess
  import CloseAgreement

  // ---- Sending: a number is used twice ----

  /** The SYN+ACK was sent right after the first ACK, and the first call has returned. */
  predicate Behind(st: State, a: Payload) {
    && Resting(st.client) && Serving(st.server) && !st.server.pc.SynAckDue? && st.log.connected
    && st.client.sock.currentSeqNum == 2 == st.server.sock.currentSeqNum
    && st.up == [] && st.down == [SYN_ACK]
    && st.log.msgs == [a] && st.log.numbers == [1] && st.log.completed == [Completion(1, true)]
    && st.log.accepted == [Flight(Data(1, a), 1)]
  }

  /** The first call waits; its ACK is in flight, and behind it the SYN+ACK. */
  predicate Overtaken(st: State, a: Payload) {
    && st.client.pc == Waiting(a, 1) && st.client.listening && st.client.sock.state == Established
    && Serving(st.server) && !st.server.pc.SynAckDue? && st.server.sock.currentSeqNum == 2
    && st.up == [] && st.down == [Ack(2), SYN_ACK]
    && st.log.msgs == [a] && st.log.numbers == [1] && st.log.completed == []
    && st.log.accepted == [Flight(Data(1, a), 1)]
  }

  /** mic_tcp_accept runs again, and sends its SYN+ACK. */
  lemma SendLate(r: Run) returns (r': Run)
    requires Real(r) && r.st.server.pc.SynAckDue?
    ensures Continues(r, r')
    ensures r'.st == SentLate(r.st)
  {
    r' := Go(r, ServerTurn(AcceptMain(true)));
  }

  /** st after mic_tcp_accept has sent its SYN+ACK. */
  function SentLate(st: State): State {
    st.(server := st.server.(pc := TimedWait), down := st.down + [SYN_ACK])
  }

  lemma OvertakenAfter(st: State, a: Payload)
    requires Poised(st) && Empty(st) && st.client.sock.currentSeqNum == 1
    ensures Overtaken(SentLate(Accepted(Transmitted(st, a))), a)
  {
  }

  lemma Overtake(r: Run, a: Payload) returns (r': Run)
    requires Real(r) && r.env == HASTY && Poised(r.st) && r.st.server.pc.SynAckDue?
    requires r.st.client.sock.currentSeqNum == 1 && IsText(a)
    ensures Continues(r, r') && Overtaken(r'.st, a)
  {
    r' := Silence(r);
    OvertakenAfter(r'.st, a);
    r' := TransmitOnce(r', a);
    r' := Accept(r');
    r' := SendLate(r');
  }

  lemma FirstCall(r: Run, a: Payload) returns (r': Run)
    requires Real(r) && r.env == HASTY && Poised(r.st) && r.st.server.pc.SynAckDue?
    requires r.st.client.sock.currentSeqNum == 1 && IsText(a)
    ensures Continues(r, r') && Behind(r'.st, a)
  {
    r' := Overtake(r, a);
    r' := Answer(r', a, 1);
  }

  /** Both calls were reported delivered, under the same number; only the first was. */
  predicate Repeated(st: State, a: Payload, b: Payload) {
    && st.client.pc.Ready? && st.log.msgs == [a, b] && st.log.numbers == [1, 1]
    && st.log.completed == [Completion(1, true), Completion(2, true)]
    && st.log.accepted == [Flight(Data(1, a), 1)]
  }

  /** The client is back at number 1. */
  predicate SetBack(st: State, a: Payload) {
    && Resting(st.client) && Serving(st.server) && !st.server.pc.SynAckDue?
    && st.client.sock.currentSeqNum == 1 && st.server.sock.currentSeqNum == 2
    && st.down == [] && (forall f :: f in st.up ==> !IsData(f.pdu))
    && st.log.msgs == [a] && st.log.numbers == [1] && st.log.completed == [Completion(1, true)]
    && st.log.accepted == [Flight(Data(1, a), 1)]
  }

  lemma Reset(r: Run, a: Payload) returns (r': Run)
    requires Real(r) && Behind(r.st, a)
    ensures Continues(r, r') && SetBack(r'.st, a)
  {
    r' := ReachClient(r);
    SynAckRead(r.st.(down := r.st.down[1..]), r.st.down[0]);
  }

  lemma SecondCall(r: Run, a: Payload, b: Payload) returns (r': Run)
    requires Real(r) && SetBack(r.st, a) && IsText(b)
    ensures Continues(r, r') && Repeated(r'.st, a, b)
  {
    r' := Silence(r);
    r' := TransmitOnce(r', b);
    r' := Refuse(r');
    r' := Answer(r', b, 1);
  }

  lemma Repeat(r: Run, a: Payload, b: Payload) returns (r': Run)
    requires Real(r) && r.env == HASTY && Poised(r.st) && r.st.server.pc.SynAckDue?
    requires r.st.client.sock.currentSeqNum == 1 && IsText(a) && IsText(b)
    ensures Continues(r, r') && Repeated(r'.st, a, b)
  {
    r' := FirstCall(r, a);
    r' := Reset(r', a);
    r' := SecondCall(r', a, b);
  }

  /** A run from the very first SYN over ordered channels, without loss of a measurement packet: a
      hundred ACKs are counted, no loss is allowed, and still the second message is reported delivered
      and never accepted. */
  lemma AllCountedCanLie(a: Payload, b: Payload)
    requires IsText(a) && IsText(b)
    ensures exists past, acts ::
      && Exec(HASTY, INITIAL, past).client == Client(FinalSock(100, 100), Ready(NoCall), true)
      && Repeated(Exec(HASTY, Exec(HASTY, INITIAL, past), acts), a, b)
  {
    var r := Connect(HASTY, 100, 100);
    var r' := Repeat(At(HASTY, r.st), a, b);
    assert Repeated(Exec(HASTY, Exec(HASTY, INITIAL, r.acts), r'.acts), a, b);
  }

  // ---- Closing ----

  /** A SYN+ACK is in flight, or mic_tcp_accept is about to send one. */
  predicate Coming(st: State) {
    st.server.pc.SynAckDue? || exists i :: 0 <= i < |st.down| && IsSynAck(st.down[i])
  }

  /** Poised, the SYN+ACK alone in flight. */
  predicate Alone(st: State) {
    && Poised(st) && !st.server.pc.SynAckDue? && st.client.sock.currentSeqNum <= 1
    && st.up == [] && |st.down| == 1 && IsSynAck(st.down[0])
    && !st.log.sawFin && !st.log.finalAck
  }

  lemma Isolate(r: Run) returns (r': Run)
    requires Real(r) && Poised(r.st) && Coming(r.st) && r.st.client.sock.currentSeqNum <= 1
    requires !r.st.log.sawFin && !r.st.log.finalAck
    ensures Continues(r, r') && Alone(r'.st)
  {
    if r.st.server.pc.SynAckDue? {
      r' := Silence(r);
      r' := SendLate(r');
    } else {
      var i :| 0 <= i < |r.st.down| && IsSynAck(r.st.down[i]);
      r' := KeepDown(r, i);
    }
  }

  /** The client, closing, waits for the answer to its first FIN. */
  predicate FirstFin(st: State) {
    && st.client.pc == FinWaiting(0) && st.client.listening && st.client.sock.state == ProtocolState.Closing
    && Serving(st.server) && !st.server.pc.SynAckDue? && st.log.connected && !st.log.sawFin && !st.log.finalAck
    && st.up == [Flight(FIN, |st.log.msgs|)]
  }

  lemma EnterClose(r: Run) returns (r': Run)
    requires Real(r) && Resting(r.st.client)
    ensures Continues(r, r')
    ensures r'.st == r.st.(client := Client(r.st.client.sock.(state := ProtocolState.Closing), FinDue(0), true))
  {
    r' := Go(r, ClientTurn(CallClose));
    r' := Runs.Main(r');
  }

  lemma BeginClose(r: Run) returns (r': Run)
    requires Real(r) && Resting(r.st.client) && Serving(r.st.server) && !r.st.server.pc.SynAckDue?
    requires r.st.log.connected && !r.st.log.sawFin && !r.st.log.finalAck && r.st.up == []
    ensures Continues(r, r') && FirstFin(r'.st) && r'.st.down == r.st.down
  {
    r' := EnterClose(r);
    r' := Runs.Main(r');
    r' := Runs.Main(r');
  }

  /** The SYN+ACK makes the closing client ESTABLISHED again, and it answers with an ACK. */
  lemma Reopen(r: Run) returns (r': Run)
    requires Real(r) && FirstFin(r.st) && r.st.down != [] && IsSynAck(r.st.down[0])
    ensures Continues(r, r') && r'.st.down == r.st.down[1..]
    ensures r'.st == r.st.(client := r.st.client.(sock := r.st.client.sock.(state := Established, currentSeqNum := 1)),
                     up := r.st.up + [Flight(Ack(0), |r.st.log.msgs|)], down := r.st.down[1..], log := r'.st.log)
    ensures r'.st.log == r.st.log.(transmitted := r'.st.log.transmitted, gotSynAck := true)
  {
    r' := ReachClient(r);
    SynAckRead(r.st.(down := r.st.down[1..]), r.st.down[0]);
  }

  /** A call whose ACK is left in flight behind the SYN+ACK. */
  lemma LeaveAck(r: Run) returns (r': Run)
    requires Real(r) && Alone(r.st)
    ensures Continues(r, r') && Resting(r'.st.client) && Serving(r'.st.server) && !r'.st.server.pc.SynAckDue?
    ensures r'.st.log.connected && !r'.st.log.sawFin && !r'.st.log.finalAck && r'.st.up == []
    ensures |r'.st.down| == 2 && IsSynAck(r'.st.down[0]) && IsAck(r'.st.down[1])
  {
    r' := TransmitOnce(r, "x");
    if r.st.client.sock.currentSeqNum == 1 { r' := Accept(r'); } else { r' := Refuse(r'); }
    r' := GiveUp(r', Failed);
  }

  /** That ACK passes for the FIN+ACK: the client leaves the loop and the server has seen no FIN. */
  lemma MistakenAck(r: Run) returns (r': Run)
    requires Real(r) && Alone(r.st)
    ensures Continues(r, r') && CloseAgreement.LeftLoopAcked(r'.st.client.pc)
    ensures r'.st.log.connected && !r'.st.log.sawFin
  {
    r' := LeaveAck(r);
    r' := BeginClose(r');
    r' := Reopen(r');
    AckRead(r'.st.(down := r'.st.down[1..]), r'.st.down[0]);
    r' := ReachClient(r');
  }

  /** The FIN, the ACK that answers the SYN+ACK, and the next FIN are in flight. */
  predicate Sandwiched(st: State) {
    && Serving(st.server) && !st.server.pc.SynAckDue? && st.log.connected && !st.log.finalAck
    && |st.up| == 3 && IsFin(st.up[0].pdu) && IsAck(st.up[1].pdu) && IsFin(st.up[2].pdu)
  }

  lemma SecondFin(r: Run) returns (r': Run)
    requires Real(r) && r.st.client.pc == FinWaiting(0)
    ensures Continues(r, r')
    ensures r'.st == Standing(r.st, FinDue(1))
  {
    r' := Go(r, ClientTurn(Timeout));
  }

  lemma Sandwich(r: Run) returns (r': Run)
    requires Real(r) && Alone(r.st)
    ensures Continues(r, r') && Sandwiched(r'.st)
  {
    r' := BeginClose(r);
    r' := Reopen(r');
    r' := SecondFin(r');
    r' := Runs.Main(r');
  }

  lemma HearFin(r: Run) returns (r': Run)
    requires Real(r) && Sandwiched(r.st)
    ensures Continues(r, r') && r'.st.up == r.st.up[1..] && r'.st.server.sock.state == AwaitingClosing
    ensures r'.st.log.connected && !r'.st.log.finalAck && !r'.st.server.pc.SynAckDue?
  {
    r' := ReachServer(r);
  }

  lemma HearAck(r: Run) returns (r': Run)
    requires Real(r) && r.st.server.sock.state == AwaitingClosing && !r.st.server.pc.SynAckDue?
    requires |r.st.up| == 2 && IsAck(r.st.up[0].pdu) && r.st.log.connected && !r.st.log.finalAck
    ensures Continues(r, r') && r'.st.up == r.st.up[1..] && r'.st.server.sock.state == Closed
    ensures r'.st.log.connected && !r'.st.log.finalAck && !r'.st.server.pc.SynAckDue?
  {
    r' := ReachServer(r);
  }

  /** That ACK passes for the final one: the server is CLOSED before it was sent, and the next FIN
      takes it out of CLOSED again. */
  lemma MistakenFinalAck(r: Run) returns (closed: Run, reopened: Run)
    requires Real(r) && Alone(r.st)
    ensures Continues(r, closed) && closed.st.server.sock.state == Closed
    ensures closed.st.log.connected && !closed.st.log.finalAck
    ensures Continues(closed, reopened) && reopened.acts == closed.acts + [DeliverUp(0, false, true)]
    ensures reopened.st.server.sock.state == AwaitingClosing
  {
    closed := Sandwich(r);
    closed := HearFin(closed);
    closed := HearAck(closed);
    reopened := ReachServer(closed);
  }
}
