/** Runs over ordered channels in which the first mic_tcp_send returns success for a message the
    server never accepted: the ACK of a measurement packet, which carries number 0, arrives after
    mic_tcp_connect has returned. */
module FalseSuccess {
  import opened Pdus
  import opened Systems
  import opened Runs
  import opened ConnectRun
  import Connected

  /** Connected, and no send call made. */
  predicate Poised(st: State) {
    && Silent(st) && Serving(st.server) && st.server.sock.currentSeqNum == 1
    && st.log.connected && Resting(st.client)
  }

  /** Poised with nothing in flight, but the client's number is the 0 of a late measurement ACK. */
  predicate Stale(st: State) { Poised(st) && Empty(st) && st.client.sock.currentSeqNum == 0 }

  lemma LateAck(r: Run) returns (r': Run)
    requires Real(r) && Poised(r.st) && r.st.up == []
    requires |r.st.down| == 1 && IsAck(r.st.down[0]) && r.st.down[0].ackNum == 0
    ensures Continues(r, r') && Stale(r'.st) && r'.st.server.pc == r.st.server.pc
  {
    r' := ReachClient(r);
    AckRead(r.st.(down := []), r.st.down[0]);
  }

  lemma Echoed(r: Run) returns (r': Run)
    requires Real(r) && Poised(r.st) && Hearing(r) && r.st.down == []
    requires |r.st.up| == 1 && IsData(r.st.up[0].pdu) && !IsText(r.st.up[0].pdu.payload)
    ensures Continues(r, r') && Poised(r'.st) && r'.st.up == [] && r'.st.down == [Ack(0)]
    ensures r'.st.server.pc == r.st.server.pc
  {
    r' := ReachServer(r);
  }

  lemma LatePacket(r: Run) returns (r': Run)
    requires Real(r) && Poised(r.st) && Hearing(r) && r.st.down == []
    requires |r.st.up| == 1 && IsData(r.st.up[0].pdu) && !IsText(r.st.up[0].pdu.payload)
    ensures Continues(r, r') && Stale(r'.st) && r'.st.server.pc == r.st.server.pc
  {
    r' := Echoed(r);
    r' := LateAck(r');
  }

  /** Whatever of the measurement is still in flight can leave the client at number 0. */
  lemma Spoil(r: Run) returns (r': Run)
    requires Real(r) && Poised(r.st) && Hearing(r)
    requires !Connected.Clean(r.st) && r.st.client.sock.currentSeqNum <= 1
    requires forall f :: f in r.st.up && IsData(f.pdu) ==> !IsText(f.pdu.payload)
    requires forall p :: p in r.st.down && IsAck(p) ==> p.ackNum == 0
    ensures Continues(r, r') && Stale(r'.st) && r'.st.server.pc == r.st.server.pc
  {
    if r.st.client.sock.currentSeqNum == 0 {
      r' := Silence(r);
    } else if i :| 0 <= i < |r.st.up| && IsData(r.st.up[i].pdu) {
      r' := KeepUp(r, i);
      r' := LatePacket(r');
    } else {
      var i :| 0 <= i < |r.st.down| && IsAck(r.st.down[i]);
      r' := KeepDown(r, i);
      r' := LateAck(r');
    }
  }

  /** The first send was reported delivered, and the server accepted nothing. */
  predicate Lied(st: State, msg: Payload) {
    && st.client.pc.Ready? && st.log.connected && st.log.msgs == [msg] && st.log.numbers == [0]
    && st.log.completed == [Completion(1, true)] && st.log.accepted == []
  }

  /** The server does not expect number 0; it repeats the number it does expect, 1, and this is
      the very ACK the client waits for. */
  lemma Lie(r: Run, msg: Payload) returns (r': Run)
    requires Real(r) && Stale(r.st) && Hearing(r) && IsText(msg)
    ensures Continues(r, r') && Lied(r'.st, msg)
  {
    r' := TransmitOnce(r, msg);
    r' := Refuse(r');
    r' := Answer(r', msg, 0);
  }

  /** Whatever the first message, some run from the very first SYN reports it as delivered although
      nothing was accepted: 99 ACKs are counted and the hundredth comes late. So the drained start of
      the data-phase theorems cannot be dropped. */
  lemma FirstSendCanLie(msg: Payload)
    requires IsText(msg)
    ensures exists acts :: Lied(Exec(CALM, INITIAL, acts), msg)
  {
    var r := Connect(CALM, 99, 99);
    assert r.st.up[0] == Flight(MEASUREMENT, 0);
    r := LatePacket(r);
    r := Lie(r, msg);
    assert Lied(Exec(CALM, INITIAL, r.acts), msg);
  }
}
