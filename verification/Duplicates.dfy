/** What atomic waits are for. An ACK that arrives between IP_send and the wait moves the client's
    number on without waking anybody; after the timeout the same message is sent under the next
    number, and accepted again. */
module Duplicates {
  import opened Pdus
  import opened Handlers
  import opened Threads
  import opened Systems
  import opened LockStep
  import opened Runs

  /** The first message is about to be sent again, n slots hold it already, nothing is in flight. */
  predicate Again(st: State, a: Payload, n: nat) {
    var c, g := st.client, st.log;
    && c.pc == ReadSeq(a) && c.listening && c.sock.state == Established
    && c.sock.slidingWindow == 0 && c.sock.windowSize == WINDOW_SIZE && 0 <= c.sock.allowedLosses <= 3
    && Serving(st.server) && !st.server.pc.SynAckDue? && st.up == [] && st.down == []
    && c.sock.currentSeqNum == n + 1 == st.server.sock.currentSeqNum && n + 2 < MOD32
    && g.msgs == [a] && HeldBy(g, n)
  }

  /** The first n slots hold the message of the first call, and there are no more. */
  predicate HeldBy(g: Log, n: nat) {
    |g.accepted| == n && forall i :: 0 <= i < n ==> g.accepted[i].call == 1
  }

  /** The packet was accepted while the sender had not begun to wait. */
  lemma Overheard(r: Run, a: Payload, n: nat) returns (r': Run)
    requires Real(r) && r.env == FINE && Again(r.st, a, n) && IsText(a)
    ensures Continues(r, r') && r'.st.client.pc == WaitDue(a, n + 1) && r'.st.down == [Ack(n + 2)]
    ensures Again(r'.st.(client := r.st.client, down := [], server := r.st.server, log := r.st.log), a, n)
    ensures r'.st.client == r.st.client.(pc := WaitDue(a, n + 1))
    ensures Serving(r'.st.server) && !r'.st.server.pc.SynAckDue? && r'.st.server.sock.currentSeqNum == n + 2
    ensures r'.st.log.msgs == [a] && HeldBy(r'.st.log, n + 1)
  {
    r' := Read(r, a);
    r' := Emit(r', a, n + 1);
    r' := Accept(r');
  }

  /** Nobody is woken by the ACK. */
  lemma Unheard(r: Run, a: Payload, k: U32) returns (r': Run)
    requires Real(r) && r.env == FINE && r.st.client.pc == WaitDue(a, k) && r.st.client.listening
    requires r.st.client.sock.state == Established && k + 1 < MOD32 && r.st.down == [Ack(k + 1)]
    ensures Continues(r, r')
    ensures r'.st == r.st.(client := r.st.client.(sock := r.st.client.sock.(currentSeqNum := k + 1)), down := [])
  {
    r' := ReachClient(r);
    AckRead(r.st.(down := []), r.st.down[0]);
  }

  lemma TimeOut(r: Run, a: Payload, k: U32) returns (r': Run)
    requires Real(r) && r.st.client.pc == WaitDue(a, k)
    requires var s := r.st.client.sock; s.slidingWindow == 0 && s.windowSize == WINDOW_SIZE && 0 <= s.allowedLosses <= 3
    ensures Continues(r, r') && r'.st == Standing(r.st, ReadSeq(a))
  {
    r' := Await(r, a, k);
    r' := Go(r', ClientTurn(Timeout));
  }

  lemma OnceMore(r: Run, a: Payload, n: nat) returns (r': Run)
    requires Real(r) && r.env == FINE && Again(r.st, a, n) && n + 3 < MOD32 && IsText(a)
    ensures Continues(r, r') && Again(r'.st, a, n + 1)
  {
    r' := Overheard(r, a, n);
    r' := Unheard(r', a, n + 1);
    r' := TimeOut(r', a, n + 1);
  }

  lemma {:induction false} Repeated(start: State, a: Payload, n: nat) returns (r: Run)
    requires Drained(start) && n + 2 < MOD32 && IsText(a)
    ensures Continues(At(FINE, start), r) && Again(r.st, a, n)
  {
    if n == 0 {
      r := Silence(At(FINE, start));
      r := Call(r, a);
    } else {
      r := Repeated(start, a, n - 1);
      r := OnceMore(r, a, n - 1);
    }
  }

  /** Without atomic waits no number bounds the copies: from any drained start, over ordered channels,
      one message can fill n slots, for every n. */
  lemma NoBoundOnCopies(start: State, a: Payload, n: nat)
    requires Drained(start) && n + 2 < MOD32 && IsText(a)
    ensures exists acts :: var g := Exec(FINE, start, acts).log; g.msgs == [a] && HeldBy(g, n)
  {
    var r := Repeated(start, a, n);
    assert Exec(FINE, start, r.acts).log.msgs == [a];
  }
}
