/** Building concrete runs, one action at a time, over channels that only lose. */
module Runs {
  import opened Pdus
  import opened SlidingWindow
  import opened Handlers
  import opened Threads
  import opened Systems
  import opened CallHistory
  import Handshake

  /** The most regular network and scheduling there is. */
  const CALM: Env := Env(Discipline(false, false), Discipline(false, false), true, true, false)

  /** The same, but mic_tcp_accept can be preempted between its state check and its SYN+ACK. */
  const HASTY: Env := CALM.(atomicAccept := false)

  /** The same, but mic_tcp_send can be interrupted between any two statements. */
  const FINE: Env := CALM.(atomicWait := false)

  /** A schedule and where it leads. */
  datatype Run = Run(env: Env, start: State, acts: seq<Action>, st: State)

  ghost predicate Real(r: Run) { Fifo(r.env) && !r.env.spurious && r.st == Exec(r.env, r.start, r.acts) }

  ghost predicate Continues(r: Run, r': Run) { Real(r') && r'.env == r.env && r'.start == r.start }

  /** The run that takes no action. */
  function At(env: Env, st: State): Run { Run(env, st, [], st) }

  /** One more action of the run. */
  lemma Go(r: Run, a: Action) returns (r': Run)
    requires Real(r)
    ensures Continues(r, r') && r'.acts == r.acts + [a] && r'.st == Do(r.env, r.st, a)
  {
    r' := r.(acts := r.acts + [a], st := Do(r.env, r.st, a));
    ExecStep(r.env, r.start, r.acts, a);
  }

  /** The main thread of the client executes one statement. */
  lemma Main(r: Run) returns (r': Run)
    requires Real(r)
    ensures Continues(r, r') && r'.st == ApplyClient(r.st, Turn.Main(true))
  {
    r' := Go(r, ClientTurn(Turn.Main(true)));
  }

  // ---- What is lost ----

  /** Everything in flight. */
  lemma Silence(r: Run) returns (r': Run)
    requires Real(r)
    ensures Continues(r, r') && r'.st == r.st.(up := [], down := [])
    decreases |r.st.up| + |r.st.down|
  {
    if r.st.up != [] {
      r' := Go(r, LoseUp(0));
      r' := Silence(r');
    } else if r.st.down != [] {
      r' := Go(r, LoseDown(0));
      r' := Silence(r');
    } else {
      r' := r;
    }
  }

  /** Everything but one PDU on its way to the client. */
  lemma KeepDown(r: Run, i: nat) returns (r': Run)
    requires Real(r) && i < |r.st.down|
    ensures Continues(r, r') && r'.st == r.st.(up := [], down := [r.st.down[i]])
    decreases |r.st.up| + |r.st.down|
  {
    if r.st.up != [] {
      r' := Go(r, LoseUp(0));
      r' := KeepDown(r', i);
    } else if i > 0 {
      r' := Go(r, LoseDown(0));
      r' := KeepDown(r', i - 1);
    } else if |r.st.down| > 1 {
      r' := Go(r, LoseDown(1));
      r' := KeepDown(r', 0);
    } else {
      r' := r;
    }
  }

  /** Everything but one PDU on its way to the server. */
  lemma KeepUp(r: Run, i: nat) returns (r': Run)
    requires Real(r) && i < |r.st.up|
    ensures Continues(r, r') && r'.st == r.st.(up := [r.st.up[i]], down := [])
    decreases |r.st.up| + |r.st.down|
  {
    if r.st.down != [] {
      r' := Go(r, LoseDown(0));
      r' := KeepUp(r', i);
    } else if i > 0 {
      r' := Go(r, LoseUp(0));
      r' := KeepUp(r', i - 1);
    } else if |r.st.up| > 1 {
      r' := Go(r, LoseUp(1));
      r' := KeepUp(r', 0);
    } else {
      r' := r;
    }
  }

  // ---- A send call ----

  /** The client between two send calls, its connection established. */
  predicate Resting(c: Client) { c.pc.Ready? && c.sock.state == Established && c.listening }

  /** st with the client at pc. */
  function Standing(st: State, pc: Pc): State { st.(client := st.client.(pc := pc)) }

  /** st after the next call's message has been transmitted once, the client waiting. */
  function Transmitted(st: State, msg: Payload): State {
    var k, f := st.client.sock.currentSeqNum, Flight(Data(st.client.sock.currentSeqNum, msg), |st.log.msgs| + 1);
    Standing(st, Waiting(msg, k)).(up := st.up + [f],
    log := st.log.(msgs := st.log.msgs + [msg], numbers := st.log.numbers + [k],
    transmitted := st.log.transmitted + [f]))
  }

  lemma Call(r: Run, msg: Payload) returns (r': Run)
    requires Real(r) && Resting(r.st.client)
    ensures Continues(r, r')
    ensures r'.st == Standing(r.st, ReadSeq(msg)).(log := r.st.log.(msgs := r.st.log.msgs + [msg],
                     numbers := r.st.log.numbers + [r.st.client.sock.currentSeqNum]))
  {
    r' := Go(r, ClientTurn(CallSend(msg)));
  }

  lemma Read(r: Run, msg: Payload) returns (r': Run)
    requires Real(r) && r.st.client.pc == ReadSeq(msg)
    ensures Continues(r, r')
    ensures var k := r.st.client.sock.currentSeqNum; r'.st == Standing(r.st, SendDue(msg, k, k))
  {
    r' := Main(r);
    r' := Main(r');
  }

  /** The packet is sent, the wait not yet begun. */
  lemma Emit(r: Run, msg: Payload, k: U32) returns (r': Run)
    requires Real(r) && r.st.client.pc == SendDue(msg, k, k)
    ensures Continues(r, r')
    ensures var f := Flight(Data(k, msg), |r.st.log.msgs|);
      r'.st == Standing(r.st, WaitDue(msg, k)).(up := r.st.up + [f],
               log := r.st.log.(transmitted := r.st.log.transmitted + [f]))
  {
    r' := Main(r);
  }

  lemma Await(r: Run, msg: Payload, k: U32) returns (r': Run)
    requires Real(r) && r.st.client.pc == WaitDue(msg, k)
    ensures Continues(r, r') && r'.st == Standing(r.st, Waiting(msg, k))
  {
    r' := Main(r);
  }

  /** A call up to its first wait. */
  lemma TransmitOnce(r: Run, msg: Payload) returns (r': Run)
    requires Real(r) && Resting(r.st.client)
    ensures Continues(r, r') && r'.st == Transmitted(r.st, msg)
  {
    var k := r.st.client.sock.currentSeqNum;
    r' := Call(r, msg);
    r' := Read(r', msg);
    r' := Emit(r', msg, k);
    r' := Await(r', msg, k);
  }

  // ---- Deliveries, and how a call returns ----

  /** The first PDU in flight reaches the server. */
  lemma ReachServer(r: Run) returns (r': Run)
    requires Real(r) && r.st.up != [] && (r.env.atomicAccept ==> !r.st.server.pc.SynAckDue?)
    ensures Continues(r, r') && r'.acts == r.acts + [DeliverUp(0, false, true)]
    ensures r'.st == ApplyServer(r.st.(up := r.st.up[1..]), r.st.up[0], true)
  {
    r' := Go(r, DeliverUp(0, false, true));
    assert RemoveAt(r.st.up, 0) == r.st.up[1..];
  }

  /** The first PDU in flight reaches the client. */
  lemma ReachClient(r: Run) returns (r': Run)
    requires Real(r) && r.st.down != [] && Receptive(r.st.client) && (r.env.atomicWait ==> Settled(r.st.client.pc))
    ensures Continues(r, r')
    ensures r'.st == ApplyClient(r.st.(down := r.st.down[1..]), Deliver(r.st.down[0], true))
  {
    r' := Go(r, DeliverDown(0, false, true));
    assert RemoveAt(r.st.down, 0) == r.st.down[1..];
  }

  /** A connected client reads an ACK. */
  lemma AckRead(st: State, p: Pdu)
    requires st.client.listening && st.client.sock.state == Established && IsAck(p)
    requires st.log.connected || !Wake(st.client.pc).Ready?
    ensures ApplyClient(st, Deliver(p, true)) ==
            st.(client := Client(st.client.sock.(currentSeqNum := p.ackNum), Wake(st.client.pc), true))
  {
  }

  /** A listening client reads a SYN+ACK, in any state. */
  lemma SynAckRead(st: State, p: Pdu)
    requires st.client.listening && IsSynAck(p) && (st.log.connected || !st.client.pc.Ready?)
    ensures var f := Flight(Ack(0), |st.log.msgs|);
      ApplyClient(st, Deliver(p, true)) ==
      st.(client := st.client.(sock := st.client.sock.(state := Established, currentSeqNum := 1)),
      up := st.up + [f], log := st.log.(transmitted := st.log.transmitted + [f], gotSynAck := true))
  {
  }

  predicate Serving(s: Server) { s.sock.state == Established && !Handshake.BeforeSyn(s.pc) }

  /** The network thread of the server can run. */
  predicate Hearing(r: Run) { Serving(r.st.server) && (r.env.atomicAccept ==> !r.st.server.pc.SynAckDue?) }

  /** The server accepts the first message in flight and acknowledges it. */
  function Accepted(st: State): State
    requires st.up != []
  {
    var f, k := st.up[0], Next(st.server.sock.currentSeqNum);
    st.(up := st.up[1..], down := st.down + [Ack(k)],
    server := st.server.(sock := st.server.sock.(currentSeqNum := k), buffer := st.server.buffer + [f.pdu.payload]),
    log := st.log.(accepted := st.log.accepted + [f], serverUp := true))
  }

  lemma Accept(r: Run) returns (r': Run)
    requires Real(r) && r.st.up != [] && Hearing(r)
    requires var f := r.st.up[0];
      IsData(f.pdu) && IsText(f.pdu.payload) && f.pdu.seqNum == r.st.server.sock.currentSeqNum
    ensures Continues(r, r') && r'.st == Accepted(r.st)
  {
    r' := ReachServer(r);
  }

  /** The server does not expect the number, and repeats the one it expects. */
  lemma Refuse(r: Run) returns (r': Run)
    requires Real(r) && r.st.up != [] && Hearing(r) && r.st.server.sock.currentSeqNum != 0
    requires var f := r.st.up[0];
      IsData(f.pdu) && IsText(f.pdu.payload) && f.pdu.seqNum != r.st.server.sock.currentSeqNum
    ensures Continues(r, r')
    ensures r'.st == r.st.(up := r.st.up[1..], down := r.st.down + [Ack(r.st.server.sock.currentSeqNum)],
                     log := r.st.log.(serverUp := true))
  {
    r' := ReachServer(r);
  }

  /** An ACK wakes the sender. */
  lemma Hear(r: Run, msg: Payload, base: U32) returns (r': Run)
    requires Real(r) && r.st.client.pc == Waiting(msg, base) && r.st.client.listening
    requires r.st.client.sock.state == Established && r.st.down != [] && r.st.down[0] == Ack(Next(base))
    ensures Continues(r, r')
    ensures r'.st == r.st.(client := Client(r.st.client.sock.(currentSeqNum := Next(base)), Woken(msg, base), true),
                     down := r.st.down[1..])
  {
    r' := ReachClient(r);
    AckRead(r.st.(down := r.st.down[1..]), r.st.down[0]);
  }

  /** st after the call in progress has returned with result o. */
  function Over(st: State, sock: Sock, o: CallResult): State {
    st.(client := Client(sock, Ready(o), true),
    log := st.log.(completed := st.log.completed + CompletionOf(|st.log.msgs|, o), connected := true))
  }

  lemma Conclude(r: Run, msg: Payload, base: U32) returns (r': Run)
    requires Real(r) && r.st.client.pc == Woken(msg, base) && r.st.client.listening
    requires r.st.client.sock.currentSeqNum == Next(base)
    ensures Continues(r, r') && r'.st == Over(r.st, Record(r.st.client.sock, true), Delivered)
  {
    r' := Main(r);
  }

  /** The ACK at the head of the channel wakes the sender, which finds the number it expects. */
  lemma Answer(r: Run, msg: Payload, base: U32) returns (r': Run)
    requires Real(r) && r.st.client.pc == Waiting(msg, base) && r.st.client.listening
    requires r.st.client.sock.state == Established && r.st.down != [] && r.st.down[0] == Ack(Next(base))
    ensures Continues(r, r')
    ensures r'.st == Over(r.st.(down := r.st.down[1..]),
                          Record(r.st.client.sock.(currentSeqNum := Next(base)), true), Delivered)
  {
    r' := Hear(r, msg, base);
    r' := Conclude(r', msg, base);
  }

  /** The wait ends without an ACK: tolerated if the window allows it, otherwise by an error. */
  lemma GiveUp(r: Run, o: CallResult) returns (r': Run)
    requires Real(r) && r.st.client.pc.Waiting? && r.st.client.listening
    requires o.Failed? || (o.Tolerated? && Tolerates(r.st.client.sock.slidingWindow, r.st.client.sock.windowSize,
                                                     r.st.client.sock.allowedLosses))
    ensures Continues(r, r')
    ensures r'.st == Over(r.st, if o.Failed? then r.st.client.sock else Record(r.st.client.sock, false), o)
  {
    r' := Go(r, ClientTurn(if o.Failed? then WaitError else Timeout));
  }
}
