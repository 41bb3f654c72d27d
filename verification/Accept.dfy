/** mic_tcp_accept as imperative code, its process's network thread running in between. */
module Accept {
  import opened Pdus
  import opened Handlers
  import opened Threads
  import opened AppQueue
  import opened MicTcp

  datatype ServerTurn = Incoming(pdu: Pdu, ipOk: bool) | Thread(turn: AcceptTurn)

  datatype ServerTrace = ServerTrace(server: Server, sent: seq<Pdu>)

  function ServerDo(s: Server, t: ServerTurn): AcceptOut {
    match t
    case Incoming(p, ipOk) =>
      var r := ServerHandle(s.sock, p, ipOk);
      AcceptOut(Absorb(s, p.payload, r), r.reply)
    case Thread(turn) => AcceptDo(s, turn)
  }

  predicate Linked(run: nat -> ServerTrace, turns: seq<ServerTurn>, k: nat)
    requires k < |turns|
  {
    var o := ServerDo(run(k).server, turns[k]);
    run(k + 1) == ServerTrace(o.server, Sending(run(k).sent, o.emitted))
  }

  ghost predicate Follows(run: nat -> ServerTrace, turns: seq<ServerTurn>) {
    forall k :: 0 <= k < |turns| ==> Linked(run, turns, k)
  }

  lemma Handles(run: nat -> ServerTrace, turns: seq<ServerTurn>, k: nat)
    requires Follows(run, turns) && k < |turns| && turns[k].Incoming?
    ensures var s := run(k).server; var r := ServerHandle(s.sock, turns[k].pdu, turns[k].ipOk);
      run(k + 1) == ServerTrace(Absorb(s, turns[k].pdu.payload, r), Sending(run(k).sent, r.reply))
  {
    assert Linked(run, turns, k);
  }

  lemma Moves(run: nat -> ServerTrace, turns: seq<ServerTurn>, k: nat)
    requires Follows(run, turns) && k < |turns| && turns[k].Thread?
    ensures var o := AcceptDo(run(k).server, turns[k].turn);
      run(k + 1) == ServerTrace(o.server, Sending(run(k).sent, o.emitted))
  {
    assert Linked(run, turns, k);
  }

  /** The model after k turns is this socket and queue at pc, with `sent` on the wire. */
  ghost predicate Matches(sock: Socket, buffer: Queue, run: nat -> ServerTrace, k: nat, pc: AcceptPc, sent: seq<Pdu>)
    reads sock, buffer
  {
    run(k) == ServerTrace(Server(sock.Value(), pc, buffer.entries), sent)
  }

  /** The network thread handles turn k. */
  method Handle(sock: Socket, buffer: Queue, turns: seq<ServerTurn>, k: nat, sent: seq<Pdu>,
                ghost run: nat -> ServerTrace, ghost pc: AcceptPc)
    returns (sent': seq<Pdu>, signal: bool)
    requires buffer.Valid() && Follows(run, turns) && k < |turns| && turns[k].Incoming?
    requires Matches(sock, buffer, run, k, pc, sent)
    modifies sock`state, sock`currentSeqNum, buffer, buffer.Repr
    ensures buffer.Valid() && fresh(buffer.Repr - old(buffer.Repr))
    ensures Matches(sock, buffer, run, k + 1, if signal && pc.WaitingSyn? then Checking else pc, sent')
  {
    Handles(run, turns, k);
    var reply;
    reply, signal := sock.ProcessServerPdu(turns[k].pdu, turns[k].ipOk, buffer);
    sent' := Sending(sent, reply);
  }

  /** The main thread's first wait, without a deadline. */
  method AwaitSyn(sock: Socket, buffer: Queue, turns: seq<ServerTurn>, from: nat, before: seq<Pdu>,
                  ghost run: nat -> ServerTrace)
    returns (used: nat, sent: seq<Pdu>, outcome: Outcome)
    requires buffer.Valid() && Follows(run, turns)
    requires from <= |turns| && Matches(sock, buffer, run, from, WaitingSyn, before)
    modifies sock`state, sock`currentSeqNum, buffer, buffer.Repr
    ensures buffer.Valid() && fresh(buffer.Repr - old(buffer.Repr))
    ensures from <= used <= |turns|
    ensures match outcome
            case Signalled => Matches(sock, buffer, run, used, Checking, sent)
            case Broken => Matches(sock, buffer, run, used, Returned(false), sent) && used > 0
                           && turns[used - 1] == Thread(AcceptError)
            case _ => used == |turns| && Matches(sock, buffer, run, used, WaitingSyn, sent)
  {
    used, sent, outcome := from, before, Exhausted;
    while used < |turns|
      invariant buffer.Valid() && fresh(buffer.Repr - old(buffer.Repr))
      invariant from <= used <= |turns| && Matches(sock, buffer, run, used, WaitingSyn, sent)
    {
      var t := turns[used];
      if t.Incoming? {
        var signal;
        sent, signal := Handle(sock, buffer, turns, used, sent, run, WaitingSyn);
        if signal { return used + 1, sent, Signalled; }
      } else {
        Moves(run, turns, used);
        if t.turn.AcceptSpurious? { return used + 1, sent, Signalled; }
        if t.turn.AcceptError? { return used + 1, sent, Broken; }
      }
      used := used + 1;
    }
  }

  /** The turn is one at which the main thread acts: its next statement, or, if it is in a
      timed wait, an error ending that wait. */
  predicate Acts(t: ServerTurn, timed: bool) {
    t.Thread? && (t.turn.AcceptMain? || (timed && t.turn.AcceptError?))
  }

  /** Lets the network thread run until then. */
  method Pause(sock: Socket, buffer: Queue, turns: seq<ServerTurn>, from: nat, before: seq<Pdu>, timed: bool,
               ghost run: nat -> ServerTrace, ghost pc: AcceptPc)
    returns (used: nat, sent: seq<Pdu>)
    requires buffer.Valid() && Follows(run, turns) && from <= |turns| && Matches(sock, buffer, run, from, pc, before)
    requires if timed then pc.TimedWait? else pc.Armed? || pc.Checking? || pc.SynAckDue?
    modifies sock`state, sock`currentSeqNum, buffer, buffer.Repr
    ensures buffer.Valid() && fresh(buffer.Repr - old(buffer.Repr))
    ensures from <= used <= |turns| && Matches(sock, buffer, run, used, pc, sent)
    ensures used < |turns| ==> Acts(turns[used], timed)
  {
    used, sent := from, before;
    while used < |turns| && !Acts(turns[used], timed)
      invariant buffer.Valid() && fresh(buffer.Repr - old(buffer.Repr))
      invariant from <= used <= |turns| && Matches(sock, buffer, run, used, pc, sent)
    {
      if turns[used].Incoming? {
        var signal;
        sent, signal := Handle(sock, buffer, turns, used, sent, run, pc);
      } else {
        Moves(run, turns, used);
      }
      used := used + 1;
    }
  }

  /** Sets the state and enters the first wait; `armed` is false when the schedule ends first. */
  method Arm(sock: Socket, buffer: Queue, turns: seq<ServerTurn>, ghost run: nat -> ServerTrace)
    returns (used: nat, sent: seq<Pdu>, armed: bool)
    requires buffer.Valid() && Follows(run, turns) && turns != [] && turns[0] == Thread(AcceptCall)
    requires run(0).server.pc.NotCalled? || run(0).server.pc.Returned?
    requires Matches(sock, buffer, run, 0, run(0).server.pc, [])
    modifies sock`state, sock`currentSeqNum, buffer, buffer.Repr
    ensures buffer.Valid() && fresh(buffer.Repr - old(buffer.Repr))
    ensures used <= |turns| && Matches(sock, buffer, run, used, if armed then WaitingSyn else Armed, sent)
    ensures !armed ==> used == |turns|
  {
    armed := false;
    Moves(run, turns, 0);
    sock.state := Accepting;
    used, sent := Pause(sock, buffer, turns, 1, [], false, run, Armed);
    if used == |turns| { return; }
    Moves(run, turns, used);
    used, armed := used + 1, true;
  }

  /** mic_tcp_accept: waits for a SYN, then repeats the SYN+ACK until the state has moved on.
      `result` is 0 or -1; None when the schedule ends first. */
  method MicTcpAccept(sock: Socket, buffer: Queue, turns: seq<ServerTurn>, ghost run: nat -> ServerTrace)
    returns (used: nat, sent: seq<Pdu>, result: Option<int>)
    requires buffer.Valid() && Follows(run, turns) && turns != [] && turns[0] == Thread(AcceptCall)
    requires run(0).server.pc.NotCalled? || run(0).server.pc.Returned?
    requires Matches(sock, buffer, run, 0, run(0).server.pc, [])
    modifies sock`state, sock`currentSeqNum, buffer, buffer.Repr
    ensures buffer.Valid() && fresh(buffer.Repr - old(buffer.Repr))
    ensures used <= |turns| && Matches(sock, buffer, run, used, run(used).server.pc, sent)
    ensures match result
            case Some(r) => run(used).server.pc == Returned(r == 0) && (r == 0 || r == -1)
            case None => used == |turns|
    ensures result == Some(-1) ==> used > 0 && turns[used - 1] == Thread(AcceptError)
  {
    result := None;
    var armed;
    used, sent, armed := Arm(sock, buffer, turns, run);
    if !armed { return; }
    var outcome;
    used, sent, outcome := AwaitSyn(sock, buffer, turns, used, sent, run);
    if outcome.Broken? { return used, sent, Some(-1); }
    if !outcome.Signalled? { return; }
    used, sent, result := AnswerSyn(sock, buffer, turns, used, sent, run);
  }

  /** The condition of the loop; None when the schedule ends first. */
  method CheckState(sock: Socket, buffer: Queue, turns: seq<ServerTurn>, from: nat, before: seq<Pdu>,
                    ghost run: nat -> ServerTrace)
    returns (used: nat, sent: seq<Pdu>, again: Option<bool>)
    requires buffer.Valid() && Follows(run, turns)
    requires from <= |turns| && Matches(sock, buffer, run, from, Checking, before)
    modifies sock`state, sock`currentSeqNum, buffer, buffer.Repr
    ensures buffer.Valid() && fresh(buffer.Repr - old(buffer.Repr))
    ensures used <= |turns| && Matches(sock, buffer, run, used, run(used).server.pc, sent)
    ensures match again
            case Some(b) => from < used && run(used).server.pc == if b then SynAckDue else Returned(true)
            case None => used == |turns|
  {
    again := None;
    used, sent := Pause(sock, buffer, turns, from, before, false, run, Checking);
    if used == |turns| { return; }
    Moves(run, turns, used);
    used, again := used + 1, Some(sock.state == SynReceived);
  }

  /** The loop of mic_tcp_accept. */
  method AnswerSyn(sock: Socket, buffer: Queue, turns: seq<ServerTurn>, from: nat, before: seq<Pdu>,
                   ghost run: nat -> ServerTrace)
    returns (used: nat, sent: seq<Pdu>, result: Option<int>)
    requires buffer.Valid() && Follows(run, turns)
    requires from <= |turns| && Matches(sock, buffer, run, from, Checking, before)
    modifies sock`state, sock`currentSeqNum, buffer, buffer.Repr
    ensures buffer.Valid() && fresh(buffer.Repr - old(buffer.Repr))
    ensures used <= |turns| && Matches(sock, buffer, run, used, run(used).server.pc, sent)
    ensures match result
            case Some(r) => run(used).server.pc == Returned(r == 0) && (r == 0 || r == -1)
            case None => used == |turns|
    ensures result == Some(-1) ==> used > 0 && turns[used - 1] == Thread(AcceptError)
  {
    used, sent, result := from, before, None;
    while true
      invariant buffer.Valid() && fresh(buffer.Repr - old(buffer.Repr))
      invariant used <= |turns| && result == None && Matches(sock, buffer, run, used, Checking, sent)
      decreases |turns| - used
    {
      var again;
      used, sent, again := CheckState(sock, buffer, turns, used, sent, run);
      if again.None? { return; }
      if !again.value { return used, sent, Some(0); }
      used, sent, again := SendSynAck(sock, buffer, turns, used, sent, run);
      if again.None? { return; }
      if !again.value { return used, sent, Some(-1); }
    }
  }

  /** One SYN+ACK and the timed wait that follows it. */
  method SendSynAck(sock: Socket, buffer: Queue, turns: seq<ServerTurn>, from: nat, before: seq<Pdu>,
                    ghost run: nat -> ServerTrace)
    returns (used: nat, sent: seq<Pdu>, again: Option<bool>)
    requires buffer.Valid() && Follows(run, turns)
    requires from <= |turns| && Matches(sock, buffer, run, from, SynAckDue, before)
    modifies sock`state, sock`currentSeqNum, buffer, buffer.Repr
    ensures buffer.Valid() && fresh(buffer.Repr - old(buffer.Repr))
    ensures from <= used <= |turns| && Matches(sock, buffer, run, used, run(used).server.pc, sent)
    ensures match again
            case Some(b) => from < used && run(used).server.pc == if b then Checking else Returned(false)
            case None => used == |turns|
    ensures again == Some(false) ==> turns[used - 1] == Thread(AcceptError)
  {
    again := None;
    used, sent := Pause(sock, buffer, turns, from, before, false, run, SynAckDue);
    if used == |turns| { return; }
    Moves(run, turns, used);
    var ok := turns[used].turn.ipOk;
    used := used + 1;
    if !ok { return used, sent, Some(true); }
    sent := sent + [CreateNoPayloadPdu(1, 1, 0, 0, 0)];
    used, sent := Pause(sock, buffer, turns, used, sent, true, run, TimedWait);
    if used == |turns| { return; }
    Moves(run, turns, used);
    again := Some(turns[used].turn.AcceptMain?);
    used := used + 1;
  }
}
