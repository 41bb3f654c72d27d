/** The socket object and the library's calls on it, as imperative code. The network thread
    of the same process runs between the statements of a call as a schedule of turns decides;
    each call is shown to do exactly what the statement-by-statement model in Threads does, for
    every finite schedule. */
module MicTcp {
  import opened Pdus
  import opened SlidingWindow
  import opened LossBudget
  import opened Handlers
  import opened Threads
  import opened AppQueue
  import Attempts

  /** A client after some turns, with everything it sent on the way. */
  datatype Trace = Trace(client: Client, sent: seq<Pdu>)

  function Sending(sent: seq<Pdu>, p: Option<Pdu>): seq<Pdu> {
    if p.Some? then sent + [p.value] else sent
  }

  /** Turn k takes the model from run(k) to run(k + 1). */
  predicate Linked(run: nat -> Trace, turns: seq<Turn>, k: nat)
    requires k < |turns|
  {
    var o := ClientDo(run(k).client, turns[k]);
    run(k + 1) == Trace(o.client, Sending(run(k).sent, o.emitted))
  }

  /** run(k) is the model after the first k turns of the schedule. */
  ghost predicate Follows(run: nat -> Trace, turns: seq<Turn>) {
    forall k :: 0 <= k < |turns| ==> Linked(run, turns, k)
  }

  lemma Moves(run: nat -> Trace, turns: seq<Turn>, k: nat)
    requires Follows(run, turns) && k < |turns|
    ensures var o := ClientDo(run(k).client, turns[k]);
      run(k + 1) == Trace(o.client, Sending(run(k).sent, o.emitted))
  {
    assert Linked(run, turns, k);
  }

  lemma Skips(run: nat -> Trace, turns: seq<Turn>, k: nat)
    requires Follows(run, turns) && k < |turns| && !turns[k].Deliver?
    requires var pc := run(k).client.pc;
      || (Steady(pc) && !turns[k].Main?)
      || ((pc.Waiting? || pc.FinWaiting?) && !turns[k].Timeout? && !turns[k].WaitError? && !turns[k].Spurious?)
    ensures run(k + 1) == run(k)
  {
    Moves(run, turns, k);
  }

  lemma Hears(run: nat -> Trace, turns: seq<Turn>, k: nat)
    requires Follows(run, turns) && k < |turns| && turns[k].Deliver?
    ensures var o := Receive(run(k).client, turns[k].pdu, turns[k].ipOk);
      run(k + 1) == Trace(o.client, Sending(run(k).sent, o.emitted))
  {
    Moves(run, turns, k);
  }

  lemma Sends(run: nat -> Trace, turns: seq<Turn>, k: nat)
    requires Follows(run, turns) && k < |turns| && turns[k].Main? && InSend(run(k).client.pc)
    ensures var o := SendStep(run(k).client, turns[k].ipOk);
      run(k + 1) == Trace(o.client, Sending(run(k).sent, o.emitted))
  {
    Moves(run, turns, k);
  }

  lemma Calls(run: nat -> Trace, turns: seq<Turn>, k: nat)
    requires Follows(run, turns) && k < |turns| && turns[k].CallSend? && run(k).client.pc.Ready?
    ensures var c := run(k).client;
      run(k + 1) ==
      Trace(c.(pc := if c.sock.state == Established then ReadSeq(turns[k].msg) else Ready(Failed)), run(k).sent)
  {
    Moves(run, turns, k);
  }

  lemma TimesOut(run: nat -> Trace, turns: seq<Turn>, k: nat)
    requires Follows(run, turns) && k < |turns| && turns[k].Timeout?
    ensures run(k + 1) == Trace(OnTimeout(run(k).client).client, run(k).sent)
  {
    Moves(run, turns, k);
  }

  lemma Breaks(run: nat -> Trace, turns: seq<Turn>, k: nat)
    requires Follows(run, turns) && k < |turns| && turns[k].WaitError?
    ensures var c := run(k).client;
      c.pc.Waiting? ==> run(k + 1) == Trace(c.(pc := Ready(Failed)), run(k).sent)
    ensures var c := run(k).client;
      c.pc.FinWaiting? ==> run(k + 1) == Trace(c.(pc := Finished), run(k).sent)
  {
    Moves(run, turns, k);
  }

  lemma Closes(run: nat -> Trace, turns: seq<Turn>, k: nat)
    requires Follows(run, turns) && k < |turns| && turns[k].Main? && InClose(run(k).client.pc)
    ensures var o := CloseStep(run(k).client, turns[k].ipOk);
      run(k + 1) == Trace(o.client, Sending(run(k).sent, o.emitted))
  {
    Moves(run, turns, k);
  }

  /** The statements of the FIN loop. */
  lemma FinMoves(run: nat -> Trace, turns: seq<Turn>, k: nat, attempts: nat)
    requires Follows(run, turns) && k < |turns| && turns[k].Main?
    ensures var c := run(k).client;
      c.pc == FinDue(attempts) ==>
        run(k + 1) == if turns[k].ipOk then Trace(c.(pc := FinWaitDue(attempts)), run(k).sent + [FIN])
                      else Trace(c.(pc := FinLoop(attempts + 1)), run(k).sent)
    ensures var c := run(k).client;
      c.pc == FinWaitDue(attempts) ==> run(k + 1) == Trace(c.(pc := FinWaiting(attempts)), run(k).sent)
  {
    Moves(run, turns, k);
  }

  /** The statements after the FIN loop. */
  lemma LastMoves(run: nat -> Trace, turns: seq<Turn>, k: nat, finAckReceived: bool)
    requires Follows(run, turns) && k < |turns| && turns[k].Main?
    ensures var c := run(k).client;
      c.pc == FinalAckDue(finAckReceived) ==>
        run(k + 1) == Trace(c.(pc := CloseDue(finAckReceived)), Sending(run(k).sent, Transmit(turns[k].ipOk, Ack(0))))
    ensures var c := run(k).client;
      c.pc == CloseDue(finAckReceived) ==>
        run(k + 1) == Trace(c.(sock := c.sock.(state := Closed), pc := Finished), run(k).sent)
  {
    Moves(run, turns, k);
  }

  /** The statements around the wait of mic_tcp_send. */
  lemma WaitMoves(run: nat -> Trace, turns: seq<Turn>, k: nat, msg: Payload, base: U32)
    requires Follows(run, turns) && k < |turns| && turns[k].Main?
    ensures var c := run(k).client;
      c.pc == WaitDue(msg, base) ==> run(k + 1) == Trace(c.(pc := Waiting(msg, base)), run(k).sent)
    ensures var c := run(k).client;
      c.pc == Woken(msg, base) ==>
        run(k + 1) ==
        if c.sock.currentSeqNum != Next(base) then Trace(c.(pc := ReadSeq(msg)), run(k).sent)
        else Trace(c.(sock := Record(c.sock, true), pc := Ready(Delivered)), run(k).sent)
  {
    Moves(run, turns, k);
  }

  /** The end of mic_tcp_connect. */
  lemma Concludes(run: nat -> Trace, turns: seq<Turn>, k: nat)
    requires Follows(run, turns) && k < |turns| && turns[k].Main?
    ensures var c := run(k).client; var n := Negotiate(c.sock.receivedPackets);
      c.pc.NegotiateDue? ==>
        run(k + 1) == Trace(
          if n.Some? then c.(sock := c.sock.(windowSize := WINDOW_SIZE, allowedLosses := n.value), pc := EstablishDue)
          else c.(sock := c.sock.(windowSize := WINDOW_SIZE), pc := CloseEntry), run(k).sent)
    ensures var c := run(k).client;
      c.pc.EstablishDue? ==>
        run(k + 1) == Trace(c.(sock := c.sock.(state := Established), pc := Ready(NoCall)), run(k).sent)
  {
    Moves(run, turns, k);
  }

  lemma Establishes(run: nat -> Trace, turns: seq<Turn>, k: nat)
    requires Follows(run, turns) && k < |turns| && turns[k].Main?
    requires !InSend(run(k).client.pc) && !InClose(run(k).client.pc)
    ensures var o := ConnectStep(run(k).client, turns[k].ipOk);
      run(k + 1) == Trace(o.client, Sending(run(k).sent, o.emitted))
  {
    Moves(run, turns, k);
  }

  /** The connection loop, before there is a listening thread. */
  lemma Connects(run: nat -> Trace, turns: seq<Turn>, k: nat)
    requires Follows(run, turns) && k < |turns|
    requires var c := run(k).client; !c.listening && (c.pc.SynDue? || c.pc.AwaitSynAck?)
    ensures var c, t := run(k).client, turns[k];
      run(k + 1) ==
      if c.pc.SynDue? then
        if t.Main? && t.ipOk then
          Trace(c.(sock := c.sock.(state := SynSent), pc := AwaitSynAck), run(k).sent + [SYN])
        else run(k)
      else
        var pc := if t.Timeout? then SynDue else if t.Deliver? && IsSynAck(t.pdu) then AckDue else AwaitSynAck;
        Trace(c.(pc := pc), run(k).sent)
  {
    Moves(run, turns, k);
  }

  lemma Wakes(run: nat -> Trace, turns: seq<Turn>, k: nat)
    requires Follows(run, turns) && k < |turns| && turns[k].Spurious?
    ensures run(k + 1) == run(k).(client := run(k).client.(pc := Wake(run(k).client.pc)))
  {
    Moves(run, turns, k);
  }

  /** The main thread is between two statements, not waiting for anything. */
  predicate Steady(pc: Pc) {
    !pc.Unconnected? && !pc.AwaitSynAck? && !pc.Ready? && !pc.Waiting? && !pc.FinWaiting? && !pc.Finished?
  }

  // ---- What a schedule holds ----

  /** How often the main thread has its turn among turns[from..to]. */
  function MainTurns(turns: seq<Turn>, from: nat, to: nat): nat
    requires to <= |turns|
  {
    if from >= to then 0 else MainTurns(turns, from, to - 1) + Bit(turns[to - 1].Main?)
  }

  lemma {:induction false} NoMainTurns(turns: seq<Turn>, from: nat, mid: nat, to: nat)
    requires from <= mid <= to <= |turns| && forall k :: mid <= k < to ==> !turns[k].Main?
    ensures MainTurns(turns, from, to) == MainTurns(turns, from, mid)
  {
    if mid < to { NoMainTurns(turns, from, mid, to - 1); }
  }

  function Fins(sent: seq<Pdu>): nat {
    if sent == [] then 0 else Fins(sent[..|sent| - 1]) + Bit(IsFin(sent[|sent| - 1]))
  }

  /** How often IP_send refused a FIN, and the wait for its answer timed out. */
  ghost function RefusedFins(run: nat -> Trace, turns: seq<Turn>, from: nat, to: nat): nat
    requires to <= |turns|
  {
    if from >= to then 0
    else RefusedFins(run, turns, from, to - 1) + Bit(turns[to - 1] == Main(false) && run(to - 1).client.pc.FinDue?)
  }

  ghost function ExpiredFins(run: nat -> Trace, turns: seq<Turn>, from: nat, to: nat): nat
    requires to <= |turns|
  {
    if from >= to then 0
    else ExpiredFins(run, turns, from, to - 1) + Bit(turns[to - 1].Timeout? && run(to - 1).client.pc.FinWaiting?)
  }

  lemma FinsSending(sent: seq<Pdu>, p: Option<Pdu>)
    ensures Fins(Sending(sent, p)) == Fins(sent) + if p.Some? && IsFin(p.value) then 1 else 0
  {
    if p.Some? { assert Sending(sent, p)[..|sent|] == sent; }
  }

  /** FINs sent, refused and timed out since the close began. */
  lemma {:induction false} FinsTally(run: nat -> Trace, turns: seq<Turn>, from: nat, k: nat)
    requires Follows(run, turns) && from <= k <= |turns| && run(from).client.pc.CloseEntry?
    ensures Fins(run(k).sent) >= Fins(run(from).sent) && (InClose(run(k).client.pc) || run(k).client.pc.Finished?)
    ensures Attempts.FinTally(run(k).client.pc, Fins(run(k).sent) - Fins(run(from).sent),
                              RefusedFins(run, turns, from, k), ExpiredFins(run, turns, from, k))
  {
    if k > from {
      FinsTally(run, turns, from, k - 1);
      var c, t := run(k - 1).client, turns[k - 1];
      var o := ClientDo(c, t);
      Moves(run, turns, k - 1);
      FinsSending(run(k - 1).sent, o.emitted);
      Attempts.FinTurn(c, t, Fins(run(k - 1).sent) - Fins(run(from).sent),
                       RefusedFins(run, turns, from, k - 1), ExpiredFins(run, turns, from, k - 1));
    }
  }

  datatype Outcome = Exhausted | Signalled | TimedOut | Broken

  datatype Verdict = InProgress | Ended(result: CallResult)

  class Socket {
    var state: ProtocolState
    var currentSeqNum: U32
    var slidingWindow: nat
    var allowedLosses: int
    var windowSize: nat
    var receivedPackets: nat
    /** The listening thread exists and has not left its loop. */
    var listening: bool

    ghost function Value(): Sock
      reads this
    {
      Sock(state, currentSeqNum, slidingWindow, allowedLosses, windowSize, receivedPackets)
    }

    ghost function At(pc: Pc): Client
      reads this
    {
      Client(Value(), pc, listening)
    }

    /** A freshly bound socket. */
    constructor ()
      ensures Value() == Sock(ProtocolState.Idle, 0, 0, 0, 0, 0) && !listening
    {
      state, currentSeqNum, listening := ProtocolState.Idle, 0, false;
      slidingWindow, allowedLosses, windowSize, receivedPackets := 0, 0, 0, 0;
    }

    /** One more outcome in the history the window stands for. */
    method UpdateSlidingWindow(received: bool)
      modifies this`slidingWindow
      ensures slidingWindow == Push(old(slidingWindow), windowSize, received)
      ensures forall h :: old(slidingWindow) == WindowAfter(h, windowSize) ==>
                            slidingWindow == WindowAfter(h + [received], windowSize)
    {
      slidingWindow := 2 * slidingWindow;
      if received {
        slidingWindow := slidingWindow + 1;
      }
      slidingWindow := slidingWindow % Pow2(windowSize);
      forall h | old(slidingWindow) == WindowAfter(h, windowSize)
        ensures slidingWindow == WindowAfter(h + [received], windowSize)
      {
        assert (h + [received])[..|h|] == h;
      }
    }

    /** Counts the set bits; a loss is acceptable when the last `windowSize` outcomes hold more
        than windowSize - allowedLosses successes. */
    method VerifyAcceptableLoss() returns (result: bool)
      ensures result == Tolerates(slidingWindow, windowSize, allowedLosses)
      ensures forall h :: Sane(windowSize, allowedLosses) && slidingWindow == WindowAfter(h, windowSize) ==>
                            (result <==> Successes(Recent(h, windowSize)) > windowSize - allowedLosses
                                         && allowedLosses <= windowSize)
    {
      var count := 0;
      var window := slidingWindow;
      while window != 0
        invariant count + PopCount(window) == PopCount(slidingWindow)
        decreases window
      {
        count := count + window % 2;
        window := window / 2;
      }
      result := count > Unsigned(windowSize - allowedLosses);
      forall h | Sane(windowSize, allowedLosses) && slidingWindow == WindowAfter(h, windowSize)
        ensures result <==> Successes(Recent(h, windowSize)) > windowSize - allowedLosses && allowedLosses <= windowSize
      {
        ToleratesMeans(h, windowSize, allowedLosses);
      }
    }

    method HandleAwaitingClosingState(pdu: Pdu, ipOk: bool) returns (reply: Option<Pdu>)
      modifies this`state
      ensures Reaction(Value(), reply, false, false) == HandleAwaitingClosing(old(Value()), pdu, ipOk)
    {
      reply := None;
      if VerifyPdu(pdu, 0, 1, 0, 0, 0) {
        state := Closed;
      } else if VerifyPdu(pdu, 0, 0, 1, 0, 0) {
        reply := Transmit(ipOk, CreateNoPayloadPdu(0, 1, 1, 0, 0));
      }
    }

    method ProcessServerPdu(pdu: Pdu, ipOk: bool, buffer: Queue) returns (reply: Option<Pdu>, signal: bool)
      requires buffer.Valid()
      modifies this`state, this`currentSeqNum, buffer, buffer.Repr
      ensures buffer.Valid() && fresh(buffer.Repr - old(buffer.Repr))
      ensures var r := ServerHandle(old(Value()), pdu, ipOk);
        && Value() == r.sock && reply == r.reply && signal == r.signal
        && buffer.entries == old(buffer.entries) + (if r.accepted then [pdu.payload] else [])
    {
      reply, signal := None, false;
      if state != AwaitingClosing && VerifyPdu(pdu, 0, 0, 1, 0, 0) {
        state := AwaitingClosing;
        reply := Transmit(ipOk, CreateNoPayloadPdu(0, 1, 1, 0, 0));
        return;
      }
      match state
      case Accepting =>
        if VerifyPdu(pdu, 1, 0, 0, 0, 0) {
          state := SynReceived;
          signal := true;
        }
      case SynReceived =>
        if VerifyPdu(pdu, 0, 1, 0, 0, 0) {
          state := Established;
          currentSeqNum := 1;
          signal := true;
        }
      case Established =>
        if VerifyPdu(pdu, 0, 0, 0, 0, 0) {
          if IsMeasure(pdu.payload) {
            reply := Transmit(ipOk, CreateNoPayloadPdu(0, 1, 0, 0, 0));
            return;
          }
          if VerifyPdu(pdu, 0, 0, 0, currentSeqNum, 0) {
            currentSeqNum := Next(currentSeqNum);
            buffer.Put(pdu.payload);
          }
          reply := Transmit(ipOk, CreateNoPayloadPdu(0, 1, 0, 0, currentSeqNum));
        }
      case AwaitingClosing =>
        reply := HandleAwaitingClosingState(pdu, ipOk);
      case Closing =>
        signal := VerifyPdu(pdu, 0, 1, 1, 0, 0);
      case _ =>
    }

    method SendConnectionAcknowledgement(ipOk: bool) returns (reply: Option<Pdu>)
      modifies this`state, this`currentSeqNum
      ensures Reaction(Value(), reply, false, false) == Handlers.SendConnectionAcknowledgement(old(Value()), ipOk)
      ensures if ipOk then reply == Some(Ack(0)) && state == Established && currentSeqNum == 1
              else reply == None && Value() == old(Value())
    {
      reply := Transmit(ipOk, CreateNoPayloadPdu(0, 1, 0, 0, 0));
      if reply.Some? {
        state := Established;
        currentSeqNum := 1;
      }
    }

    method ProcessClientPdu(pdu: Pdu, ipOk: bool) returns (reply: Option<Pdu>, signal: bool)
      modifies this`state, this`currentSeqNum, this`receivedPackets
      ensures Reaction(Value(), reply, false, signal) == ClientHandle(old(Value()), pdu, ipOk)
    {
      reply, signal := None, false;
      if VerifyPdu(pdu, 1, 1, 0, 0, 0) {
        reply := SendConnectionAcknowledgement(ipOk);
        return;
      }
      match state
      case MeasuringReliability =>
        if VerifyPdu(pdu, 0, 1, 0, 0, 0) {
          receivedPackets := receivedPackets + 1;
          signal := true;
        }
      case Established =>
        if VerifyPdu(pdu, 0, 1, 0, 0, 0) {
          currentSeqNum := pdu.ackNum;
          signal := true;
        } else if VerifyPdu(pdu, 0, 0, 1, 0, 0) {
          state := AwaitingClosing;
          reply := Transmit(ipOk, CreateNoPayloadPdu(0, 1, 1, 0, 0));
        }
      case AwaitingClosing =>
        reply := HandleAwaitingClosingState(pdu, ipOk);
      case Closing =>
        signal := VerifyPdu(pdu, 0, 1, 1, 0, 0);
      case _ =>
    }

    /** One round of the listening thread's loop: it leaves once the state is CLOSED. */
    method Listen(pdu: Pdu, ipOk: bool) returns (reply: Option<Pdu>, signal: bool)
      modifies this`state, this`currentSeqNum, this`receivedPackets, this`listening
      ensures forall pc: Pc :: !pc.AwaitSynAck? ==>
                             Out(At(if signal then Wake(pc) else pc), reply) == Receive(old(At(pc)), pdu, ipOk)
      ensures listening <==> old(listening) && state != Closed
    {
      reply, signal := None, false;
      if listening {
        reply, signal := ProcessClientPdu(pdu, ipOk);
        listening := state != Closed;
      }
    }

    /** The model after k turns is this socket at pc, with `sent` on the wire. */
    ghost predicate Matches(run: nat -> Trace, k: nat, pc: Pc, sent: seq<Pdu>)
      reads this
    {
      run(k) == Trace(At(pc), sent)
    }

    /** Lets the network thread run until the schedule gives the main thread its turn. */
    method Pause(turns: seq<Turn>, from: nat, before: seq<Pdu>, ghost run: nat -> Trace, ghost pc: Pc)
      returns (used: nat, sent: seq<Pdu>)
      requires Follows(run, turns) && from <= |turns| && Steady(pc) && Matches(run, from, pc, before)
      modifies this`state, this`currentSeqNum, this`receivedPackets, this`listening
      ensures from <= used <= |turns| && Matches(run, used, pc, sent)
      ensures used < |turns| ==> turns[used].Main?
      ensures forall k :: from <= k < used ==> !turns[k].Main?
    {
      used, sent := from, before;
      while used < |turns| && !turns[used].Main?
        invariant from <= used <= |turns| && Matches(run, used, pc, sent)
        invariant forall k :: from <= k < used ==> !turns[k].Main?
      {
        if turns[used].Deliver? {
          Hears(run, turns, used);
          var reply, signal := Listen(turns[used].pdu, turns[used].ipOk);
          sent := Sending(sent, reply);
        } else {
          Skips(run, turns, used);
        }
        used := used + 1;
      }
    }

    /** pthread_cond_timedwait: ends by a signal, or at a turn that ends it otherwise. */
    method Wait(turns: seq<Turn>, from: nat, before: seq<Pdu>, ghost run: nat -> Trace, ghost pc: Pc)
      returns (used: nat, sent: seq<Pdu>, outcome: Outcome)
      requires Follows(run, turns) && from <= |turns| && Matches(run, from, pc, before)
      requires pc.Waiting? || pc.FinWaiting?
      modifies this`state, this`currentSeqNum, this`receivedPackets, this`listening
      ensures from <= used <= |turns| && Matches(run, used, if outcome.Signalled? then Wake(pc) else pc, sent)
      ensures outcome.Exhausted? ==> used == |turns|
      ensures outcome.TimedOut? ==> used < |turns| && turns[used].Timeout?
      ensures outcome.Broken? ==> used < |turns| && turns[used].WaitError?
    {
      used, sent := from, before;
      while used < |turns| && !turns[used].Timeout? && !turns[used].WaitError?
        invariant from <= used <= |turns| && Matches(run, used, pc, sent)
      {
        var signal := false;
        if turns[used].Deliver? {
          Hears(run, turns, used);
          var reply: Option<Pdu>;
          reply, signal := Listen(turns[used].pdu, turns[used].ipOk);
          sent := Sending(sent, reply);
        } else if turns[used].Spurious? {
          Wakes(run, turns, used);
          signal := true;
        } else {
          Skips(run, turns, used);
        }
        used := used + 1;
        if signal { return used, sent, Signalled; }
      }
      outcome := if used == |turns| then Exhausted else if turns[used].Timeout? then TimedOut else Broken;
    }

    /** Builds the packet and notes the number that the expected ACK is counted from. The two reads
        can see different numbers. */
    method PreparePacket(msg: Payload, turns: seq<Turn>, from: nat, before: seq<Pdu>, ghost run: nat -> Trace)
      returns (used: nat, sent: seq<Pdu>, packet: Pdu, base: U32, ready: bool)
      requires Follows(run, turns) && from <= |turns| && Matches(run, from, ReadSeq(msg), before)
      modifies this`state, this`currentSeqNum, this`receivedPackets, this`listening
      ensures from <= used <= |turns| && Matches(run, used, run(used).client.pc, sent)
      ensures if ready then
                && from < used && packet == Data(packet.seqNum, msg)
                && run(used).client.pc == SendDue(msg, packet.seqNum, base)
              else used == |turns| && InSend(run(used).client.pc)
    {
      packet, base, ready := CreateNoPayloadPdu(0, 0, 0, 0, 0), 0, false;
      used, sent := Pause(turns, from, before, run, ReadSeq(msg));
      if used == |turns| { return; }
      Sends(run, turns, used);
      packet := CreateNoPayloadPdu(0, 0, 0, currentSeqNum, 0).(payload := msg);
      used, sent := Pause(turns, used + 1, sent, run, ReadExpected(msg, packet.seqNum));
      if used == |turns| { return; }
      Sends(run, turns, used);
      base := currentSeqNum;
      used, ready := used + 1, true;
    }

    /** The first half of the send loop: prepares the packet and sends it. `verdict` is None when the
        schedule ends first. */
    method SendPacket(msg: Payload, turns: seq<Turn>, from: nat, before: seq<Pdu>, ghost run: nat -> Trace)
      returns (used: nat, sent: seq<Pdu>, base: U32, verdict: Option<bool>)
      requires Follows(run, turns) && from <= |turns| && Matches(run, from, ReadSeq(msg), before)
      modifies this`state, this`currentSeqNum, this`receivedPackets, this`listening
      ensures from <= used <= |turns| && Matches(run, used, run(used).client.pc, sent)
      ensures verdict.None? ==> used == |turns| && InSend(run(used).client.pc)
      ensures verdict.Some? ==>
                from < used && run(used).client.pc == if verdict.value then WaitDue(msg, base) else Ready(Failed)
      ensures verdict.Some? ==> turns[used - 1] == Main(verdict.value)
      ensures verdict == Some(true) ==> exists n: U32 :: sent == run(used - 1).sent + [Data(n, msg)]
      ensures verdict == Some(false) ==> sent == run(used - 1).sent
    {
      verdict := None;
      var packet, ready;
      used, sent, packet, base, ready := PreparePacket(msg, turns, from, before, run);
      if !ready { return; }
      used, sent := Pause(turns, used, sent, run, SendDue(msg, packet.seqNum, base));
      if used == |turns| { return; }
      Sends(run, turns, used);
      verdict := Some(turns[used].ipOk);
      if turns[used].ipOk { sent := sent + [packet]; }
      used := used + 1;
    }

    /** The wait has timed out: tolerates the loss, or has the packet sent again. */
    method GiveUp(msg: Payload, base: U32, turns: seq<Turn>, at: nat, sent: seq<Pdu>, ghost run: nat -> Trace)
      returns (acceptable: bool)
      requires Follows(run, turns) && at < |turns| && turns[at].Timeout? && Matches(run, at, Waiting(msg, base), sent)
      modifies this`slidingWindow
      ensures Matches(run, at + 1, if acceptable then Ready(Tolerated) else ReadSeq(msg), sent)
    {
      TimesOut(run, turns, at);
      acceptable := VerifyAcceptableLoss();
      if acceptable { UpdateSlidingWindow(false); }
    }

    /** The wait has been signalled: looks for the expected number. */
    method CheckAck(msg: Payload, base: U32, turns: seq<Turn>, from: nat, before: seq<Pdu>, ghost run: nat -> Trace)
      returns (used: nat, sent: seq<Pdu>, verdict: Verdict, again: bool)
      requires Follows(run, turns) && from <= |turns| && Matches(run, from, Woken(msg, base), before)
      modifies this`state, this`currentSeqNum, this`receivedPackets, this`listening, this`slidingWindow
      ensures from <= used <= |turns| && Matches(run, used, run(used).client.pc, sent)
      ensures verdict.Ended? ==>
                !again && run(used).client.pc == Ready(verdict.result) && !verdict.result.NoCall?
      ensures verdict.InProgress? ==>
                if again then run(used).client.pc == ReadSeq(msg) else used == |turns| && InSend(run(used).client.pc)
      ensures verdict != Ended(Failed)
    {
      verdict, again := InProgress, false;
      used, sent := Pause(turns, from, before, run, Woken(msg, base));
      if used == |turns| { return; }
      WaitMoves(run, turns, used, msg, base);
      used := used + 1;
      if currentSeqNum != Next(base) { return used, sent, InProgress, true; }
      UpdateSlidingWindow(true);
      verdict := Ended(Delivered);
    }

    /** The second half of the send loop: waits, then tolerates the loss, retries or succeeds. */
    method AwaitAck(msg: Payload, base: U32, turns: seq<Turn>, from: nat, before: seq<Pdu>, ghost run: nat -> Trace)
      returns (used: nat, sent: seq<Pdu>, verdict: Verdict, again: bool)
      requires Follows(run, turns) && from <= |turns| && Matches(run, from, WaitDue(msg, base), before)
      modifies this`state, this`currentSeqNum, this`receivedPackets, this`listening, this`slidingWindow
      ensures from <= used <= |turns| && Matches(run, used, run(used).client.pc, sent)
      ensures verdict.Ended? ==>
                !again && run(used).client.pc == Ready(verdict.result) && !verdict.result.NoCall?
      ensures verdict.InProgress? ==>
                if again then run(used).client.pc == ReadSeq(msg) else used == |turns| && InSend(run(used).client.pc)
      ensures verdict == Ended(Failed) ==> from < used && turns[used - 1].WaitError?
    {
      verdict, again := InProgress, false;
      used, sent := Pause(turns, from, before, run, WaitDue(msg, base));
      if used == |turns| { return; }
      WaitMoves(run, turns, used, msg, base);
      var outcome;
      used, sent, outcome := Wait(turns, used + 1, sent, run, Waiting(msg, base));
      match outcome
      case Exhausted => return;
      case TimedOut =>
        var acceptable := GiveUp(msg, base, turns, used, sent, run);
        return used + 1, sent, if acceptable then Ended(Tolerated) else InProgress, !acceptable;
      case Broken =>
        Breaks(run, turns, used);
        return used + 1, sent, Ended(Failed), false;
      case Signalled =>
        used, sent, verdict, again := CheckAck(msg, base, turns, used, sent, run);
    }

    /** The send loop. */
    method SendUntilOver(msg: Payload, turns: seq<Turn>, from: nat, before: seq<Pdu>, ghost run: nat -> Trace)
      returns (used: nat, sent: seq<Pdu>, verdict: Verdict)
      requires Follows(run, turns) && from <= |turns| && Matches(run, from, ReadSeq(msg), before)
      modifies this`state, this`currentSeqNum, this`receivedPackets, this`listening, this`slidingWindow
      ensures from <= used <= |turns| && Matches(run, used, run(used).client.pc, sent)
      ensures verdict.InProgress? ==> used == |turns| && InSend(run(used).client.pc)
      ensures verdict.Ended? ==> run(used).client.pc == Ready(verdict.result) && !verdict.result.NoCall?
      ensures verdict == Ended(Failed) ==>
                from < used && (turns[used - 1] == Main(false) || turns[used - 1].WaitError?)
    {
      used, sent, verdict := from, before, InProgress;
      while true
        invariant from <= used <= |turns| && verdict == InProgress && Matches(run, used, ReadSeq(msg), sent)
        decreases |turns| - used
      {
        var base, ok;
        used, sent, base, ok := SendPacket(msg, turns, used, sent, run);
        if ok.None? { return; }
        if !ok.value { return used, sent, Ended(Failed); }
        var again;
        used, sent, verdict, again := AwaitAck(msg, base, turns, used, sent, run);
        if !again { return; }
      }
    }

    /** mic_tcp_send: retransmits until the ACK it expects is there or the loss is tolerated. `value` is
        what it returns: the size of the message, 0 for a tolerated loss, or -1. */
    method MicTcpSend(msg: Payload, turns: seq<Turn>, ghost run: nat -> Trace)
      returns (used: nat, sent: seq<Pdu>, verdict: Verdict, value: int)
      requires Follows(run, turns) && turns != [] && turns[0] == CallSend(msg)
      requires run(0).client.pc.Ready? && Matches(run, 0, run(0).client.pc, [])
      modifies this`state, this`currentSeqNum, this`receivedPackets, this`listening, this`slidingWindow
      ensures used <= |turns| && Matches(run, used, run(used).client.pc, sent)
      ensures verdict.InProgress? ==> used == |turns| && InSend(run(used).client.pc)
      ensures verdict.Ended? ==> run(used).client.pc == Ready(verdict.result)
      ensures verdict == Ended(Delivered) ==> value == |msg|
      ensures verdict == Ended(Tolerated) ==> value == 0
      ensures verdict == Ended(Failed) ==>
                && value == -1 && used > 0
                && (old(state) != Established || turns[used - 1] == Main(false) || turns[used - 1].WaitError?)
    {
      Calls(run, turns, 0);
      if state != Established { return 1, [], Ended(Failed), -1; }
      used, sent, verdict := SendUntilOver(msg, turns, 1, [], run);
      value := if verdict == Ended(Delivered) then |msg| else if verdict == Ended(Failed) then -1 else 0;
    }

    /** mic_tcp_close: repeats the FIN until a FIN+ACK comes or the attempts run out, then sends
        the final ACK. `done` is false when the schedule ends first. */
    method MicTcpClose(turns: seq<Turn>, from: nat, before: seq<Pdu>, ghost run: nat -> Trace)
      returns (used: nat, sent: seq<Pdu>, done: bool)
      requires Follows(run, turns) && from <= |turns| && Matches(run, from, CloseEntry, before)
      modifies this`state, this`currentSeqNum, this`receivedPackets, this`listening
      ensures from <= used <= |turns| && Matches(run, used, run(used).client.pc, sent)
      ensures if done then run(used).client.pc.Finished? else used == |turns| && InClose(run(used).client.pc)
      ensures forall k :: from <= k <= used && Attempts.GaveUp(run(k).client.pc) ==>
                            Fins(run(k).sent) - Fins(before) + RefusedFins(run, turns, from, k) == 10
    {
      forall k | from <= k <= |turns| && Attempts.GaveUp(run(k).client.pc)
        ensures Fins(run(k).sent) - Fins(before) + RefusedFins(run, turns, from, k) == 10
      {
        FinsTally(run, turns, from, k);
      }
      done := false;
      used, sent := Pause(turns, from, before, run, CloseEntry);
      if used == |turns| { return; }
      Closes(run, turns, used);
      state := ProtocolState.Closing;
      used := used + 1;
      var attempts := 0;
      var finAckReceived := false;
      while !finAckReceived && attempts < MAX_ATTEMPTS
        invariant from <= used <= |turns| && attempts <= MAX_ATTEMPTS
        invariant Matches(run, used, if finAckReceived then FinalAckDue(true) else FinLoop(attempts), sent)
        decreases MAX_ATTEMPTS - attempts, !finAckReceived
      {
        var outcome;
        used, sent, outcome := SendFin(attempts, turns, used, sent, run);
        match outcome
        case Exhausted => return;
        case TimedOut => attempts := attempts + 1;
        case Broken => return used, sent, true;
        case Signalled => finAckReceived := true;
      }
      used, sent, done := FinishClose(finAckReceived, turns, used, sent, run);
    }

    /** After the loop: the final ACK, then CLOSED. */
    method FinishClose(finAckReceived: bool, turns: seq<Turn>, from: nat, before: seq<Pdu>, ghost run: nat -> Trace)
      returns (used: nat, sent: seq<Pdu>, done: bool)
      requires Follows(run, turns) && from <= |turns| && Matches(run, from, FinalAckDue(finAckReceived), before)
      modifies this`state, this`currentSeqNum, this`receivedPackets, this`listening
      ensures from <= used <= |turns| && Matches(run, used, run(used).client.pc, sent)
      ensures if done then run(used).client.pc.Finished? else used == |turns| && InClose(run(used).client.pc)
    {
      done := false;
      used, sent := Pause(turns, from, before, run, FinalAckDue(finAckReceived));
      if used == |turns| { return; }
      LastMoves(run, turns, used, finAckReceived);
      sent := Sending(sent, Transmit(turns[used].ipOk, CreateNoPayloadPdu(0, 1, 0, 0, 0)));
      used := used + 1;
      used, sent := Pause(turns, used, sent, run, CloseDue(finAckReceived));
      if used == |turns| { return; }
      LastMoves(run, turns, used, finAckReceived);
      state := Closed;
      used, done := used + 1, true;
    }

    /** Sends one FIN and enters the wait; None when the schedule ends first. */
    method EmitFin(attempts: nat, turns: seq<Turn>, from: nat, before: seq<Pdu>, ghost run: nat -> Trace)
      returns (used: nat, sent: seq<Pdu>, ok: Option<bool>)
      requires Follows(run, turns) && from <= |turns| && Matches(run, from, FinDue(attempts), before)
      modifies this`state, this`currentSeqNum, this`receivedPackets, this`listening
      ensures from <= used <= |turns| && Matches(run, used, run(used).client.pc, sent)
      ensures ok.None? ==> used == |turns| && InClose(run(used).client.pc)
      ensures ok == Some(true) ==> run(used).client.pc == FinWaiting(attempts)
      ensures ok == Some(false) ==>
                && from < used && turns[used - 1] == Main(false)
                && run(used).client.pc == if attempts + 1 < 10 then FinDue(attempts + 1) else FinalAckDue(false)
    {
      ok := None;
      used, sent := Pause(turns, from, before, run, FinDue(attempts));
      if used == |turns| { return; }
      FinMoves(run, turns, used, attempts);
      if !turns[used].ipOk { return used + 1, sent, Some(false); }
      sent := sent + [CreateNoPayloadPdu(0, 0, 1, 0, 0)];
      used, sent := Pause(turns, used + 1, sent, run, FinWaitDue(attempts));
      if used == |turns| { return; }
      FinMoves(run, turns, used, attempts);
      used, ok := used + 1, Some(true);
    }

    /** One FIN and the wait for its answer; a FIN that could not be sent counts as a timeout. */
    method SendFin(attempts: nat, turns: seq<Turn>, from: nat, before: seq<Pdu>, ghost run: nat -> Trace)
      returns (used: nat, sent: seq<Pdu>, outcome: Outcome)
      requires Follows(run, turns) && from <= |turns| && Matches(run, from, FinDue(attempts), before)
      modifies this`state, this`currentSeqNum, this`receivedPackets, this`listening
      ensures from <= used <= |turns| && Matches(run, used, run(used).client.pc, sent)
      ensures match outcome
              case Exhausted => used == |turns| && InClose(run(used).client.pc)
              case TimedOut =>
                run(used).client.pc == if attempts + 1 < 10 then FinDue(attempts + 1) else FinalAckDue(false)
              case Broken => run(used).client.pc == Finished
              case Signalled => run(used).client.pc == FinalAckDue(true)
    {
      outcome := Exhausted;
      var ok;
      used, sent, ok := EmitFin(attempts, turns, from, before, run);
      if ok.None? { return; }
      if !ok.value { return used, sent, TimedOut; }
      used, sent, outcome := Wait(turns, used, sent, run, FinWaiting(attempts));
      if outcome.TimedOut? {
        TimesOut(run, turns, used);
        used := used + 1;
      } else if outcome.Broken? {
        Breaks(run, turns, used);
        used := used + 1;
      }
    }

    /** The connection loop of mic_tcp_connect: SYN until a SYN+ACK is received. */
    method Synchronise(turns: seq<Turn>, from: nat, before: seq<Pdu>, ghost run: nat -> Trace)
      returns (used: nat, sent: seq<Pdu>, synackReceived: bool)
      requires Follows(run, turns) && from <= |turns| && !listening && Matches(run, from, SynDue, before)
      modifies this`state
      ensures from <= used <= |turns| && !listening && Matches(run, used, run(used).client.pc, sent)
      ensures if synackReceived then run(used).client.pc.AckDue? else used == |turns|
    {
      used, sent, synackReceived := from, before, false;
      var synToSend := true;
      while used < |turns| && (synToSend || !synackReceived)
        invariant from <= used <= |turns| && (synackReceived ==> !synToSend)
        invariant Matches(run, used, if synackReceived then AckDue else if synToSend then SynDue else AwaitSynAck, sent)
        decreases |turns| - used
      {
        var t := turns[used];
        Connects(run, turns, used);
        if synToSend {
          if t.Main? && t.ipOk {
            sent := sent + [CreateNoPayloadPdu(1, 0, 0, 0, 0)];
            synToSend := false;
            state := SynSent;
          }
        } else if t.Timeout? {
          synToSend := true;
        } else if t.Deliver? {
          synackReceived := VerifyPdu(t.pdu, 1, 1, 0, 0, 0);
        }
        used := used + 1;
      }
    }

    /** The measurement loop: a hundred packets, whatever becomes of each. */
    method Measure(turns: seq<Turn>, from: nat, before: seq<Pdu>, ghost run: nat -> Trace)
      returns (used: nat, sent: seq<Pdu>, done: bool)
      requires Follows(run, turns) && from <= |turns| && Matches(run, from, MeasureDue(0), before)
      modifies this`state, this`currentSeqNum, this`receivedPackets, this`listening
      ensures from <= used <= |turns| && Matches(run, used, run(used).client.pc, sent)
      ensures if done then run(used).client.pc.NegotiateDue? else used == |turns| && run(used).client.pc.MeasureDue?
      ensures done ==> MainTurns(turns, from, used) == 100
    {
      used, sent, done := from, before, false;
      for i := 0 to MEASURE_PACKETS
        invariant from <= used <= |turns| && MainTurns(turns, from, used) == i
        invariant Matches(run, used, if i < MEASURE_PACKETS then MeasureDue(i) else NegotiateDue, sent)
      {
        ghost var mid := used;
        used, sent := Pause(turns, used, sent, run, MeasureDue(i));
        if used == |turns| { return; }
        NoMainTurns(turns, from, mid, used);
        Establishes(run, turns, used);
        var packet := CreateNoPayloadPdu(0, 0, 0, 0, 0).(payload := MEASURING_PAYLOAD);
        sent := Sending(sent, Transmit(turns[used].ipOk, packet));
        used := used + 1;
      }
      done := true;
    }

    /** The computation on received_packets: the allowance, or None to refuse. */
    method NegotiateLoss() returns (allowance: Option<int>)
      ensures allowance == Negotiate(receivedPackets)
      ensures allowance ==
        if receivedPackets >= 99 then Some(0)
        else if receivedPackets >= 96 then Some(1)
        else if receivedPackets >= 89 then Some(2)
        else if receivedPackets >= 80 then Some(3)
        else None
    {
      var successRate := 100.0 * (receivedPackets as real) / (MEASURE_PACKETS as real);
      var lossRate := 100.0 - successRate;
      if lossRate < 2.0 {
        allowance := Some(0);
      } else if lossRate >= 2.0 && lossRate < 5.0 {
        allowance := Some(1);
      } else if lossRate >= 5.0 && lossRate < 12.0 {
        allowance := Some(2);
      } else if lossRate >= 12.0 && lossRate <= 20.0 {
        allowance := Some(3);
      } else {
        allowance := None;
      }
    }

    /** After the SYN+ACK: the connection ACK. None when the schedule ends first. */
    method AcknowledgeConnection(turns: seq<Turn>, from: nat, before: seq<Pdu>, ghost run: nat -> Trace)
      returns (used: nat, sent: seq<Pdu>, ok: Option<bool>)
      requires Follows(run, turns) && from <= |turns| && Matches(run, from, AckDue, before)
      modifies this`state, this`currentSeqNum, this`receivedPackets, this`listening
      ensures from <= used <= |turns| && Matches(run, used, run(used).client.pc, sent)
      ensures ok.None? ==> used == |turns|
      ensures ok.Some? ==> run(used).client.pc == if ok.value then LaunchDue else Finished
    {
      ok := None;
      used, sent := Pause(turns, from, before, run, AckDue);
      if used == |turns| { return; }
      Establishes(run, turns, used);
      var reply := SendConnectionAcknowledgement(turns[used].ipOk);
      sent := Sending(sent, reply);
      used, ok := used + 1, Some(reply.Some?);
    }

    /** The listening thread, then the measuring state. None when the schedule ends first. */
    method StartMeasuring(turns: seq<Turn>, from: nat, before: seq<Pdu>, ghost run: nat -> Trace)
      returns (used: nat, sent: seq<Pdu>, ready: Option<bool>)
      requires Follows(run, turns) && from <= |turns| && Matches(run, from, LaunchDue, before)
      modifies this`state, this`currentSeqNum, this`receivedPackets, this`listening
      ensures from <= used <= |turns| && Matches(run, used, run(used).client.pc, sent)
      ensures ready.None? ==> used == |turns|
      ensures ready.Some? ==> run(used).client.pc == if ready.value then MeasureDue(0) else Finished
    {
      ready := None;
      used, sent := Pause(turns, from, before, run, LaunchDue);
      if used == |turns| { return; }
      Establishes(run, turns, used);
      if !turns[used].ipOk { return used + 1, sent, Some(false); }
      listening := true;
      used, sent := Pause(turns, used + 1, sent, run, MeasuringDue);
      if used == |turns| { return; }
      Establishes(run, turns, used);
      state := MeasuringReliability;
      used, ready := used + 1, Some(true);
    }

    /** mic_tcp_connect, from its call on. `result` is 0 or -1; None when the schedule ends first. */
    method MicTcpConnect(turns: seq<Turn>, ghost run: nat -> Trace)
      returns (used: nat, sent: seq<Pdu>, result: Option<int>)
      requires Follows(run, turns) && turns != [] && turns[0] == CallConnect
      requires !listening && Matches(run, 0, Unconnected, [])
      modifies this`state, this`currentSeqNum, this`receivedPackets, this`listening, this`windowSize, this`allowedLosses
      ensures used <= |turns| && Matches(run, used, run(used).client.pc, sent)
      ensures result.None? ==> used == |turns|
      ensures result == Some(0) ==> run(used).client.pc == Ready(NoCall)
      ensures result == Some(-1) ==> run(used).client.pc.Finished?
      ensures result.Some? ==> result.value == 0 || result.value == -1
    {
      result := None;
      Moves(run, turns, 0);
      used, sent := 1, [];
      var go;
      used, sent, go := Synchronise(turns, used, sent, run);
      if !go { return; }
      var ok;
      used, sent, ok := AcknowledgeConnection(turns, used, sent, run);
      if ok.None? { return; }
      if !ok.value { return used, sent, Some(-1); }
      used, sent, ok := StartMeasuring(turns, used, sent, run);
      if ok.None? { return; }
      if !ok.value { return used, sent, Some(-1); }
      used, sent, go := Measure(turns, used, sent, run);
      if !go { return; }
      used, sent, result := Conclude(turns, used, sent, run);
    }

    /** The end of mic_tcp_connect: sets the window, then establishes or closes. */
    method Conclude(turns: seq<Turn>, from: nat, before: seq<Pdu>, ghost run: nat -> Trace)
      returns (used: nat, sent: seq<Pdu>, result: Option<int>)
      requires Follows(run, turns) && from <= |turns| && Matches(run, from, NegotiateDue, before)
      modifies this`state, this`currentSeqNum, this`receivedPackets, this`listening, this`windowSize, this`allowedLosses
      ensures from <= used <= |turns| && Matches(run, used, run(used).client.pc, sent)
      ensures result.None? ==> used == |turns|
      ensures result == Some(0) ==> run(used).client.pc == Ready(NoCall)
      ensures result == Some(-1) ==> run(used).client.pc.Finished?
      ensures result.Some? ==> result.value == 0 || result.value == -1
    {
      result := None;
      used, sent := Pause(turns, from, before, run, NegotiateDue);
      if used == |turns| { return; }
      Concludes(run, turns, used);
      var allowance := NegotiateLoss();
      windowSize := WINDOW_SIZE;
      used := used + 1;
      if allowance.None? {
        var done;
        used, sent, done := MicTcpClose(turns, used, sent, run);
        return used, sent, if done then Some(-1) else None;
      }
      allowedLosses := allowance.value;
      used, sent := Pause(turns, used, sent, run, EstablishDue);
      if used == |turns| { return; }
      Concludes(run, turns, used);
      state := Established;
      used, result := used + 1, Some(0);
    }
  }
}
