/** Client, server and the two channels between them, with a log of what happened.
    Every theorem about runs is about `Exec`, for every sequence of actions. */
module Systems {
  import opened Pdus
  import opened Handlers
  import opened Threads

  /** Every channel may lose PDUs; a discipline says what else it may do. */
  datatype Discipline = Discipline(reorders: bool, duplicates: bool)

  /** The assumptions a theorem makes. `atomicWait`: the client's network thread does not run
      between two statements of mic_tcp_send, only while it waits. `atomicAccept`: the server's
      does not run between mic_tcp_accept's state check and its SYN+ACK. `spurious`: a wait may
      end without a signal (which also covers a signal sent later than its update). */
  datatype Env = Env(up: Discipline, down: Discipline, atomicWait: bool, atomicAccept: bool, spurious: bool)

  /** Both directions keep order and do not duplicate. */
  predicate Fifo(env: Env) { env.up == Discipline(false, false) && env.down == Discipline(false, false) }

  /** A PDU sent by the client, with the number of send calls made by then. No handler reads
      the number. */
  datatype Flight = Flight(pdu: Pdu, call: nat)

  /** A send call that returned other than -1. */
  datatype Completion = Completion(call: nat, ok: bool)

  /** A mic_tcp_recv that returned. */
  datatype Receipt = Receipt(max: nat, data: Payload)

  datatype Log = Log(
    msgs: seq<Payload>,             // the message of each send call that got past the state check
    numbers: seq<U32>,              // current_seq_num when that call was made
    transmitted: seq<Flight>,       // everything the client sent
    accepted: seq<Flight>,          // everything the server accepted
    completed: seq<Completion>,
    received: seq<Receipt>,
    connected: bool,                // mic_tcp_connect returned 0
    measured: nat,                  // received_packets when the loss rate was computed
    gotSynAck: bool,                // the client received a SYN+ACK
    serverUp: bool,                 // the server has been ESTABLISHED
    sawFin: bool,                   // the server has been AWAITING_CLOSING
    finalAck: bool)                 // mic_tcp_close sent its last ACK

  datatype State = State(client: Client, server: Server, up: seq<Flight>, down: seq<Pdu>, log: Log)

  datatype Action =
    | ClientTurn(turn: Turn)
    | ServerTurn(acceptTurn: AcceptTurn)
    | DeliverUp(i: nat, keep: bool, ipOk: bool)
    | DeliverDown(i: nat, keep: bool, ipOk: bool)
    | LoseUp(i: nat)
    | LoseDown(i: nat)
    | Recv(max: nat)

  const INITIAL_SOCK: Sock := Sock(ProtocolState.Idle, 0, 0, 0, 0, 0)

  const INITIAL: State := State(
    Client(INITIAL_SOCK, Unconnected, false),
    Server(INITIAL_SOCK, NotCalled, []),
    [], [],
    Log([], [], [], [], [], [], false, 0, false, false, false, false))

  function RemoveAt<T>(s: seq<T>, i: nat): (r: seq<T>)
    requires i < |s|
    ensures |r| == |s| - 1
    ensures forall j :: 0 <= j < |r| ==> r[j] == s[if j < i then j else j + 1]
  {
    s[..i] + s[i + 1..]
  }

  predicate CanDeliver<T>(d: Discipline, chan: seq<T>, i: nat, keep: bool) {
    i < |chan| && (d.reorders || i == 0) && (keep ==> d.duplicates)
  }

  function Rest<T>(chan: seq<T>, i: nat, keep: bool): seq<T>
    requires i < |chan|
  {
    if keep then chan else RemoveAt(chan, i)
  }

  /** Something at the client is ready to receive a PDU. */
  predicate Receptive(c: Client) { c.listening || c.pc.AwaitSynAck? }

  /** The main thread is not between two statements of mic_tcp_send. */
  predicate Settled(pc: Pc) { InSend(pc) ==> pc.Waiting? }

  function Append(chan: seq<Flight>, p: Option<Pdu>, call: nat): seq<Flight> {
    if p.Some? then chan + [Flight(p.value, call)] else chan
  }

  function AppendPdu(chan: seq<Pdu>, p: Option<Pdu>): seq<Pdu> {
    if p.Some? then chan + [p.value] else chan
  }

  predicate StartsCall(c: Client, t: Turn) {
    t.CallSend? && c.pc.Ready? && c.sock.state == Established
  }

  /** The send call in progress just completed. */
  predicate Completes(before: Pc, after: Pc) {
    InSend(before) && after.Ready? && (after.result.Delivered? || after.result.Tolerated?)
  }

  /** The client takes turn t with outcome o. */
  function Advance(st: State, t: Turn, o: Out): State {
    var c := st.client;
    var calls := |st.log.msgs| + if StartsCall(c, t) then 1 else 0;
    State(o.client, st.server, Append(st.up, o.emitted, calls), st.down,
          st.log.(
          msgs := if StartsCall(c, t) then st.log.msgs + [t.msg] else st.log.msgs,
          numbers := if StartsCall(c, t) then st.log.numbers + [c.sock.currentSeqNum] else st.log.numbers,
          transmitted := Append(st.log.transmitted, o.emitted, calls),
          completed := if Completes(c.pc, o.client.pc)
                       then st.log.completed + [Completion(calls, o.client.pc.result.Delivered?)]
                       else st.log.completed,
          connected := st.log.connected || o.client.pc.Ready?,
          measured := if c.pc.NegotiateDue? && t.Main? then c.sock.receivedPackets else st.log.measured,
          gotSynAck := st.log.gotSynAck || (t.Deliver? && Receptive(c) && IsSynAck(t.pdu)),
          finalAck := st.log.finalAck || (c.pc.FinalAckDue? && t.Main? && o.emitted.Some?)))
  }

  function ApplyClient(st: State, t: Turn): State {
    Advance(st, t, ClientDo(st.client, t))
  }

  /** The server's network thread handles f with reaction r. */
  function React(st: State, f: Flight, r: Reaction): State {
    st.(server := Absorb(st.server, f.pdu.payload, r),
    down := AppendPdu(st.down, r.reply),
    log := st.log.(
           accepted := if r.accepted then st.log.accepted + [f] else st.log.accepted,
           serverUp := st.log.serverUp || r.sock.state == Established,
           sawFin := st.log.sawFin || r.sock.state == AwaitingClosing))
  }

  function ApplyServer(st: State, f: Flight, ipOk: bool): State {
    React(st, f, ServerHandle(st.server.sock, f.pdu, ipOk))
  }

  /** mic_tcp_accept is called once. */
  function ApplyAccept(st: State, t: AcceptTurn): State {
    if t.AcceptCall? && !st.server.pc.NotCalled? then st else
    var o := AcceptDo(st.server, t);
    st.(server := o.server, down := AppendPdu(st.down, o.emitted))
  }

  function MinSize(a: nat, b: nat): nat { if a <= b then a else b }

  /** A caller with room for `max` bytes gets `data` of p: all of it if it fits, else its first bytes. */
  predicate Fits(data: Payload, p: Payload, max: nat) {
    && data <= p && |data| <= max
    && (|p| <= max ==> data == p)
    && (|p| > max ==> |data| == max)
  }

  /** What app_buffer_get copies to a caller with room for `max` bytes. */
  function Cut(p: Payload, max: nat): (data: Payload)
    ensures Fits(data, p, max)
  {
    p[..MinSize(|p|, max)]
  }

  lemma FitsOnce(data: Payload, p: Payload, max: nat)
    requires Fits(data, p, max)
    ensures data == Cut(p, max)
  {
  }

  function ApplyRecv(st: State, max: nat): State {
    var b := st.server.buffer;
    if b == [] then st  // the caller waits
    else st.(server := st.server.(buffer := b[1..]),
      log := st.log.(received := st.log.received + [Receipt(max, Cut(b[0], max))]))
  }

  /** One step. An action the environment or the state rules out changes nothing. */
  function Do(env: Env, st: State, a: Action): State {
    match a
    case ClientTurn(t) =>
      if t.Deliver? || (t.Spurious? && !env.spurious) then st else ApplyClient(st, t)
    case ServerTurn(t) =>
      if t.AcceptSpurious? && !env.spurious then st else ApplyAccept(st, t)
    case DeliverUp(i, keep, ipOk) =>
      if CanDeliver(env.up, st.up, i, keep) && (env.atomicAccept ==> !st.server.pc.SynAckDue?)
      then ApplyServer(st.(up := Rest(st.up, i, keep)), st.up[i], ipOk)
      else st
    case DeliverDown(i, keep, ipOk) =>
      if CanDeliver(env.down, st.down, i, keep) && Receptive(st.client) && (env.atomicWait ==> Settled(st.client.pc))
      then ApplyClient(st.(down := Rest(st.down, i, keep)), Deliver(st.down[i], ipOk))
      else st
    case LoseUp(i) => if i < |st.up| then st.(up := RemoveAt(st.up, i)) else st
    case LoseDown(i) => if i < |st.down| then st.(down := RemoveAt(st.down, i)) else st
    case Recv(max) => ApplyRecv(st, max)
  }

  function Exec(env: Env, st: State, acts: seq<Action>): State {
    if acts == [] then st
    else Do(env, Exec(env, st, acts[..|acts| - 1]), acts[|acts| - 1])
  }

  // ---- The bound the sequence numbers need, and its monotonicity ----

  /** Fewer payloads accepted than there are non-zero sequence numbers. */
  predicate NoWrap(st: State) { |st.log.accepted| < MOD32 - 1 }

  /** The logs later states only add to. */
  predicate Grows(g: Log, g': Log) {
    && g.accepted <= g'.accepted && g.msgs <= g'.msgs
    && g.completed <= g'.completed && g.transmitted <= g'.transmitted
  }

  lemma AdvanceGrows(st: State, t: Turn, o: Out)
    ensures Grows(st.log, Advance(st, t, o).log)
  {
  }

  lemma LogsGrow(env: Env, st: State, a: Action)
    ensures Grows(st.log, Do(env, st, a).log)
  {
    match a
    case ClientTurn(t) => AdvanceGrows(st, t, ClientDo(st.client, t));
    case DeliverDown(i, keep, ipOk) =>
      if i < |st.down| {
        var t := Deliver(st.down[i], ipOk);
        AdvanceGrows(st.(down := Rest(st.down, i, keep)), t, ClientDo(st.client, t));
      }
    case _ =>
  }

  lemma ExecStep(env: Env, st: State, acts: seq<Action>, a: Action)
    ensures Exec(env, st, acts + [a]) == Do(env, Exec(env, st, acts), a)
  {
    assert (acts + [a])[..|acts|] == acts;
  }
}
