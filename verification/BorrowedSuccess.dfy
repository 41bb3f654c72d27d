/** For every history of results that ends in a call the server did not acknowledge: a run with that
    history in which the next mic_tcp_send reports success for a message the server never accepts,
    because its slot was taken by the message of the call before. */
module BorrowedSuccess {
  import opened Pdus
  import opened SlidingWindow
  import opened Handlers
  import opened Threads
  import opened Systems
  import opened LockStep
  import opened Runs
  import opened CallHistory
  import Handshake
  import Window

  /** The message of the calls that do not matter. */
  const FILLER: Payload := "x"

  /** The log of a run whose calls returned h. */
  ghost predicate Logged(st: State, h: seq<CallResult>) {
    var g := st.log;
    && |g.msgs| == |g.numbers| == |h| && g.completed == Completions(h)
    && (forall f :: f in g.accepted ==> f.call <= |h|) && |g.accepted| <= |h|
    && PlainMessages(st)
  }

  ghost predicate Windowed(s: Sock, h: seq<CallResult>, allowed: int) {
    && s.allowedLosses == allowed && s.windowSize == WINDOW_SIZE
    && s.slidingWindow == WindowAfter(Window.Outcomes(Completions(h)), WINDOW_SIZE)
  }

  /** The calls returned h, both ends are at number k, and nothing is in flight. */
  ghost predicate Even(st: State, h: seq<CallResult>, k: U32, allowed: int) {
    && Resting(st.client) && Serving(st.server) && Handshake.Served(st.server.pc) && st.up == [] && st.down == []
    && ClientNumber(st) == k == ServerNumber(st) && 1 <= k <= |h| + 1 < MOD32
    && k == |st.log.accepted| + 1
    && Logged(st, h) && Windowed(st.client.sock, h, allowed)
  }

  // ---- One call of the history ----

  lemma LoggedNext(st: State, st': State, h: seq<CallResult>, msg: Payload, o: CallResult)
    requires Logged(st, h) && IsText(msg)
    requires st'.log.msgs == st.log.msgs + [msg] && |st'.log.numbers| == |st.log.numbers| + 1
    requires st'.log.completed == st.log.completed + CompletionOf(|h| + 1, o)
    requires forall f :: f in st'.log.accepted ==> f in st.log.accepted || f.call == |h| + 1
    requires |st'.log.accepted| <= |h| + 1
    ensures Logged(st', h + [o])
  {
    CompletionsSnoc(h, o);
  }

  lemma WindowedNext(s: Sock, s': Sock, h: seq<CallResult>, o: CallResult, allowed: int)
    requires Windowed(s, h, allowed) && (o.Failed? || o.Tolerated? || o.Delivered?)
    requires var t := if o.Failed? then s else Record(s, o.Delivered?);
      t.slidingWindow == s'.slidingWindow && t.allowedLosses == s'.allowedLosses && t.windowSize == s'.windowSize
    ensures Windowed(s', h + [o], allowed)
  {
    CompletionsSnoc(h, o);
    if o.Failed? {
      assert Completions(h + [o]) == Completions(h);
    } else {
      WindowRecords(h, o);
    }
  }

  lemma ExchangedAfter(st: State, st': State, h: seq<CallResult>, k: U32, allowed: int, sock: Sock)
    requires Even(st, h, k, allowed) && |h| + 2 < MOD32
    requires sock == Record(st.client.sock.(currentSeqNum := k + 1), true)
    requires st' == Over(Accepted(Transmitted(st, FILLER)).(down := []), sock, Delivered)
    ensures Even(st', h + [Delivered], k + 1, allowed)
  {
    LoggedNext(st, st', h, FILLER, Delivered);
    WindowedNext(st.client.sock, sock, h, Delivered, allowed);
  }

  lemma ShedAfter(st: State, st': State, h: seq<CallResult>, k: U32, allowed: int, o: CallResult, sock: Sock)
    requires Even(st, h, k, allowed) && |h| + 2 < MOD32 && (o.Failed? || o.Tolerated?)
    requires sock == if o.Failed? then st.client.sock else Record(st.client.sock, false)
    requires st' == Over(Transmitted(st, FILLER).(up := [], down := []), sock, o)
    ensures Even(st', h + [o], k, allowed)
  {
    LoggedNext(st, st', h, FILLER, o);
    WindowedNext(st.client.sock, sock, h, o, allowed);
  }

  /** One call that goes well. */
  lemma Exchange(r: Run, h: seq<CallResult>, k: U32, allowed: int) returns (r': Run)
    requires Real(r) && Even(r.st, h, k, allowed) && |h| + 2 < MOD32
    ensures Continues(r, r') && Even(r'.st, h + [Delivered], k + 1, allowed)
  {
    r' := TransmitOnce(r, FILLER);
    r' := Accept(r');
    r' := Answer(r', FILLER, k);
    ExchangedAfter(r.st, r'.st, h, k, allowed, r'.st.client.sock);
  }

  /** One call whose packet is lost, and whose wait is given up after that. */
  lemma Shed(r: Run, h: seq<CallResult>, k: U32, allowed: int, o: CallResult) returns (r': Run)
    requires Real(r) && Even(r.st, h, k, allowed) && |h| + 2 < MOD32
    requires o.Failed? || (o.Tolerated? && Tolerates(r.st.client.sock.slidingWindow, WINDOW_SIZE, allowed))
    ensures Continues(r, r') && Even(r'.st, h + [o], k, allowed)
  {
    r' := TransmitOnce(r, FILLER);
    r' := Silence(r');
    r' := GiveUp(r', o);
    ShedAfter(r.st, r'.st, h, k, allowed, o, r'.st.client.sock);
  }

  lemma Begin(start: State) returns (r: Run)
    requires Drained(start)
    ensures Continues(At(CALM, start), r) && Even(r.st, [], 1, start.client.sock.allowedLosses)
  {
    r := Silence(At(CALM, start));
    assert Window.Outcomes([]) == [];
  }

  /** A run in which the calls return h and both ends agree. */
  lemma {:induction false} Replay(start: State, h: seq<CallResult>) returns (r: Run, k: U32)
    requires Drained(start) && Returns(h) && |h| + 1 < MOD32
    requires Affordable(h, start.client.sock.allowedLosses)
    ensures Continues(At(CALM, start), r) && Even(r.st, h, k, start.client.sock.allowedLosses)
  {
    var allowed := start.client.sock.allowedLosses;
    if h == [] {
      k := 1;
      r := Begin(start);
    } else {
      var before, o := h[..|h| - 1], h[|h| - 1];
      assert h == before + [o];
      AffordablePrefix(before, o, allowed);
      r, k := Replay(start, before);
      if o.Delivered? {
        r := Exchange(r, before, k, allowed);
        k := k + 1;
      } else {
        r := Shed(r, before, k, allowed, o);
      }
    }
  }

  // ---- The borrowed success ----

  /** The last call's message, a, was accepted, but the call returned without its ACK, which is
      still in flight. */
  ghost predicate GivenUp(st: State, h: seq<CallResult>, k: U32, a: Payload) {
    && h != [] && Resting(st.client) && ClientNumber(st) == k && 1 <= k <= |h| < MOD32 - 1
    && st.up == [] && st.down == [Ack(k + 1)]
    && Logged(st, h) && |st.log.accepted| == k
    && st.log.accepted[k - 1] == Flight(Data(k, a), |h|)
  }

  lemma GivenUpAfter(even: State, st: State, h: seq<CallResult>, k: U32, allowed: int, o: CallResult, a: Payload,
                     sock: Sock)
    requires Even(even, h, k, allowed) && |h| + 2 < MOD32 && IsText(a)
    requires sock.state == Established && sock.currentSeqNum == k
    requires st == Over(Accepted(Transmitted(even, a)), sock, o)
    ensures GivenUp(st, h + [o], k, a)
  {
    LoggedNext(even, st, h, a, o);
  }

  lemma LoseTheAck(start: State, h: seq<CallResult>, o: CallResult, a: Payload) returns (r: Run, k: U32)
    requires Drained(start) && Returns(h) && |h| + 2 < MOD32 && (o.Failed? || o.Tolerated?)
    requires Affordable(h + [o], start.client.sock.allowedLosses) && IsText(a)
    ensures Continues(At(CALM, start), r) && GivenUp(r.st, h + [o], k, a)
  {
    AffordablePrefix(h, o, start.client.sock.allowedLosses);
    r, k := Replay(start, h);
    var even := r.st;
    r := TransmitOnce(r, a);
    r := Accept(r);
    r := GiveUp(r, o);
    GivenUpAfter(even, r.st, h, k, start.client.sock.allowedLosses, o, a, r.st.client.sock);
  }

  /** Call |h| + 1, for message b, was reported delivered; the slot of its number holds message a of
      the call before, and no slot holds a payload of its own. */
  ghost predicate Borrowed(g: Log, h: seq<CallResult>, k: U32, a: Payload, b: Payload) {
    && g.completed == Completions(h + [Delivered])
    && |g.msgs| == |g.numbers| == |h| + 1 && g.msgs[|h|] == b && g.numbers[|h|] == k
    && 1 <= k <= |g.accepted| && g.accepted[k - 1] == Flight(Data(k, a), |h|)
    && forall f :: f in g.accepted ==> f.call <= |h|
  }

  lemma BorrowedAfter(early: State, st: State, h: seq<CallResult>, k: U32, a: Payload, b: Payload, sock: Sock)
    requires GivenUp(early, h, k, a) && IsText(b)
    requires st == Over(Transmitted(early, b).(down := []), sock, Delivered)
    ensures Borrowed(st.log, h, k, a, b) && Tame(st)
  {
    LoggedNext(early, st, h, b, Delivered);
  }

  lemma Borrow(start: State, h: seq<CallResult>, o: CallResult, a: Payload, b: Payload) returns (r: Run, k: U32)
    requires Drained(start) && Returns(h) && |h| + 2 < MOD32 && (o.Failed? || o.Tolerated?)
    requires Affordable(h + [o], start.client.sock.allowedLosses) && IsText(a) && IsText(b)
    ensures Continues(At(CALM, start), r) && Borrowed(r.st.log, h + [o], k, a, b)
    ensures Tame(r.st) && r.st.client.pc.Ready?
  {
    r, k := LoseTheAck(start, h, o, a);
    var early := r.st;
    r := TransmitOnce(r, b);
    r := Answer(r, b, k);
    BorrowedAfter(early, r.st, h + [o], k, a, b, r.st.client.sock);
  }

  /** From every drained start, after every affordable history that ends in a tolerated loss or in a
      -1, some run in order and without duplication reports b delivered although only a was. */
  lemma SuccessCanBeBorrowed(start: State, h: seq<CallResult>, o: CallResult, a: Payload, b: Payload)
    requires Drained(start) && Returns(h) && |h| + 2 < MOD32 && (o.Failed? || o.Tolerated?)
    requires Affordable(h + [o], start.client.sock.allowedLosses) && IsText(a) && IsText(b)
    ensures exists acts, k :: Borrowed(Exec(CALM, start, acts).log, h + [o], k, a, b)
  {
    var r, k := Borrow(start, h, o, a, b);
    assert Borrowed(Exec(CALM, start, r.acts).log, h + [o], k, a, b);
  }
}
