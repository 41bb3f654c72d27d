/** What the caller of mic_tcp_send sees: how its calls returned, in order. */
module CallHistory {
  import opened SlidingWindow
  import opened LossBudget
  import opened Threads
  import opened Systems
  import LockStep
  import Window

  /** The completions that calls with these results leave in the log. */
  function Completions(h: seq<CallResult>): seq<Completion> {
    if h == [] then []
    else Completions(h[..|h| - 1]) + CompletionOf(|h|, h[|h| - 1])
  }

  function CompletionOf(call: nat, r: CallResult): seq<Completion> {
    if r.Tolerated? || r.Delivered? then [Completion(call, r.Delivered?)] else []
  }

  /** Every call returned -1, or as a tolerated loss, or as acknowledged. */
  predicate Returns(h: seq<CallResult>) { forall i :: 0 <= i < |h| ==> !h[i].NoCall? }

  /** The window lets the tolerated losses of this history happen. */
  ghost predicate Affordable(h: seq<CallResult>, allowed: int) {
    Earned(Window.Outcomes(Completions(h)), WINDOW_SIZE, allowed)
  }

  lemma CompletionsSnoc(h: seq<CallResult>, r: CallResult)
    ensures Completions(h + [r]) == Completions(h) + CompletionOf(|h| + 1, r)
  {
    assert (h + [r])[..|h|] == h;
  }

  lemma AffordablePrefix(h: seq<CallResult>, r: CallResult, allowed: int)
    requires Affordable(h + [r], allowed)
    ensures Affordable(h, allowed)
    ensures r.Tolerated? ==> Tolerates(WindowAfter(Window.Outcomes(Completions(h)), WINDOW_SIZE), WINDOW_SIZE, allowed)
  {
    var o := Window.Outcomes(Completions(h));
    var o' := Window.Outcomes(Completions(h + [r]));
    CompletionsSnoc(h, r);
    assert o'[..|o|] == o;
    EarnedPrefix(o', |o|, WINDOW_SIZE, allowed);
    if r.Tolerated? { assert !o'[|o|]; }
  }

  lemma WindowSnoc(o: seq<bool>, ok: bool, size: nat)
    ensures WindowAfter(o + [ok], size) == Push(WindowAfter(o, size), size, ok)
  {
    assert (o + [ok])[..|o|] == o;
  }

  /** The window after one more completed call. */
  lemma WindowRecords(h: seq<CallResult>, r: CallResult)
    requires r.Tolerated? || r.Delivered?
    ensures WindowAfter(Window.Outcomes(Completions(h + [r])), WINDOW_SIZE)
         == Push(WindowAfter(Window.Outcomes(Completions(h)), WINDOW_SIZE), WINDOW_SIZE, r.Delivered?)
  {
    CompletionsSnoc(h, r);
    LockStep.OutcomesGrow(Completions(h), Completion(|h| + 1, r.Delivered?));
    WindowSnoc(Window.Outcomes(Completions(h)), r.Delivered?, WINDOW_SIZE);
  }
}
