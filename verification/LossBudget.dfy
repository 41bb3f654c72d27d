/** How many losses the window lets a run of sends tolerate. */
module LossBudget {
  import opened SlidingWindow

  /** Window sizes for which the mask fits an `int`, and allowances for which the
      subtraction size - allowed does not overflow. */
  predicate Sane(size: nat, allowed: int) {
    1 <= size <= 30 && allowed < 0x8000_0000 && size - allowed < 0x8000_0000
  }

  /** A history the send loop can produce: each tolerated loss passed the test of
      `Tolerates` on the window left by the outcomes before it. */
  ghost predicate Earned(h: seq<bool>, size: nat, allowed: int) {
    forall i :: 0 <= i < |h| && !h[i] ==> Tolerates(WindowAfter(h[..i], size), size, allowed)
  }

  lemma EarnedPrefix(h: seq<bool>, k: nat, size: nat, allowed: int)
    requires Earned(h, size, allowed) && k <= |h|
    ensures Earned(h[..k], size, allowed)
  {
    forall i | 0 <= i < k && !h[..k][i]
      ensures Tolerates(WindowAfter(h[..k][..i], size), size, allowed)
    {
      assert h[..k][..i] == h[..i];
      assert !h[i];
    }
  }

  lemma EarnedAppend(h: seq<bool>, b: bool, size: nat, allowed: int)
    requires Earned(h, size, allowed)
    requires b || Tolerates(WindowAfter(h, size), size, allowed)
    ensures Earned(h + [b], size, allowed)
  {
    forall i | 0 <= i < |h + [b]| && !(h + [b])[i]
      ensures Tolerates(WindowAfter((h + [b])[..i], size), size, allowed)
    {
      assert (h + [b])[..i] == h[..i];
      if i < |h| { assert !h[i]; } else { assert h[..i] == h; }
    }
  }

  lemma {:induction false} CountsSplit(a: seq<bool>, b: seq<bool>)
    ensures Successes(a + b) == Successes(a) + Successes(b)
    ensures Losses(a + b) == Losses(a) + Losses(b)
  {
    if b == [] {
      assert a + b == a;
    } else {
      assert (a + b)[..|a + b| - 1] == a + b[..|b| - 1];
      CountsSplit(a, b[..|b| - 1]);
    }
  }

  lemma {:induction false} CountsTotal(h: seq<bool>)
    ensures Successes(h) + Losses(h) == |h|
  {
    if h != [] { CountsTotal(h[..|h| - 1]); }
  }

  /** What one tolerated loss says about the outcomes just before it. */
  lemma LossIsEarned(h: seq<bool>, size: nat, allowed: int, k: nat)
    requires Earned(h, size, allowed) && Sane(size, allowed)
    requires k < |h| && !h[k]
    ensures 1 <= allowed <= size
    ensures Successes(Recent(h[..k], size)) >= size - allowed + 1
  {
    CountsTotal(Recent(h[..k], size));
    ToleratesMeans(h[..k], size, allowed);
    assert Tolerates(WindowAfter(h[..k], size), size, allowed);
  }

  lemma ToleratesMeans(h: seq<bool>, size: nat, allowed: int)
    requires Sane(size, allowed)
    ensures Tolerates(WindowAfter(h, size), size, allowed)
       <==> Successes(Recent(h, size)) > size - allowed && allowed <= size
  {
    WindowRefinesHistory(h, size);
    CountsTotal(Recent(h, size));
    UnsignedOf(size - allowed);
  }

  lemma UnsignedOf(x: int)
    requires -0x8000_0000 <= x < 0x8000_0000
    ensures Unsigned(x) == if x >= 0 then x else x + 0x1_0000_0000
  {
  }

  /** Any `size` consecutive outcomes hold at most `allowed` losses (none when it is negative). */
  lemma {:induction false} WindowBudget(h: seq<bool>, size: nat, allowed: int, i: nat, j: nat)
    requires Earned(h, size, allowed) && Sane(size, allowed)
    requires i <= j <= |h| && j - i <= size
    ensures Losses(h[i..j]) <= if allowed < 0 then 0 else allowed
    decreases j
  {
    if i < j {
      LastOutcome(h, i, j);
      if h[j - 1] {
        WindowBudget(h, size, allowed, i, j - 1);
      } else {
        LossesBefore(h, size, allowed, i, j - 1);
      }
    }
  }

  lemma LastOutcome(h: seq<bool>, i: nat, j: nat)
    requires i < j <= |h|
    ensures Losses(h[i..j]) == Losses(h[i..j - 1]) + Bit(!h[j - 1])
  {
    var w := h[i..j];
    assert w[..|w| - 1] == h[i..j - 1];
  }

  /** A tolerated loss at k leaves room for fewer than `allowed` losses just before it. */
  lemma LossesBefore(h: seq<bool>, size: nat, allowed: int, i: nat, k: nat)
    requires Earned(h, size, allowed) && Sane(size, allowed)
    requires i <= k < |h| && k - i < size && !h[k]
    ensures 1 <= allowed && Losses(h[i..k]) <= allowed - 1
  {
    LossIsEarned(h, size, allowed, k);
    var r := Recent(h[..k], size);
    var m := |r| - (k - i);
    assert r == r[..m] + h[i..k];
    CountsSplit(r[..m], h[i..k]);
    CountsTotal(r);
  }

  function CeilDiv(n: nat, d: nat): nat
    requires d > 0
  {
    (n + d - 1) / d
  }

  lemma CeilDivStep(n: nat, d: nat)
    requires d > 0
    ensures n >= d ==> CeilDiv(n, d) == CeilDiv(n - d, d) + 1
    ensures n <= d ==> CeilDiv(n, d) == if n == 0 then 0 else 1
  {
    var x := n - 1;
    if n >= d {
      DivUnique(x + d, d, x / d + 1, x % d);
    }
    if 0 < n <= d {
      DivUnique(x + d, d, 1, x);
    } else if n == 0 {
      DivUnique(x + d, d, 0, x + d);
    }
  }

  /** What `allowed` losses per window of `size` allow over n outcomes. */
  function Budget(n: nat, size: nat, allowed: nat): nat
    requires size > 0
  {
    allowed * CeilDiv(n, size)
  }

  lemma BudgetStep(n: nat, size: nat, allowed: nat)
    requires size > 0
    ensures n >= size ==> Budget(n, size, allowed) == Budget(n - size, size, allowed) + allowed
    ensures n <= size ==> Budget(n, size, allowed) == if n == 0 then 0 else allowed
  {
    CeilDivStep(n, size);
  }

  /** Any n consecutive outcomes hold at most allowed * ceil(n / size) losses. */
  lemma {:induction false} RunBudget(h: seq<bool>, size: nat, allowed: nat, i: nat, j: nat)
    requires Earned(h, size, allowed) && Sane(size, allowed)
    requires i <= j <= |h|
    ensures Losses(h[i..j]) <= Budget(j - i, size, allowed)
    decreases j - i
  {
    BudgetStep(j - i, size, allowed);
    if j - i <= size {
      WindowBudget(h, size, allowed, i, j);
    } else {
      var k := i + size;
      WindowBudget(h, size, allowed, i, k);
      RunBudget(h, size, allowed, k, j);
      assert h[i..j] == h[i..k] + h[k..j];
      CountsSplit(h[i..k], h[k..j]);
    }
  }

  /** A tolerated loss comes only after size - allowed + 1 successes; never if allowed is 0. */
  lemma FirstLoss(h: seq<bool>, size: nat, allowed: int, k: nat)
    requires Earned(h, size, allowed) && Sane(size, allowed)
    requires k < |h| && !h[k]
    ensures allowed >= 1
    ensures Successes(h[..k]) >= size - allowed + 1
  {
    LossIsEarned(h, size, allowed, k);
    var r := Recent(h[..k], size);
    assert h[..k] == h[..k][..k - |r|] + r;
    CountsSplit(h[..k][..k - |r|], r);
  }
}
