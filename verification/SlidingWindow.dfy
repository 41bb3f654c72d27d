/** The loss window: a bitmask of the last outcomes, and the history it stands for. */
module SlidingWindow {

  function Bit(b: bool): nat { if b then 1 else 0 }

  function Pow2(n: nat): (p: nat)
    ensures p > 0
  {
    if n == 0 then 1 else 2 * Pow2(n - 1)
  }

  /** The C operations on a non-negative `int` that does not overflow:
      `<<= 1`, `|= 1`, then `&= (1 << size) - 1`. */
  function Push(window: nat, size: nat, received: bool): nat {
    (2 * window + Bit(received)) % Pow2(size)
  }

  function PopCount(window: nat): nat {
    if window == 0 then 0 else window % 2 + PopCount(window / 2)
  }

  /** Conversion of an `int` operand to `unsigned int` in the comparison. */
  function Unsigned(x: int): nat { x % 0x1_0000_0000 }

  /** The tolerance decision: strictly more successes in the window than size - allowed. */
  predicate Tolerates(window: nat, size: nat, allowed: int) {
    PopCount(window) > Unsigned(size - allowed)
  }

  // ---- The history the mask stands for ----

  function Successes(h: seq<bool>): nat {
    if h == [] then 0 else Successes(h[..|h| - 1]) + Bit(h[|h| - 1])
  }

  function Losses(h: seq<bool>): nat {
    if h == [] then 0 else Losses(h[..|h| - 1]) + Bit(!h[|h| - 1])
  }

  /** The last n outcomes (all of them when there are fewer). */
  function Recent(h: seq<bool>, n: nat): seq<bool> {
    if |h| <= n then h else h[|h| - n..]
  }

  /** The n most recent outcomes as a number, most recent in the lowest bit. */
  function Mask(h: seq<bool>, n: nat): nat {
    if n == 0 || h == [] then 0 else Bit(h[|h| - 1]) + 2 * Mask(h[..|h| - 1], n - 1)
  }

  /** The window after the updates h, starting from an empty window. */
  function WindowAfter(h: seq<bool>, size: nat): nat {
    if h == [] then 0 else Push(WindowAfter(h[..|h| - 1], size), size, h[|h| - 1])
  }

  lemma {:induction false} MaskSplit(h: seq<bool>, n: nat)
    ensures Mask(h, n) < Pow2(n)
    ensures Mask(h, n + 1) == Mask(h, n) + (if n < |h| && h[|h| - 1 - n] then Pow2(n) else 0)
  {
    if n > 0 && h != [] {
      MaskSplit(h[..|h| - 1], n - 1);
    }
  }

  lemma ModOnce(a: nat, m: nat, x: nat)
    requires a < m && (x == 0 || x == m)
    ensures (a + x) % m == a
  {
    if x == m {
      assert (a + m) / m == 1 by { assert a + m == 1 * m + a; }
    }
  }

  lemma MaskPush(h: seq<bool>, n: nat, b: bool)
    requires n >= 1
    ensures Push(Mask(h, n), n, b) == Mask(h + [b], n)
  {
    assert (h + [b])[..|h|] == h;
    MaskSplit(h, n - 1);
    var x := if n - 1 < |h| && h[|h| - n] then Pow2(n) else 0;
    ModOnce(2 * Mask(h, n - 1) + Bit(b), Pow2(n), x);
  }

  lemma {:induction false} Pow2Bound(n: nat)
    requires n <= 30
    ensures Pow2(n) <= Pow2(30) == 0x4000_0000
    decreases 30 - n
  {
    if n < 30 {
      Pow2Bound(n + 1);
    } else {
      assert Pow2(10) == 0x400;
      assert Pow2(20) == 0x10_0000;
    }
  }

  lemma {:induction false} BitOfMask(h: seq<bool>, n: nat, i: nat)
    requires i < n
    ensures Mask(h, n) / Pow2(i) % 2 == Bit(i < |h| && h[|h| - 1 - i])
  {
    if h == [] {
      DivZero(Pow2(i));
    } else if i > 0 {
      BitOfMask(h[..|h| - 1], n - 1, i - 1);
      HalveFirst(Mask(h[..|h| - 1], n - 1), Bit(h[|h| - 1]), Pow2(i - 1));
    }
  }

  lemma DivZero(p: nat)
    requires p > 0
    ensures 0 / p == 0
  {
  }

  lemma HalveFirst(w: nat, b: nat, p: nat)
    requires b <= 1 && p > 0
    ensures (b + 2 * w) / (2 * p) == w / p
  {
    var q, r := w / p, w % p;
    assert w == q * p + r;
    assert b + 2 * w == q * (2 * p) + (b + 2 * r);
    assert 0 <= b + 2 * r < 2 * p;
    DivUnique(b + 2 * w, 2 * p, q, b + 2 * r);
  }

  lemma DivUnique(x: int, m: int, q: int, r: int)
    requires m > 0 && x == q * m + r && 0 <= r < m
    ensures x / m == q
  {
    var d := x / m - q;
    assert x == (x / m) * m + x % m;
    assert d * m == r - x % m;
    MulSign(d, m);
  }

  lemma MulSign(d: int, m: int)
    requires m >= 0
    ensures d >= 1 ==> d * m >= m
    ensures d <= -1 ==> d * m <= -m
  {
  }

  lemma {:induction false} PopCountMask(h: seq<bool>, n: nat)
    ensures PopCount(Mask(h, n)) == Successes(Recent(h, n))
  {
    if n == 0 {
      assert Recent(h, n) == [];
    } else if h != [] {
      var r := Recent(h, n);
      assert r[..|r| - 1] == Recent(h[..|h| - 1], n - 1);
      assert r[|r| - 1] == h[|h| - 1];
      PopCountMask(h[..|h| - 1], n - 1);
      PopCountStep(Mask(h[..|h| - 1], n - 1), h[|h| - 1]);
    }
  }

  lemma PopCountStep(w: nat, b: bool)
    ensures PopCount(Bit(b) + 2 * w) == Bit(b) + PopCount(w)
  {
    assert (Bit(b) + 2 * w) % 2 == Bit(b) && (Bit(b) + 2 * w) / 2 == w;
  }

  /** The stored window is exactly the history's mask: in range, no 32-bit overflow in the
      shift that comes next, bit i the i-th most recent outcome (zero when there is none),
      and the number of set bits the number of successes among the last `size`. */
  lemma {:induction false} WindowRefinesHistory(h: seq<bool>, size: nat)
    requires 1 <= size <= 30
    ensures var w := WindowAfter(h, size);
      && w == Mask(h, size)
      && w < Pow2(size)
      && 2 * w + 1 < 0x8000_0000
      && (forall i :: 0 <= i < size ==> w / Pow2(i) % 2 == Bit(i < |h| && h[|h| - 1 - i]))
      && PopCount(w) == Successes(Recent(h, size))
  {
    if h != [] {
      WindowRefinesHistory(h[..|h| - 1], size);
      MaskPush(h[..|h| - 1], size, h[|h| - 1]);
      assert h[..|h| - 1] + [h[|h| - 1]] == h;
    }
    MaskSplit(h, size);
    Pow2Bound(size);
    PopCountMask(h, size);
    forall i | 0 <= i < size
      ensures Mask(h, size) / Pow2(i) % 2 == Bit(i < |h| && h[|h| - 1 - i])
    {
      BitOfMask(h, size, i);
    }
  }
}
