/** The arithmetic of speculative decoding, over the reals. */
module SpecDec {

  function Pow(a: real, n: nat): real {
    if n == 0 then 1.0 else a * Pow(a, n - 1)
  }

  /** Expected tokens per target forward pass, in closed form. */
  function ExpectedTokens(alpha: real, k: int): real {
    if k <= 0 then 1.0
    else if alpha >= 1.0 then k as real + 1.0
    else if alpha <= 0.0 then 1.0
    else (1.0 - Pow(alpha, k + 1)) / (1.0 - alpha)
  }

  function IterationCost(k: int, draft: real, verify: real): real {
    k as real * draft + 1.0 + verify * k as real
  }

  function Speedup(alpha: real, k: nat, draft: real, verify: real): real
    requires draft >= 0.0 && verify >= 0.0
  {
    CostPositive(k, draft, verify);
    ExpectedTokens(alpha, k) / IterationCost(k, draft, verify)
  }

  lemma CostPositive(k: nat, draft: real, verify: real)
    requires draft >= 0.0 && verify >= 0.0
    ensures IterationCost(k, draft, verify) >= 1.0
    ensures IterationCost(k, draft, verify) == 1.0 + k as real * (draft + verify)
  {
    assert k as real * draft >= 0.0 && verify * k as real >= 0.0;
    assert k as real * (draft + verify) == k as real * draft + verify * k as real;
  }

  /** Tokens per pass, over what a pass costs next to plain decoding: the draft tokens,
      the target's pass, and the verification of each draft. */
  lemma SpeedupIs(alpha: real, k: nat, draft: real, verify: real)
    requires draft >= 0.0 && verify >= 0.0
    ensures Speedup(alpha, k, draft, verify) * (k as real * draft + 1.0 + k as real * verify)
         == ExpectedTokens(alpha, k)
  {
    CostPositive(k, draft, verify);
    var c := IterationCost(k, draft, verify);
    assert verify * k as real == k as real * verify;
    assert ExpectedTokens(alpha, k) / c * c == ExpectedTokens(alpha, k);
  }

  // ---- the closed form is the geometric sum

  /** A draft token survives only if all before it did. */
  function Survivors(alpha: real, k: nat): real {
    if k == 0 then 1.0 else Survivors(alpha, k - 1) + Pow(alpha, k)
  }

  lemma {:induction false} PowPlus(a: real, m: nat, n: nat)
    ensures Pow(a, m + n) == Pow(a, m) * Pow(a, n) && Pow(a, 1) == a
  {
    assert Pow(a, 1) == a * Pow(a, 0);
    if m > 0 {
      PowPlus(a, m - 1, n);
      assert Pow(a, m + n) == a * (Pow(a, m - 1) * Pow(a, n));
    }
  }

  /** One more draft token: the first must survive for any of the rest to count. */
  lemma {:induction false} SurvivorsNested(a: real, k: nat)
    ensures Survivors(a, 0) == 1.0 && Survivors(a, k + 1) == 1.0 + a * Survivors(a, k)
  {
    if k > 0 {
      SurvivorsNested(a, k - 1);
      assert Pow(a, k + 1) == a * Pow(a, k);
      assert a * (Survivors(a, k - 1) + Pow(a, k)) == a * Survivors(a, k - 1) + a * Pow(a, k);
    } else {
      assert Survivors(a, 1) == Survivors(a, 0) + Pow(a, 1) && Pow(a, 1) == a * Pow(a, 0);
    }
  }

  function Probability(alpha: real): real {
    if alpha >= 1.0 then 1.0 else if alpha <= 0.0 then 0.0 else alpha
  }

  lemma {:induction false} PowOfOne(n: nat)
    ensures Pow(1.0, n) == 1.0
  {
    if n > 0 {
      PowOfOne(n - 1);
    }
  }

  lemma {:induction false} SumAtOne(k: nat)
    ensures Survivors(1.0, k) == k as real + 1.0
  {
    if k > 0 {
      SumAtOne(k - 1);
      PowOfOne(k);
    }
  }

  lemma {:induction false} SumAtZero(k: nat)
    ensures Survivors(0.0, k) == 1.0
  {
    if k > 0 {
      SumAtZero(k - 1);
    }
  }

  lemma {:induction false} Telescope(alpha: real, k: nat)
    ensures Survivors(alpha, k) * (1.0 - alpha) == 1.0 - Pow(alpha, k + 1)
  {
    if k > 0 {
      Telescope(alpha, k - 1);
      var s, p := Survivors(alpha, k - 1), Pow(alpha, k);
      assert Pow(alpha, k + 1) == alpha * p;
      assert (s + p) * (1.0 - alpha) == s * (1.0 - alpha) + p - alpha * p;
    } else {
      assert Pow(alpha, 1) == alpha * Pow(alpha, 0);
    }
  }

  /** The closed form is the sum of alpha^i for i up to k, at every acceptance rate. */
  lemma ClosedForm(alpha: real, k: int)
    ensures ExpectedTokens(alpha, k) == Survivors(Probability(alpha), if k < 0 then 0 else k)
  {
    if k > 0 {
      if alpha >= 1.0 {
        SumAtOne(k);
      } else if alpha <= 0.0 {
        SumAtZero(k);
      } else {
        Telescope(alpha, k);
        Quotient(Survivors(alpha, k), 1.0 - alpha, 1.0 - Pow(alpha, k + 1));
      }
    }
  }

  lemma Quotient(x: real, d: real, n: real)
    requires d > 0.0 && x * d == n
    ensures n / d == x
  {
    assert (n / d - x) * d == 0.0;
  }

  lemma {:induction false} PowBounds(a: real, n: nat)
    requires 0.0 <= a <= 1.0
    ensures 0.0 <= Pow(a, n) <= 1.0
  {
    if n > 0 {
      PowBounds(a, n - 1);
      assert 0.0 <= a * Pow(a, n - 1) <= Pow(a, n - 1);
    }
  }

  lemma {:induction false} SumPositive(a: real, k: nat)
    requires 0.0 <= a <= 1.0
    ensures 1.0 <= Survivors(a, k) <= k as real + 1.0
  {
    if k > 0 {
      SumPositive(a, k - 1);
      PowBounds(a, k);
    }
  }

  // ---- one optimum

  /** What one more draft token changes, over a common denominator. */
  function Gain(a: real, k: nat, cost: real): real {
    Pow(a, k + 1) * (1.0 + k as real * cost) - Survivors(a, k) * cost
  }

  lemma GainShrinks(a: real, k: nat, cost: real)
    requires 0.0 <= a <= 1.0 && cost >= 0.0
    ensures Gain(a, k + 1, cost) <= Gain(a, k, cost)
  {
    PowBounds(a, k + 1);
    var p, n := Pow(a, k + 1), 1.0 + k as real * cost;
    var m := 1.0 + (k + 1) as real * cost;
    assert m == n + cost by {
      assert (k + 1) as real == k as real + 1.0;
      assert (k as real + 1.0) * cost == k as real * cost + cost;
    }
    assert k as real * cost >= 0.0;
    assert Pow(a, k + 2) == a * p;
    GainStep(a, p, n, cost, Survivors(a, k));
  }

  lemma GainStep(a: real, p: real, n: real, cost: real, s: real)
    requires 0.0 <= a <= 1.0 && p >= 0.0 && n >= 1.0 && cost >= 0.0
    ensures a * p * (n + cost) - (s + p) * cost <= p * n - s * cost
  {
    var m := n + cost;
    assert (s + p) * cost == s * cost + p * cost;
    assert p * m == p * n + p * cost;
    assert a * p <= p;
    assert a * p * m <= p * m;
  }

  lemma {:induction false} GainStays(a: real, k: nat, j: nat, cost: real)
    requires 0.0 <= a <= 1.0 && cost >= 0.0 && k <= j && Gain(a, k, cost) <= 0.0
    ensures Gain(a, j, cost) <= 0.0
  {
    if k < j {
      GainStays(a, k, j - 1, cost);
      GainShrinks(a, j - 1, cost);
    }
  }

  lemma CrossMultiply(x: real, p: real, y: real, q: real)
    requires p > 0.0 && q > 0.0
    ensures x / p <= y / q <==> x * q <= y * p
  {
    var u, v := x / p, y / q;
    assert u * p == x && v * q == y;
    var pq := p * q;
    assert pq > 0.0 && u * pq == x * q && v * pq == y * p;
    Scale(u, v, pq);
  }

  lemma Scale(u: real, v: real, w: real)
    requires w > 0.0
    ensures u <= v <==> u * w <= v * w
  {
    assert u <= v ==> (v - u) * w >= 0.0;
    assert u > v ==> (u - v) * w > 0.0;
  }

  lemma GainCompare(s: real, p: real, n: real, cost: real)
    requires n >= 1.0 && cost >= 0.0
    ensures (s + p) / (n + cost) <= s / n <==> p * n - s * cost <= 0.0
  {
    CrossMultiply(s + p, n + cost, s, n);
    assert (s + p) * n == s * n + p * n;
    assert s * (n + cost) == s * n + s * cost;
  }

  lemma Denominators(k: nat, draft: real, verify: real)
    requires draft >= 0.0 && verify >= 0.0
    ensures IterationCost(k, draft, verify) == 1.0 + k as real * (draft + verify) >= 1.0
    ensures IterationCost(k + 1, draft, verify) == 1.0 + k as real * (draft + verify) + (draft + verify)
  {
    CostPositive(k, draft, verify);
    CostPositive(k + 1, draft, verify);
    var x, cost := k as real, draft + verify;
    assert (k + 1) as real == x + 1.0;
    assert (x + 1.0) * cost == x * cost + cost;
  }

  /** One more draft token helps exactly when its gain is positive. */
  lemma GainDecides(alpha: real, k: nat, draft: real, verify: real)
    requires draft >= 0.0 && verify >= 0.0
    ensures Speedup(alpha, k + 1, draft, verify) <= Speedup(alpha, k, draft, verify)
       <==> Gain(Probability(alpha), k, draft + verify) <= 0.0
  {
    hide ExpectedTokens, IterationCost, Pow, Probability;
    var a, cost := Probability(alpha), draft + verify;
    ClosedForm(alpha, k);
    ClosedForm(alpha, k + 1);
    Denominators(k, draft, verify);
    GainCompare(Survivors(a, k), Pow(a, k + 1), 1.0 + k as real * cost, cost);
  }

  /** Speedup is unimodal in k: once a longer draft stops helping, no longer one helps. */
  lemma {:induction false} Unimodal(alpha: real, k: nat, j: nat, draft: real, verify: real)
    requires draft >= 0.0 && verify >= 0.0 && k <= j
    requires Speedup(alpha, k + 1, draft, verify) <= Speedup(alpha, k, draft, verify)
    ensures Speedup(alpha, j, draft, verify) <= Speedup(alpha, k, draft, verify)
  {
    if k < j {
      Unimodal(alpha, k, j - 1, draft, verify);
      GainDecides(alpha, k, draft, verify);
      GainStays(Probability(alpha), k, j - 1, draft + verify);
      GainDecides(alpha, j - 1, draft, verify);
    }
  }

  /** The shortest best draft length up to `kMax`; below `kMax` it is the best of all. */
  method OptimalK(alpha: real, draft: real, verify: real, kMax: int) returns (bestK: nat, best: real)
    requires draft >= 0.0 && verify >= 0.0
    ensures best == Speedup(alpha, bestK, draft, verify) && best >= 1.0
    ensures bestK == 0 || bestK <= kMax
    ensures forall k: nat :: k <= kMax ==> Speedup(alpha, k, draft, verify) <= best
    ensures forall k: nat :: k < bestK ==> Speedup(alpha, k, draft, verify) < best
    ensures bestK < kMax ==> forall k: nat :: Speedup(alpha, k, draft, verify) <= best
  {
    bestK, best := 0, 1.0;
    assert Speedup(alpha, 0, draft, verify) == 1.0;
    var k := 0;
    while k <= kMax
      invariant k >= 0 && (k <= kMax + 1 || k == 0)
      invariant bestK == 0 || bestK < k
      invariant best == Speedup(alpha, bestK, draft, verify) >= 1.0
      invariant forall j: nat :: j < k ==> Speedup(alpha, j, draft, verify) <= best
      invariant forall j: nat :: j < bestK ==> Speedup(alpha, j, draft, verify) < best
    {
      var s := Speedup(alpha, k, draft, verify);
      if s > best {
        bestK, best := k, s;
      }
      k := k + 1;
    }
    if bestK < kMax {
      forall j: nat ensures Speedup(alpha, j, draft, verify) <= best {
        if j > kMax {
          assert Speedup(alpha, bestK + 1, draft, verify) <= best;
          Unimodal(alpha, bestK, j, draft, verify);
        }
      }
    }
  }

  // ---- break-even

  lemma ProductMonotone(a: real, b: real, x: real, y: real)
    requires 0.0 <= a <= b && 0.0 <= x <= y
    ensures a * x <= b * y
  {
    assert (b - a) * x >= 0.0 && b * (y - x) >= 0.0;
  }

  lemma {:induction false} PowMonotone(a: real, b: real, n: nat)
    requires 0.0 <= a <= b <= 1.0
    ensures Pow(a, n) <= Pow(b, n)
  {
    if n > 0 {
      PowMonotone(a, b, n - 1);
      PowBounds(a, n - 1);
      PowBounds(b, n - 1);
      ProductMonotone(a, b, Pow(a, n - 1), Pow(b, n - 1));
    }
  }

  lemma {:induction false} SumMonotone(a: real, b: real, k: nat)
    requires 0.0 <= a <= b <= 1.0
    ensures Survivors(a, k) <= Survivors(b, k)
  {
    if k > 0 {
      SumMonotone(a, b, k - 1);
      PowMonotone(a, b, k);
    }
  }

  /** Better acceptance never hurts. */
  lemma SpeedupMonotone(a: real, b: real, k: nat, draft: real, verify: real)
    requires draft >= 0.0 && verify >= 0.0 && a <= b
    ensures Speedup(a, k, draft, verify) <= Speedup(b, k, draft, verify)
  {
    ClosedForm(a, k);
    ClosedForm(b, k);
    CostPositive(k, draft, verify);
    SumMonotone(Probability(a), Probability(b), k);
    var c := IterationCost(k, draft, verify);
    CrossMultiply(ExpectedTokens(a, k), c, ExpectedTokens(b, k), c);
    Scale(ExpectedTokens(a, k), ExpectedTokens(b, k), c);
  }

  lemma NothingAccepted(k: nat, draft: real, verify: real)
    requires draft >= 0.0 && verify >= 0.0
    ensures Speedup(0.0, k, draft, verify) <= 1.0
  {
    CostPositive(k, draft, verify);
    var c := IterationCost(k, draft, verify);
    CrossMultiply(1.0, c, 1.0, 1.0);
  }

  /** 2^-n. */
  function Halved(n: nat): real {
    if n == 0 then 1.0 else Halved(n - 1) / 2.0
  }

  const HALVINGS := 80

  /** The rate at which speculation starts to pay, to within 2^-80 and from above;
      1 when it never does. */
  method BreakevenAlpha(k: nat, draft: real, verify: real) returns (r: real)
    requires draft >= 0.0 && verify >= 0.0
    ensures 0.0 < r <= 1.0
    ensures forall a :: a <= r - Halved(80) ==> Speedup(a, k, draft, verify) <= 1.0
    ensures r == 1.0 || forall a :: a >= r ==> Speedup(a, k, draft, verify) > 1.0
  {
    var lo, hi := 0.0, 1.0;
    NothingAccepted(k, draft, verify);
    for i := 0 to HALVINGS
      invariant 0.0 <= lo < hi <= 1.0 && hi - lo == Halved(i)
      invariant Speedup(lo, k, draft, verify) <= 1.0
      invariant hi == 1.0 || Speedup(hi, k, draft, verify) > 1.0
    {
      var mid := (lo + hi) / 2.0;
      if Speedup(mid, k, draft, verify) > 1.0 {
        hi := mid;
      } else {
        lo := mid;
      }
    }
    forall a | a <= lo ensures Speedup(a, k, draft, verify) <= 1.0 {
      SpeedupMonotone(a, lo, k, draft, verify);
    }
    forall a | a >= hi && hi != 1.0 ensures Speedup(a, k, draft, verify) > 1.0 {
      SpeedupMonotone(hi, a, k, draft, verify);
    }
    return hi;
  }
}
