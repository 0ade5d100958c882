/** Streaming softmax against the two-pass form, over the reals. The exponential
    is any function that obeys its laws. */
module Softmax {
  import opened Lists

  type Exp = real -> real

  ghost predicate ExpLaws(exp: Exp) {
    && exp(0.0) == 1.0
    && (forall x, y :: exp(x + y) == exp(x) * exp(y))
    && (forall x :: exp(x) > 0.0)
  }

  function MaxOf(xs: seq<real>): (m: real)
    requires xs != []
    ensures m in xs && forall x :: x in xs ==> x <= m
  {
    if |xs| == 1 then xs[0]
    else
      var rest := MaxOf(xs[1..]);
      assert xs == [xs[0]] + xs[1..];
      if xs[0] >= rest then xs[0] else rest
  }

  /** The sum of exp(x - m). */
  function SumExp(xs: seq<real>, m: real, exp: Exp): real {
    if xs == [] then 0.0 else exp(xs[0] - m) + SumExp(xs[1..], m, exp)
  }

  function Normalised(xs: seq<real>, m: real, d: real, exp: Exp): (r: seq<real>)
    requires d != 0.0
    ensures |r| == |xs| && forall i :: 0 <= i < |xs| ==> r[i] == exp(xs[i] - m) / d
  {
    seq(|xs|, i requires 0 <= i < |xs| => exp(xs[i] - m) / d)
  }

  /** The textbook form, subtracting nothing. */
  function Naive(row: seq<real>, exp: Exp): seq<real>
    requires row != [] && ExpLaws(exp)
  {
    SumExpPositive(row, 0.0, exp);
    Normalised(row, 0.0, SumExp(row, 0.0, exp), exp)
  }

  /** The stable form, subtracting the row's maximum. */
  function Stable(row: seq<real>, exp: Exp): seq<real>
    requires row != [] && ExpLaws(exp)
  {
    SumExpPositive(row, MaxOf(row), exp);
    Normalised(row, MaxOf(row), SumExp(row, MaxOf(row), exp), exp)
  }

  // ---- laws of the sum

  lemma ExpPositive(x: real, exp: Exp)
    requires ExpLaws(exp)
    ensures exp(x) > 0.0
  {
  }

  lemma {:induction false} SumExpPositive(xs: seq<real>, m: real, exp: Exp)
    requires ExpLaws(exp)
    ensures SumExp(xs, m, exp) >= 0.0 && (xs != [] ==> SumExp(xs, m, exp) > 0.0)
  {
    hide ExpLaws;
    if xs != [] {
      ExpPositive(xs[0] - m, exp);
      SumExpPositive(xs[1..], m, exp);
    }
  }

  lemma {:induction false} SumExpAppend(a: seq<real>, b: seq<real>, m: real, exp: Exp)
    ensures SumExp(a + b, m, exp) == SumExp(a, m, exp) + SumExp(b, m, exp)
  {
    if a == [] {
      assert a + b == b;
    } else {
      assert (a + b)[1..] == a[1..] + b;
      SumExpAppend(a[1..], b, m, exp);
    }
  }

  lemma Shift(x: real, m: real, n: real, exp: Exp)
    requires ExpLaws(exp)
    ensures exp(x - m) * exp(m - n) == exp(x - n)
  {
    assert (x - m) + (m - n) == x - n;
  }

  /** One multiplication moves the whole sum to a new maximum. */
  lemma {:induction false} Rescale(xs: seq<real>, m: real, n: real, exp: Exp)
    requires ExpLaws(exp)
    ensures SumExp(xs, m, exp) * exp(m - n) == SumExp(xs, n, exp)
  {
    hide ExpLaws;
    if xs != [] {
      Rescale(xs[1..], m, n, exp);
      Shift(xs[0], m, n, exp);
      Distribute(exp(xs[0] - m), SumExp(xs[1..], m, exp), exp(m - n));
    }
  }

  lemma Distribute(a: real, b: real, c: real)
    ensures (a + b) * c == a * c + b * c
  {
  }

  // ---- what softmax is

  lemma SameRatio(a: real, d: real, c: real, a': real, d': real)
    requires d > 0.0 && d' > 0.0 && a * c == a' && d * c == d'
    ensures a / d == a' / d'
  {
    var r := a / d;
    assert r * d == a;
    assert r * d' == a';
  }

  /** Subtracting any constant leaves softmax unchanged. */
  lemma ShiftInvariant(row: seq<real>, m: real, n: real, exp: Exp)
    requires row != [] && ExpLaws(exp)
    ensures SumExp(row, m, exp) > 0.0 && SumExp(row, n, exp) > 0.0
    ensures Normalised(row, m, SumExp(row, m, exp), exp) == Normalised(row, n, SumExp(row, n, exp), exp)
  {
    hide ExpLaws, SumExp;
    SumExpPositive(row, m, exp);
    SumExpPositive(row, n, exp);
    ExpPositive(m - n, exp);
    Rescale(row, m, n, exp);
    forall i | 0 <= i < |row|
      ensures exp(row[i] - m) / SumExp(row, m, exp) == exp(row[i] - n) / SumExp(row, n, exp)
    {
      Shift(row[i], m, n, exp);
      SameRatio(exp(row[i] - m), SumExp(row, m, exp), exp(m - n), exp(row[i] - n), SumExp(row, n, exp));
    }
  }

  /** The stable form computes the textbook one, and every exponent it takes is at most 0. */
  lemma StableIsNaive(row: seq<real>, exp: Exp)
    requires row != [] && ExpLaws(exp)
    ensures Stable(row, exp) == Naive(row, exp)
    ensures forall x :: x in row ==> x - MaxOf(row) <= 0.0
  {
    ShiftInvariant(row, MaxOf(row), 0.0, exp);
  }

  /** Every output is the exponential of its input, as a share of the sum of them all. */
  lemma SharesOfSum(row: seq<real>, exp: Exp, i: nat)
    requires row != [] && ExpLaws(exp) && i < |row|
    ensures |Stable(row, exp)| == |row| && Stable(row, exp)[i] * SumExp(row, 0.0, exp) == exp(row[i])
  {
    hide ExpLaws, SumExp, Stable, MaxOf;
    StableIsNaive(row, exp);
    SumExpPositive(row, 0.0, exp);
    assert row[i] - 0.0 == row[i];
    Undivided(exp(row[i] - 0.0), SumExp(row, 0.0, exp));
  }

  lemma Undivided(x: real, d: real)
    requires d > 0.0
    ensures x / d * d == x
  {
  }

  function Sum(xs: seq<real>): real {
    if xs == [] then 0.0 else xs[0] + Sum(xs[1..])
  }

  lemma SplitQuotient(x: real, y: real, d: real)
    requires d > 0.0
    ensures (x + y) / d == x / d + y / d
  {
  }

  lemma {:induction false} SumNormalised(xs: seq<real>, m: real, d: real, exp: Exp)
    requires d > 0.0
    ensures Sum(Normalised(xs, m, d, exp)) == SumExp(xs, m, exp) / d
  {
    if xs != [] {
      SumNormalised(xs[1..], m, d, exp);
      var all := Normalised(xs, m, d, exp);
      assert all[1..] == Normalised(xs[1..], m, d, exp);
      SplitQuotient(exp(xs[0] - m), SumExp(xs[1..], m, exp), d);
    } else {
      assert 0.0 / d == 0.0;
    }
  }

  lemma PositiveQuotient(x: real, d: real)
    requires x > 0.0 && d > 0.0
    ensures x / d > 0.0
  {
    var q := x / d;
    assert q * d == x;
    assert q <= 0.0 ==> q * d <= 0.0;
  }

  /** Softmax is a distribution. */
  lemma SumsToOne(row: seq<real>, exp: Exp)
    requires row != [] && ExpLaws(exp)
    ensures Sum(Stable(row, exp)) == 1.0
    ensures forall i :: 0 <= i < |row| ==> Stable(row, exp)[i] > 0.0
  {
    hide ExpLaws, SumExp, MaxOf, Sum;
    var m := MaxOf(row);
    SumExpPositive(row, m, exp);
    SumNormalised(row, m, SumExp(row, m, exp), exp);
    SelfQuotient(SumExp(row, m, exp));
    forall i | 0 <= i < |row| ensures exp(row[i] - m) / SumExp(row, m, exp) > 0.0 {
      ExpPositive(row[i] - m, exp);
      PositiveQuotient(exp(row[i] - m), SumExp(row, m, exp));
    }
  }

  lemma SelfQuotient(d: real)
    requires d > 0.0
    ensures d / d == 1.0
  {
  }

  // ---- the streaming form

  function Larger(m: Option<real>, x: real): real {
    if m.Some? && m.value >= x then m.value else x
  }

  /** exp(m - n), where no maximum yet is minus infinity. */
  function Correction(m: Option<real>, n: real, exp: Exp): real {
    if m.Some? then exp(m.value - n) else 0.0
  }

  /** The state after a prefix: its maximum, and its sum about that maximum. */
  ghost predicate Summarises(m: Option<real>, d: real, prefix: seq<real>, exp: Exp) {
    if prefix == [] then m.None? && d == 0.0
    else m == Some(MaxOf(prefix)) && d == SumExp(prefix, MaxOf(prefix), exp)
  }

  lemma MaxAppend(a: seq<real>, b: seq<real>)
    requires b != []
    ensures MaxOf(a + b) == Larger(if a == [] then None else Some(MaxOf(a)), MaxOf(b))
  {
    var m := MaxOf(a + b);
    assert m in a || m in b;
    if a != [] {
      assert MaxOf(a) in a + b;
    }
    assert MaxOf(b) in a + b;
  }

  /** The recurrence: the old sum moved to the new maximum, plus the block's. */
  function NextSum(m: Option<real>, d: real, blk: seq<real>, next: real, exp: Exp): real {
    d * Correction(m, next, exp) + SumExp(blk, next, exp)
  }

  lemma OldSumMoved(m: Option<real>, d: real, prefix: seq<real>, next: real, exp: Exp)
    requires ExpLaws(exp) && Summarises(m, d, prefix, exp)
    ensures d * Correction(m, next, exp) == SumExp(prefix, next, exp)
  {
    hide ExpLaws, SumExp, MaxOf;
    if prefix != [] {
      Rescale(prefix, MaxOf(prefix), next, exp);
    } else {
      EmptySum(next, exp);
    }
  }

  /** A block extends the summary by the recurrence, wherever the maximum arrives. */
  lemma BlockStep(m: Option<real>, d: real, prefix: seq<real>, blk: seq<real>, exp: Exp)
    requires ExpLaws(exp) && blk != [] && Summarises(m, d, prefix, exp)
    ensures
      var next := Larger(m, MaxOf(blk));
      Summarises(Some(next), NextSum(m, d, blk, next, exp), prefix + blk, exp)
  {
    hide ExpLaws, SumExp, MaxOf, NextSum, Larger;
    MaxAppend(prefix, blk);
    var next := Larger(m, MaxOf(blk));
    assert next == MaxOf(prefix + blk) && prefix + blk != [];
    NextSumIs(m, d, prefix, blk, next, exp);
  }

  lemma NextSumIs(m: Option<real>, d: real, prefix: seq<real>, blk: seq<real>, next: real, exp: Exp)
    requires ExpLaws(exp) && Summarises(m, d, prefix, exp)
    ensures NextSum(m, d, blk, next, exp) == SumExp(prefix + blk, next, exp)
  {
    hide ExpLaws, SumExp, Summarises, Correction;
    OldSumMoved(m, d, prefix, next, exp);
    SumExpAppend(prefix, blk, next, exp);
  }

  lemma EmptySum(m: real, exp: Exp)
    ensures SumExp([], m, exp) == 0.0
  {
  }

  method OnlineRow(row: seq<real>, block: pos, exp: Exp) returns (out: seq<real>)
    requires row != [] && ExpLaws(exp)
    ensures out == Stable(row, exp)
  {
    hide ExpLaws, SumExp, MaxOf, Larger, NextSum, Summarises;
    var m: Option<real>, d := None, 0.0;
    var off := 0;
    StartEmpty(exp);
    while off < |row|
      invariant 0 <= off
      invariant Summarises(m, d, Upto(row, off), exp)
    {
      var blk := row[off..if off + block <= |row| then off + block else |row|];
      NextBlock(row, off, block);
      BlockStep(m, d, Upto(row, off), blk, exp);
      var next := Larger(m, MaxOf(blk));
      d := NextSum(m, d, blk, next, exp);
      m := Some(next);
      off := off + block;
    }
    assert Upto(row, off) == row;
    Summary(m, d, row, exp);
    SumExpPositive(row, m.value, exp);
    out := Normalised(row, m.value, d, exp);
  }

  function Upto(row: seq<real>, off: nat): seq<real> {
    if off <= |row| then row[..off] else row
  }

  lemma NextBlock(row: seq<real>, off: nat, block: pos)
    requires off < |row|
    ensures Upto(row, off) + row[off..if off + block <= |row| then off + block else |row|] == Upto(row, off + block)
  {
  }

  lemma StartEmpty(exp: Exp)
    ensures Summarises(None, 0.0, [], exp)
  {
  }

  lemma Summary(m: Option<real>, d: real, row: seq<real>, exp: Exp)
    requires row != [] && Summarises(m, d, row, exp)
    ensures m == Some(MaxOf(row)) && d == SumExp(row, MaxOf(row), exp)
  {
  }

  /** Row by row, for every block size, the streaming form equals the stable one. */
  method SoftmaxOnline(x: seq<seq<real>>, block: pos, exp: Exp) returns (out: seq<seq<real>>)
    requires ExpLaws(exp) && forall row :: row in x ==> row != []
    ensures |out| == |x| && forall r :: 0 <= r < |x| ==> x[r] != [] && out[r] == Stable(x[r], exp)
  {
    hide ExpLaws, Stable;
    out := [];
    for r := 0 to |x|
      invariant |out| == r && forall i :: 0 <= i < r ==> x[i] != [] && out[i] == Stable(x[i], exp)
    {
      assert x[r] in x;
      var row := OnlineRow(x[r], block, exp);
      out := out + [row];
    }
  }
}
