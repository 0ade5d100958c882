/** Sequence helpers shared by the models. */
module Lists {

  datatype Option<+T> = None | Some(value: T)

  type pos = n: nat | n > 0 witness 1

  ghost predicate NoDup<T>(s: seq<T>) {
    forall i, j :: 0 <= i < j < |s| ==> s[i] != s[j]
  }

  /** The list without its first occurrence of `x`, like Python's `list.remove`. */
  function Remove<T(==)>(s: seq<T>, x: T): (r: seq<T>)
    ensures x !in s ==> r == s
    ensures x in s ==> |r| == |s| - 1
  {
    if s == [] then []
    else if s[0] == x then s[1..]
    else [s[0]] + Remove(s[1..], x)
  }

  lemma {:induction false} RemoveMultiset<T>(s: seq<T>, x: T)
    ensures multiset(Remove(s, x)) == multiset(s) - multiset{x}
  {
    if s != [] {
      assert s == [s[0]] + s[1..];
      if s[0] != x {
        RemoveMultiset(s[1..], x);
      }
    }
  }

  /** Where the first occurrence stands, and the list without it. */
  lemma {:induction false} RemoveIs<T>(s: seq<T>, x: T) returns (i: nat)
    requires x in s
    ensures i < |s| && s[i] == x && x !in s[..i] && Remove(s, x) == s[..i] + s[i + 1..]
  {
    if s[0] == x {
      i := 0;
    } else {
      var j := RemoveIs(s[1..], x);
      i := j + 1;
      assert s[..i] == [s[0]] + s[1..][..j] && s[i + 1..] == s[1..][j + 1..];
    }
  }

  /** Dropping the entry at `i` drops exactly that element. */
  function RemoveAt<T>(s: seq<T>, i: nat): (r: seq<T>)
    requires i < |s|
    ensures |r| == |s| - 1
  {
    s[..i] + s[i + 1..]
  }

  lemma NoDupMultiplicity<T>(s: seq<T>, x: T)
    requires NoDup(s)
    ensures multiset(s)[x] == if x in s then 1 else 0
  {
    if s == [] {
    } else {
      assert s == [s[0]] + s[1..];
      NoDupMultiplicity(s[1..], x);
    }
  }

  /** The converse of NoDupMultiplicity. */
  lemma MultiplicityNoDup<T>(s: seq<T>)
    requires forall x :: x in s ==> multiset(s)[x] <= 1
    ensures NoDup(s)
  {
    forall i, j | 0 <= i < j < |s|
      ensures s[i] != s[j]
    {
      assert s == s[..i] + [s[i]] + s[i + 1..j] + [s[j]] + s[j + 1..];
      assert multiset(s)[s[i]] >= if s[i] == s[j] then 2 else 1;
    }
  }

  lemma RemoveAtNoDup<T>(s: seq<T>, i: nat)
    requires NoDup(s) && i < |s|
    ensures NoDup(RemoveAt(s, i))
    ensures forall x :: x in RemoveAt(s, i) <==> x in s && x != s[i]
  {
    var r := RemoveAt(s, i);
    forall x | x in s && x != s[i] ensures x in r {
      var k :| 0 <= k < |s| && s[k] == x;
      assert r[if k < i then k else k - 1] == x;
    }
  }

  lemma RemoveNoDup<T>(s: seq<T>, x: T)
    requires NoDup(s)
    ensures NoDup(Remove(s, x))
    ensures forall y :: y in Remove(s, x) <==> y in s && y != x
  {
    var r := Remove(s, x);
    RemoveMultiset(s, x);
    forall y ensures y in r <==> y in s && y != x {
      NoDupMultiplicity(s, y);
      assert y in r <==> y in multiset(r);
    }
    forall y | y in r ensures multiset(r)[y] <= 1 {
      NoDupMultiplicity(s, y);
    }
    MultiplicityNoDup(r);
  }

  lemma SnocNoDup<T>(s: seq<T>, x: T)
    requires NoDup(s) && x !in s
    ensures NoDup(s + [x])
    ensures forall y :: y in s + [x] <==> y in s || y == x
  {
  }

  lemma MulAtLeast(a: int, d: pos)
    requires a >= 1
    ensures a * d >= d
  {
  }

  lemma DivModUnique(n: nat, d: pos, q: int, r: nat)
    requires n == q * d + r && r < d
    ensures n / d == q && n % d == r
  {
    var q', r' := n / d, n % d;
    var k := q - q';
    assert k * d == q * d - q' * d && -k * d == -(k * d);
    if k > 0 {
      MulAtLeast(k, d);
    } else if k < 0 {
      MulAtLeast(-k, d);
    }
  }

  lemma DivModStep(n: nat, d: pos)
    requires n >= d
    ensures n / d == (n - d) / d + 1 && n % d == (n - d) % d
  {
    var q, r := (n - d) / d, (n - d) % d;
    assert (q + 1) * d == q * d + d;
    DivModUnique(n, d, q + 1, r);
  }

  lemma {:induction false} NoDupSize<T>(s: seq<T>, elements: set<T>)
    requires NoDup(s)
    requires forall x :: x in s <==> x in elements
    ensures |elements| == |s|
  {
    if s == [] {
      assert elements == {};
    } else {
      var init, last := s[..|s| - 1], s[|s| - 1];
      assert s == init + [last];
      NoDupSize(init, elements - {last});
    }
  }
}
