/** Prefix-affinity routing with bounded load: the ring's preference is honoured
    while the preferred replica is not overloaded relative to the fleet. */
module Affinity {
  import opened Lists
  import Ring

  /** A backend with the live state a router reads. `holds` says whether it is
      known to hold the key's prefix. */
  datatype Backend = Backend(name: string, weight: real, available: bool, inflight: nat, queued: nat, holds: bool)

  function AvailableOf(replicas: seq<Backend>): seq<Backend> {
    if replicas == [] then []
    else (if replicas[0].available then [replicas[0]] else []) + AvailableOf(replicas[1..])
  }

  function HoldersOf(av: seq<Backend>): (r: seq<Backend>)
    ensures forall x :: x in r ==> x in av && x.holds
  {
    if av == [] then [] else (if av[0].holds then [av[0]] else []) + HoldersOf(av[1..])
  }

  /** Both take whoever qualifies, in the order of the list. */
  lemma {:induction false} AvailableInOrder(a: seq<Backend>, x: Backend)
    ensures AvailableOf(a + [x]) == AvailableOf(a) + if x.available then [x] else []
  {
    if a == [] {
      assert a + [x] == [x];
    } else {
      assert (a + [x])[1..] == a[1..] + [x];
      AvailableInOrder(a[1..], x);
    }
  }

  lemma {:induction false} HoldersInOrder(a: seq<Backend>, x: Backend)
    ensures HoldersOf(a + [x]) == HoldersOf(a) + if x.holds then [x] else []
  {
    if a == [] {
      assert a + [x] == [x];
    } else {
      assert (a + [x])[1..] == a[1..] + [x];
      HoldersInOrder(a[1..], x);
    }
  }

  lemma {:induction false} HoldersAll(av: seq<Backend>)
    ensures forall x :: x in av && x.holds ==> x in HoldersOf(av)
  {
    if av != [] {
      HoldersAll(av[1..]);
      assert av == [av[0]] + av[1..];
    }
  }

  // ---- least loaded

  /** A weight as the router divides by it. */
  function Share(r: Backend): (w: real)
    ensures w > 0.0
  {
    if r.weight >= 0.000001 then r.weight else 0.000001
  }

  function Weighted(r: Backend): real {
    r.inflight as real / Share(r)
  }

  predicate LessLoaded(a: Backend, b: Backend) {
    Weighted(a) < Weighted(b) || (Weighted(a) == Weighted(b) && a.queued < b.queued)
  }

  /** The first backend no other is less loaded than. */
  function LeastLoaded(av: seq<Backend>): (r: Backend)
    requires av != []
    ensures r in av && forall x :: x in av ==> !LessLoaded(x, r)
  {
    if |av| == 1 then av[0]
    else
      var rest := LeastLoaded(av[1..]);
      assert av == [av[0]] + av[1..];
      if LessLoaded(rest, av[0]) then rest else av[0]
  }

  function FewestInflight(av: seq<Backend>): (r: Backend)
    requires av != []
    ensures r in av && forall x :: x in av ==> r.inflight <= x.inflight
  {
    if |av| == 1 then av[0]
    else
      var rest := FewestInflight(av[1..]);
      assert av == [av[0]] + av[1..];
      if rest.inflight < av[0].inflight then rest else av[0]
  }

  /** Load is inflight by weight, compared without dividing; ties go by the queue. */
  lemma LessLoadedIs(a: Backend, b: Backend)
    ensures
      var v := if a.weight >= 0.000001 then a.weight else 0.000001;
      var w := if b.weight >= 0.000001 then b.weight else 0.000001;
      var x, y := a.inflight as real * w, b.inflight as real * v;
      LessLoaded(a, b) <==> x < y || (x == y && a.queued < b.queued)
  {
    Crossed(a.inflight as real, Share(a), b.inflight as real, Share(b));
  }

  lemma Crossed(x: real, v: real, y: real, w: real)
    requires v > 0.0 && w > 0.0
    ensures x / v < y / w <==> x * w < y * v
    ensures x / v == y / w <==> x * w == y * v
  {
    var p, q := x / v, y / w;
    var d := v * w;
    assert p * v == x && q * w == y;
    assert x * w == p * d && y * v == q * d;
    if p < q {
      assert (q - p) * d > 0.0;
    } else if p > q {
      assert (p - q) * d > 0.0;
    }
  }

  // ---- the pick

  function SumInflight(av: seq<Backend>): nat {
    if av == [] then 0 else av[0].inflight + SumInflight(av[1..])
  }

  function Ceiling(av: seq<Backend>, factor: real): real
    requires av != []
  {
    var mean := SumInflight(av) as real / |av| as real;
    if factor * mean >= 1.0 then factor * mean else 1.0
  }

  /** The last backend of that name, as in a dictionary built from the list. */
  function ByName(av: seq<Backend>, name: string): (r: Option<Backend>)
    ensures r.Some? ==> r.value in av && r.value.name == name
    ensures r.None? ==> forall x :: x in av ==> x.name != name
  {
    if av == [] then None
    else if av[|av| - 1].name == name then Some(av[|av| - 1])
    else
      assert av == av[..|av| - 1] + [av[|av| - 1]];
      ByName(av[..|av| - 1], name)
  }

  function Probe(av: seq<Backend>, names: seq<string>, ceiling: real): Option<Backend> {
    if names == [] then None
    else
      var r := ByName(av, names[0]);
      if r.Some? && r.value.inflight as real <= ceiling then r else Probe(av, names[1..], ceiling)
  }

  function Holder(av: seq<Backend>, ceiling: real): Option<Backend> {
    var holders := HoldersOf(av);
    if holders != [] && FewestInflight(holders).inflight as real <= ceiling
    then Some(FewestInflight(holders)) else None
  }

  datatype Stats = Stats(affinity: nat, deflected: nat, noKey: nat, known: nat)

  /** How a request came to its backend. */
  datatype Way = ByRing | Deflected | Keyless | ByHolder

  function Counted(s: Stats, way: Way): Stats {
    match way
    case ByRing => s.(affinity := s.affinity + 1)
    case Deflected => s.(deflected := s.deflected + 1)
    case Keyless => s.(noKey := s.noKey + 1)
    case ByHolder => s.(known := s.known + 1)
  }

  /** A known holder under the ceiling, else the first offered replica under it,
      else the least loaded. */
  function Routed(av: seq<Backend>, key: string, honour: bool, offered: seq<string>, factor: real): (Backend, Way)
    requires av != []
  {
    var ceiling := Ceiling(av, factor);
    if key == "" then (LeastLoaded(av), Keyless)
    else if honour && Holder(av, ceiling).Some? then (Holder(av, ceiling).value, ByHolder)
    else if Probe(av, offered, ceiling).Some? then (Probe(av, offered, ceiling).value, ByRing)
    else (LeastLoaded(av), Deflected)
  }

  // ---- the pick, without its functions

  /** Within the ceiling: at most one request in flight, or no more than the factor times
      the mean. */
  predicate Under(av: seq<Backend>, factor: real, x: Backend) {
    x.inflight <= 1 || x.inflight as real * |av| as real <= factor * SumInflight(av) as real
  }

  lemma CeilingIs(av: seq<Backend>, factor: real, x: Backend)
    requires av != []
    ensures x.inflight as real <= Ceiling(av, factor) <==> Under(av, factor, x)
  {
    var n, total, k := |av| as real, SumInflight(av) as real, x.inflight as real;
    var mean := total / n;
    assert mean * n == total;
    assert (factor * mean) * n == factor * total;
    assert k <= factor * mean ==> k * n <= (factor * mean) * n;
    assert k > factor * mean ==> (k - factor * mean) * n > 0.0;
  }

  /** `x` is the one a name stands for: the last of that name. */
  ghost predicate Named(av: seq<Backend>, name: string, x: Backend) {
    exists i :: 0 <= i < |av| && av[i] == x && x.name == name && forall j :: i < j < |av| ==> av[j].name != name
  }

  /** The first offered name that stands for a backend under the ceiling. */
  ghost predicate FirstUnder(av: seq<Backend>, offered: seq<string>, factor: real, x: Backend) {
    exists k :: 0 <= k < |offered| && Named(av, offered[k], x) && Under(av, factor, x)
                && forall m, y :: 0 <= m < k && Named(av, offered[m], y) ==> !Under(av, factor, y)
  }

  ghost predicate NoneUnder(av: seq<Backend>, offered: seq<string>, factor: real) {
    forall m, y :: 0 <= m < |offered| && Named(av, offered[m], y) ==> !Under(av, factor, y)
  }

  /** `x` has fewest requests in flight of those that hold the prefix, and is the first
      of these. */
  ghost predicate BestHolder(av: seq<Backend>, x: Backend) {
    x in av && x.holds && (forall y :: y in av && y.holds ==> x.inflight <= y.inflight)
    && exists i :: 0 <= i < |av| && av[i] == x && forall j :: 0 <= j < i && av[j].holds ==> x.inflight < av[j].inflight
  }

  /** `x` is the first of the least loaded. */
  ghost predicate FirstLeast(av: seq<Backend>, x: Backend) {
    exists i :: 0 <= i < |av| && av[i] == x && (forall j :: 0 <= j < |av| ==> !LessLoaded(av[j], x))
                && forall j :: 0 <= j < i ==> LessLoaded(x, av[j])
  }

  lemma {:induction false} ByNameIs(av: seq<Backend>, name: string)
    ensures ByName(av, name).Some? ==> Named(av, name, ByName(av, name).value)
    ensures forall y :: Named(av, name, y) ==> ByName(av, name) == Some(y)
  {
    if av != [] {
      var n := |av| - 1;
      if av[n].name != name {
        ByNameIs(av[..n], name);
        if ByName(av, name).Some? {
          var x := ByName(av, name).value;
          var i :| 0 <= i < n && av[..n][i] == x && x.name == name && forall j :: i < j < n ==> av[..n][j].name != name;
          assert av[i] == x && forall j :: i < j < |av| ==> av[j] == if j < n then av[..n][j] else av[n];
        }
        forall y | Named(av, name, y) ensures ByName(av, name) == Some(y) {
          var i :| 0 <= i < |av| && av[i] == y && y.name == name && forall j :: i < j < |av| ==> av[j].name != name;
          assert av[..n][i] == y && forall j :: i < j < n ==> av[..n][j] == av[j];
          assert Named(av[..n], name, y);
        }
      } else {
        assert Named(av, name, av[n]);
      }
    }
  }

  lemma {:induction false} ProbeIs(av: seq<Backend>, offered: seq<string>, factor: real)
    requires av != []
    ensures Probe(av, offered, Ceiling(av, factor)).Some? ==>
              FirstUnder(av, offered, factor, Probe(av, offered, Ceiling(av, factor)).value)
    ensures Probe(av, offered, Ceiling(av, factor)).None? ==> NoneUnder(av, offered, factor)
  {
    hide Ceiling, Under, ByName, Named;
    if offered != [] {
      var rest, r := offered[1..], ByName(av, offered[0]);
      ByNameIs(av, offered[0]);
      ProbeIs(av, rest, factor);
      if r.Some? {
        CeilingIs(av, factor, r.value);
      }
      if r.None? || !Under(av, factor, r.value) {
        ProbeLater(av, offered, factor);
      }
    }
  }

  lemma ProbeLater(av: seq<Backend>, offered: seq<string>, factor: real)
    requires offered != [] && forall y :: Named(av, offered[0], y) ==> !Under(av, factor, y)
    ensures NoneUnder(av, offered[1..], factor) ==> NoneUnder(av, offered, factor)
    ensures forall x :: FirstUnder(av, offered[1..], factor, x) ==> FirstUnder(av, offered, factor, x)
  {
    hide Under, Named;
    var rest := offered[1..];
    assert forall m :: 0 < m < |offered| ==> offered[m] == rest[m - 1];
    forall x | FirstUnder(av, rest, factor, x) ensures FirstUnder(av, offered, factor, x) {
      var k :| 0 <= k < |rest| && Named(av, rest[k], x) && Under(av, factor, x)
               && forall m, y :: 0 <= m < k && Named(av, rest[m], y) ==> !Under(av, factor, y);
      assert Named(av, offered[k + 1], x);
    }
  }

  lemma HoldersHead(av: seq<Backend>)
    requires av != []
    ensures av[0].holds ==> HoldersOf(av) == [av[0]] + HoldersOf(av[1..])
    ensures !av[0].holds ==> HoldersOf(av) == HoldersOf(av[1..])
  {
  }

  lemma FewestHead(x: Backend, rest: seq<Backend>)
    requires rest != []
    ensures FewestInflight([x] + rest) == if FewestInflight(rest).inflight < x.inflight then FewestInflight(rest) else x
    ensures FewestInflight([x]) == x
  {
    assert ([x] + rest)[1..] == rest;
  }

  lemma {:induction false} FirstHolder(av: seq<Backend>)
    requires HoldersOf(av) != []
    ensures BestHolder(av, FewestInflight(HoldersOf(av)))
  {
    hide HoldersOf, FewestInflight, BestHolder;
    if av == [] {
      NoHolders();
      assert false;
    } else {
      var head, rest := av[0], av[1..];
      HoldersHead(av);
      HoldersAll(av);
      if HoldersOf(rest) == [] {
        OnlyHolder(av);
      } else {
        FirstHolder(rest);
        var y := FewestInflight(HoldersOf(rest));
        FewestHead(head, HoldersOf(rest));
        BestCons(head, rest, y);
        assert av == [head] + rest;
      }
    }
  }

  lemma NoHolders()
    ensures HoldersOf([]) == []
  {
  }

  lemma OnlyHolder(av: seq<Backend>)
    requires av != [] && HoldersOf(av) == [av[0]] && av[0].holds
    requires forall x :: x in av && x.holds ==> x in HoldersOf(av)
    ensures BestHolder(av, FewestInflight(HoldersOf(av)))
  {
    hide HoldersOf;
    assert FewestInflight([av[0]]) == av[0];
  }

  lemma BestCons(x: Backend, rest: seq<Backend>, y: Backend)
    requires BestHolder(rest, y)
    ensures !x.holds || y.inflight < x.inflight ==> BestHolder([x] + rest, y)
    ensures x.holds && !(y.inflight < x.inflight) ==> BestHolder([x] + rest, x)
  {
    var av := [x] + rest;
    var i :| 0 <= i < |rest| && rest[i] == y
             && forall j :: 0 <= j < i && rest[j].holds ==> y.inflight < rest[j].inflight;
    assert av[i + 1] == y && forall j :: 0 < j < |av| ==> av[j] == rest[j - 1];
    assert av[0] == x;
  }

  lemma {:induction false} LeastIs(av: seq<Backend>)
    requires av != []
    ensures FirstLeast(av, LeastLoaded(av))
  {
    var x := LeastLoaded(av);
    if |av| == 1 {
      LessSelf(x);
    } else {
      LeastIs(av[1..]);
      LessSelf(av[0]);
      hide LessLoaded;
      var rest := av[1..];
      if x != av[0] {
        var i :| 0 <= i < |rest| && rest[i] == x && (forall j :: 0 <= j < |rest| ==> !LessLoaded(rest[j], x))
                 && forall j :: 0 <= j < i ==> LessLoaded(x, rest[j]);
        assert av[i + 1] == x && forall j :: 0 < j < |av| ==> av[j] == rest[j - 1];
      }
      forall j | 0 <= j < |av| ensures !LessLoaded(av[j], x) {
        assert av[j] in av;
      }
    }
  }

  lemma LessSelf(x: Backend)
    ensures !LessLoaded(x, x)
  {
  }

  /** What is picked, and how it is counted. */
  ghost predicate PickOk(av: seq<Backend>, key: string, honour: bool, offered: seq<string>, factor: real,
                         x: Backend, s: Stats, s': Stats) {
    if key == "" then FirstLeast(av, x) && s' == s.(noKey := s.noKey + 1)
    else if honour && exists y :: BestHolder(av, y) && Under(av, factor, y)
    then BestHolder(av, x) && Under(av, factor, x) && s' == s.(known := s.known + 1)
    else if NoneUnder(av, offered, factor) then FirstLeast(av, x) && s' == s.(deflected := s.deflected + 1)
    else FirstUnder(av, offered, factor, x) && s' == s.(affinity := s.affinity + 1)
  }

  lemma HolderIs(av: seq<Backend>, factor: real)
    requires av != []
    ensures Holder(av, Ceiling(av, factor)).Some? <==> exists y :: BestHolder(av, y) && Under(av, factor, y)
    ensures Holder(av, Ceiling(av, factor)).Some? ==>
              && BestHolder(av, Holder(av, Ceiling(av, factor)).value)
              && Under(av, factor, Holder(av, Ceiling(av, factor)).value)
  {
    hide Ceiling, Under;
    var holders := HoldersOf(av);
    if holders != [] {
      var x := FewestInflight(holders);
      FirstHolder(av);
      CeilingIs(av, factor, x);
      forall y | BestHolder(av, y) && Under(av, factor, y) ensures Under(av, factor, x) {
        SameUnder(av, factor, x, y);
      }
    } else {
      HoldersAll(av);
    }
  }

  lemma SameUnder(av: seq<Backend>, factor: real, x: Backend, y: Backend)
    requires BestHolder(av, x) && BestHolder(av, y) && Under(av, factor, y)
    ensures Under(av, factor, x)
  {
  }

  lemma RoutedOk(av: seq<Backend>, key: string, honour: bool, offered: seq<string>, factor: real, s: Stats)
    requires av != []
    ensures
      var routed := Routed(av, key, honour, offered, factor);
      PickOk(av, key, honour, offered, factor, routed.0, s, Counted(s, routed.1))
  {
    hide Ceiling, Under, BestHolder, FirstLeast, FirstUnder, NoneUnder, Holder, Probe, LeastLoaded;
    LeastIs(av);
    HolderIs(av, factor);
    ProbeIs(av, offered, factor);
    FoundUnder(av, offered, factor);
  }

  lemma FoundUnder(av: seq<Backend>, offered: seq<string>, factor: real)
    ensures forall x :: FirstUnder(av, offered, factor, x) ==> !NoneUnder(av, offered, factor)
  {
    hide Under, Named;
  }

  // ---- the bound

  lemma {:induction false} ProbeBound(av: seq<Backend>, names: seq<string>, ceiling: real)
    ensures Probe(av, names, ceiling).Some? ==>
              Probe(av, names, ceiling).value in av && Probe(av, names, ceiling).value.inflight as real <= ceiling
    ensures Probe(av, names, ceiling).None? ==>
              forall n :: n in names ==> ByName(av, n).None? || ByName(av, n).value.inflight as real > ceiling
  {
    if names != [] {
      ProbeBound(av, names[1..], ceiling);
      assert names == [names[0]] + names[1..];
    }
  }

  /** Backend `i` is the one a probe of the offered names would look at. */
  predicate Probed(av: seq<Backend>, offered: seq<string>, i: nat)
    requires i < |av|
  {
    av[i].name in offered && forall j :: i < j < |av| ==> av[j].name != av[i].name
  }

  /** How much load backend `j` must carry, a unit of load at a backend of share
      `w`, for that one to be the fallback: its own share, and once probed no less
      than the other's. */
  function Pull(av: seq<Backend>, offered: seq<string>, w: real, j: nat): real
    requires j < |av|
  {
    if Probed(av, offered, j) && w > Share(av[j]) then w else Share(av[j])
  }

  function TotalPull(av: seq<Backend>, offered: seq<string>, w: real, n: nat): real
    requires n <= |av|
  {
    if n == 0 then 0.0 else TotalPull(av, offered, w, n - 1) + Pull(av, offered, w, n - 1)
  }

  function Positive(factor: real): (f: real)
    ensures f >= 0.0 && f >= factor
  {
    if factor >= 0.0 then factor else 0.0
  }

  /** No backend's share outweighs what its fallback would need of the fleet. */
  predicate Fits(av: seq<Backend>, offered: seq<string>, factor: real, i: nat)
    requires i < |av|
  {
    |av| as real * Share(av[i]) <= Positive(factor) * TotalPull(av, offered, Share(av[i]), |av|)
  }

  predicate Balanced(av: seq<Backend>, offered: seq<string>, factor: real) {
    forall i :: 0 <= i < |av| ==> Fits(av, offered, factor, i)
  }

  /** The same backends, whatever their load, their queues and what they hold. */
  ghost predicate SameFleet(av: seq<Backend>, fleet: seq<Backend>) {
    |av| == |fleet| && forall i :: 0 <= i < |av| ==> av[i].name == fleet[i].name && av[i].weight == fleet[i].weight
  }

  /** Every pick with a key is under the ceiling, at every load. */
  ghost predicate AlwaysUnder(fleet: seq<Backend>, key: string, honour: bool, offered: seq<string>, factor: real)
    requires fleet != []
  {
    forall av :: SameFleet(av, fleet) ==>
      Routed(av, key, honour, offered, factor).0.inflight as real <= Ceiling(av, factor)
  }

  // ---- balanced fleets are always under the ceiling

  lemma {:induction false} ByNameLast(av: seq<Backend>, i: nat)
    requires i < |av| && forall j :: i < j < |av| ==> av[j].name != av[i].name
    ensures ByName(av, av[i].name) == Some(av[i])
  {
    if i < |av| - 1 {
      ByNameLast(av[..|av| - 1], i);
    }
  }

  lemma SumSnoc(av: seq<Backend>, x: Backend)
    ensures SumInflight(av + [x]) == SumInflight(av) + x.inflight
  {
    if av != [] {
      assert (av + [x])[1..] == av[1..] + [x];
      SumSnoc(av[1..], x);
    }
  }

  /** Backend `j` has at least `unit` times its pull. */
  predicate Carries(av: seq<Backend>, offered: seq<string>, w: real, unit: real, j: nat)
    requires j < |av|
  {
    unit * Pull(av, offered, w, j) <= av[j].inflight as real
  }

  /** A load that is everywhere a multiple of the pull is one in total. */
  lemma {:induction false} PulledSum(av: seq<Backend>, offered: seq<string>, w: real, unit: real, n: nat)
    requires n <= |av| && forall j :: 0 <= j < n ==> Carries(av, offered, w, unit, j)
    ensures unit * TotalPull(av, offered, w, n) <= SumInflight(av[..n]) as real
  {
    hide Pull, TotalPull, SumInflight, Carries;
    Prefixes(av, offered, w, n);
    if n > 0 {
      PulledSum(av, offered, w, unit, n - 1);
      Carried(av, offered, w, unit, n - 1);
      Gather(unit, TotalPull(av, offered, w, n - 1), Pull(av, offered, w, n - 1), TotalPull(av, offered, w, n),
             SumInflight(av[..n - 1]) as real, av[n - 1].inflight as real);
    }
  }

  lemma Carried(av: seq<Backend>, offered: seq<string>, w: real, unit: real, j: nat)
    requires j < |av|
    ensures Carries(av, offered, w, unit, j) <==> unit * Pull(av, offered, w, j) <= av[j].inflight as real
  {
    hide Pull;
  }

  lemma Prefixes(av: seq<Backend>, offered: seq<string>, w: real, n: nat)
    requires n <= |av|
    ensures n == 0 ==> TotalPull(av, offered, w, n) == 0.0 && SumInflight(av[..n]) == 0
    ensures n > 0 ==>
              && TotalPull(av, offered, w, n) == TotalPull(av, offered, w, n - 1) + Pull(av, offered, w, n - 1)
              && SumInflight(av[..n]) == SumInflight(av[..n - 1]) + av[n - 1].inflight
  {
    if n > 0 {
      assert av[..n] == av[..n - 1] + [av[n - 1]];
      SumSnoc(av[..n - 1], av[n - 1]);
    }
  }

  lemma Gather(u: real, a: real, b: real, total: real, x: real, y: real)
    requires u * a <= x && u * b <= y && total == a + b
    ensures u * total <= x + y
  {
    Distribute(u, a, b);
  }

  lemma Distribute(u: real, a: real, b: real)
    ensures u * (a + b) == u * a + u * b
  {
  }

  lemma Quotient(a: real, d: real) returns (q: real)
    requires d > 0.0
    ensures q == a / d && q * d == a
  {
    q := a / d;
  }

  lemma Times(a: real, b: real, c: real)
    requires a <= b && c >= 0.0
    ensures a * c <= b * c
  {
  }

  lemma Factor(p: real, q: real, d: real)
    requires d > 0.0 && p * d >= q * d
    ensures p >= q
  {
    assert p < q ==> (q - p) * d > 0.0;
  }

  /** A load not under another's in proportion is not under its multiple. */
  lemma NotLess(r: Backend, x: Backend, least: nat, unit: real)
    requires !LessLoaded(x, r) && least <= r.inflight && unit * Share(r) == least as real
    ensures unit * Share(x) <= x.inflight as real
  {
    hide Share;
    var p := Quotient(r.inflight as real, Share(r));
    Factor(p, unit, Share(r));
    var q := Quotient(x.inflight as real, Share(x));
    Times(unit, q, Share(x));
  }

  /** The smallest whole load over the ceiling, spread by the pulls, is itself
      under the ceiling of a balanced fleet. */
  lemma SpreadBelow(n: real, share: real, unit: real, factor: real, pull: real, sum: real, over: real)
    requires n > 0.0 && unit >= 0.0 && factor >= 0.0
    requires n * share <= factor * pull && unit * pull <= sum && unit * share == over
    ensures over <= factor * (sum / n)
  {
    var mean := Quotient(sum, n);
    Times(n * share, factor * pull, unit);
    Times(unit * pull, sum, factor);
    assert (n * share) * unit == over * n;
    assert (factor * pull) * unit == (unit * pull) * factor;
    assert sum * factor == (factor * mean) * n;
    if over > factor * mean {
      assert (over - factor * mean) * n > 0.0;
    }
  }

  lemma Deflects(av: seq<Backend>, key: string, honour: bool, offered: seq<string>, factor: real)
    requires av != [] && key != ""
    ensures
      var r := Routed(av, key, honour, offered, factor).0;
      r.inflight as real > Ceiling(av, factor) ==> r == LeastLoaded(av)
    ensures Routed(av, key, honour, offered, factor).0 in av
  {
    hide LeastLoaded, Probe, Ceiling;
    ProbeBound(av, offered, Ceiling(av, factor));
  }

  lemma OverCarries(av: seq<Backend>, offered: seq<string>, i: nat, over: nat, unit: real, j: nat)
    requires i < |av| && av[i].inflight >= over && unit * Share(av[i]) == over as real
    requires j < |av| && !LessLoaded(av[j], av[i]) && (Probed(av, offered, j) ==> av[j].inflight >= over)
    ensures Carries(av, offered, Share(av[i]), unit, j)
  {
    NotLess(av[i], av[j], over, unit);
    hide LessLoaded, Share, Probed;
  }

  /** The fallback over the ceiling, with every probed backend over it too: every
      load is at least its pull, in units of the fallback's share. */
  lemma OverPulls(av: seq<Backend>, offered: seq<string>, i: nat, over: nat) returns (unit: real)
    requires i < |av| && av[i].inflight >= over
    requires forall j :: 0 <= j < |av| ==> !LessLoaded(av[j], av[i])
    requires forall j :: 0 <= j < |av| && Probed(av, offered, j) ==> av[j].inflight >= over
    ensures unit >= 0.0 && unit * Share(av[i]) == over as real
    ensures unit * TotalPull(av, offered, Share(av[i]), |av|) <= SumInflight(av) as real
  {
    hide LessLoaded, Share, Probed, Carries, TotalPull, SumInflight;
    unit := Quotient(over as real, Share(av[i]));
    NotNegative(unit, Share(av[i]), over as real);
    forall j | 0 <= j < |av| ensures Carries(av, offered, Share(av[i]), unit, j) {
      OverCarries(av, offered, i, over, unit, j);
    }
    PulledSum(av, offered, Share(av[i]), unit, |av|);
    assert av[..|av|] == av;
  }

  lemma CeilingAtLeast(av: seq<Backend>, factor: real)
    requires av != []
    ensures Ceiling(av, factor) >= 1.0
    ensures Ceiling(av, factor) >= Positive(factor) * (SumInflight(av) as real / |av| as real)
    ensures Ceiling(av, factor) > 1.0 ==>
              Ceiling(av, factor) == Positive(factor) * (SumInflight(av) as real / |av| as real)
  {
    var mean := Quotient(SumInflight(av) as real, |av| as real);
    assert mean < 0.0 ==> mean * |av| as real < 0.0;
    assert factor < 0.0 ==> factor * mean <= 0.0;
  }

  /** What no probed backend is under, the probing does not find. */
  lemma ProbedOver(av: seq<Backend>, offered: seq<string>, ceiling: real)
    requires Probe(av, offered, ceiling).None?
    ensures forall j :: 0 <= j < |av| && Probed(av, offered, j) ==> av[j].inflight as real > ceiling
  {
    ProbeBound(av, offered, ceiling);
    hide Probe, ByName;
    forall j | 0 <= j < |av| && Probed(av, offered, j) ensures av[j].inflight as real > ceiling {
      ByNameLast(av, j);
    }
  }

  lemma NotNegative(q: real, d: real, a: real)
    requires d > 0.0 && a >= 0.0 && q * d == a
    ensures q >= 0.0
  {
    assert q < 0.0 ==> q * d < 0.0;
  }

  lemma FallbackBelow(av: seq<Backend>, offered: seq<string>, factor: real, i: nat, over: nat, unit: real)
    requires i < |av| && Fits(av, offered, factor, i) && unit >= 0.0 && unit * Share(av[i]) == over as real
    requires unit * TotalPull(av, offered, Share(av[i]), |av|) <= SumInflight(av) as real
    ensures over as real <= Positive(factor) * (SumInflight(av) as real / |av| as real)
  {
    hide Probed, Share, SumInflight, TotalPull, Positive;
    SpreadBelow(|av| as real, Share(av[i]), unit, Positive(factor), TotalPull(av, offered, Share(av[i]), |av|),
                SumInflight(av) as real, over as real);
  }

  lemma OverFalls(av: seq<Backend>, offered: seq<string>, factor: real, i: nat, over: nat)
    requires i < |av| && av[i].inflight >= over && Fits(av, offered, factor, i)
    requires forall j :: 0 <= j < |av| ==> !LessLoaded(av[j], av[i])
    requires forall j :: 0 <= j < |av| && Probed(av, offered, j) ==> av[j].inflight >= over
    ensures over as real <= Positive(factor) * (SumInflight(av) as real / |av| as real)
  {
    hide LessLoaded, Probed, Share, SumInflight, TotalPull, Positive, Fits;
    var unit := OverPulls(av, offered, i, over);
    FallbackBelow(av, offered, factor, i, over, unit);
  }

  lemma BalancedUnder(av: seq<Backend>, key: string, honour: bool, offered: seq<string>, factor: real)
    requires av != [] && key != "" && Balanced(av, offered, factor)
    ensures Routed(av, key, honour, offered, factor).0.inflight as real <= Ceiling(av, factor)
  {
    Deflects(av, key, honour, offered, factor);
    var r, ceiling := Routed(av, key, honour, offered, factor).0, Ceiling(av, factor);
    ProbeBound(av, offered, ceiling);
    if r.inflight as real > ceiling {
      var i: nat :| i < |av| && av[i] == r;
      var over := ceiling.Floor + 1;
      CeilingAtLeast(av, factor);
      assert Fits(av, offered, factor, i);
      ProbedOver(av, offered, ceiling);
      assert forall x :: x in av ==> !LessLoaded(x, LeastLoaded(av));
      hide LeastLoaded, Probe, Ceiling, Fits, Probed, LessLoaded, Routed, SumInflight, Positive;
      OverFalls(av, offered, factor, i, over);
    }
  }

  // ---- an unbalanced fleet has a load at which the pick is over the ceiling

  /** A load in proportion to the pull, only that of backend `i` rounded down. */
  function SkewedAt(fleet: seq<Backend>, offered: seq<string>, i: nat, scale: real, j: nat): Backend
    requires i < |fleet| && j < |fleet|
  {
    fleet[j].(holds := false,
              inflight := if j == i then Whole(scale * Share(fleet[i]))
                          else Whole(scale * Pull(fleet, offered, Share(fleet[i]), j)) + 1)
  }

  function Skewed(fleet: seq<Backend>, offered: seq<string>, i: nat, scale: real): (av: seq<Backend>)
    requires i < |fleet|
    ensures |av| == |fleet| && forall j :: 0 <= j < |av| ==> av[j] == SkewedAt(fleet, offered, i, scale, j)
  {
    seq(|fleet|, j requires 0 <= j < |fleet| => SkewedAt(fleet, offered, i, scale, j))
  }

  /** A load rounded down. */
  function Whole(x: real): (n: nat)
    ensures x >= 0.0 ==> n as real <= x < n as real + 1.0
  {
    if x >= 0.0 then x.Floor else 0
  }

  lemma PullSame(av: seq<Backend>, fleet: seq<Backend>, offered: seq<string>, w: real, n: nat)
    requires SameFleet(av, fleet) && n <= |av|
    ensures TotalPull(av, offered, w, n) == TotalPull(fleet, offered, w, n)
    ensures forall j :: 0 <= j < n ==> Pull(av, offered, w, j) == Pull(fleet, offered, w, j)
  {
    if n > 0 {
      PullSame(av, fleet, offered, w, n - 1);
      assert Probed(av, offered, n - 1) == Probed(fleet, offered, n - 1);
    }
  }

  lemma BalancedSame(av: seq<Backend>, fleet: seq<Backend>, offered: seq<string>, factor: real)
    requires SameFleet(av, fleet) && Balanced(fleet, offered, factor)
    ensures Balanced(av, offered, factor)
  {
    hide TotalPull;
    forall i | 0 <= i < |av| ensures Fits(av, offered, factor, i) {
      assert Fits(fleet, offered, factor, i);
      PullSame(av, fleet, offered, Share(av[i]), |av|);
    }
  }

  lemma ScaleFor(n: real, share: real, factor: real, pull: real) returns (scale: real)
    requires n > 0.0 && share > 0.0 && factor >= 0.0 && n * share > factor * pull
    ensures scale >= 0.0 && scale * share >= 3.0
    ensures factor * (scale * pull + n) < n * (scale * share - 1.0)
  {
    var gap := n * share - factor * pull;
    assert factor * n >= 0.0;
    var a := Quotient(factor * n + n + 1.0, gap);
    var b := Quotient(3.0, share);
    assert a < 0.0 ==> a * gap < 0.0;
    assert b < 0.0 ==> b * share < 0.0;
    scale := a + b;
    assert b * gap >= 0.0 && a * share >= 0.0;
    Distribute(share, a, b);
    assert scale * gap >= factor * n + n + 1.0;
    assert scale * gap == n * (scale * share) - factor * (scale * pull);
  }

  lemma {:induction false} SkewedSum(fleet: seq<Backend>, offered: seq<string>, i: nat, scale: real, n: nat)
    requires i < |fleet| && scale >= 0.0 && n <= |fleet|
    ensures SumInflight(Skewed(fleet, offered, i, scale)[..n]) as real
         <= scale * TotalPull(fleet, offered, Share(fleet[i]), n) + n as real
  {
    hide Pull, TotalPull, SumInflight, Skewed, Share;
    var av := Skewed(fleet, offered, i, scale);
    Prefixes(fleet, offered, Share(fleet[i]), n);
    Prefixes(av, offered, Share(fleet[i]), n);
    if n == 0 {
      assert scale * 0.0 == 0.0;
    } else {
      SkewedSum(fleet, offered, i, scale, n - 1);
      SkewedLoad(fleet, offered, i, scale, n - 1);
      DistributeTo(scale, TotalPull(fleet, offered, Share(fleet[i]), n - 1),
                   Pull(fleet, offered, Share(fleet[i]), n - 1), TotalPull(fleet, offered, Share(fleet[i]), n));
    }
  }

  lemma DistributeTo(u: real, a: real, b: real, total: real)
    requires total == a + b
    ensures u * total == u * a + u * b
  {
  }

  lemma SkewedLoad(fleet: seq<Backend>, offered: seq<string>, i: nat, scale: real, j: nat)
    requires i < |fleet| && scale >= 0.0 && j < |fleet|
    ensures
      var x := Skewed(fleet, offered, i, scale)[j];
      var share := Share(fleet[i]);
      && x == fleet[j].(holds := false, inflight := x.inflight)
      && x.inflight as real <= scale * Pull(fleet, offered, share, j) + 1.0
      && (j == i ==> scale * share - 1.0 < x.inflight as real <= scale * share)
      && (j != i ==> scale * Pull(fleet, offered, share, j) < x.inflight as real)
  {
    var share := Share(fleet[i]);
    var p := Pull(fleet, offered, share, j);
    assert j == i ==> p == share;
    hide Share, Pull, Skewed;
    NotBelow(scale, share);
    NotBelow(scale, p);
  }

  lemma NotBelow(a: real, b: real)
    requires a >= 0.0 && b >= 0.0
    ensures a * b >= 0.0 && Whole(a * b) as real <= a * b < Whole(a * b) as real + 1.0
  {
  }

  lemma SkewedLighter(fleet: seq<Backend>, offered: seq<string>, i: nat, scale: real, j: nat)
    requires i < |fleet| && scale >= 0.0 && j < |fleet| && j != i
    ensures
      var av := Skewed(fleet, offered, i, scale);
      LessLoaded(av[i], av[j]) && (Probed(fleet, offered, j) ==> av[i].inflight <= av[j].inflight)
  {
    var av := Skewed(fleet, offered, i, scale);
    SkewedLoad(fleet, offered, i, scale, i);
    SkewedLoad(fleet, offered, i, scale, j);
    PullAtLeast(fleet, offered, Share(fleet[i]), j);
    SameShare(fleet[i], av[i]);
    SameShare(fleet[j], av[j]);
    hide Skewed, Share, Pull, LessLoaded, Probed;
    LoadsLighter(av[i], av[j], scale, Pull(fleet, offered, Share(fleet[i]), j), Probed(fleet, offered, j));
  }

  lemma LoadsLighter(a: Backend, b: Backend, scale: real, pull: real, probed: bool)
    requires a.inflight as real <= scale * Share(a) && scale * pull < b.inflight as real && scale >= 0.0
    requires Share(b) <= pull && (probed ==> Share(a) <= pull)
    ensures LessLoaded(a, b) && (probed ==> a.inflight <= b.inflight)
  {
    hide Share, LessLoaded;
    Times(Share(b), pull, scale);
    Lighter(a, b, scale);
    if probed {
      Times(Share(a), pull, scale);
      assert a.inflight as real < b.inflight as real;
    }
  }

  /** The skewed backend is the one the fallback picks. */
  lemma SkewedLeast(fleet: seq<Backend>, offered: seq<string>, i: nat, scale: real)
    requires i < |fleet| && scale >= 0.0
    ensures LeastLoaded(Skewed(fleet, offered, i, scale)) == Skewed(fleet, offered, i, scale)[i]
  {
    var av := Skewed(fleet, offered, i, scale);
    var r := LeastLoaded(av);
    assert r in av && forall x :: x in av ==> !LessLoaded(x, r);
    assert av[i] in av;
    hide LeastLoaded, Skewed, Share, Pull, LessLoaded;
    var j :| 0 <= j < |av| && av[j] == r;
    if j != i {
      SkewedLighter(fleet, offered, i, scale, j);
      assert false;
    }
  }

  lemma SameShare(a: Backend, b: Backend)
    requires a.weight == b.weight
    ensures Share(a) == Share(b)
  {
  }

  lemma PullAtLeast(av: seq<Backend>, offered: seq<string>, w: real, j: nat)
    requires j < |av|
    ensures Share(av[j]) <= Pull(av, offered, w, j) && (Probed(av, offered, j) ==> w <= Pull(av, offered, w, j))
  {
  }

  lemma Lighter(a: Backend, b: Backend, scale: real)
    requires a.inflight as real <= scale * Share(a) && scale * Share(b) < b.inflight as real
    ensures LessLoaded(a, b)
  {
    var p := Quotient(a.inflight as real, Share(a));
    var q := Quotient(b.inflight as real, Share(b));
    hide Share;
    if p > scale {
      assert (p - scale) * Share(a) > 0.0;
    }
    if q <= scale {
      Times(q, scale, Share(b));
    }
  }

  /** Every probed backend is at least as loaded as the skewed one. */
  lemma SkewedProbed(fleet: seq<Backend>, offered: seq<string>, i: nat, scale: real, j: nat)
    requires i < |fleet| && scale >= 0.0 && j < |fleet| && Probed(Skewed(fleet, offered, i, scale), offered, j)
    ensures Skewed(fleet, offered, i, scale)[i].inflight <= Skewed(fleet, offered, i, scale)[j].inflight
  {
    SkewedSame(fleet, offered, i, scale);
    hide Skewed, SkewedAt, Share, Pull, LessLoaded;
    assert Probed(fleet, offered, j);
    if j != i {
      SkewedLighter(fleet, offered, i, scale, j);
    }
  }

  /** The backend a name stands for is a probed one. */
  lemma {:induction false} ByNameProbed(av: seq<Backend>, offered: seq<string>, name: string) returns (j: nat)
    requires name in offered && ByName(av, name).Some?
    ensures j < |av| && av[j] == ByName(av, name).value && Probed(av, offered, j)
  {
    var last := |av| - 1;
    if av[last].name == name {
      j := last;
    } else {
      j := ByNameProbed(av[..last], offered, name);
    }
  }

  lemma {:induction false} ProbeEmpty(av: seq<Backend>, names: seq<string>, ceiling: real)
    requires forall n :: n in names && ByName(av, n).Some? ==> ByName(av, n).value.inflight as real > ceiling
    ensures Probe(av, names, ceiling).None?
  {
    if names != [] {
      assert names[0] in names && forall n :: n in names[1..] ==> n in names;
      ProbeEmpty(av, names[1..], ceiling);
    }
  }

  /** At the skewed load the pick is the skewed backend, over the ceiling. */
  lemma SkewedOver(fleet: seq<Backend>, key: string, honour: bool, offered: seq<string>, factor: real, i: nat)
    requires i < |fleet| && key != "" && !Fits(fleet, offered, factor, i)
    ensures !AlwaysUnder(fleet, key, honour, offered, factor)
  {
    hide Share, TotalPull, Positive, Probed, LeastLoaded, Pull, Probe, Skewed, SumInflight, Ceiling;
    var n, share := |fleet| as real, Share(fleet[i]);
    var pull := TotalPull(fleet, offered, share, |fleet|);
    var scale := ScaleFor(n, share, Positive(factor), pull);
    var av := Skewed(fleet, offered, i, scale);
    SkewedSum(fleet, offered, i, scale, |fleet|);
    assert av[..|fleet|] == av;
    SkewedLoad(fleet, offered, i, scale, i);
    MeanBelow(SumInflight(av) as real, n, Positive(factor), scale * pull + n, scale * share - 1.0);
    CeilingAtLeast(av, factor);
    SkewedDeflects(fleet, key, honour, offered, factor, i, scale);
    SkewedLeast(fleet, offered, i, scale);
    SkewedSame(fleet, offered, i, scale);
  }

  lemma SkewedSame(fleet: seq<Backend>, offered: seq<string>, i: nat, scale: real)
    requires i < |fleet| && scale >= 0.0
    ensures SameFleet(Skewed(fleet, offered, i, scale), fleet)
  {
  }

  lemma MeanBelow(sum: real, n: real, factor: real, most: real, limit: real)
    requires n > 0.0 && factor >= 0.0 && sum <= most && factor * most < n * limit
    ensures factor * (sum / n) < limit
  {
    var mean := Quotient(sum, n);
    Times(sum, most, factor);
    assert factor * sum == (factor * mean) * n;
    if factor * mean >= limit {
      Times(limit, factor * mean, n);
    }
  }

  lemma SkewedDeflects(fleet: seq<Backend>, key: string, honour: bool, offered: seq<string>, factor: real,
                       i: nat, scale: real)
    requires i < |fleet| && scale >= 0.0 && key != ""
    requires
      var av := Skewed(fleet, offered, i, scale);
      av[i].inflight as real > Ceiling(av, factor)
    ensures
      var av := Skewed(fleet, offered, i, scale);
      Routed(av, key, honour, offered, factor).0 == LeastLoaded(av)
  {
    var av := Skewed(fleet, offered, i, scale);
    hide LeastLoaded, Pull, Skewed, Ceiling, Probe, FewestInflight, Share;
    assert HoldersOf(av) == [] by {
      forall x | x in av ensures !x.holds {
        var j :| 0 <= j < |av| && av[j] == x;
        SkewedLoad(fleet, offered, i, scale, j);
      }
      assert forall x :: x in HoldersOf(av) ==> x in av && x.holds;
      if HoldersOf(av) != [] {
        assert HoldersOf(av)[0] in HoldersOf(av);
      }
    }
    forall n | n in offered && ByName(av, n).Some? ensures ByName(av, n).value.inflight as real > Ceiling(av, factor) {
      var j := ByNameProbed(av, offered, n);
      SkewedProbed(fleet, offered, i, scale, j);
    }
    ProbeEmpty(av, offered, Ceiling(av, factor));
  }

  /** For given names, weights, offered names and factor, every pick with a key is
      under the ceiling at every load exactly when the fleet is balanced. */
  lemma AlwaysUnderExactly(fleet: seq<Backend>, key: string, honour: bool, offered: seq<string>, factor: real)
    requires fleet != [] && key != ""
    ensures AlwaysUnder(fleet, key, honour, offered, factor) <==> Balanced(fleet, offered, factor)
  {
    if Balanced(fleet, offered, factor) {
      forall av | SameFleet(av, fleet)
        ensures Routed(av, key, honour, offered, factor).0.inflight as real <= Ceiling(av, factor)
      {
        BalancedSame(av, fleet, offered, factor);
        BalancedUnder(av, key, honour, offered, factor);
      }
    } else {
      var i: nat :| i < |fleet| && !Fits(fleet, offered, factor, i);
      SkewedOver(fleet, key, honour, offered, factor, i);
    }
  }

  // ---- what balance comes to

  function TotalShare(av: seq<Backend>): real {
    if av == [] then 0.0 else TotalShare(av[..|av| - 1]) + Share(av[|av| - 1])
  }

  /** With nothing offered the pulls are the shares. */
  lemma {:induction false} PullOfNone(av: seq<Backend>, w: real, n: nat)
    requires n <= |av|
    ensures TotalPull(av, [], w, n) == TotalShare(av[..n])
  {
    if n > 0 {
      PullOfNone(av, w, n - 1);
      assert av[..n][..n - 1] == av[..n - 1];
    }
  }

  /** The fallback on its own is under the ceiling at every load. */
  ghost predicate FallbackUnder(fleet: seq<Backend>, factor: real)
    requires fleet != []
  {
    forall av :: SameFleet(av, fleet) ==> LeastLoaded(av).inflight as real <= Ceiling(av, factor)
  }

  /** A share of at most the factor times the mean share. */
  predicate Modest(fleet: seq<Backend>, factor: real, x: Backend) {
    |fleet| as real * Share(x) <= Positive(factor) * TotalShare(fleet)
  }

  lemma ModestFits(fleet: seq<Backend>, factor: real, i: nat)
    requires i < |fleet|
    ensures Fits(fleet, [], factor, i) <==> Modest(fleet, factor, fleet[i])
  {
    PullOfNone(fleet, Share(fleet[i]), |fleet|);
    assert fleet[..|fleet|] == fleet;
  }

  lemma FallbackAlone(fleet: seq<Backend>, factor: real)
    requires fleet != []
    ensures FallbackUnder(fleet, factor) <==> AlwaysUnder(fleet, "k", false, [], factor)
  {
    hide LeastLoaded, Ceiling, SameFleet;
    if FallbackUnder(fleet, factor) {
      forall av | SameFleet(av, fleet)
        ensures Routed(av, "k", false, [], factor).0.inflight as real <= Ceiling(av, factor)
      {
      }
    }
    forall av | SameFleet(av, fleet) ensures Routed(av, "k", false, [], factor).0 == LeastLoaded(av) {
    }
  }

  /** ... which is so exactly when no share is more than the factor times the mean. */
  lemma FallbackUnderExactly(fleet: seq<Backend>, factor: real)
    requires fleet != []
    ensures FallbackUnder(fleet, factor) <==> forall x :: x in fleet ==> Modest(fleet, factor, x)
  {
    hide FallbackUnder, AlwaysUnder, Modest, Fits;
    FallbackAlone(fleet, factor);
    AlwaysUnderExactly(fleet, "k", false, [], factor);
    forall i | 0 <= i < |fleet| ensures Fits(fleet, [], factor, i) <==> Modest(fleet, factor, fleet[i]) {
      ModestFits(fleet, factor, i);
    }
  }

  /** A probe that looks at every backend leaves nothing to weigh. */
  lemma OfferAllUnder(av: seq<Backend>, offered: seq<string>, factor: real)
    requires factor >= 1.0
    requires forall i :: 0 <= i < |av| ==> Probed(av, offered, i)
    ensures Balanced(av, offered, factor)
  {
    hide Probed, Fits, Share, TotalPull;
    forall i | 0 <= i < |av| ensures Fits(av, offered, factor, i) {
      PullAllAtLeast(av, offered, Share(av[i]), |av|);
      FitsAtLeast(av, offered, factor, i);
    }
  }

  lemma FitsAtLeast(av: seq<Backend>, offered: seq<string>, factor: real, i: nat)
    requires i < |av| && factor >= 1.0
    requires |av| as real * Share(av[i]) <= TotalPull(av, offered, Share(av[i]), |av|)
    ensures Fits(av, offered, factor, i)
  {
    hide Share, TotalPull;
    Times(0.0, Share(av[i]), |av| as real);
    AtLeastTimes(|av| as real * Share(av[i]), TotalPull(av, offered, Share(av[i]), |av|), factor);
  }

  lemma {:induction false} PullAllAtLeast(av: seq<Backend>, offered: seq<string>, w: real, n: nat)
    requires w > 0.0 && n <= |av| && forall j :: 0 <= j < n ==> Probed(av, offered, j) || w <= Share(av[j])
    ensures n as real * w <= TotalPull(av, offered, w, n)
  {
    if n > 0 {
      PullAllAtLeast(av, offered, w, n - 1);
      hide Probed;
      assert n as real * w == (n - 1) as real * w + w;
    }
  }

  lemma AtLeastTimes(a: real, b: real, factor: real)
    requires 0.0 <= a <= b && factor >= 1.0
    ensures a <= Positive(factor) * b
  {
    Times(1.0, factor, b);
  }

  /** Equal weights are balanced whatever is offered. */
  lemma EqualWeightsUnder(av: seq<Backend>, offered: seq<string>, factor: real)
    requires factor >= 1.0 && forall x :: x in av ==> x.weight == av[0].weight
    ensures Balanced(av, offered, factor)
  {
    hide Probed;
    forall i | 0 <= i < |av| ensures Fits(av, offered, factor, i) {
      assert av[i] in av;
      forall j | 0 <= j < |av| ensures Share(av[i]) <= Share(av[j]) {
        assert av[j] in av;
      }
      PullAllAtLeast(av, offered, Share(av[i]), |av|);
      FitsAtLeast(av, offered, factor, i);
    }
  }

  const HEAVY := [Ring.Replica("a", 10.0), Ring.Replica("b", 1.0)]

  function HeavyPlace(): Ring.Placing {
    (name, i) => if name == "a" then i else 100 + i
  }

  function HeavyRing(): seq<Ring.Point> {
    Ring.Built(HEAVY, 1, HeavyPlace())
  }

  lemma HeavyPoints()
    ensures Ring.Point(0, "a") in HeavyRing()
    ensures forall p :: p in HeavyRing() ==> p.at <= 100 && (p.at < 10 ==> p.name == "a")
    ensures Ring.Ordered(HeavyRing())
  {
    hide Ring.Built, Ring.Ordered;
    Ring.BuiltIs(HEAVY, 1, HeavyPlace());
    var first := HEAVY[0];
    assert first in HEAVY && Ring.Hosted(first, 0, 1) && Ring.Point(0, "a") == Ring.Point(HeavyPlace()("a", 0), "a");
    assert Ring.NodeOf(Ring.Point(0, "a"), HEAVY, 1, HeavyPlace());
    forall p | p in HeavyRing() ensures p.at <= 100 && (p.at < 10 ==> p.name == "a") {
      var r, i: nat :| r in HEAVY && Ring.Hosted(r, i, 1) && p == Ring.Point(HeavyPlace()(r.name, i), r.name);
      assert r == HEAVY[0] || r == HEAVY[1];
    }
  }

  /** A key past every node wraps around to the first of the heavy replica's. */
  lemma HeavyOffered()
    ensures Ring.Take(Ring.Preference(HeavyRing(), 200), 1) == ["a"]
  {
    HeavyPoints();
    hide HeavyRing;
    var ring := HeavyRing();
    assert ring != [];
    Ring.OrderedTail(ring);
    assert ring[0].name == "a";
    assert forall k :: 0 <= k < |ring| ==> ring[k] in ring;
    Ring.BisectIs(Ring.Ats(ring), 200, |ring|);
    assert ring[|ring|..] + ring[..|ring|] == ring;
    assert [] + ["a"] == ["a"];
    Ring.DistinctExtends(["a"], ring[1..]);
    assert Ring.Preference(ring, 200) == Ring.Distinct(["a"], ring[1..]);
  }

  /** A backend ten times as heavy as the other, and the only one the ring offers when
      it is asked for one: it is probed, found over the ceiling, and picked all the
      same. */
  lemma HeavyPickExceeds()
    ensures
      var av := [Backend("a", 10.0, true, 5, 0, false), Backend("b", 1.0, true, 1, 0, false)];
      var offered := Ring.Take(Ring.Preference(Ring.Built(HEAVY, 1, HeavyPlace()), 200), 1);
      Routed(av, "k", true, offered, 1.25) == (av[0], Deflected) && 5.0 > Ceiling(av, 1.25)
  {
    hide Routed, Ceiling;
    HeavyOffered();
    HeavyRouted();
  }

  lemma HeavyRouted()
    ensures
      var av := [Backend("a", 10.0, true, 5, 0, false), Backend("b", 1.0, true, 1, 0, false)];
      Routed(av, "k", true, ["a"], 1.25) == (av[0], Deflected) && 5.0 > Ceiling(av, 1.25)
  {
    var big, small := Backend("a", 10.0, true, 5, 0, false), Backend("b", 1.0, true, 1, 0, false);
    var av := [big, small];
    assert av[1..] == [small] && av[..1] == [big] && [small][1..] == [];
    assert LeastLoaded([small]) == small && HoldersOf([small]) == [];
    assert Weighted(big) == 0.5 && Weighted(small) == 1.0;
    assert LeastLoaded(av) == big;
    assert SumInflight([small]) == 1 && SumInflight(av) == 6;
    assert ByName([big], "a") == Some(big) && ByName(av, "a") == Some(big);
    assert ["a"][1..] == [];
  }

  lemma PickBound(av: seq<Backend>, key: string, honour: bool, offered: seq<string>, factor: real)
    requires av != []
    ensures Routed(av, key, honour, offered, factor).0 in av
    ensures key != "" && Balanced(av, offered, factor) ==>
              Routed(av, key, honour, offered, factor).0.inflight as real <= Ceiling(av, factor)
  {
    hide Balanced, LeastLoaded, Probe, Ceiling;
    if key != "" {
      Deflects(av, key, honour, offered, factor);
      if Balanced(av, offered, factor) {
        BalancedUnder(av, key, honour, offered, factor);
      }
    }
  }

  // ---- the router object

  class PrefixAffinityRouter {
    const ring: Ring.ConsistentHashRing
    const factor: real
    const probe: int
    const honourKnown: bool
    var stats: Stats

    constructor (ring: Ring.ConsistentHashRing, factor: real, probe: int, honourKnown: bool)
      ensures this.ring == ring && this.factor == factor && this.probe == probe && this.honourKnown == honourKnown
      ensures stats == Stats(0, 0, 0, 0)
    {
      this.ring, this.factor, this.probe, this.honourKnown := ring, factor, probe, honourKnown;
      stats := Stats(0, 0, 0, 0);
    }

    /** What the ring offers for a key, in order. */
    ghost function Offered(key: string): seq<string>
      reads ring
    {
      Ring.Take(Ring.Preference(ring.ring, ring.hash(key)), probe)
    }

    /** In a balanced fleet whatever is picked for a key is under the ceiling. */
    method Pick(replicas: seq<Backend>, key: string) returns (r: Option<Backend>)
      requires ring.Valid()
      modifies this
      ensures r.None? <==> AvailableOf(replicas) == []
      ensures r.None? ==> stats == old(stats)
      ensures r.Some? ==>
                var routed := Routed(AvailableOf(replicas), key, honourKnown, Offered(key), factor);
                r.value == routed.0 && stats == Counted(old(stats), routed.1)
      ensures r.Some? ==>
                PickOk(AvailableOf(replicas), key, honourKnown, Offered(key), factor, r.value, old(stats), stats)
      ensures
        var av := AvailableOf(replicas);
        key != "" && av != [] && Balanced(av, Offered(key), factor) ==>
        r.Some? && r.value in av && r.value.inflight as real <= Ceiling(av, factor)
    {
      hide AvailableOf, LeastLoaded, Ceiling, Balanced, ByName, Probe, FewestInflight, HoldersOf;
      var av := AvailableOf(replicas);
      if av == [] { return None; }
      PickBound(av, key, honourKnown, Offered(key), factor);
      RoutedOk(av, key, honourKnown, Offered(key), factor, stats);
      hide PickOk;
      if key == "" {
        stats := stats.(noKey := stats.noKey + 1);
        return Some(LeastLoaded(av));
      }
      var ceiling := Ceiling(av, factor);
      if honourKnown {
        var holders := HoldersOf(av);
        if holders != [] {
          var best := FewestInflight(holders);
          if best.inflight as real <= ceiling {
            stats := stats.(known := stats.known + 1);
            return Some(best);
          }
        }
      }
      var names := ring.Lookup(key, probe);
      r := ProbeInOrder(av, names, ceiling);
      if r.Some? {
        stats := stats.(affinity := stats.affinity + 1);
        return;
      }
      stats := stats.(deflected := stats.deflected + 1);
      return Some(LeastLoaded(av));
    }
  }

  method ProbeInOrder(av: seq<Backend>, names: seq<string>, ceiling: real) returns (r: Option<Backend>)
    ensures r == Probe(av, names, ceiling)
  {
    assert names[0..] == names;
    for i := 0 to |names|
      invariant Probe(av, names[i..], ceiling) == Probe(av, names, ceiling)
    {
      assert names[i..][0] == names[i] && names[i..][1..] == names[i + 1..];
      r := ByName(av, names[i]);
      if r.Some? && r.value.inflight as real <= ceiling { return; }
    }
    return None;
  }
}
