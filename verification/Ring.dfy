/** Consistent hashing with virtual nodes. Hashes are arbitrary functions, so two
    virtual nodes may share a position. */
module Ring {
  import opened Lists

  datatype Replica = Replica(name: string, weight: real)

  /** One virtual node. */
  datatype Point = Point(at: nat, name: string)

  /** Where the `i`-th virtual node of a replica lands. */
  type Placing = (string, nat) -> nat

  // ---- the order of the ring

  predicate NameLeq(a: string, b: string) {
    a == [] || (b != [] && (a[0] < b[0] || (a[0] == b[0] && NameLeq(a[1..], b[1..]))))
  }

  predicate PointLeq(p: Point, q: Point) {
    p.at < q.at || (p.at == q.at && NameLeq(p.name, q.name))
  }

  lemma {:induction false} NameTotal(a: string, b: string)
    ensures NameLeq(a, b) || NameLeq(b, a)
  {
    if a != [] && b != [] {
      NameTotal(a[1..], b[1..]);
    }
  }

  lemma {:induction false} NameAntisymmetric(a: string, b: string)
    requires NameLeq(a, b) && NameLeq(b, a)
    ensures a == b
  {
    if a != [] {
      NameAntisymmetric(a[1..], b[1..]);
      assert a == [a[0]] + a[1..] && b == [b[0]] + b[1..];
    }
  }

  lemma {:induction false} NameTransitive(a: string, b: string, c: string)
    requires NameLeq(a, b) && NameLeq(b, c)
    ensures NameLeq(a, c)
  {
    if a != [] && a[0] == b[0] == c[0] {
      NameTransitive(a[1..], b[1..], c[1..]);
    }
  }

  /** Names compare letter by letter; a prefix comes first. */
  lemma {:induction false} NameLeqIs(a: string, b: string)
    ensures NameLeq(a, b) <==> a <= b || exists k :: 0 <= k < |a| && k < |b| && a[..k] == b[..k] && a[k] < b[k]
  {
    if a != [] && b != [] && a[0] == b[0] {
      var s, t := a[1..], b[1..];
      assert a == [a[0]] + s && b == [b[0]] + t;
      NameLeqIs(s, t);
      if k :| 0 <= k < |s| && k < |t| && s[..k] == t[..k] && s[k] < t[k] {
        assert a[..k + 1] == [a[0]] + s[..k] && b[..k + 1] == [b[0]] + t[..k];
      }
      if k :| 0 <= k < |a| && k < |b| && a[..k] == b[..k] && a[k] < b[k] {
        assert a[..k][1..] == s[..k - 1] && b[..k][1..] == t[..k - 1];
        assert s[k - 1] < t[k - 1];
      }
      assert s <= t <==> a <= b;
    } else if a != [] && b != [] {
      assert forall k :: 0 < k <= |a| ==> a[..k][0] == a[0];
      assert forall k :: 0 < k <= |b| ==> b[..k][0] == b[0];
      assert a[..0] == b[..0];
    }
  }

  /** Nodes are ordered by position, nodes at one position by name. */
  lemma PointOrder(p: Point, q: Point, r: Point)
    ensures PointLeq(p, q) || PointLeq(q, p)
    ensures p.at < q.at ==> PointLeq(p, q)
    ensures p.at == q.at ==> (PointLeq(p, q) <==> NameLeq(p.name, q.name))
    ensures PointLeq(p, q) && PointLeq(q, p) ==> p == q
    ensures PointLeq(p, q) && PointLeq(q, r) ==> PointLeq(p, r)
  {
    NameTotal(p.name, q.name);
    if NameLeq(p.name, q.name) && NameLeq(q.name, p.name) {
      NameAntisymmetric(p.name, q.name);
    }
    if NameLeq(p.name, q.name) && NameLeq(q.name, r.name) {
      NameTransitive(p.name, q.name, r.name);
    }
  }

  ghost predicate Ordered(ring: seq<Point>) {
    forall i, j :: 0 <= i < j < |ring| ==> PointLeq(ring[i], ring[j])
  }

  function Insert(p: Point, ring: seq<Point>): seq<Point> {
    if ring == [] || PointLeq(p, ring[0]) then [p] + ring else [ring[0]] + Insert(p, ring[1..])
  }

  function Sorted(points: seq<Point>): seq<Point> {
    if points == [] then [] else Insert(points[0], Sorted(points[1..]))
  }

  lemma ConsOrdered(p: Point, ring: seq<Point>)
    requires Ordered(ring) && forall q :: q in ring ==> PointLeq(p, q)
    ensures Ordered([p] + ring)
  {
    hide PointLeq;
    assert forall k :: 0 <= k < |ring| ==> ring[k] in ring;
  }

  lemma OrderedTail(ring: seq<Point>)
    requires Ordered(ring) && ring != []
    ensures Ordered(ring[1..]) && forall q :: q in ring ==> PointLeq(ring[0], q)
  {
    hide PointLeq;
    PointOrder(ring[0], ring[0], ring[0]);
  }

  lemma {:induction false} InsertOrdered(p: Point, ring: seq<Point>)
    requires Ordered(ring)
    ensures Ordered(Insert(p, ring))
    ensures multiset(Insert(p, ring)) == multiset{p} + multiset(ring)
  {
    hide PointLeq, Ordered;
    if ring != [] {
      var head, rest := ring[0], ring[1..];
      assert ring == [head] + rest;
      OrderedTail(ring);
      PointOrder(p, head, p);
      if PointLeq(p, head) {
        forall q | q in ring ensures PointLeq(p, q) {
          PointOrder(p, head, q);
        }
        ConsOrdered(p, ring);
      } else {
        InsertOrdered(p, rest);
        var tail := Insert(p, rest);
        forall q | q in tail ensures PointLeq(head, q) {
          assert q in multiset(tail);
        }
        ConsOrdered(head, tail);
      }
    } else {
      ConsOrdered(p, []);
    }
  }

  lemma {:induction false} SortedOrdered(points: seq<Point>)
    ensures Ordered(Sorted(points)) && multiset(Sorted(points)) == multiset(points)
  {
    if points != [] {
      assert points == [points[0]] + points[1..];
      SortedOrdered(points[1..]);
      InsertOrdered(points[0], Sorted(points[1..]));
    }
  }

  lemma SplitHead<T>(s: seq<T>)
    requires s != []
    ensures s == [s[0]] + s[1..]
    ensures multiset(s[1..]) == multiset(s) - multiset{s[0]}
  {
    assert s == [s[0]] + s[1..];
  }

  /** The virtual nodes alone fix the ring. */
  lemma {:induction false} OrderedUnique(a: seq<Point>, b: seq<Point>)
    requires Ordered(a) && Ordered(b) && multiset(a) == multiset(b)
    ensures a == b
  {
    hide PointLeq, Ordered;
    if a == [] || b == [] {
      assert |multiset(a)| == |a| && |multiset(b)| == |b|;
    } else {
      var p, q := a[0], b[0];
      assert p in multiset(b) && q in multiset(a);
      OrderedTail(a);
      OrderedTail(b);
      PointOrder(p, q, p);
      SplitHead(a);
      SplitHead(b);
      OrderedUnique(a[1..], b[1..]);
    }
  }

  // ---- building

  /** max(1, int(vnodes * weight)). */
  function Count(vnodes: int, r: Replica): pos {
    var n := (vnodes as real * r.weight).Floor;
    if n < 1 then 1 else n
  }

  function PointsOf(name: string, count: nat, place: Placing): (points: seq<Point>)
    ensures |points| == count
    ensures forall i :: 0 <= i < count ==> points[i] == Point(place(name, i), name)
  {
    seq(count, i requires 0 <= i < count => Point(place(name, i), name))
  }

  function AllPoints(replicas: seq<Replica>, vnodes: int, place: Placing): seq<Point> {
    if replicas == [] then []
    else PointsOf(replicas[0].name, Count(vnodes, replicas[0]), place) + AllPoints(replicas[1..], vnodes, place)
  }

  function Built(replicas: seq<Replica>, vnodes: int, place: Placing): seq<Point> {
    Sorted(AllPoints(replicas, vnodes, place))
  }

  lemma {:induction false} AllPointsAppend(a: seq<Replica>, b: seq<Replica>, vnodes: int, place: Placing)
    ensures AllPoints(a + b, vnodes, place) == AllPoints(a, vnodes, place) + AllPoints(b, vnodes, place)
  {
    if a == [] {
      assert a + b == b;
    } else {
      assert (a + b)[1..] == a[1..] + b;
      AllPointsAppend(a[1..], b, vnodes, place);
    }
  }

  /** The `i`-th virtual node of a replica is on the ring for every whole `i` below the
      weighted number of nodes, and the first of them always. */
  ghost predicate Hosted(r: Replica, i: nat, vnodes: int) {
    i == 0 || (i + 1) as real <= vnodes as real * r.weight
  }

  ghost predicate NodeOf(p: Point, replicas: seq<Replica>, vnodes: int, place: Placing) {
    exists r, i: nat :: r in replicas && Hosted(r, i, vnodes) && p == Point(place(r.name, i), r.name)
  }

  lemma CountIs(r: Replica, i: nat, vnodes: int)
    ensures i < Count(vnodes, r) <==> Hosted(r, i, vnodes)
  {
  }

  lemma {:induction false} NodesAre(replicas: seq<Replica>, vnodes: int, place: Placing)
    ensures forall p :: p in AllPoints(replicas, vnodes, place) <==> NodeOf(p, replicas, vnodes, place)
  {
    if replicas != [] {
      var head, rest := replicas[0], replicas[1..];
      var here := PointsOf(head.name, Count(vnodes, head), place);
      NodesAre(rest, vnodes, place);
      assert replicas == [head] + rest;
      forall p ensures p in AllPoints(replicas, vnodes, place) <==> NodeOf(p, replicas, vnodes, place) {
        if p in here {
          var i: nat :| i < |here| && here[i] == p;
          CountIs(head, i, vnodes);
          assert head in replicas && Hosted(head, i, vnodes);
        }
        if NodeOf(p, rest, vnodes, place) {
          var r, i: nat :| r in rest && Hosted(r, i, vnodes) && p == Point(place(r.name, i), r.name);
          assert r in replicas;
        }
        if NodeOf(p, replicas, vnodes, place) {
          var r, i: nat :| r in replicas && Hosted(r, i, vnodes) && p == Point(place(r.name, i), r.name);
          CountIs(r, i, vnodes);
          if r == head {
            assert here[i] == p;
          } else {
            assert NodeOf(p, rest, vnodes, place);
          }
        }
      }
    }
  }

  /** The ring is the virtual nodes of the replicas, in order. */
  lemma BuiltIs(replicas: seq<Replica>, vnodes: int, place: Placing)
    ensures Ordered(Built(replicas, vnodes, place))
    ensures forall p :: p in Built(replicas, vnodes, place) <==> NodeOf(p, replicas, vnodes, place)
  {
    hide NodeOf, Ordered;
    var points := AllPoints(replicas, vnodes, place);
    NodesAre(replicas, vnodes, place);
    SortedOrdered(points);
    forall p ensures p in Sorted(points) <==> p in points {
      assert p in Sorted(points) <==> p in multiset(Sorted(points));
    }
  }

  /** Moving a replica to the front of the list only permutes the virtual nodes. */
  lemma ToFront(x: seq<Replica>, r: Replica, y: seq<Replica>, vnodes: int, place: Placing)
    ensures multiset(AllPoints(x + ([r] + y), vnodes, place))
         == multiset(PointsOf(r.name, Count(vnodes, r), place)) + multiset(AllPoints(x + y, vnodes, place))
  {
    hide PointsOf, Count;
    AllPointsAppend(x, y, vnodes, place);
    AllPointsAppend(x, [r] + y, vnodes, place);
    assert ([r] + y)[1..] == y;
  }

  lemma {:induction false} PermutedPoints(a: seq<Replica>, b: seq<Replica>, vnodes: int, place: Placing)
    requires multiset(a) == multiset(b)
    ensures multiset(AllPoints(a, vnodes, place)) == multiset(AllPoints(b, vnodes, place))
  {
    hide PointsOf, Count;
    if a == [] {
      assert |multiset(b)| == |b|;
    } else {
      assert a[0] in multiset(b);
      var j :| 0 <= j < |b| && b[j] == a[0];
      var x, y := b[..j], b[j + 1..];
      SplitHead(a);
      assert b == x + ([b[j]] + y);
      assert multiset(b) == multiset(x + y) + multiset{b[j]};
      PermutedPoints(a[1..], x + y, vnodes, place);
      ToFront(x, a[0], y, vnodes, place);
    }
  }

  /** The order in which replicas are listed does not matter, even where positions collide. */
  lemma ListingOrderIrrelevant(a: seq<Replica>, b: seq<Replica>, vnodes: int, place: Placing)
    requires multiset(a) == multiset(b)
    ensures Built(a, vnodes, place) == Built(b, vnodes, place)
  {
    PermutedPoints(a, b, vnodes, place);
    SortedOrdered(AllPoints(a, vnodes, place));
    SortedOrdered(AllPoints(b, vnodes, place));
    OrderedUnique(Built(a, vnodes, place), Built(b, vnodes, place));
  }

  // ---- taking a replica away

  function Without(replicas: seq<Replica>, gone: string): seq<Replica> {
    if replicas == [] then []
    else (if replicas[0].name == gone then [] else [replicas[0]]) + Without(replicas[1..], gone)
  }

  function Minus(points: seq<Point>, gone: string): seq<Point> {
    if points == [] then []
    else (if points[0].name == gone then [] else [points[0]]) + Minus(points[1..], gone)
  }

  lemma {:induction false} MinusAppend(a: seq<Point>, b: seq<Point>, gone: string)
    ensures Minus(a + b, gone) == Minus(a, gone) + Minus(b, gone)
  {
    if a == [] {
      assert a + b == b;
    } else {
      assert (a + b)[1..] == a[1..] + b;
      MinusAppend(a[1..], b, gone);
    }
  }

  lemma {:induction false} MinusUniform(points: seq<Point>, name: string, gone: string)
    requires forall p :: p in points ==> p.name == name
    ensures Minus(points, gone) == if name == gone then [] else points
  {
    if points != [] {
      assert points[0] in points;
      MinusUniform(points[1..], name, gone);
    }
  }

  lemma {:induction false} WithoutPoints(replicas: seq<Replica>, gone: string, vnodes: int, place: Placing)
    ensures AllPoints(Without(replicas, gone), vnodes, place) == Minus(AllPoints(replicas, vnodes, place), gone)
  {
    if replicas != [] {
      var here := PointsOf(replicas[0].name, Count(vnodes, replicas[0]), place);
      WithoutPoints(replicas[1..], gone, vnodes, place);
      MinusAppend(here, AllPoints(replicas[1..], vnodes, place), gone);
      MinusUniform(here, replicas[0].name, gone);
      if replicas[0].name != gone {
        var left := Without(replicas, gone);
        assert left[0] == replicas[0] && left[1..] == Without(replicas[1..], gone);
      } else {
        assert Without(replicas, gone) == Without(replicas[1..], gone);
      }
    }
  }

  lemma {:induction false} MinusMembers(points: seq<Point>, gone: string)
    ensures forall p :: p in Minus(points, gone) ==> p in points && p.name != gone
    ensures Ordered(points) ==> Ordered(Minus(points, gone))
  {
    if points != [] {
      MinusMembers(points[1..], gone);
      var rest := Minus(points[1..], gone);
      assert forall k :: 0 <= k < |rest| ==> rest[k] in rest;
    }
  }

  lemma {:induction false} MinusMultiset(points: seq<Point>, gone: string, p: Point)
    ensures multiset(Minus(points, gone))[p] == if p.name == gone then 0 else multiset(points)[p]
  {
    if points != [] {
      assert points == [points[0]] + points[1..];
      MinusMultiset(points[1..], gone, p);
    }
  }

  /** Rebuilding without a replica only deletes its virtual nodes. */
  lemma RebuildDeletes(replicas: seq<Replica>, gone: string, vnodes: int, place: Placing)
    ensures Built(Without(replicas, gone), vnodes, place) == Minus(Built(replicas, vnodes, place), gone)
  {
    var points, ring := AllPoints(replicas, vnodes, place), Built(replicas, vnodes, place);
    WithoutPoints(replicas, gone, vnodes, place);
    SortedOrdered(points);
    SortedOrdered(Minus(points, gone));
    MinusMembers(ring, gone);
    forall p ensures multiset(Minus(ring, gone))[p] == multiset(Minus(points, gone))[p] {
      MinusMultiset(ring, gone, p);
      MinusMultiset(points, gone, p);
    }
    assert multiset(Minus(ring, gone)) == multiset(Minus(points, gone));
    OrderedUnique(Sorted(Minus(points, gone)), Minus(ring, gone));
  }

  // ---- looking up

  /** Python's bisect_right. */
  function Bisect(keys: seq<nat>, h: nat): (i: nat)
    ensures i <= |keys|
    ensures forall j :: 0 <= j < i ==> keys[j] <= h
    ensures i < |keys| ==> keys[i] > h
  {
    if keys == [] || keys[0] > h then 0 else 1 + Bisect(keys[1..], h)
  }

  function Ats(ring: seq<Point>): (keys: seq<nat>)
    ensures |keys| == |ring|
    ensures forall i :: 0 <= i < |ring| ==> keys[i] == ring[i].at
  {
    seq(|ring|, i requires 0 <= i < |ring| => ring[i].at)
  }

  /** The whole ring, read clockwise from the first node after `h`. */
  function Clockwise(ring: seq<Point>, h: nat): seq<Point> {
    var b := Bisect(Ats(ring), h);
    ring[b..] + ring[..b]
  }

  /** Replica names in the order in which they first appear. */
  function Distinct(out: seq<string>, points: seq<Point>): seq<string>
    decreases |points|
  {
    if points == [] then out
    else Distinct(if points[0].name in out then out else out + [points[0].name], points[1..])
  }

  /** A key's full preference order. */
  function Preference(ring: seq<Point>, h: nat): seq<string> {
    Distinct([], Clockwise(ring, h))
  }

  function Take(order: seq<string>, n: int): seq<string> {
    var k := if n < 1 then 1 else n;
    if k <= |order| then order[..k] else order
  }

  lemma {:induction false} DistinctExtends(out: seq<string>, points: seq<Point>)
    ensures out <= Distinct(out, points)
    decreases |points|
  {
    if points != [] {
      DistinctExtends(if points[0].name in out then out else out + [points[0].name], points[1..]);
    }
  }

  lemma {:induction false} DistinctNames(out: seq<string>, points: seq<Point>)
    requires NoDup(out)
    ensures NoDup(Distinct(out, points))
    ensures forall x :: x in Distinct(out, points) <==> x in out || exists p :: p in points && p.name == x
    decreases |points|
  {
    if points != [] {
      var next := if points[0].name in out then out else out + [points[0].name];
      DistinctNames(next, points[1..]);
      assert points == [points[0]] + points[1..];
      forall x ensures (x in next || exists p :: p in points[1..] && p.name == x)
                  <==> (x in out || exists p :: p in points && p.name == x) {
        assert x == points[0].name ==> points[0] in points;
      }
    }
  }

  /** Every replica on the ring appears in every preference order, once. */
  lemma PreferenceComplete(ring: seq<Point>, h: nat)
    ensures NoDup(Preference(ring, h))
    ensures forall x :: x in Preference(ring, h) <==> exists p :: p in ring && p.name == x
  {
    DistinctNames([], Clockwise(ring, h));
    var b := Bisect(Ats(ring), h);
    assert ring == ring[..b] + ring[b..];
    assert forall p :: p in Clockwise(ring, h) <==> p in ring;
  }

  // ---- the order of preference, read off the ring

  /** Going clockwise from `h`, node `i` comes before node `j`: nodes past `h` come first,
      and within either part in the order of the ring. */
  predicate Sooner(ring: seq<Point>, h: nat, i: nat, j: nat)
    requires i < |ring| && j < |ring|
  {
    if ring[i].at > h then ring[j].at <= h || i < j else ring[j].at <= h && i < j
  }

  /** `name` is that of the first node whose name is not yet among `before`. */
  ghost predicate NextName(ring: seq<Point>, h: nat, before: seq<string>, name: string) {
    && name !in before
    && exists i: nat :: i < |ring| && ring[i].name == name
                        && forall j: nat :: j < |ring| && Sooner(ring, h, j, i) ==> ring[j].name in before
  }

  ghost predicate InPreference(ring: seq<Point>, h: nat, order: seq<string>) {
    forall k :: 0 <= k < |order| ==> NextName(ring, h, order[..k], order[k])
  }

  /** The node that is `k`-th going clockwise. */
  function At(ring: seq<Point>, h: nat, k: nat): (i: nat)
    requires k < |ring|
    ensures i < |ring| && ring[i] == Clockwise(ring, h)[k]
  {
    var b := Bisect(Ats(ring), h);
    if b + k < |ring| then b + k else b + k - |ring|
  }

  lemma SoonerIs(ring: seq<Point>, h: nat, i: nat, k: nat)
    requires Ordered(ring) && i < |ring| && k < |ring|
    ensures Sooner(ring, h, i, At(ring, h, k)) ==> exists m :: 0 <= m < k && At(ring, h, m) == i
  {
    hide Ordered, Bisect;
    var b := Bisect(Ats(ring), h);
    Halves(ring, h);
    assert ring[i].at <= h <==> i < b by {
      assert if i < b then ring[..b][i] == ring[i] else ring[b..][i - b] == ring[i];
    }
    var j := At(ring, h, k);
    assert ring[j].at <= h <==> j < b by {
      assert if j < b then ring[..b][j] == ring[j] else ring[b..][j - b] == ring[j];
    }
    if Sooner(ring, h, i, j) {
      var m := if i >= b then i - b else i + |ring| - b;
      assert 0 <= m < k && At(ring, h, m) == i;
    }
  }

  /** After `k` nodes, `out` holds exactly their names, each put in when it was met first. */
  lemma {:induction false} DistinctInOrder(ring: seq<Point>, h: nat, out: seq<string>, k: nat)
    requires Ordered(ring) && k <= |ring| && InPreference(ring, h, out)
    requires forall m :: 0 <= m < k ==> Clockwise(ring, h)[m].name in out
    ensures InPreference(ring, h, Distinct(out, Clockwise(ring, h)[k..]))
    decreases |ring| - k
  {
    hide Ordered, Clockwise, NextName;
    WalkLength(ring, h);
    var walk := Clockwise(ring, h);
    if k == |ring| {
      assert walk[k..] == [];
    } else {
      var name := walk[k].name;
      DistinctStep(out, walk, k);
      if name !in out {
        NextMet(ring, h, out, k);
        var next := out + [name];
        assert InPreference(ring, h, next) by {
          assert forall n :: 0 <= n < |out| ==> next[..n] == out[..n] && next[n] == out[n];
          assert next[..|out|] == out;
        }
        DistinctInOrder(ring, h, next, k + 1);
      } else {
        DistinctInOrder(ring, h, out, k + 1);
      }
    }
  }

  lemma NextMet(ring: seq<Point>, h: nat, out: seq<string>, k: nat)
    requires Ordered(ring) && k < |ring| == |Clockwise(ring, h)| && Clockwise(ring, h)[k].name !in out
    requires forall m :: 0 <= m < k ==> Clockwise(ring, h)[m].name in out
    ensures NextName(ring, h, out, Clockwise(ring, h)[k].name)
  {
    hide Ordered, Clockwise, At, Sooner;
    var i := At(ring, h, k);
    forall j: nat | j < |ring| && Sooner(ring, h, j, i) ensures ring[j].name in out {
      SoonerIs(ring, h, j, k);
      var m :| 0 <= m < k && At(ring, h, m) == j;
    }
  }

  /** What a lookup for `n` names returns: the names met clockwise, each the next not yet
      met, at least one, and no more than `n` unless it is all there are. */
  ghost predicate Nearest(ring: seq<Point>, h: nat, n: int, out: seq<string>) {
    && InPreference(ring, h, out)
    && |out| <= (if n < 1 then 1 else n)
    && (|out| == (if n < 1 then 1 else n) || forall p :: p in ring ==> p.name in out)
  }

  lemma PreferenceNearest(ring: seq<Point>, h: nat, n: int)
    requires Ordered(ring)
    ensures Nearest(ring, h, n, Take(Preference(ring, h), n))
  {
    hide NextName, Clockwise, Ordered;
    WalkLength(ring, h);
    DistinctInOrder(ring, h, [], 0);
    assert Clockwise(ring, h)[0..] == Clockwise(ring, h);
    PreferenceComplete(ring, h);
    hide Preference;
    var order := Preference(ring, h);
    var out := Take(order, n);
    assert forall k :: 0 <= k < |out| ==> out[..k] == order[..k] && out[k] == order[k];
    assert |out| == |order| ==> out == order;
  }

  // ---- minimal disruption

  function MinusName(names: seq<string>, gone: string): seq<string> {
    if names == [] then []
    else (if names[0] == gone then [] else [names[0]]) + MinusName(names[1..], gone)
  }

  lemma {:induction false} MinusNameSnoc(names: seq<string>, x: string, gone: string)
    ensures MinusName(names + [x], gone) == MinusName(names, gone) + if x == gone then [] else [x]
    ensures x != gone ==> (x in names <==> x in MinusName(names, gone))
  {
    if names == [] {
      assert names + [x] == [x];
    } else {
      assert (names + [x])[1..] == names[1..] + [x];
      MinusNameSnoc(names[1..], x, gone);
      assert names == [names[0]] + names[1..];
    }
  }

  lemma {:induction false} DistinctMinus(out: seq<string>, points: seq<Point>, gone: string)
    ensures Distinct(MinusName(out, gone), Minus(points, gone)) == MinusName(Distinct(out, points), gone)
    decreases |points|
  {
    if points != [] {
      var x := points[0].name;
      MinusNameSnoc(out, x, gone);
      DistinctMinus(if x in out then out else out + [x], points[1..], gone);
      if x != gone {
        var left := Minus(points, gone);
        assert left[0] == points[0] && left[1..] == Minus(points[1..], gone);
      } else {
        assert Minus(points, gone) == Minus(points[1..], gone);
        assert MinusName(out + [x], gone) == MinusName(out, gone);
      }
    }
  }

  /** The cut between the nodes up to `h` and those after it. */
  lemma BisectIs(keys: seq<nat>, h: nat, i: nat)
    requires i <= |keys|
    requires forall j :: 0 <= j < i ==> keys[j] <= h
    requires i < |keys| ==> keys[i] > h
    ensures Bisect(keys, h) == i
  {
  }

  lemma BisectMinus(near: seq<Point>, far: seq<Point>, h: nat, gone: string)
    requires forall p :: p in near ==> p.at <= h
    requires forall p :: p in far ==> p.at > h
    ensures Bisect(Ats(Minus(near, gone) + Minus(far, gone)), h) == |Minus(near, gone)|
  {
    MinusMembers(near, gone);
    MinusMembers(far, gone);
    var near', far' := Minus(near, gone), Minus(far, gone);
    assert forall j :: 0 <= j < |near'| ==> near'[j] in near';
    assert far' != [] ==> far'[0] in far';
    BisectIs(Ats(near' + far'), h, |near'|);
  }

  lemma Halves(ring: seq<Point>, h: nat)
    requires Ordered(ring)
    ensures
      var b := Bisect(Ats(ring), h);
      (forall p :: p in ring[..b] ==> p.at <= h) && (forall p :: p in ring[b..] ==> p.at > h)
  {
    var b := Bisect(Ats(ring), h);
    forall p | p in ring[b..] ensures p.at > h {
      var k :| b <= k < |ring| && ring[k] == p;
      assert k == b || PointLeq(ring[b], ring[k]);
    }
  }

  lemma ClockwiseMinus(ring: seq<Point>, h: nat, gone: string)
    requires Ordered(ring)
    ensures Clockwise(Minus(ring, gone), h) == Minus(Clockwise(ring, h), gone)
  {
    hide Ordered, Minus, Bisect;
    var b := Bisect(Ats(ring), h);
    var near, far := ring[..b], ring[b..];
    Halves(ring, h);
    assert ring == near + far;
    MinusAppend(near, far, gone);
    MinusAppend(far, near, gone);
    BisectMinus(near, far, h, gone);
  }

  /** Minimal disruption: without `gone`, every key's preference order is the old
      one with `gone` deleted. */
  lemma MinimalDisruption(replicas: seq<Replica>, gone: string, vnodes: int, place: Placing, h: nat)
    ensures Preference(Built(Without(replicas, gone), vnodes, place), h)
         == MinusName(Preference(Built(replicas, vnodes, place), h), gone)
  {
    var ring := Built(replicas, vnodes, place);
    SortedOrdered(AllPoints(replicas, vnodes, place));
    RebuildDeletes(replicas, gone, vnodes, place);
    ClockwiseMinus(ring, h, gone);
    DistinctMinus([], Clockwise(ring, h), gone);
  }

  /** Only keys owned by the lost replica move, and each moves to its own next choice. */
  lemma OnlyItsKeysMove(replicas: seq<Replica>, gone: string, vnodes: int, place: Placing, h: nat)
    requires |Preference(Built(replicas, vnodes, place), h)| >= 2
    ensures
      var was := Preference(Built(replicas, vnodes, place), h);
      var now := Preference(Built(Without(replicas, gone), vnodes, place), h);
      now != [] && now[0] == if was[0] != gone then was[0] else was[1]
  {
    MinimalDisruption(replicas, gone, vnodes, place, h);
    PreferenceComplete(Built(replicas, vnodes, place), h);
    var was := Preference(Built(replicas, vnodes, place), h);
    assert MinusName(was[1..], gone) == (if was[1] == gone then [] else [was[1]]) + MinusName(was[1..][1..], gone);
  }

  // ---- the ring object

  class ConsistentHashRing {
    const vnodes: int
    const place: Placing
    const hash: string -> nat
    var ring: seq<Point>
    var keys: seq<nat>

    ghost predicate Valid()
      reads this
    {
      keys == Ats(ring) && Ordered(ring)
    }

    constructor (replicas: seq<Replica>, vnodes: int, place: Placing, hash: string -> nat)
      ensures Valid() && this.vnodes == vnodes && this.place == place && this.hash == hash
      ensures ring == Built(replicas, vnodes, place)
      ensures forall p :: p in ring <==> NodeOf(p, replicas, vnodes, place)
    {
      this.vnodes := vnodes;
      this.place := place;
      this.hash := hash;
      ring := [];
      keys := [];
      new;
      Rebuild(replicas);
    }

    method Rebuild(replicas: seq<Replica>)
      modifies this
      ensures Valid() && ring == Built(replicas, vnodes, place)
      ensures forall p :: p in ring <==> NodeOf(p, replicas, vnodes, place)
    {
      hide Sorted, Count, NodeOf, Ordered;
      BuiltIs(replicas, vnodes, place);
      var points: seq<Point> := [];
      for i := 0 to |replicas|
        invariant points == AllPoints(replicas[..i], vnodes, place)
      {
        var r := replicas[i];
        var n := Count(vnodes, r);
        ghost var before, here := points, PointsOf(r.name, n, place);
        for j := 0 to n
          invariant points == before + here[..j]
        {
          SnocPrefix(before, here, j);
          points := points + [Point(place(r.name, j), r.name)];
        }
        assert here[..n] == here;
        NextReplica(replicas, i, vnodes, place);
      }
      assert replicas[..|replicas|] == replicas;
      ring := Sorted(points);
      keys := Ats(ring);
    }

    /** The first distinct replicas clockwise from the key: `n` of them, but one
        at least, and no more than there are. */
    method Lookup(key: string, n: int) returns (out: seq<string>)
      requires Valid()
      ensures out == Take(Preference(ring, hash(key)), n)
      ensures Nearest(ring, hash(key), n, out)
    {
      hide Clockwise, Bisect, Ats, Distinct, Take, Preference, Ordered, Nearest;
      PreferenceNearest(ring, hash(key), n);
      WalkLength(ring, hash(key));
      out := [];
      if ring == [] {
        NoWalk(ring, hash(key), n);
        return;
      }
      var h := hash(key);
      var idx := Bisect(keys, h) % |ring|;
      ghost var walk := Clockwise(ring, h);
      assert walk[0..] == walk;
      for i := 0 to |ring|
        invariant |out| < (if n < 1 then 1 else n)
        invariant Distinct(out, walk[i..]) == Distinct([], walk)
      {
        Around(ring, h, i);
        DistinctStep(out, walk, i);
        var name := ring[(idx + i) % |ring|].name;
        if name !in out {
          out := out + [name];
          if |out| >= n {
            Enough(ring, h, out, i + 1, n);
            return;
          }
        }
      }
      AllWalked(ring, h, out, n);
    }
  }

  lemma SnocPrefix<T>(before: seq<T>, here: seq<T>, j: nat)
    requires j < |here|
    ensures before + here[..j] + [here[j]] == before + here[..j + 1]
  {
  }

  lemma NextReplica(replicas: seq<Replica>, i: nat, vnodes: int, place: Placing)
    requires i < |replicas|
    ensures AllPoints(replicas[..i + 1], vnodes, place) ==
            AllPoints(replicas[..i], vnodes, place) + PointsOf(replicas[i].name, Count(vnodes, replicas[i]), place)
  {
    assert replicas[..i + 1] == replicas[..i] + [replicas[i]];
    AllPointsAppend(replicas[..i], [replicas[i]], vnodes, place);
    assert AllPoints([replicas[i]], vnodes, place) == PointsOf(replicas[i].name, Count(vnodes, replicas[i]), place);
  }

  lemma WalkLength(ring: seq<Point>, h: nat)
    ensures |Clockwise(ring, h)| == |ring|
  {
  }

  lemma DistinctStep(out: seq<string>, walk: seq<Point>, i: nat)
    requires i < |walk|
    ensures Distinct(out, walk[i..]) ==
            Distinct(if walk[i].name in out then out else out + [walk[i].name], walk[i + 1..])
  {
    assert walk[i..][0] == walk[i] && walk[i..][1..] == walk[i + 1..];
  }

  lemma AllWalked(ring: seq<Point>, h: nat, out: seq<string>, n: int)
    requires |out| < if n < 1 then 1 else n
    requires |Clockwise(ring, h)| == |ring|
    requires Distinct(out, Clockwise(ring, h)[|ring|..]) == Distinct([], Clockwise(ring, h))
    ensures Take(Preference(ring, h), n) == out
  {
    hide Clockwise;
    assert Clockwise(ring, h)[|ring|..] == [];
  }

  lemma NoWalk(ring: seq<Point>, h: nat, n: int)
    requires ring == []
    ensures Take(Preference(ring, h), n) == []
  {
  }

  lemma Enough(ring: seq<Point>, h: nat, out: seq<string>, i: nat, n: int)
    requires i <= |Clockwise(ring, h)| && |out| == if n < 1 then 1 else n
    requires Distinct(out, Clockwise(ring, h)[i..]) == Distinct([], Clockwise(ring, h))
    ensures Take(Preference(ring, h), n) == out
  {
    hide Clockwise, Distinct, Take;
    DistinctExtends(out, Clockwise(ring, h)[i..]);
    TakeIs(Preference(ring, h), out, n);
  }

  lemma TakeIs(order: seq<string>, out: seq<string>, n: int)
    requires out <= order && |out| == if n < 1 then 1 else n
    ensures Take(order, n) == out
  {
  }

  /** Index arithmetic modulo the ring walks it clockwise. */
  lemma Around(ring: seq<Point>, h: nat, i: nat)
    requires i < |ring|
    ensures Clockwise(ring, h)[i] == ring[(Bisect(Ats(ring), h) % |ring| + i) % |ring|]
  {
    var b, len := Bisect(Ats(ring), h), |ring|;
    if b == len {
      DivModUnique(b, len, 1, 0);
      DivModUnique(i, len, 0, i);
    } else {
      DivModUnique(b, len, 0, b);
      if b + i < len {
        DivModUnique(b + i, len, 0, b + i);
      } else {
        DivModUnique(b + i, len, 1, b + i - len);
      }
    }
  }
}
