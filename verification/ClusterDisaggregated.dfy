/** The disaggregated cluster end to end: prefill pool, cache transfer, decode pool. */
module ClusterDisaggregated {
  import opened Lists
  import opened ClusterPrefill
  import opened ClusterDecode

  // ---- the hand-over between the pools

  /** A prefilled request becomes ready when its cache has been transferred. */
  function Handed(r: Req, s: Stint, transfer: nat -> real): Req {
    r.(at := s.done + transfer(r.prompt))
  }

  function Handover(reqs: seq<Req>, stints: seq<Stint>, transfer: nat -> real): (r: seq<Req>)
    requires |reqs| == |stints|
    ensures |r| == |reqs| && forall i :: 0 <= i < |r| ==> r[i] == Handed(reqs[i], stints[i], transfer)
  {
    seq(|reqs|, i requires 0 <= i < |reqs| => Handed(reqs[i], stints[i], transfer))
  }

  // ---- assignment to decode workers

  /** The first worker with the fewest requests. */
  function ArgMin(counts: seq<nat>): (w: nat)
    requires counts != []
    ensures w < |counts|
    ensures forall i :: 0 <= i < |counts| ==> counts[w] <= counts[i]
    ensures forall i :: 0 <= i < w ==> counts[w] < counts[i]
  {
    if |counts| == 1 then 0
    else
      var rest := 1 + ArgMin(counts[1..]);
      if counts[0] <= counts[rest] then 0 else rest
  }

  /** Every `n`-th request, starting with the `w`-th. */
  function Dealt(reqs: seq<Req>, w: nat, n: pos): seq<Req> {
    if reqs == [] then []
    else Dealt(reqs[..|reqs| - 1], w, n) + if (|reqs| - 1) % n == w then [reqs[|reqs| - 1]] else []
  }

  ghost predicate Levels(counts: seq<nat>, low: int, raised: int) {
    forall w :: 0 <= w < |counts| ==> counts[w] == low + if w < raised then 1 else 0
  }

  ghost predicate Balanced(counts: seq<nat>, i: nat)
    requires counts != []
  {
    Levels(counts, i / |counts|, i % |counts|)
  }

  lemma NextLevels(counts: seq<nat>, low: int, raised: nat)
    requires raised < |counts| && Levels(counts, low, raised)
    ensures ArgMin(counts) == raised
    ensures var next := counts[raised := counts[raised] + 1];
            Levels(next, low, raised + 1) && (raised + 1 == |counts| ==> Levels(next, low + 1, 0))
  {
    var w := ArgMin(counts);
    assert counts[w] <= counts[raised];
  }

  lemma NextWorker(counts: seq<nat>, i: nat)
    requires counts != [] && Balanced(counts, i)
    ensures ArgMin(counts) == i % |counts|
    ensures Balanced(counts[i % |counts| := counts[i % |counts|] + 1], i + 1)
  {
    hide Levels, ArgMin;
    NextLevels(counts, i / |counts|, i % |counts|);
    DivStep(i, |counts|);
  }

  /** Nothing ever leaves the counts, so "least loaded" deals the requests out in turn. */
  method AssignLeastLoaded(ready: seq<Req>, n: pos) returns (groups: seq<seq<Req>>)
    ensures |groups| == n
    ensures forall w :: 0 <= w < n ==> groups[w] == Dealt(ready, w, n)
  {
    groups := seq(n, i => []);
    var counts: seq<nat> := seq(n, i => 0);
    for i := 0 to |ready|
      invariant |groups| == n == |counts| && Balanced(counts, i)
      invariant forall w :: 0 <= w < n ==> groups[w] == Dealt(ready[..i], w, n)
    {
      NextWorker(counts, i);
      var w := ArgMin(counts);
      counts := counts[w := counts[w] + 1];
      groups := groups[w := groups[w] + [ready[i]]];
      assert ready[..i + 1][..i] == ready[..i];
    }
    assert ready[..|ready|] == ready;
  }

  lemma {:induction false} DealtMembers(reqs: seq<Req>, w: nat, n: pos)
    ensures forall r :: r in Dealt(reqs, w, n) ==> r in reqs
    ensures DistinctIds(reqs) ==> DistinctIds(Dealt(reqs, w, n))
  {
    if reqs != [] {
      var init, last := reqs[..|reqs| - 1], reqs[|reqs| - 1];
      assert reqs == init + [last];
      DealtMembers(init, w, n);
      var d := Dealt(init, w, n);
      assert forall k :: 0 <= k < |d| ==> d[k] in init;
    }
  }

  lemma {:induction false} DealtCovers(reqs: seq<Req>, i: nat, n: pos)
    requires i < |reqs|
    ensures reqs[i] in Dealt(reqs, i % n, n)
  {
    if i < |reqs| - 1 {
      DealtCovers(reqs[..|reqs| - 1], i, n);
    }
  }

  lemma DivStep(i: nat, n: pos)
    ensures (i + 1) / n == i / n + (if i % n + 1 == n then 1 else 0)
    ensures (i + 1) % n == if i % n + 1 == n then 0 else i % n + 1
  {
    var low, raised := i / n, i % n;
    if raised + 1 == n {
      assert (low + 1) * n == low * n + n;
      DivModUnique(i + 1, n, low + 1, 0);
    } else {
      DivModUnique(i + 1, n, low, raised + 1);
    }
  }

  /** No worker is dealt two requests more than another. */
  lemma {:induction false} DealtSize(reqs: seq<Req>, w: nat, n: pos)
    requires w < n
    ensures |Dealt(reqs, w, n)| == |reqs| / n + if w < |reqs| % n then 1 else 0
  {
    if reqs != [] {
      DealtSize(reqs[..|reqs| - 1], w, n);
      DivStep(|reqs| - 1, n);
    } else {
      DivModUnique(0, n, 0, 0);
    }
  }

  /** The `i`-th request is the `i / n`-th of worker `i % n`. */
  lemma {:induction false} DealtAt(reqs: seq<Req>, i: nat, n: pos)
    requires i < |reqs|
    ensures i / n < |Dealt(reqs, i % n, n)| && Dealt(reqs, i % n, n)[i / n] == reqs[i]
  {
    var init := reqs[..|reqs| - 1];
    if i < |reqs| - 1 {
      DealtAt(init, i, n);
    } else {
      DealtSize(init, i % n, n);
    }
  }

  /** A worker is dealt every `n`-th request and nothing else. */
  lemma {:induction false} DealtFrom(reqs: seq<Req>, w: nat, n: pos, x: Req) returns (i: nat)
    requires x in Dealt(reqs, w, n)
    ensures i < |reqs| && reqs[i] == x && i % n == w
  {
    var init := reqs[..|reqs| - 1];
    if x in Dealt(init, w, n) {
      i := DealtFrom(init, w, n, x);
    } else {
      i := |reqs| - 1;
    }
  }

  // ---- the whole cluster

  datatype Outcome = Outcome(pool: Pool, groups: seq<seq<Req>>, workers: seq<Worker>)
  {
    function DecodeBusy(): seq<real> {
      seq(|workers|, w requires 0 <= w < |workers| => workers[w].busy)
    }

    function DecodeSlots(): seq<map<int, Slot>> {
      seq(|workers|, w requires 0 <= w < |workers| => workers[w].slots)
    }
  }

  /** The worker served exactly its own requests, in the time its steps cost. */
  ghost predicate Served(group: seq<Req>, w: Worker, cost: seq<nat> -> real, maxBatch: nat) {
    && Complete(group, w) && TraceOk(w.trace, w.now, maxBatch) && Timed(group, w.trace, w.busy, cost)
    && InTurns(group, w.trace, maxBatch)
    && forall r :: r in group ==> r.at >= 0.0
  }

  ghost predicate AllServed(o: Outcome, cost: seq<nat> -> real, maxBatch: nat) {
    && |o.groups| == |o.workers|
    && forall w :: 0 <= w < |o.workers| ==> Served(o.groups[w], o.workers[w], cost, maxBatch)
  }

  /** The latest finish of a worker's requests, 0 for none. */
  function LatestFinish(group: seq<Req>, slots: map<int, Slot>): (t: real)
    ensures t >= 0.0 && forall x :: x in group && x.id in slots ==> slots[x.id].finish <= t
    ensures t == 0.0 || exists x :: x in group && x.id in slots && slots[x.id].finish == t
  {
    if group == [] then 0.0
    else
      assert group == group[..|group| - 1] + [group[|group| - 1]];
      var x, rest := group[|group| - 1], LatestFinish(group[..|group| - 1], slots);
      if x.id in slots then MaxReal(rest, slots[x.id].finish) else rest
  }

  /** The latest finish over all workers. */
  function Makespan(groups: seq<seq<Req>>, slots: seq<map<int, Slot>>): (t: real)
    requires |groups| == |slots|
    ensures t >= 0.0
    ensures forall w, x :: 0 <= w < |slots| && x in groups[w] && x.id in slots[w] ==> slots[w][x.id].finish <= t
    ensures t == 0.0 || exists w, x :: 0 <= w < |slots| && x in groups[w] && x.id in slots[w]
                                       && slots[w][x.id].finish == t
  {
    if groups == [] then 0.0
    else
      var n := |groups| - 1;
      MaxReal(Makespan(groups[..n], slots[..n]), LatestFinish(groups[n], slots[n]))
  }

  /** The share of the pool's time, all its workers over the whole run, spent busy. */
  function Utilization(busy: seq<real>, makespan: real): (u: real)
    ensures busy != [] && makespan >= 0.000000001 ==> u * makespan * |busy| as real == Sum(busy)
    ensures busy != [] && makespan < 0.000000001 ==> u * 0.000000001 * |busy| as real == Sum(busy)
    ensures busy == [] ==> u == 0.0
  {
    Sum(busy) / (if |busy| > 1 then |busy| else 1) as real / MaxReal(makespan, 0.000000001)
  }

  lemma UtilizationWithin(busy: seq<real>, makespan: real)
    requires makespan >= 0.0 && forall x :: x in busy ==> x <= makespan
    ensures Utilization(busy, makespan) <= 1.0
  {
    SumBelow(busy, makespan);
    hide Sum;
    var span, n := MaxReal(makespan, 0.000000001), |busy| as real;
    var count := (if |busy| > 1 then |busy| else 1) as real;
    assert n * makespan <= count * span by {
      ProductBelow(n, count, makespan, span);
    }
    DivideAtMostOne(Sum(busy), count, span);
  }

  lemma ProductBelow(a: real, b: real, x: real, y: real)
    requires 0.0 <= a <= b && 0.0 <= x <= y
    ensures a * x <= b * y
  {
    assert a * x <= a * y;
  }

  /** A decode worker is busy for no longer than the run takes. */
  lemma DecodeWithin(o: Outcome, cost: seq<nat> -> real, maxBatch: nat)
    requires AllServed(o, cost, maxBatch)
    ensures Utilization(o.DecodeBusy(), Makespan(o.groups, o.DecodeSlots())) <= 1.0
  {
    hide Complete, TraceOk, Timed, InTurns, Utilization;
    var makespan := Makespan(o.groups, o.DecodeSlots());
    forall b | b in o.DecodeBusy() ensures b <= makespan {
      var w :| 0 <= w < |o.workers| && o.workers[w].busy == b;
      assert Served(o.groups[w], o.workers[w], cost, maxBatch);
      BusyUntilFinish(o.groups[w], o.workers[w], cost, maxBatch);
    }
    UtilizationWithin(o.DecodeBusy(), makespan);
  }

  /** ... and so is a prefill worker: every prefill is followed by a decode. */
  lemma PrefillWithin(reqs: seq<Req>, o: Outcome, n: pos, transfer: nat -> real)
    requires |o.groups| == |o.workers| && PoolOk(o.pool, reqs, n)
    requires forall i :: 0 <= i < |reqs| && i < |o.pool.stints| ==> Journey(reqs[i], o.pool.stints[i], o, transfer)
    requires forall k :: transfer(k) >= 0.0
    ensures Utilization(o.pool.busy, Makespan(o.groups, o.DecodeSlots())) <= 1.0
  {
    hide NoOverlap, InOrder, WorkConserving, Latest, Utilization;
    var makespan := Makespan(o.groups, o.DecodeSlots());
    PoolOrder(o.pool, reqs, n);
    forall k | 0 <= k < |o.pool.stints| ensures o.pool.stints[k].done <= makespan {
      assert Journey(reqs[k], o.pool.stints[k], o, transfer);
      var w: nat, x :| DecodedBy(o, w, x) && Arrives(x, reqs[k], o.pool.stints[k], transfer)
                       && o.pool.stints[k].done + transfer(reqs[k].prompt) <= o.workers[w].slots[reqs[k].id].first;
      assert o.workers[w].slots[x.id].finish <= makespan;
    }
    forall x | x in o.pool.busy ensures x <= makespan {
      var w :| 0 <= w < n && o.pool.busy[w] == x;
      BusyBelow(o.pool, reqs, n, makespan, w);
    }
    UtilizationWithin(o.pool.busy, makespan);
  }

  /** The worker that decodes a request. */
  ghost predicate DecodedBy(o: Outcome, w: nat, x: Req)
    requires |o.groups| == |o.workers|
  {
    && w < |o.workers| && x in o.groups[w] && x.id in o.workers[w].slots
    && Emissions(o.workers[w].trace, x.id) == Need(x)
    && x.at <= o.workers[w].slots[x.id].first <= o.workers[w].slots[x.id].finish
  }

  /** `x` is the request as the decode pool gets it: ready when its cache, sent at the
      end of its prefill, has been transferred, and otherwise unchanged. */
  ghost predicate Arrives(x: Req, r: Req, s: Stint, transfer: nat -> real) {
    && x.id == r.id && x.prompt == r.prompt && x.output == r.output
    && x.at == s.done + transfer(r.prompt)
  }

  /** A request runs through the stages in order and gets all its tokens, the first no
      earlier than its cache has arrived. */
  ghost predicate Journey(r: Req, s: Stint, o: Outcome, transfer: nat -> real)
    requires |o.groups| == |o.workers|
  {
    && r.at <= s.start <= s.done
    && exists w: nat, x :: DecodedBy(o, w, x) && Arrives(x, r, s, transfer)
                      && s.done + transfer(r.prompt) <= o.workers[w].slots[r.id].first
  }

  /** Where a request that a decode worker is given comes from. */
  ghost predicate Origin(x: Req, reqs: seq<Req>, stints: seq<Stint>, transfer: nat -> real) {
    exists i :: 0 <= i < |reqs| && i < |stints| && Arrives(x, reqs[i], stints[i], transfer)
  }

  /** The decode workers are given the transferred requests and nothing else, no
      request is given to two of them, and no worker gets two more than another. */
  ghost predicate SharedOut(o: Outcome, reqs: seq<Req>, transfer: nat -> real) {
    && (forall w, x :: 0 <= w < |o.groups| && x in o.groups[w] ==> Origin(x, reqs, o.pool.stints, transfer))
    && (forall v, w, x, y :: 0 <= v < |o.groups| && 0 <= w < |o.groups| && x in o.groups[v] && y in o.groups[w] ==>
          x.id == y.id ==> v == w && x == y)
    && (forall v, w :: 0 <= v < |o.groups| && 0 <= w < |o.groups| ==> |o.groups[v]| <= |o.groups[w]| + 1)
    && InTurn(o.groups)
  }

  /** The first request to be ready goes to the first worker, the next to the next. */
  ghost predicate InTurn(groups: seq<seq<Req>>) {
    forall v, a, w, b :: 0 <= v < |groups| && 0 <= a < |groups[v]| && 0 <= w < |groups| && 0 <= b < |groups[w]| ==>
      a < b || (a == b && v < w) ==> groups[v][a].at <= groups[w][b].at
  }

  lemma HandoverDistinct(reqs: seq<Req>, stints: seq<Stint>, transfer: nat -> real)
    requires |reqs| == |stints| && DistinctIds(reqs)
    ensures DistinctIds(Handover(reqs, stints, transfer))
  {
  }

  /** A worker that was given nothing. */
  function Unused(): Worker {
    Worker(0, [], map[], 0.0, 0.0, [])
  }

  function NothingDone(nPrefill: nat, nDecode: nat): Outcome {
    Outcome(InitPool(nPrefill), seq(nDecode, i => []), seq(nDecode, i => Unused()))
  }

  lemma NothingRun(nPrefill: nat, nDecode: nat, cost: seq<nat> -> real, maxBatch: nat)
    ensures
      var o := NothingDone(nPrefill, nDecode);
      && AllServed(o, cost, maxBatch) && |o.workers| == nDecode && |o.pool.busy| == nPrefill && o.pool.stints == []
      && Utilization(o.pool.busy, Makespan(o.groups, o.DecodeSlots())) <= 1.0
      && Utilization(o.DecodeBusy(), Makespan(o.groups, o.DecodeSlots())) <= 1.0
  {
    var o := NothingDone(nPrefill, nDecode);
    forall w | 0 <= w < nDecode ensures Served(o.groups[w], o.workers[w], cost, maxBatch) {
      assert o.workers[w] == Unused() && o.groups[w] == [];
    }
    hide Served, Utilization, Makespan;
    DecodeWithin(o, cost, maxBatch);
    UtilizationWithin(o.pool.busy, Makespan(o.groups, o.DecodeSlots()));
  }

  lemma NothingPlanned(reqs: seq<Req>, nPrefill: nat, nDecode: nat, cost: nat -> real, transfer: nat -> real)
    requires reqs == []
    ensures
      var o := NothingDone(nPrefill, nDecode);
      && ByTime(reqs) == [] && Planned(o.pool.stints, ByTime(reqs), nPrefill, cost)
      && |o.pool.busy| == nPrefill
      && (forall w: nat :: w < nPrefill ==> o.pool.busy[w] == SpentOn(o.pool.stints, w))
      && SharedOut(o, ByTime(reqs), transfer)
  {
  }

  lemma SameIndex(reqs: seq<Req>, i: nat, j: nat)
    requires DistinctIds(reqs) && i < |reqs| && j < |reqs| && reqs[i].id == reqs[j].id
    ensures i == j
  {
  }

  lemma DealtBefore(ready: seq<Req>, n: pos, v: nat, a: nat, w: nat, b: nat)
    requires TimeOrdered(ready) && v < n && w < n
    requires a < |Dealt(ready, v, n)| && b < |Dealt(ready, w, n)| && (a < b || (a == b && v < w))
    ensures Dealt(ready, v, n)[a].at <= Dealt(ready, w, n)[b].at
  {
    hide Dealt;
    DealtIndex(ready, v, n, a);
    DealtIndex(ready, w, n, b);
    if a < b {
      MulAtLeast(b - a, n);
      assert (b - a) * n == b * n - a * n;
    }
  }

  /** The `k`-th request of worker `w` is the one at `k * n + w`. */
  lemma DealtIndex(reqs: seq<Req>, w: nat, n: pos, k: nat)
    requires w < n && k < |Dealt(reqs, w, n)|
    ensures 0 <= k * n + w < |reqs| && Dealt(reqs, w, n)[k] == reqs[k * n + w]
  {
    hide Dealt;
    DealtSize(reqs, w, n);
    var i, q, r := k * n + w, |reqs| / n, |reqs| % n;
    assert k * n >= 0;
    assert |reqs| == q * n + r;
    assert k < q || (k == q && w < r);
    if k < q {
      MulAtLeast(q - k, n);
      assert (q - k) * n == q * n - k * n;
    }
    DivModUnique(i, n, k, w);
    DealtAt(reqs, i, n);
  }

  /** Requests are handed on one by one and dealt out one by one. */
  lemma SharedOutDone(reqs: seq<Req>, o: Outcome, ready: seq<Req>, n: pos, transfer: nat -> real)
    requires |o.pool.stints| == |reqs| && |o.groups| == n && DistinctIds(ready) && TimeOrdered(ready)
    requires forall w :: 0 <= w < n ==> o.groups[w] == Dealt(ready, w, n)
    requires forall x :: x in ready ==> x in Handover(reqs, o.pool.stints, transfer)
    ensures SharedOut(o, reqs, transfer)
  {
    hide Dealt, Origin, TimeOrdered;
    assert InTurn(o.groups) by {
      forall v, a, w, b | 0 <= v < n && 0 <= a < |o.groups[v]| && 0 <= w < n && 0 <= b < |o.groups[w]|
                          && (a < b || (a == b && v < w))
        ensures o.groups[v][a].at <= o.groups[w][b].at
      {
        DealtBefore(ready, n, v, a, w, b);
      }
    }
    hide InTurn;
    forall w, x | 0 <= w < n && x in o.groups[w] ensures Origin(x, reqs, o.pool.stints, transfer) {
      DealtMembers(ready, w, n);
      HandedFrom(reqs, o.pool.stints, transfer, x);
    }
    forall v, w, x, y | 0 <= v < n && 0 <= w < n && x in o.groups[v] && y in o.groups[w] && x.id == y.id
      ensures v == w && x == y
    {
      var i := DealtFrom(ready, v, n, x);
      var j := DealtFrom(ready, w, n, y);
      SameIndex(ready, i, j);
    }
    forall v, w | 0 <= v < n && 0 <= w < n ensures |o.groups[v]| <= |o.groups[w]| + 1 {
      DealtSize(ready, v, n);
      DealtSize(ready, w, n);
    }
  }

  lemma HandedFrom(reqs: seq<Req>, stints: seq<Stint>, transfer: nat -> real, x: Req)
    requires |reqs| == |stints| && x in Handover(reqs, stints, transfer)
    ensures Origin(x, reqs, stints, transfer)
  {
    var i :| 0 <= i < |reqs| && Handover(reqs, stints, transfer)[i] == x;
    assert Arrives(x, reqs[i], stints[i], transfer);
  }

  /** Every request arrives, is prefilled, transferred and decoded to its last
      token, in that order, and neither pool is utilised beyond one; without workers
      in a pool the run fails. */
  method RunDisaggregated(reqs: seq<Req>, nPrefill: nat, nDecode: nat, maxBatch: pos, prefillCost: nat -> real,
                          transfer: nat -> real, decodeCost: seq<nat> -> real) returns (r: Option<Outcome>)
    requires DistinctIds(reqs) && forall x :: x in reqs ==> x.at >= 0.0
    requires forall n :: prefillCost(n) >= 0.0 && transfer(n) >= 0.0
    requires forall c :: decodeCost(c) >= 0.0
    ensures r.None? <==> reqs != [] && (nPrefill == 0 || nDecode == 0)
    ensures r.Some? ==>
              && AllServed(r.value, decodeCost, maxBatch)
              && |r.value.workers| == nDecode && |r.value.pool.busy| == nPrefill
              && |r.value.pool.stints| == |ByTime(reqs)|
              && Planned(r.value.pool.stints, ByTime(reqs), nPrefill, prefillCost)
              && (forall w: nat :: w < nPrefill ==> r.value.pool.busy[w] == SpentOn(r.value.pool.stints, w))
              && SharedOut(r.value, ByTime(reqs), transfer)
              && Utilization(r.value.pool.busy, Makespan(r.value.groups, r.value.DecodeSlots())) <= 1.0
              && Utilization(r.value.DecodeBusy(), Makespan(r.value.groups, r.value.DecodeSlots())) <= 1.0
              && forall i :: 0 <= i < |reqs| && i < |ByTime(reqs)| ==>
                   Journey(ByTime(reqs)[i], r.value.pool.stints[i], r.value, transfer)
  {
    hide PoolOk, Served, ServeAll, ByTime, Journey, Utilization, Makespan, Planned, SharedOut, FreeFrom, SpentOn;
    assert forall x :: prefillCost(x) >= 0.0;
    var p := RunPrefill(reqs, nPrefill, prefillCost);
    DistinctSorted(reqs);
    if p.None? { return None; }
    if nDecode == 0 || nPrefill == 0 {
      if reqs != [] { return None; }
      NothingRun(nPrefill, nDecode, decodeCost, maxBatch);
      NothingPlanned(reqs, nPrefill, nDecode, prefillCost, transfer);
      return Some(NothingDone(nPrefill, nDecode));
    }
    PoolOrder(p.value, ByTime(reqs), nPrefill);
    var handed := Handover(ByTime(reqs), p.value.stints, transfer);
    HandoverDistinct(ByTime(reqs), p.value.stints, transfer);
    DistinctSorted(handed);
    var ready := ByTime(handed);
    ByTimeOrdered(handed);
    var groups := AssignLeastLoaded(ready, nDecode);
    HandedLate(ByTime(reqs), p.value.stints, transfer);
    var workers := DecodeAll(ready, groups, maxBatch, decodeCost);
    var o := Outcome(p.value, groups, workers);
    forall i | 0 <= i < |reqs| ensures Journey(ByTime(reqs)[i], o.pool.stints[i], o, transfer) {
      assert handed[i] in ready;
      JourneyDone(ByTime(reqs)[i], p.value.stints[i], o, ready, nDecode, transfer, decodeCost, maxBatch);
    }
    SharedOutDone(ByTime(reqs), o, ready, nDecode, transfer);
    DecodeWithin(o, decodeCost, maxBatch);
    PrefillWithin(ByTime(reqs), o, nPrefill, transfer);
    return Some(o);
  }

  method DecodeAll(ready: seq<Req>, groups: seq<seq<Req>>, maxBatch: pos, cost: seq<nat> -> real)
    returns (workers: seq<Worker>)
    requires groups != [] && DistinctIds(ready) && forall x :: x in ready ==> x.at >= 0.0
    requires forall w :: 0 <= w < |groups| ==> groups[w] == Dealt(ready, w, |groups|)
    requires forall c :: cost(c) >= 0.0
    ensures |workers| == |groups|
    ensures forall w :: 0 <= w < |groups| ==> Served(groups[w], workers[w], cost, maxBatch)
  {
    hide Complete, TraceOk, Dealt, Timed, InTurns;
    workers := [];
    for w := 0 to |groups|
      invariant |workers| == w
      invariant forall v :: 0 <= v < w ==> Served(groups[v], workers[v], cost, maxBatch)
    {
      DealtMembers(ready, w, |groups|);
      var worker := DecodeWorker(groups[w], maxBatch, cost);
      workers := workers + [worker];
    }
  }

  lemma PoolOrder(p: Pool, reqs: seq<Req>, n: nat)
    requires PoolOk(p, reqs, n)
    ensures |p.stints| == |reqs| && |p.busy| == n
    ensures forall i :: 0 <= i < |reqs| ==> reqs[i].at <= p.stints[i].start <= p.stints[i].done
  {
  }

  lemma HandedLate(reqs: seq<Req>, stints: seq<Stint>, transfer: nat -> real)
    requires |reqs| == |stints| && forall n :: transfer(n) >= 0.0
    requires forall x :: x in reqs ==> x.at >= 0.0
    requires forall i :: 0 <= i < |reqs| ==> reqs[i].at <= stints[i].start <= stints[i].done
    ensures forall x :: x in Handover(reqs, stints, transfer) ==> x.at >= 0.0
  {
    forall x | x in Handover(reqs, stints, transfer) ensures x.at >= 0.0 {
      var i :| 0 <= i < |reqs| && Handover(reqs, stints, transfer)[i] == x;
      assert reqs[i] in reqs && transfer(reqs[i].prompt) >= 0.0;
    }
  }

  lemma JourneyDone(r: Req, s: Stint, o: Outcome, ready: seq<Req>, n: pos, transfer: nat -> real,
                    cost: seq<nat> -> real, maxBatch: nat)
    requires AllServed(o, cost, maxBatch) && |o.groups| == n
    requires forall w :: 0 <= w < n ==> o.groups[w] == Dealt(ready, w, n)
    requires r.at <= s.start <= s.done && (forall k :: transfer(k) >= 0.0) && Handed(r, s, transfer) in ready
    ensures Journey(r, s, o, transfer)
  {
    hide TraceOk, Dealt;
    var x := Handed(r, s, transfer);
    assert transfer(r.prompt) >= 0.0;
    var i :| 0 <= i < |ready| && ready[i] == x;
    DealtCovers(ready, i, n);
    assert x in o.groups[i % n];
    assert DecodedBy(o, i % n, x);
  }
}
