/** The prefill pool of a disaggregated cluster: first come, first served, each
    request on the worker that is free first. Costs are arbitrary non-negative
    functions of the prompt length. */
module ClusterPrefill {
  import opened Lists

  /** `at` is the time the request reaches the stage. */
  datatype Req = Req(id: int, prompt: nat, output: int, at: real)

  function MaxReal(a: real, b: real): real {
    if a >= b then a else b
  }

  // ---- arrival order

  /** Stable: equal times keep their order. */
  function InsertByTime(r: Req, sorted: seq<Req>): seq<Req> {
    if sorted == [] || r.at <= sorted[0].at then [r] + sorted
    else [sorted[0]] + InsertByTime(r, sorted[1..])
  }

  function ByTime(reqs: seq<Req>): seq<Req> {
    if reqs == [] then [] else InsertByTime(reqs[0], ByTime(reqs[1..]))
  }

  ghost predicate TimeOrdered(reqs: seq<Req>) {
    forall i, j :: 0 <= i < j < |reqs| ==> reqs[i].at <= reqs[j].at
  }

  lemma ConsTime(r: Req, sorted: seq<Req>)
    requires TimeOrdered(sorted) && forall q :: q in sorted ==> r.at <= q.at
    ensures TimeOrdered([r] + sorted)
  {
    assert forall k :: 0 <= k < |sorted| ==> sorted[k] in sorted;
  }

  lemma TimeTail(sorted: seq<Req>)
    requires TimeOrdered(sorted) && sorted != []
    ensures TimeOrdered(sorted[1..]) && forall q :: q in sorted ==> sorted[0].at <= q.at
  {
  }

  lemma {:induction false} InsertByTimeOrdered(r: Req, sorted: seq<Req>)
    requires TimeOrdered(sorted)
    ensures TimeOrdered(InsertByTime(r, sorted))
    ensures multiset(InsertByTime(r, sorted)) == multiset{r} + multiset(sorted)
  {
    hide TimeOrdered;
    if sorted == [] {
      ConsTime(r, []);
    } else {
      var head, rest := sorted[0], sorted[1..];
      assert sorted == [head] + rest;
      TimeTail(sorted);
      if r.at <= head.at {
        ConsTime(r, sorted);
      } else {
        InsertByTimeOrdered(r, rest);
        var tail := InsertByTime(r, rest);
        forall q | q in tail ensures head.at <= q.at {
          assert q in multiset(tail);
        }
        ConsTime(head, tail);
      }
    }
  }

  lemma {:induction false} ByTimeOrdered(reqs: seq<Req>)
    ensures TimeOrdered(ByTime(reqs)) && multiset(ByTime(reqs)) == multiset(reqs)
  {
    if reqs != [] {
      assert reqs == [reqs[0]] + reqs[1..];
      ByTimeOrdered(reqs[1..]);
      InsertByTimeOrdered(reqs[0], ByTime(reqs[1..]));
    }
  }

  /** Those of the requests that come at time `t`, in the order they are listed. */
  function ComingAt(reqs: seq<Req>, t: real): seq<Req> {
    if reqs == [] then [] else (if reqs[0].at == t then [reqs[0]] else []) + ComingAt(reqs[1..], t)
  }

  lemma {:induction false} ComingPlus(a: seq<Req>, b: seq<Req>, t: real)
    ensures ComingAt(a + b, t) == ComingAt(a, t) + ComingAt(b, t)
  {
    if a == [] {
      assert a + b == b;
    } else {
      assert (a + b)[1..] == a[1..] + b;
      ComingPlus(a[1..], b, t);
    }
  }

  lemma {:induction false} InsertByTimeStable(r: Req, sorted: seq<Req>, t: real)
    requires TimeOrdered(sorted)
    ensures ComingAt(InsertByTime(r, sorted), t) == ComingAt([r] + sorted, t)
  {
    if sorted != [] && r.at > sorted[0].at {
      TimeTail(sorted);
      var head, rest := sorted[0], sorted[1..];
      assert sorted == [head] + rest;
      InsertByTimeStable(r, rest, t);
      ComingPlus([head], InsertByTime(r, rest), t);
      ComingPlus([r], rest, t);
      ComingPlus([r], sorted, t);
      ComingPlus([head], rest, t);
    }
  }

  /** Requests that arrive together stay in the order they are listed. */
  lemma {:induction false} ByTimeStable(reqs: seq<Req>, t: real)
    ensures ComingAt(ByTime(reqs), t) == ComingAt(reqs, t)
  {
    if reqs != [] {
      var rest := reqs[1..];
      assert reqs == [reqs[0]] + rest;
      ByTimeOrdered(rest);
      InsertByTimeStable(reqs[0], ByTime(rest), t);
      ByTimeStable(rest, t);
      ComingPlus([reqs[0]], ByTime(rest), t);
      ComingPlus([reqs[0]], rest, t);
    }
  }

  // ---- the pool

  /** When a worker is free again. */
  datatype Entry = Entry(avail: real, worker: nat)

  predicate EntryLeq(a: Entry, b: Entry) {
    a.avail < b.avail || (a.avail == b.avail && a.worker <= b.worker)
  }

  /** The heap is kept as the list in which its entries pop. */
  function Push(e: Entry, heap: seq<Entry>): (r: seq<Entry>)
    ensures |r| == |heap| + 1
  {
    if heap == [] || EntryLeq(e, heap[0]) then [e] + heap else [heap[0]] + Push(e, heap[1..])
  }

  /** One prefill. */
  datatype Stint = Stint(worker: nat, start: real, done: real)

  datatype Pool = Pool(heap: seq<Entry>, stints: seq<Stint>, busy: seq<real>)

  function InitPool(n: nat): Pool {
    Pool(seq(n, i requires 0 <= i < n => Entry(0.0, i)), [], seq(n, i => 0.0))
  }

  function Started(p: Pool, r: Req, cost: nat -> real): Stint
    requires p.heap != []
  {
    var start := MaxReal(p.heap[0].avail, r.at);
    Stint(p.heap[0].worker, start, start + cost(r.prompt))
  }

  function Serve(p: Pool, r: Req, cost: nat -> real): Pool
    requires p.heap != []
  {
    var s := Started(p, r, cost);
    Pool(Push(Entry(s.done, s.worker), p.heap[1..]), p.stints + [s],
         if s.worker < |p.busy| then p.busy[s.worker := p.busy[s.worker] + cost(r.prompt)] else p.busy)
  }

  function ServeAll(p: Pool, reqs: seq<Req>, cost: nat -> real): (r: Pool)
    requires p.heap != []
    ensures |r.stints| == |p.stints| + |reqs|
    ensures r.heap != []
    decreases |reqs|
  {
    if reqs == [] then p else ServeAll(Serve(p, reqs[0], cost), reqs[1..], cost)
  }

  // ---- what holds of a pool that has served `reqs`

  function Workers(heap: seq<Entry>): (r: seq<nat>)
    ensures |r| == |heap| && forall i :: 0 <= i < |heap| ==> r[i] == heap[i].worker
  {
    if heap == [] then [] else [heap[0].worker] + Workers(heap[1..])
  }

  ghost predicate HeapOk(heap: seq<Entry>, n: nat) {
    && |heap| == n
    && (forall i, j :: 0 <= i < j < n ==> EntryLeq(heap[i], heap[j]))
    && NoDup(Workers(heap))
    && (forall w: nat :: w in Workers(heap) <==> w < n)
  }

  lemma WorkerEntry(heap: seq<Entry>, n: nat, w: nat) returns (i: nat)
    requires HeapOk(heap, n) && w < n
    ensures i < |heap| && heap[i].worker == w
  {
    assert w in Workers(heap);
    i :| i < |heap| && Workers(heap)[i] == w;
  }

  /** An entry is the worker's latest completion, and bounds its busy time. */
  ghost predicate EntryOk(e: Entry, stints: seq<Stint>, busy: seq<real>) {
    && (forall k :: 0 <= k < |stints| && stints[k].worker == e.worker ==> stints[k].done <= e.avail)
    && (e.avail == 0.0 || exists k :: 0 <= k < |stints| && stints[k].worker == e.worker && stints[k].done == e.avail)
    && e.avail >= 0.0
    && e.worker < |busy| && busy[e.worker] <= e.avail
  }

  ghost predicate EntriesOk(p: Pool) {
    forall i :: 0 <= i < |p.heap| ==> EntryOk(p.heap[i], p.stints, p.busy)
  }

  /** Two prefills on one worker never overlap. */
  ghost predicate NoOverlap(stints: seq<Stint>) {
    forall i, j :: 0 <= i < j < |stints| && stints[i].worker == stints[j].worker ==> stints[i].done <= stints[j].start
  }

  /** Requests start in arrival order, none before it arrives. */
  ghost predicate InOrder(stints: seq<Stint>, reqs: seq<Req>) {
    && |stints| == |reqs|
    && (forall i, j :: 0 <= i < j < |stints| ==> stints[i].start <= stints[j].start)
    && (forall i :: 0 <= i < |stints| ==> reqs[i].at <= stints[i].start <= stints[i].done)
  }

  /** Worker `w` is prefilling at time `t`, one of the first `i` requests. */
  ghost predicate BusyAt(stints: seq<Stint>, i: nat, w: nat, t: real)
    requires i <= |stints|
  {
    exists j :: 0 <= j < i && stints[j].worker == w && stints[j].start <= t < stints[j].done
  }

  /** No request waits at a moment when any worker is idle. */
  ghost predicate WorkConserving(stints: seq<Stint>, reqs: seq<Req>, n: nat)
    requires |stints| == |reqs|
  {
    forall i: nat, t: real, w: nat ::
      i < |stints| && 0.0 <= t && reqs[i].at <= t < stints[i].start && w < n ==> BusyAt(stints, i, w, t)
  }

  ghost predicate Latest(p: Pool, reqs: seq<Req>) {
    p.heap != [] && forall k :: 0 <= k < |p.stints| ==>
      p.stints[k].start <= p.heap[0].avail || (reqs != [] && p.stints[k].start <= reqs[|reqs| - 1].at)
  }

  ghost predicate PoolOk(p: Pool, reqs: seq<Req>, n: nat) {
    && n > 0
    && HeapOk(p.heap, n)
    && |p.busy| == n
    && EntriesOk(p)
    && NoOverlap(p.stints)
    && InOrder(p.stints, reqs)
    && WorkConserving(p.stints, reqs, n)
    && Latest(p, reqs)
  }

  lemma InitOk(n: pos)
    ensures PoolOk(InitPool(n), [], n)
  {
    var p := InitPool(n);
    var workers := Workers(p.heap);
    assert forall i :: 0 <= i < n ==> workers[i] == i;
    forall w: nat ensures w in workers <==> w < n {
      assert w < n ==> workers[w] == w;
    }
  }

  // ---- one request

  lemma {:induction false} PushHolds(e: Entry, heap: seq<Entry>)
    requires forall i, j :: 0 <= i < j < |heap| ==> EntryLeq(heap[i], heap[j])
    ensures forall i, j :: 0 <= i < j < |Push(e, heap)| ==> EntryLeq(Push(e, heap)[i], Push(e, heap)[j])
    ensures multiset(Push(e, heap)) == multiset{e} + multiset(heap)
  {
    if heap == [] {
    } else if EntryLeq(e, heap[0]) {
    } else {
      var head, rest := heap[0], heap[1..];
      assert heap == [head] + rest;
      PushHolds(e, rest);
      var tail := Push(e, rest);
      forall q | q in tail ensures EntryLeq(head, q) {
        assert q in multiset(tail);
      }
      assert forall k :: 0 <= k < |tail| ==> tail[k] in tail;
      assert Push(e, heap) == [head] + tail;
    }
  }

  lemma {:induction false} PushWorkers(e: Entry, heap: seq<Entry>)
    ensures multiset(Workers(Push(e, heap))) == multiset{e.worker} + multiset(Workers(heap))
  {
    if heap != [] && !EntryLeq(e, heap[0]) {
      PushWorkers(e, heap[1..]);
      assert Push(e, heap)[1..] == Push(e, heap[1..]);
    }
  }

  /** Putting the popped worker back keeps one entry per worker. */
  lemma PushBack(heap: seq<Entry>, e: Entry, n: pos)
    requires HeapOk(heap, n) && e.worker == heap[0].worker
    ensures HeapOk(Push(e, heap[1..]), n)
    ensures forall x :: x in Push(e, heap[1..]) <==> x == e || x in heap[1..]
  {
    var rest, now := heap[1..], Push(e, heap[1..]);
    PushHolds(e, rest);
    forall x ensures x in now <==> x == e || x in rest {
      assert x in now <==> x in multiset(now);
    }
    PushWorkers(e, rest);
    assert Workers(heap) == [heap[0].worker] + Workers(rest);
    assert multiset(Workers(now)) == multiset(Workers(heap));
    SameWorkers(heap, now, n);
  }

  lemma SameWorkers(heap: seq<Entry>, now: seq<Entry>, n: nat)
    requires HeapOk(heap, n) && |now| == n
    requires forall i, j :: 0 <= i < j < n ==> EntryLeq(now[i], now[j])
    requires multiset(Workers(now)) == multiset(Workers(heap))
    ensures HeapOk(now, n)
  {
    var a, b := Workers(heap), Workers(now);
    forall x ensures x in b <==> x in a {
      assert x in b <==> x in multiset(b);
    }
    forall x | x in b ensures multiset(b)[x] <= 1 {
      NoDupMultiplicity(a, x);
    }
    MultiplicityNoDup(b);
  }

  /** The busy worker behind an entry later than `t`. */
  lemma LateEntryBusy(p: Pool, reqs: seq<Req>, n: nat, e: Entry, t: real)
    requires PoolOk(p, reqs, n) && TimeOrdered(reqs) && e in p.heap
    requires 0.0 <= t < e.avail && forall k :: 0 <= k < |reqs| ==> reqs[k].at <= t
    ensures BusyAt(p.stints, |p.stints|, e.worker, t)
  {
    assert EntryOk(e, p.stints, p.busy);
    var k :| 0 <= k < |p.stints| && p.stints[k].worker == e.worker && p.stints[k].done == e.avail;
    if t < p.stints[k].start {
      assert e.worker < n;
      assert BusyAt(p.stints, k, e.worker, t);
    }
  }

  lemma ServeOk(p: Pool, reqs: seq<Req>, r: Req, cost: nat -> real, n: pos)
    requires PoolOk(p, reqs, n) && TimeOrdered(reqs + [r]) && cost(r.prompt) >= 0.0
    ensures PoolOk(Serve(p, r, cost), reqs + [r], n)
  {
    hide *;
    ServeHeap(p, reqs, r, cost, n);
    ServeOrder(p, reqs, r, cost, n);
    ServeConserves(p, reqs, r, cost, n);
    PoolParts(Serve(p, r, cost), reqs + [r], n);
  }

  lemma PoolParts(p: Pool, reqs: seq<Req>, n: nat)
    requires n > 0 && HeapOk(p.heap, n) && |p.busy| == n && EntriesOk(p) && NoOverlap(p.stints)
    requires InOrder(p.stints, reqs) && |p.stints| == |reqs| && WorkConserving(p.stints, reqs, n) && Latest(p, reqs)
    ensures PoolOk(p, reqs, n)
  {
  }

  lemma ServeHeap(p: Pool, reqs: seq<Req>, r: Req, cost: nat -> real, n: pos)
    requires PoolOk(p, reqs, n) && cost(r.prompt) >= 0.0
    ensures p.heap != []
    ensures HeapOk(Serve(p, r, cost).heap, n) && |Serve(p, r, cost).busy| == n
    ensures EntriesOk(Serve(p, r, cost))
  {
    hide NoOverlap, InOrder, WorkConserving, Latest, EntryOk, Push;
    HeapLength(p.heap, n);
    var s, q := Started(p, r, cost), Serve(p, r, cost);
    var e := Entry(s.done, s.worker);
    PushBack(p.heap, e, n);
    OtherWorkers(p.heap, n);
    assert EntryOk(p.heap[0], p.stints, p.busy);
    NewEntryOk(p, r, cost);
    forall i | 0 <= i < |q.heap| ensures EntryOk(q.heap[i], q.stints, q.busy) {
      var x := q.heap[i];
      assert x in q.heap;
      if x != e {
        var k :| 0 <= k < |p.heap[1..]| && p.heap[1..][k] == x;
        assert p.heap[k + 1] == x;
        OldEntryOk(p, r, cost, x);
      }
    }
  }

  lemma OtherWorkers(heap: seq<Entry>, n: pos)
    requires HeapOk(heap, n)
    ensures forall k :: 0 < k < |heap| ==> heap[k].worker != heap[0].worker
  {
    assert forall k :: 0 < k < |heap| ==> Workers(heap)[k] != Workers(heap)[0];
  }

  lemma NewEntryOk(p: Pool, r: Req, cost: nat -> real)
    requires p.heap != [] && cost(r.prompt) >= 0.0 && EntryOk(p.heap[0], p.stints, p.busy)
    ensures var s, q := Started(p, r, cost), Serve(p, r, cost); EntryOk(Entry(s.done, s.worker), q.stints, q.busy)
  {
    hide Push;
    assert Serve(p, r, cost).stints[|p.stints|] == Started(p, r, cost);
  }

  lemma OldEntryOk(p: Pool, r: Req, cost: nat -> real, x: Entry)
    requires p.heap != [] && EntryOk(x, p.stints, p.busy) && x.worker != p.heap[0].worker
    ensures EntryOk(x, Serve(p, r, cost).stints, Serve(p, r, cost).busy)
  {
    hide Push;
    if x.avail != 0.0 {
      var m :| 0 <= m < |p.stints| && p.stints[m].worker == x.worker && p.stints[m].done == x.avail;
      assert Serve(p, r, cost).stints[m] == p.stints[m];
    }
  }

  lemma StartsLast(p: Pool, reqs: seq<Req>, r: Req, cost: nat -> real, n: pos)
    requires PoolOk(p, reqs, n) && TimeOrdered(reqs + [r])
    ensures p.heap != [] && |p.stints| == |reqs|
    ensures forall k :: 0 <= k < |p.stints| ==> p.stints[k].start <= Started(p, r, cost).start
  {
    hide HeapOk, EntriesOk, NoOverlap, WorkConserving;
    assert p.heap != [] by {
      HeapLength(p.heap, n);
    }
    var all := reqs + [r];
    assert reqs != [] ==> all[|reqs| - 1].at <= all[|reqs|].at;
  }

  lemma HeapLength(heap: seq<Entry>, n: nat)
    requires HeapOk(heap, n)
    ensures |heap| == n
  {
  }

  lemma ServeOrder(p: Pool, reqs: seq<Req>, r: Req, cost: nat -> real, n: pos)
    requires PoolOk(p, reqs, n) && TimeOrdered(reqs + [r]) && cost(r.prompt) >= 0.0
    ensures p.heap != []
    ensures NoOverlap(Serve(p, r, cost).stints)
    ensures InOrder(Serve(p, r, cost).stints, reqs + [r])
    ensures Latest(Serve(p, r, cost), reqs + [r])
  {
    hide WorkConserving, TimeOrdered, Push;
    StartsLast(p, reqs, r, cost, n);
    var s, q, all := Started(p, r, cost), Serve(p, r, cost), reqs + [r];
    assert EntryOk(p.heap[0], p.stints, p.busy);
    HeadGrows(p.heap, Entry(s.done, s.worker), n);
    assert forall k :: 0 <= k < |reqs| ==> all[k] == reqs[k] && q.stints[k] == p.stints[k];
    assert NoOverlap(q.stints);
    assert InOrder(q.stints, all);
    assert forall k :: 0 <= k < |q.stints| ==> q.stints[k].start <= s.start;
  }

  lemma HeadGrows(heap: seq<Entry>, e: Entry, n: pos)
    requires HeapOk(heap, n) && e.worker == heap[0].worker && e.avail >= heap[0].avail
    ensures heap[0].avail <= Push(e, heap[1..])[0].avail
  {
    var now := Push(e, heap[1..]);
    assert now[0] == e || now[0] == heap[1..][0];
  }

  lemma ServeConserves(p: Pool, reqs: seq<Req>, r: Req, cost: nat -> real, n: pos)
    requires PoolOk(p, reqs, n) && TimeOrdered(reqs + [r])
    ensures p.heap != [] && |Serve(p, r, cost).stints| == |reqs + [r]|
    ensures WorkConserving(Serve(p, r, cost).stints, reqs + [r], n)
  {
    var q, all := Serve(p, r, cost), reqs + [r];
    forall i: nat, t: real, w: nat |
      i < |q.stints| && 0.0 <= t && all[i].at <= t < q.stints[i].start && w < n
      ensures BusyAt(q.stints, i, w, t)
    {
      if i < |p.stints| {
        assert reqs[i].at <= t < p.stints[i].start;
        assert BusyAt(p.stints, i, w, t);
        BusyLonger(p.stints, q.stints, i, i, w, t);
      } else {
        var k := WorkerEntry(p.heap, n, w);
        assert EntryLeq(p.heap[0], p.heap[k]) || k == 0;
        assert p.heap[k] in p.heap;
        forall m | 0 <= m < |reqs| ensures reqs[m].at <= t {
          assert all[m].at <= all[|reqs|].at;
        }
        assert TimeOrdered(reqs) by {
          assert forall m :: 0 <= m < |reqs| ==> all[m] == reqs[m];
        }
        LateEntryBusy(p, reqs, n, p.heap[k], t);
        BusyLonger(p.stints, q.stints, |p.stints|, i, w, t);
      }
    }
  }

  lemma BusyLonger(a: seq<Stint>, b: seq<Stint>, i: nat, k: nat, w: nat, t: real)
    requires a <= b && i <= |a| && i <= k <= |b| && BusyAt(a, i, w, t)
    ensures BusyAt(b, k, w, t)
  {
    var j :| 0 <= j < i && a[j].worker == w && a[j].start <= t < a[j].done;
    assert b[j] == a[j];
  }

  /** The pool serves without overlap, in arrival order, and is work-conserving. */
  lemma {:induction false} ServeAllOk(p: Pool, before: seq<Req>, reqs: seq<Req>, cost: nat -> real, n: pos)
    requires PoolOk(p, before, n) && TimeOrdered(before + reqs) && forall x :: cost(x) >= 0.0
    ensures p.heap != [] && PoolOk(ServeAll(p, reqs, cost), before + reqs, n)
    decreases |reqs|
  {
    if reqs == [] {
      assert before + reqs == before;
    } else {
      var all := before + reqs;
      assert before + [reqs[0]] == all[..|before| + 1];
      ServeOk(p, before, reqs[0], cost, n);
      assert (before + [reqs[0]]) + reqs[1..] == all;
      ServeAllOk(Serve(p, reqs[0], cost), before + [reqs[0]], reqs[1..], cost, n);
    }
  }

  // ---- the exact schedule

  /** When a worker is done with all it was given: 0 for nothing. */
  function FreeFrom(stints: seq<Stint>, w: nat): real {
    if stints == [] then 0.0
    else
      var last := stints[|stints| - 1];
      if last.worker == w then last.done else FreeFrom(stints[..|stints| - 1], w)
  }

  /** How long a worker has been prefilling. */
  function SpentOn(stints: seq<Stint>, w: nat): real {
    if stints == [] then 0.0
    else
      var last := stints[|stints| - 1];
      SpentOn(stints[..|stints| - 1], w) + if last.worker == w then last.done - last.start else 0.0
  }

  /** A request is given to the worker that is free first, of several the one with the
      least number, and starts as soon as both are there. */
  ghost predicate StintOk(before: seq<Stint>, s: Stint, r: Req, n: nat, cost: nat -> real) {
    var free := FreeFrom(before, s.worker);
    && s.worker < n
    && (forall w: nat :: w < n ==> free < FreeFrom(before, w) || (free == FreeFrom(before, w) && s.worker <= w))
    && free <= s.start && r.at <= s.start && (s.start == free || s.start == r.at)
    && s.done == s.start + cost(r.prompt)
  }

  ghost predicate Planned(stints: seq<Stint>, reqs: seq<Req>, n: nat, cost: nat -> real) {
    |stints| == |reqs| && forall k :: 0 <= k < |stints| ==> StintOk(stints[..k], stints[k], reqs[k], n, cost)
  }

  /** The heap tells when each worker is free, the busy times how long it was not. */
  ghost predicate Tracked(p: Pool) {
    && (forall e :: e in p.heap ==> e.avail == FreeFrom(p.stints, e.worker))
    && (forall w: nat :: w < |p.busy| ==> p.busy[w] == SpentOn(p.stints, w))
  }

  lemma StintSnoc(stints: seq<Stint>, s: Stint, w: nat)
    ensures FreeFrom(stints + [s], w) == if s.worker == w then s.done else FreeFrom(stints, w)
    ensures SpentOn(stints + [s], w) == SpentOn(stints, w) + if s.worker == w then s.done - s.start else 0.0
  {
    assert (stints + [s])[..|stints|] == stints;
  }

  lemma ServeTracked(p: Pool, r: Req, cost: nat -> real, n: pos)
    requires HeapOk(p.heap, n) && |p.busy| == n && Tracked(p)
    ensures Tracked(Serve(p, r, cost))
  {
    var s, q := Started(p, r, cost), Serve(p, r, cost);
    var e := Entry(s.done, s.worker);
    PushBack(p.heap, e, n);
    OtherWorkers(p.heap, n);
    hide Push, FreeFrom, SpentOn, HeapOk;
    forall x | x in q.heap ensures x.avail == FreeFrom(q.stints, x.worker) {
      StintSnoc(p.stints, s, x.worker);
      if x != e {
        var k :| 0 <= k < |p.heap[1..]| && p.heap[1..][k] == x;
        assert p.heap[k + 1] == x && x in p.heap;
      }
    }
    forall w: nat | w < |q.busy| ensures q.busy[w] == SpentOn(q.stints, w) {
      StintSnoc(p.stints, s, w);
    }
  }

  lemma StartedOk(p: Pool, r: Req, cost: nat -> real, n: pos)
    requires HeapOk(p.heap, n) && Tracked(p)
    ensures p.heap != [] && StintOk(p.stints, Started(p, r, cost), r, n, cost)
  {
    var s := Started(p, r, cost);
    assert p.heap[0] in p.heap && Workers(p.heap)[0] == s.worker && s.worker in Workers(p.heap);
    forall w: nat | w < n ensures FreeFrom(p.stints, s.worker) < FreeFrom(p.stints, w)
                               || (FreeFrom(p.stints, s.worker) == FreeFrom(p.stints, w) && s.worker <= w) {
      var i := WorkerEntry(p.heap, n, w);
      assert p.heap[i] in p.heap;
      assert i == 0 || EntryLeq(p.heap[0], p.heap[i]);
    }
  }

  lemma PlannedSnoc(stints: seq<Stint>, s: Stint, reqs: seq<Req>, r: Req, n: nat, cost: nat -> real)
    requires Planned(stints, reqs, n, cost) && StintOk(stints, s, r, n, cost)
    ensures Planned(stints + [s], reqs + [r], n, cost)
  {
    hide StintOk;
    var all := stints + [s];
    forall k | 0 <= k < |all| ensures StintOk(all[..k], all[k], (reqs + [r])[k], n, cost) {
      assert all[..k] == stints[..k];
    }
    assert stints[..|stints|] == stints;
  }

  /** Over every run each prefill is where and when the rule puts it. */
  lemma {:induction false} ServeAllPlanned(p: Pool, before: seq<Req>, reqs: seq<Req>, cost: nat -> real, n: pos)
    requires HeapOk(p.heap, n) && |p.busy| == n && Tracked(p) && Planned(p.stints, before, n, cost)
    ensures p.heap != [] && Planned(ServeAll(p, reqs, cost).stints, before + reqs, n, cost)
    ensures Tracked(ServeAll(p, reqs, cost)) && |ServeAll(p, reqs, cost).busy| == n
    decreases |reqs|
  {
    hide Tracked, StintOk, Planned;
    HeapLength(p.heap, n);
    if reqs == [] {
      assert before + reqs == before;
    } else {
      var s, q := Started(p, reqs[0], cost), Serve(p, reqs[0], cost);
      StartedOk(p, reqs[0], cost, n);
      PlannedSnoc(p.stints, s, before, reqs[0], n, cost);
      ServeTracked(p, reqs[0], cost, n);
      PushBack(p.heap, Entry(s.done, s.worker), n);
      hide HeapOk, Push;
      assert (before + [reqs[0]]) + reqs[1..] == before + reqs;
      ServeAllPlanned(q, before + [reqs[0]], reqs[1..], cost, n);
    }
  }

  lemma InitPlanned(n: pos, sorted: seq<Req>, cost: nat -> real)
    ensures InitPool(n).heap != []
    ensures Planned(ServeAll(InitPool(n), sorted, cost).stints, sorted, n, cost)
    ensures Tracked(ServeAll(InitPool(n), sorted, cost)) && |ServeAll(InitPool(n), sorted, cost).busy| == n
  {
    InitOk(n);
    assert [] + sorted == sorted;
    assert Tracked(InitPool(n)) && Planned([], [], n, cost);
    ServeAllPlanned(InitPool(n), [], sorted, cost, n);
  }

  /** The prefill stage. With no worker at all the first pop fails: None. */
  method RunPrefill(reqs: seq<Req>, n: nat, cost: nat -> real) returns (r: Option<Pool>)
    requires forall x :: cost(x) >= 0.0
    ensures r.None? <==> n == 0 && reqs != []
    ensures r.Some? && n > 0 ==>
              && PoolOk(r.value, ByTime(reqs), n)
              && r.value == ServeAll(InitPool(n), ByTime(reqs), cost)
              && Planned(r.value.stints, ByTime(reqs), n, cost)
              && |r.value.busy| == n
              && forall w: nat :: w < n ==> r.value.busy[w] == SpentOn(r.value.stints, w)
  {
    hide PoolOk, Push, ServeAll, Planned;
    var p := InitPool(n);
    var sorted := ByTime(reqs);
    ByTimeOrdered(reqs);
    SameLength(reqs);
    if n == 0 {
      return if sorted == [] then Some(p) else None;
    }
    InitOk(n);
    ServeAllFrom(n, sorted, cost);
    InitPlanned(n, sorted, cost);
    for i := 0 to |sorted|
      invariant p.heap != [] && ServeAll(p, sorted[i..], cost) == ServeAll(InitPool(n), sorted, cost)
    {
      ServeAllStep(p, sorted, i, cost);
      var r, top := sorted[i], p.heap[0];
      var start := MaxReal(top.avail, r.at);
      var dur := cost(r.prompt);
      var busy := if top.worker < |p.busy| then p.busy[top.worker := p.busy[top.worker] + dur] else p.busy;
      p := Pool(Push(Entry(start + dur, top.worker), p.heap[1..]),
                p.stints + [Stint(top.worker, start, start + dur)], busy);
    }
    ServeAllEnd(p, sorted, cost);
    return Some(p);
  }

  lemma ServeAllFrom(n: pos, sorted: seq<Req>, cost: nat -> real)
    requires TimeOrdered(sorted) && forall x :: cost(x) >= 0.0
    ensures InitPool(n).heap != [] && PoolOk(ServeAll(InitPool(n), sorted, cost), sorted, n)
    ensures sorted[0..] == sorted
  {
    InitOk(n);
    assert [] + sorted == sorted;
    ServeAllOk(InitPool(n), [], sorted, cost, n);
  }

  lemma ServeAllStep(p: Pool, sorted: seq<Req>, i: nat, cost: nat -> real)
    requires p.heap != [] && i < |sorted|
    ensures Serve(p, sorted[i], cost).heap != []
    ensures ServeAll(p, sorted[i..], cost) == ServeAll(Serve(p, sorted[i], cost), sorted[i + 1..], cost)
  {
    assert sorted[i..][0] == sorted[i] && sorted[i..][1..] == sorted[i + 1..];
  }

  lemma ServeAllEnd(p: Pool, sorted: seq<Req>, cost: nat -> real)
    requires p.heap != []
    ensures ServeAll(p, sorted[|sorted|..], cost) == p
  {
  }

  lemma SameLength(reqs: seq<Req>)
    ensures |ByTime(reqs)| == |reqs|
  {
    ByTimeOrdered(reqs);
    assert |multiset(ByTime(reqs))| == |ByTime(reqs)|;
  }

  // ---- utilisation

  function Sum(xs: seq<real>): real {
    if xs == [] then 0.0 else xs[0] + Sum(xs[1..])
  }

  lemma {:induction false} SumParts(a: seq<real>, b: seq<real>)
    ensures Sum(a + b) == Sum(a) + Sum(b)
    ensures |a| == 1 ==> Sum(a) == a[0]
  {
    if a == [] {
      assert a + b == b;
    } else {
      assert (a + b)[1..] == a[1..] + b;
      SumParts(a[1..], b);
    }
  }

  lemma {:induction false} SumBelow(xs: seq<real>, bound: real)
    requires forall x :: x in xs ==> x <= bound
    ensures Sum(xs) <= |xs| as real * bound
  {
    if xs == [] {
    } else {
      assert forall x :: x in xs[1..] ==> x in xs;
      SumBelow(xs[1..], bound);
      assert xs[0] in xs;
      var k := |xs[1..]| as real;
      assert |xs| as real == k + 1.0;
      assert (k + 1.0) * bound == k * bound + bound;
    }
  }

  /** A worker is busy for no longer than it takes to its last completion. */
  lemma BusyBelow(p: Pool, reqs: seq<Req>, n: pos, makespan: real, w: nat)
    requires PoolOk(p, reqs, n) && w < n
    requires 0.0 <= makespan && forall k :: 0 <= k < |p.stints| ==> p.stints[k].done <= makespan
    ensures p.busy[w] <= makespan
  {
    hide NoOverlap, InOrder, WorkConserving, Latest;
    var i := WorkerEntry(p.heap, n, w);
    assert EntryOk(p.heap[i], p.stints, p.busy);
  }

  lemma DivideAtMostOne(total: real, count: real, span: real)
    requires count > 0.0 && span > 0.0 && total <= count * span
    ensures total / count / span <= 1.0
  {
    var a := total / count;
    assert a * count == total;
    assert a > span ==> (a - span) * count > 0.0;
  }
}
