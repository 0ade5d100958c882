/** Colocated workers from start to end: when their steps run and what they cost,
    that every request is served, and how far the pool is utilised. */
module ClusterShared {
  import opened Lists
  import opened ClusterPrefill
  import opened ClusterDecode
  import opened ClusterDisaggregated
  import opened ClusterBudget
  import opened ClusterColocated
  import opened ClusterTurns

  // ---- when the steps run

  /** How far each chunk takes its request, told from the work done before. */
  function ReachesOf(before: seq<Work>, chunks: seq<Chunk>): seq<nat> {
    seq(|chunks|, j requires 0 <= j < |chunks| => Prefilled(before, chunks[j].id) + chunks[j].tokens)
  }

  /** The request the j-th decoding context belongs to: they come last in the batch. */
  function Decoding(s: Step, j: nat): int
    requires j < |s.contexts| <= |s.batch|
  {
    s.batch[|s.batch| - |s.contexts| + j]
  }

  /** A step that decodes has one context for each request midway: its prompt and the
      tokens it has been given, but for the last. */
  ghost predicate DecodingOk(group: seq<Req>, before: seq<Step>, s: Step, decodes: bool) {
    && |s.contexts| == (if decodes then |Midway(group, before)| else 0) <= |s.batch|
    && forall x, j: nat :: x in group && j < |s.contexts| && Decoding(s, j) == x.id ==>
         x in Midway(group, before) && s.contexts[j] == x.prompt + Emissions(before, x.id) - 1
  }

  /** A step takes what its chunks, their contexts and the decoding contexts cost, and
      runs at once or after a sleep. */
  ghost predicate StepPaced(group: seq<Req>, trace: seq<Step>, work: seq<Work>, i: nat, cfg: Config, cost: Cost)
    requires i < |trace| && i < |work|
  {
    var s, k, before := trace[i], work[i], trace[..i];
    && s.at == s.start + cost(Sizes(k.chunks), ReachesOf(work[..i], k.chunks), s.contexts)
    && BatchOf(group, s.batch)
    && (Follows(before, s.start) || Woken(group, before, s.start))
    && DecodingOk(group, before, s, cfg.chunked || k.chunks == [])
  }

  ghost predicate Paced(group: seq<Req>, trace: seq<Step>, work: seq<Work>, cfg: Config, cost: Cost) {
    && |work| == |trace|
    && forall i: nat :: i < |trace| && i < |work| ==> StepPaced(group, trace, work, i, cfg, cost)
  }

  /** The clock between two steps. */
  ghost predicate OnTime(group: seq<Req>, w: Shared) {
    Follows(w.trace, w.now) || Woken(group, w.trace, w.now)
  }

  lemma ReachesCons(before: seq<Work>, c: Chunk, rest: seq<Chunk>)
    ensures ReachesOf(before, [c] + rest) == [Prefilled(before, c.id) + c.tokens] + ReachesOf(before, rest)
  {
    hide Prefilled;
  }

  lemma {:induction false} ReachesSame(parts: seq<Part>, budget: int, work: seq<Work>)
    requires forall p :: p in parts ==> p.done == Prefilled(work, p.req.id)
    ensures Reaches(parts, budget) == ReachesOf(work, Chunks(parts, budget))
  {
    hide Prefilled, Share, ReachesOf;
    if parts == [] {
      assert ReachesOf(work, []) == [] by { NoReaches(work); }
    } else {
      var take := Share(parts[0], budget);
      assert parts[0] in parts;
      ReachesSame(parts[1..], budget - take, work);
      if take > 0 {
        ReachesCons(work, Chunk(parts[0].req.id, take), Chunks(parts[1..], budget - take));
      } else {
        assert [] + Chunks(parts[1..], budget - take) == Chunks(parts[1..], budget - take);
        assert [] + Reaches(parts[1..], budget - take) == Reaches(parts[1..], budget - take);
      }
    }
  }

  lemma NoReaches(before: seq<Work>)
    ensures ReachesOf(before, []) == []
  {
  }

  lemma PartsDone(pending: seq<Req>, w: Shared, cfg: Config)
    requires SharedOk(pending, w, cfg)
    ensures forall p :: p in w.parts ==> p.done == Prefilled(w.work, p.req.id)
  {
    hide HistoryOk, Emissions, Prefilled, FirstAt, LastAt;
    forall p | p in w.parts ensures p.done == Prefilled(w.work, p.req.id) {
      PartReq(w.parts, p);
      var k :| 0 <= k < |pending| && pending[k] == p.req;
      assert StageOk(pending, k, w);
    }
  }

  lemma ActiveContext(pending: seq<Req>, w: Shared, cfg: Config, x: Req)
    requires SharedOk(pending, w, cfg) && x in w.active
    ensures x.id in w.slots && w.slots[x.id].ctx == x.prompt + Emissions(w.trace, x.id) - 1
    ensures x in Midway(pending, w.trace)
  {
    hide HistoryOk, Prefilled, FirstAt, LastAt;
    var k :| 0 <= k < |pending| && pending[k] == x;
    assert StageOk(pending, k, w);
  }

  lemma StepIs(pending: seq<Req>, w: Shared, w': Shared, cfg: Config)
    requires SharedOk(pending, w, cfg) && SharedStepped(pending, w, w', cfg)
    ensures
      && |w'.trace| == |w.trace| + 1
      && var s, decoders := w'.trace[|w.trace|], Decoders(w, cfg);
      && s.batch == Ids(Born(w.parts, Budget(w, cfg))) + Ids(decoders) && s.contexts == Contexts(decoders, w.slots)
      && |Midway(pending, w.trace)| == |w.active|
      && (forall r :: r in decoders ==> r in w.active && r in pending && r.id in w.slots)
      && (forall r :: r in Born(w.parts, Budget(w, cfg)) ==> r in pending)
      && (decoders == if cfg.chunked || Chunks(w.parts, Budget(w, cfg)) == [] then w.active else [])
      && DistinctIds(pending)
  {
    MidwayActive(pending, w, cfg);
    Bounds(pending, w, cfg);
    BatchDistinct(pending, w, cfg);
    hide SharedOk, Born, Chunks, Emissions, Midway, SlotsStepped;
  }

  /** Who decodes in a step, and with what context. */
  lemma SteppedDecoding(pending: seq<Req>, w: Shared, w': Shared, cfg: Config)
    requires SharedOk(pending, w, cfg) && SharedStepped(pending, w, w', cfg)
    ensures
      DecodingOk(pending, w.trace, w'.trace[|w.trace|], cfg.chunked || Chunks(w.parts, Budget(w, cfg)) == [])
    ensures BatchOf(pending, w'.trace[|w.trace|].batch)
  {
    hide SharedOk, SharedStepped, Born, Chunks, Emissions, Midway, DistinctIds, Decoders;
    StepIs(pending, w, w', cfg);
    var s, born, decoders := w'.trace[|w.trace|], Born(w.parts, Budget(w, cfg)), Decoders(w, cfg);
    forall x, j: nat | x in pending && j < |s.contexts| && Decoding(s, j) == x.id
      ensures x in Midway(pending, w.trace) && s.contexts[j] == x.prompt + Emissions(w.trace, x.id) - 1
    {
      assert Ids(decoders)[j] == x.id;
      assert decoders[j] in decoders;
      SameId(pending, decoders[j], x);
      ActiveContext(pending, w, cfg, x);
    }
    forall j | 0 <= j < |s.batch| ensures s.batch[j] in Ids(pending) {
      var r := if j < |born| then born[j] else decoders[j - |born|];
      assert r in born || r in decoders;
      IdIn(pending, r);
    }
  }

  lemma PacedSnoc(group: seq<Req>, trace: seq<Step>, work: seq<Work>, s: Step, k: Work, cfg: Config, cost: Cost)
    requires Paced(group, trace, work, cfg, cost)
    requires s.at == s.start + cost(Sizes(k.chunks), ReachesOf(work, k.chunks), s.contexts)
    requires BatchOf(group, s.batch) && (Follows(trace, s.start) || Woken(group, trace, s.start))
    requires DecodingOk(group, trace, s, cfg.chunked || k.chunks == [])
    ensures Paced(group, trace + [s], work + [k], cfg, cost)
  {
    hide DecodingOk, Woken, BatchOf, Follows;
    var all, works := trace + [s], work + [k];
    assert all[..|trace|] == trace && works[..|trace|] == work;
    forall i: nat | i < |all| ensures StepPaced(group, all, works, i, cfg, cost) {
      if i < |trace| {
        assert StepPaced(group, trace, work, i, cfg, cost);
        assert all[..i] == trace[..i] && works[..i] == work[..i];
      }
    }
  }

  /** A step keeps the pace. */
  lemma SharedSteppedPaced(pending: seq<Req>, w: Shared, w': Shared, cfg: Config, cost: Cost)
    requires SharedOk(pending, w, cfg) && SharedStepped(pending, w, w', cfg) && OnTime(pending, w)
    requires Paced(pending, w.trace, w.work, cfg, cost)
    requires w'.now == w.now + cost(Sizes(Chunks(w.parts, Budget(w, cfg))), Reaches(w.parts, Budget(w, cfg)),
                                    Contexts(Decoders(w, cfg), w.slots))
    ensures Paced(pending, w'.trace, w'.work, cfg, cost) && OnTime(pending, w')
  {
    var s, k := w'.trace[|w.trace|], Work(Chunks(w.parts, Budget(w, cfg)), |w.active|, |w.parts|);
    PartsDone(pending, w, cfg);
    ReachesSame(w.parts, Budget(w, cfg), w.work);
    SteppedDecoding(pending, w, w', cfg);
    assert w'.trace == w.trace + [s] && w'.work == w.work + [k];
    hide SharedOk, Paced, DecodingOk, Woken, BatchOf, Chunks, Reaches, ReachesOf, Born, Still;
    PacedSnoc(pending, w.trace, w.work, s, k, cfg, cost);
  }

  lemma LeapWakes(pending: seq<Req>, w: Shared, cfg: Config)
    requires SharedOk(pending, w, cfg) && TimeOrdered(pending)
    requires w.idx < |pending| && w.now < pending[w.idx].at && w.active == [] && w.parts == []
    ensures Woken(pending, w.trace, pending[w.idx].at)
  {
    hide Emissions, Prefilled, FirstAt, LastAt;
    var start := pending[w.idx].at;
    assert pending[w.idx] in pending;
    forall x | x in pending && x.at < start ensures Emissions(w.trace, x.id) == Need(x) {
      var k :| 0 <= k < |pending| && pending[k] == x;
      assert StageOk(pending, k, w);
    }
  }

  /** When nothing is left to do, the last step served somebody. */
  ghost predicate LastServes(w: Shared) {
    w.trace != [] && w.active == [] && w.parts == [] ==> w.trace[|w.trace| - 1].batch != []
  }

  lemma SteppedServes(pending: seq<Req>, w: Shared, w': Shared, cfg: Config)
    requires SharedOk(pending, w, cfg) && SharedStepped(pending, w, w', cfg) && (w.active != [] || w.parts != [])
    ensures LastServes(w')
  {
    Bounds(pending, w, cfg);
    var budget := Budget(w, cfg);
    if w.parts != [] && Born(w.parts, budget) == [] {
      NobodyBorn(w.parts, budget);
    }
    hide SharedOk, Still, SlotsStepped;
  }

  lemma {:induction false} NobodyBorn(parts: seq<Part>, budget: int)
    requires parts != [] && Born(parts, budget) == []
    ensures Still(parts, budget) != []
  {
  }

  // ---- the worker

  /** Every request had its whole prompt prefilled, got exactly its tokens, and
      is stamped with its first and last step. */
  ghost predicate GroupServed(group: seq<Req>, w: Shared) {
    forall x :: x in group ==>
      && x.id in w.slots
      && Prefilled(w.work, x.id) == x.prompt
      && Emissions(w.trace, x.id) == Need(x)
      && w.slots[x.id].first == FirstAt(w.trace, x.id)
      && w.slots[x.id].finish == LastAt(w.trace, x.id)
      && x.at <= w.slots[x.id].first <= w.slots[x.id].finish <= w.now
  }

  lemma ServedAll(pending: seq<Req>, group: seq<Req>, w: Shared, cfg: Config)
    requires SharedOk(pending, w, cfg) && w.idx == |pending| && w.active == [] && w.parts == []
    requires forall r :: r in group ==> r in pending
    ensures GroupServed(group, w)
  {
    hide HistoryOk, Emissions, Prefilled, FirstAt, LastAt;
    forall x | x in group ensures Entered(x, w) && x !in w.active && x !in Reqs(w.parts) {
      var k :| 0 <= k < |pending| && pending[k] == x;
      assert StageOk(pending, k, w);
    }
  }

  lemma LeapOk(pending: seq<Req>, w: Shared, cfg: Config)
    requires SharedOk(pending, w, cfg) && w.idx < |pending| && w.now < pending[w.idx].at
    ensures SharedOk(pending, w.(now := pending[w.idx].at), cfg)
  {
    hide Emissions, Prefilled, FirstAt, LastAt, HistoryOk;
    var w' := w.(now := pending[w.idx].at);
    forall k: nat | k < |pending| ensures StageOk(pending, k, w') {
      assert StageOk(pending, k, w);
    }
    HistorySame(pending, w, w', cfg);
  }

  predicate Dozing(pending: seq<Req>, w: Shared) {
    w.active == [] && w.parts == [] && w.idx < |pending| && w.now < pending[w.idx].at
  }

  function Fresh(now: real): Shared {
    Shared(0, [], [], map[], now, 0.0, 0.0, [], [])
  }

  lemma FreshOk(pending: seq<Req>, cfg: Config)
    requires pending != [] && DistinctIds(pending) && forall r :: r in pending ==> r.at >= 0.0
    ensures SharedOk(pending, Fresh(pending[0].at), cfg)
  {
    assert pending[0] in pending;
  }

  /** The worker's whole history: everybody is served, by steps that keep to the batch
      and the budget and take what they cost, up to one that serves somebody. */
  ghost predicate Worked(group: seq<Req>, w: Shared, cfg: Config, cost: Cost) {
    && GroupServed(group, w) && HistoryOk(group, w, cfg) && Paced(group, w.trace, w.work, cfg, cost)
    && TurnsOk(group, w.trace, w.work, cfg)
    && w.active == [] && w.parts == [] && LastServes(w) && forall r :: r in group ==> r.at >= 0.0
  }

  /** The worker always finishes, in either mode and whatever its steps cost, and
      takes the time they cost. */
  method ColocatedWorker(group: seq<Req>, cfg: Config, cost: Cost) returns (w: Shared)
    requires DistinctIds(group) && forall r :: r in group ==> r.at >= 0.0
    requires forall a, b, c :: cost(a, b, c) >= 0.0
    ensures Worked(group, w, cfg, cost)
  {
    w := Fresh(0.0);
    if group == [] { return; }
    var pending := ByTime(group);
    DistinctSorted(group);
    ByTimeOrdered(group);
    w := Fresh(pending[0].at);
    FreshOk(pending, cfg);
    assert pending[0] in pending;
    assert OnTime(pending, w);
    assert TurnsOk(pending, w.trace, w.work, cfg) && Queued(w.parts);
    hide SharedOk, SharedStepped, GroupServed, HistoryOk, WorkLeft, Paced, OnTime, TimeOrdered, LastServes;
    hide TurnsOk, Queued;
    StartPaced(pending, w, cfg, cost);
    SharedWorkLeft(pending, w, cfg);
    Bounds(pending, w, cfg);
    while w.idx < |pending| || w.active != [] || w.parts != []
      invariant SharedOk(pending, w, cfg) && w.idx <= |pending| && WorkLeft(pending, w.trace, w.work) >= 0
      invariant Paced(pending, w.trace, w.work, cfg, cost) && OnTime(pending, w) && LastServes(w)
      invariant TurnsOk(pending, w.trace, w.work, cfg) && Queued(w.parts)
      decreases WorkLeft(pending, w.trace, w.work), if Dozing(pending, w) then 1 else 0
    {
      w := Turn(pending, w, cfg, cost);
    }
    ServedAll(pending, group, w, cfg);
    HistoryFor(pending, group, w, cfg);
    TurnsFor(pending, group, w, cfg);
    PacedFor(pending, group, w, cfg, cost);
  }

  lemma StartPaced(pending: seq<Req>, w: Shared, cfg: Config, cost: Cost)
    requires w.trace == [] && w.work == []
    ensures Paced(pending, w.trace, w.work, cfg, cost) && LastServes(w)
  {
  }

  lemma WokenSame(a: seq<Req>, b: seq<Req>, before: seq<Step>, start: real)
    requires Woken(a, before, start) && forall r :: r in b <==> r in a
    ensures Woken(b, before, start)
  {
    hide Emissions;
  }

  lemma StepFor(a: seq<Req>, b: seq<Req>, w: Shared, i: nat, cfg: Config, cost: Cost)
    requires i < |w.trace| && i < |w.work| && StepPaced(a, w.trace, w.work, i, cfg, cost)
    requires forall r :: r in b <==> r in a
    ensures StepPaced(b, w.trace, w.work, i, cfg, cost)
  {
    var before, s := w.trace[..i], w.trace[i];
    BatchSame(a, b, s.batch);
    assert Midway(b, before) == Midway(a, before);
    if Woken(a, before, s.start) {
      WokenSame(a, b, before, s.start);
    }
    hide Emissions, Prefilled, Woken, BatchOf, Midway, Follows;
    forall x, j: nat | x in b && j < |s.contexts| && Decoding(s, j) == x.id
      ensures x in Midway(b, before) && s.contexts[j] == x.prompt + Emissions(before, x.id) - 1
    {
      assert x in a;
    }
  }

  lemma PacedFor(pending: seq<Req>, group: seq<Req>, w: Shared, cfg: Config, cost: Cost)
    requires Paced(pending, w.trace, w.work, cfg, cost) && forall r :: r in group <==> r in pending
    ensures Paced(group, w.trace, w.work, cfg, cost)
  {
    hide StepPaced;
    forall i: nat | i < |w.trace| ensures StepPaced(group, w.trace, w.work, i, cfg, cost) {
      StepFor(pending, group, w, i, cfg, cost);
    }
  }

  lemma HistoryFor(pending: seq<Req>, group: seq<Req>, w: Shared, cfg: Config)
    requires SharedOk(pending, w, cfg) && forall r :: r in group <==> r in pending
    ensures HistoryOk(group, w, cfg)
  {
    hide ListsOk, StageOk, WorkOk;
    forall i: nat | i < |w.trace| ensures RecordOk(group, w.trace, w.work, i, cfg) {
      assert RecordOk(pending, w.trace, w.work, i, cfg);
      assert Midway(group, w.trace[..i]) == Midway(pending, w.trace[..i]);
    }
  }

  /** One turn of the worker's loop: admit, then step the batch or sleep. */
  method Turn(pending: seq<Req>, was: Shared, cfg: Config, cost: Cost) returns (w: Shared)
    requires SharedOk(pending, was, cfg) && (was.idx < |pending| || was.active != [] || was.parts != [])
    requires Paced(pending, was.trace, was.work, cfg, cost) && OnTime(pending, was) && LastServes(was)
    requires TimeOrdered(pending) && TurnsOk(pending, was.trace, was.work, cfg) && Queued(was.parts)
    requires forall a, b, c :: cost(a, b, c) >= 0.0
    ensures SharedOk(pending, w, cfg) && w.idx <= |pending| && WorkLeft(pending, w.trace, w.work) >= 0
    ensures TurnsOk(pending, w.trace, w.work, cfg) && Queued(w.parts)
    ensures Paced(pending, w.trace, w.work, cfg, cost) && OnTime(pending, w) && LastServes(w)
    ensures WorkLeft(pending, w.trace, w.work) < WorkLeft(pending, was.trace, was.work)
         || (w.trace == was.trace && w.work == was.work && Dozing(pending, was) && !Dozing(pending, w))
  {
    hide SharedOk, SharedStepped, WorkLeft, Paced, Woken, Follows, TimeOrdered, TurnsOk, Queued;
    Bounds(pending, was, cfg);
    w := EnterReady(pending, was, cfg);
    Bounds(pending, w, cfg);
    if w.active == [] && w.parts == [] {
      LeapOk(pending, w, cfg);
      LeapWakes(pending, w, cfg);
      w := w.(now := pending[w.idx].at);
      SharedWorkLeft(pending, w, cfg);
      Bounds(pending, w, cfg);
      return;
    }
    ghost var before := w;
    w := StepShared(pending, w, cfg, cost);
    SharedSteppedOk(pending, before, w, cfg);
    SharedSteppedPaced(pending, before, w, cfg, cost);
    SharedSteppedTurns(pending, before, w, cfg);
    SteppedServes(pending, before, w, cfg);
    SharedProgress(pending, before, w, cfg);
    SharedWorkLeft(pending, w, cfg);
    Bounds(pending, w, cfg);
  }

  // ---- how busy a worker is

  lemma {:induction false} BusyDivides(trace: seq<Step>, work: seq<Work>)
    requires |work| == |trace|
    ensures TimeOf(trace, work, true) + TimeOf(trace, work, false) == BusyTime(trace)
  {
    if trace != [] {
      BusyDivides(trace[..|trace| - 1], work[..|work| - 1]);
    }
  }

  lemma {:induction false} TimesPositive(trace: seq<Step>, work: seq<Work>, prefill: bool)
    requires forall i :: 0 <= i < |trace| ==> trace[i].start <= trace[i].at
    ensures TimeOf(trace, work, prefill) >= 0.0
  {
    if trace != [] && work != [] {
      TimesPositive(trace[..|trace| - 1], work[..|work| - 1], prefill);
    }
  }

  lemma {:induction false} BusyBefore(trace: seq<Step>)
    requires forall i, j :: 0 <= i < j < |trace| ==> trace[i].at <= trace[j].start
    requires trace != [] ==> trace[0].start >= 0.0
    ensures if trace == [] then BusyTime(trace) == 0.0 else BusyTime(trace) <= trace[|trace| - 1].at
  {
    if trace != [] {
      BusyBefore(trace[..|trace| - 1]);
    }
  }

  /** The first step starts when a request arrives. */
  lemma StartsAwake(group: seq<Req>, w: Shared, cfg: Config, cost: Cost)
    requires Worked(group, w, cfg, cost) && w.trace != []
    ensures w.trace[0].start >= 0.0
  {
    assert StepPaced(group, w.trace, w.work, 0, cfg, cost);
    hide DecodingOk, GroupServed, HistoryOk;
  }

  /** A worker is busy, with the one or the other, for no longer than until one of its
      requests finishes. */
  lemma SharedBusy(group: seq<Req>, w: Shared, cfg: Config, cost: Cost)
    requires Worked(group, w, cfg, cost)
    ensures w.prefillBusy >= 0.0 && w.decodeBusy >= 0.0
    ensures w.prefillBusy + w.decodeBusy <= LatestFinish(group, w.slots)
  {
    hide Emissions, Prefilled, RecordOk, DecodingOk;
    BusyDivides(w.trace, w.work);
    TimesPositive(w.trace, w.work, true);
    TimesPositive(w.trace, w.work, false);
    if w.trace != [] {
      StartsAwake(group, w, cfg, cost);
      LastFinishes(group, w, cfg, cost);
    }
    BusyBefore(w.trace);
  }

  lemma LastFinishes(group: seq<Req>, w: Shared, cfg: Config, cost: Cost)
    requires Worked(group, w, cfg, cost) && w.trace != []
    ensures w.trace[|w.trace| - 1].at <= LatestFinish(group, w.slots)
  {
    hide Emissions, Prefilled, HistoryOk, DecodingOk;
    var n := |w.trace| - 1;
    var last := w.trace[n];
    assert StepPaced(group, w.trace, w.work, n, cfg, cost);
    assert last.batch[0] in last.batch && last.batch[0] in Ids(group);
    var k :| 0 <= k < |group| && Ids(group)[k] == last.batch[0];
    var x := group[k];
    assert w.slots[x.id].finish == LastAt(w.trace, x.id) == last.at;
  }

  // ---- the pool

  function PrefillTimes(workers: seq<Shared>): (r: seq<real>)
    ensures |r| == |workers| && forall w :: 0 <= w < |r| ==> r[w] == workers[w].prefillBusy
  {
    seq(|workers|, w requires 0 <= w < |workers| => workers[w].prefillBusy)
  }

  function DecodeTimes(workers: seq<Shared>): (r: seq<real>)
    ensures |r| == |workers| && forall w :: 0 <= w < |r| ==> r[w] == workers[w].decodeBusy
  {
    seq(|workers|, w requires 0 <= w < |workers| => workers[w].decodeBusy)
  }

  function SlotsOf(workers: seq<Shared>): (r: seq<map<int, Slot>>)
    ensures |r| == |workers| && forall w :: 0 <= w < |r| ==> r[w] == workers[w].slots
  {
    seq(|workers|, w requires 0 <= w < |workers| => workers[w].slots)
  }

  function Groups(sorted: seq<Req>, n: nat): (r: seq<seq<Req>>)
    ensures |r| == n && forall w :: 0 <= w < n ==> r[w] == Dealt(sorted, w, n)
  {
    seq(n, w requires 0 <= w < n => Dealt(sorted, w, n))
  }

  ghost predicate AllWorked(groups: seq<seq<Req>>, workers: seq<Shared>, cfg: Config, cost: Cost) {
    |groups| == |workers| && forall w :: 0 <= w < |workers| ==> Worked(groups[w], workers[w], cfg, cost)
  }

  lemma {:induction false} SumPlus(a: seq<real>, b: seq<real>, both: seq<real>)
    requires |a| == |b| == |both| && forall i :: 0 <= i < |both| ==> both[i] == a[i] + b[i]
    ensures Sum(both) == Sum(a) + Sum(b)
  {
    if both != [] {
      SumPlus(a[1..], b[1..], both[1..]);
    }
  }

  lemma {:induction false} SumPositive(xs: seq<real>)
    requires forall i :: 0 <= i < |xs| ==> xs[i] >= 0.0
    ensures Sum(xs) >= 0.0
  {
    if xs != [] {
      SumPositive(xs[1..]);
    }
  }

  lemma Quotients(a: real, b: real, n: real)
    requires n > 0.0
    ensures a / n + b / n == (a + b) / n
    ensures a >= 0.0 ==> a / n >= 0.0
  {
  }

  lemma Fraction(a: real, b: real, n: real, span: real)
    requires n > 0.0 && span > 0.0
    ensures a / n / span + b / n / span == (a + b) / n / span
    ensures a >= 0.0 ==> a / n / span >= 0.0
  {
    Quotients(a, b, n);
    Quotients(a / n, b / n, span);
  }

  lemma BothWithin(a: seq<real>, b: seq<real>, span: real)
    requires |a| == |b| && span >= 0.0
    requires forall w :: 0 <= w < |a| ==> a[w] >= 0.0 && b[w] >= 0.0 && a[w] + b[w] <= span
    ensures Utilization(a, span) >= 0.0 && Utilization(b, span) >= 0.0
    ensures Utilization(a, span) + Utilization(b, span) <= 1.0
  {
    hide Sum;
    var both := seq(|a|, w requires 0 <= w < |a| => a[w] + b[w]);
    SumPlus(a, b, both);
    SumPositive(a);
    SumPositive(b);
    UtilizationWithin(both, span);
    var n := (if |a| > 1 then |a| else 1) as real;
    Fraction(Sum(a), Sum(b), n, MaxReal(span, 0.000000001));
    Fraction(Sum(b), Sum(a), n, MaxReal(span, 0.000000001));
  }

  /** The two pools are the same workers: together they are utilised at most fully. */
  lemma SharedWithin(groups: seq<seq<Req>>, workers: seq<Shared>, cfg: Config, cost: Cost)
    requires AllWorked(groups, workers, cfg, cost)
    ensures
      var span := Makespan(groups, SlotsOf(workers));
      var p, d := Utilization(PrefillTimes(workers), span), Utilization(DecodeTimes(workers), span);
      p >= 0.0 && d >= 0.0 && p + d <= 1.0
  {
    hide Worked, Utilization;
    var span, a, b := Makespan(groups, SlotsOf(workers)), PrefillTimes(workers), DecodeTimes(workers);
    hide Makespan;
    forall w | 0 <= w < |workers| ensures a[w] >= 0.0 && b[w] >= 0.0 && a[w] + b[w] <= span {
      SharedBusy(groups[w], workers[w], cfg, cost);
      FinishWithin(groups, SlotsOf(workers), w);
    }
    BothWithin(a, b, span);
  }

  lemma {:induction false} FinishWithin(groups: seq<seq<Req>>, slots: seq<map<int, Slot>>, w: nat)
    requires w < |groups| == |slots|
    ensures LatestFinish(groups[w], slots[w]) <= Makespan(groups, slots)
  {
    var n := |groups| - 1;
    if w < n {
      FinishWithin(groups[..n], slots[..n], w);
    }
  }

  /** Requests are dealt to the workers in arrival order, every one of them is served,
      and the workers are utilised, with prefill and decode together, at most fully; no
      worker at all is an error. */
  method RunColocated(reqs: seq<Req>, n: nat, cfg: Config, cost: Cost) returns (r: Option<seq<Shared>>)
    requires DistinctIds(reqs) && forall x :: x in reqs ==> x.at >= 0.0
    requires forall a, b, c :: cost(a, b, c) >= 0.0
    ensures r.None? <==> reqs != [] && n == 0
    ensures r.Some? ==>
              && AllWorked(Groups(ByTime(reqs), n), r.value, cfg, cost)
              && var span := Makespan(Groups(ByTime(reqs), n), SlotsOf(r.value));
                 var p, d := Utilization(PrefillTimes(r.value), span), Utilization(DecodeTimes(r.value), span);
                 p >= 0.0 && d >= 0.0 && p + d <= 1.0
  {
    hide Worked, Dealt, ByTime, Utilization, Makespan;
    if n == 0 {
      if reqs != [] { return None; }
      SharedWithin(Groups(ByTime(reqs), 0), [], cfg, cost);
      return Some([]);
    }
    DistinctSorted(reqs);
    var sorted := ByTime(reqs);
    var groups := DealOut(sorted, n);
    var workers := [];
    for w := 0 to n
      invariant |workers| == w
      invariant forall v :: 0 <= v < w ==> Worked(groups[v], workers[v], cfg, cost)
    {
      DealtMembers(sorted, w, n);
      var worker := ColocatedWorker(groups[w], cfg, cost);
      workers := workers + [worker];
    }
    assert groups == Groups(sorted, n);
    SharedWithin(groups, workers, cfg, cost);
    return Some(workers);
  }

  method DealOut(sorted: seq<Req>, n: pos) returns (groups: seq<seq<Req>>)
    ensures |groups| == n && forall w :: 0 <= w < n ==> groups[w] == Dealt(sorted, w, n)
  {
    groups := seq(n, i => []);
    for i := 0 to |sorted|
      invariant |groups| == n && forall w :: 0 <= w < n ==> groups[w] == Dealt(sorted[..i], w, n)
    {
      groups := groups[i % n := groups[i % n] + [sorted[i]]];
      assert sorted[..i + 1][..i] == sorted[..i];
    }
    assert sorted[..|sorted|] == sorted;
  }
}
