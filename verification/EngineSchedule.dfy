/** What a step works on, said without the scheduler's recursion: in which order the
    waiting sequences are started, how many, with what budget, and why it stops. */
module EngineSchedule {
  import opened Lists
  import opened PagedSpec
  import opened EngineSpec
  import opened EngineMoves
  import opened EngineOrder

  // ---- the order of the waiting list

  /** Those of the same priority and arrival, in the order they are listed. */
  function Peers(e: Engine, ids: seq<int>, priority: int, arrival: real): seq<int> {
    if ids == [] then []
    else
      var r := e.Get(ids[0]).req;
      (if r.priority == priority && r.arrival == arrival then [ids[0]] else [])
      + Peers(e, ids[1..], priority, arrival)
  }

  lemma {:induction false} PeersPlus(e: Engine, a: seq<int>, b: seq<int>, priority: int, arrival: real)
    ensures Peers(e, a + b, priority, arrival) == Peers(e, a, priority, arrival) + Peers(e, b, priority, arrival)
  {
    if a == [] {
      assert a + b == b;
    } else {
      assert (a + b)[1..] == a[1..] + b;
      PeersPlus(e, a[1..], b, priority, arrival);
    }
  }

  lemma {:induction false} InsertStable(e: Engine, id: int, sorted: seq<int>, priority: int, arrival: real)
    ensures Peers(e, InsertByPriority(e, id, sorted), priority, arrival) == Peers(e, [id] + sorted, priority, arrival)
  {
    if sorted != [] && !Before(e.Get(id), e.Get(sorted[0])) {
      var head, rest := sorted[0], sorted[1..];
      assert sorted == [head] + rest;
      InsertStable(e, id, rest, priority, arrival);
      PeersPlus(e, [head], InsertByPriority(e, id, rest), priority, arrival);
      PeersPlus(e, [id], rest, priority, arrival);
      PeersPlus(e, [id], sorted, priority, arrival);
      PeersPlus(e, [head], rest, priority, arrival);
    }
  }

  lemma {:induction false} SortStable(e: Engine, ids: seq<int>, priority: int, arrival: real)
    ensures Peers(e, SortByPriority(e, ids), priority, arrival) == Peers(e, ids, priority, arrival)
  {
    if ids != [] {
      assert ids == [ids[0]] + ids[1..];
      SortStable(e, ids[1..], priority, arrival);
      InsertStable(e, ids[0], SortByPriority(e, ids[1..]), priority, arrival);
      PeersPlus(e, [ids[0]], SortByPriority(e, ids[1..]), priority, arrival);
      PeersPlus(e, [ids[0]], ids[1..], priority, arrival);
    }
  }

  /** `f` is the engine with its waiting list put in order: under priority scheduling
      by priority and then by arrival, ties as they stood; otherwise untouched. */
  ghost predicate Ordered(e: Engine, f: Engine) {
    && f == e.(waiting := f.waiting)
    && if !e.cfg.byPriority then f == e
       else
         && Prioritised(e, f.waiting) && multiset(f.waiting) == multiset(e.waiting)
         && forall p, t :: Peers(e, f.waiting, p, t) == Peers(e, e.waiting, p, t)
  }

  lemma SortOrdered(e: Engine)
    ensures Ordered(e, SortWaiting(e))
  {
    hide Prioritised, Peers;
    if e.cfg.byPriority {
      WaitingIsPrioritised(e, e.waiting);
      SortMultiset(e, e.waiting);
      forall p, t ensures Peers(e, SortByPriority(e, e.waiting), p, t) == Peers(e, e.waiting, p, t) {
        SortStable(e, e.waiting, p, t);
      }
    }
  }

  // ---- starting one sequence

  /** The blocks of a waiting sequence's prompt can be had. */
  predicate Obtains(e: Engine, id: int) {
    && e.kv.CanAllocate(CeilDiv(e.Get(id).req.promptTokens, e.kv.blockSize))
    && AllocatePrompt(e.kv, e.Get(id).req.tokenIds).ok
  }

  /** The head of the waiting list has the blocks of its prompt and runs, last. */
  ghost predicate Started(a: Engine, b: Engine) {
    && a.waiting != [] && Obtains(a, a.waiting[0])
    && var id, s := a.waiting[0], a.Get(a.waiting[0]);
       var r := AllocatePrompt(a.kv, s.req.tokenIds);
       b == a.(waiting := a.waiting[1..], running := a.running + [id], kv := r.pool, lost := a.lost + multiset(s.table),
               seqs := a.seqs[id := s.(table := r.table, cached := r.cached, prefilled := r.cached, status := Running)])
  }

  /** It does not get them; blocks taken in the attempt are lost. */
  ghost predicate Refused(a: Engine, b: Engine) {
    && a.waiting != [] && !Obtains(a, a.waiting[0])
    && var s := a.Get(a.waiting[0]);
       var r := AllocatePrompt(a.kv, s.req.tokenIds);
       b == if a.kv.CanAllocate(CeilDiv(s.req.promptTokens, a.kv.blockSize))
            then a.(kv := r.pool, lost := a.lost + multiset(r.table)) else a
  }

  lemma AllocateStarts(a: Engine)
    requires a.waiting != []
    ensures Allocate(a, a.waiting[0]).ok <==> Obtains(a, a.waiting[0])
    ensures Allocate(a, a.waiting[0]).ok ==>
              && Allocate(a, a.waiting[0]).engine.waiting == a.waiting
              && Started(a, StartHead(Allocate(a, a.waiting[0]).engine))
    ensures !Allocate(a, a.waiting[0]).ok ==> Refused(a, Allocate(a, a.waiting[0]).engine)
  {
    hide AllocatePrompt;
    var id, s := a.waiting[0], a.Get(a.waiting[0]);
    if Allocate(a, id).ok {
      var r := AllocatePrompt(a.kv, s.req.tokenIds);
      var s1 := s.(table := r.table, cached := r.cached, prefilled := r.cached);
      assert a.seqs[id := s1][id := s1.(status := Running)] == a.seqs[id := s1.(status := Running)];
    }
  }

  // ---- a run of admissions

  function Sum(ts: seq<nat>): nat {
    if ts == [] then 0 else Sum(ts[..|ts| - 1]) + ts[|ts| - 1]
  }

  /** A chunk for each sequence that is given tokens. */
  function Listed(ids: seq<int>, ts: seq<nat>): seq<Chunk>
    requires |ids| == |ts|
  {
    if ts == [] then []
    else
      var n := |ts| - 1;
      Listed(ids[..n], ts[..n]) + if ts[n] > 0 then [Chunk(ids[n], ts[n])] else []
  }

  /** Prompt tokens without their cache entries. */
  function Lack(s: Sequence): nat {
    if s.prefilled < s.req.promptTokens then s.req.promptTokens - s.prefilled else 0
  }

  lemma SumSnoc(ts: seq<nat>, t: nat)
    ensures Sum(ts + [t]) == Sum(ts) + t
  {
    assert (ts + [t])[..|ts|] == ts;
  }

  lemma ListedSnoc(ids: seq<int>, ts: seq<nat>, id: int, t: nat)
    requires |ids| == |ts|
    ensures Listed(ids + [id], ts + [t]) == Listed(ids, ts) + if t > 0 then [Chunk(id, t)] else []
  {
    assert (ts + [t])[..|ts|] == ts && (ids + [id])[..|ids|] == ids;
  }

  // ---- prefill priority

  /** What the head of the waiting list is thought to need, before it is allocated. */
  function Needed(e: Engine): int {
    if e.waiting == [] then 0 else e.Get(e.waiting[0]).req.promptTokens - e.Get(e.waiting[0]).cached
  }

  /** The head may be tried: the batch has room and the budget is not spent, and any but
      the first must fit what is left of it. */
  predicate WholeTries(e: Engine, left: int, first: bool) {
    e.waiting != [] && |e.running| < e.cfg.maxNumSeqs && left > 0 && (first || Needed(e) <= left)
  }

  ghost predicate WholeStart(a: Engine, b: Engine, left: int, first: bool, t: nat) {
    WholeTries(a, left, first) && Started(a, b) && t == Lack(b.Get(a.waiting[0]))
  }

  /** Admission ends where the head may not be tried, or is tried and refused. */
  ghost predicate WholeStop(a: Engine, b: Engine, left: int, first: bool) {
    if WholeTries(a, left, first) then Refused(a, b) else b == a
  }

  ghost predicate WholeStarts(es: seq<Engine>, ts: seq<nat>, budget: int) {
    && |es| == |ts| + 1
    && forall j :: 0 <= j < |ts| ==> WholeStart(es[j], es[j + 1], budget - Sum(ts[..j]), j == 0, ts[j])
  }

  /** Whole prompts are started one by one, from `es[0]` to the last, which becomes
      `end`. */
  ghost predicate WholeAdmission(es: seq<Engine>, ts: seq<nat>, budget: int, end: Engine) {
    WholeStarts(es, ts, budget) && WholeStop(es[|ts|], end, budget - Sum(ts), ts == [])
  }

  lemma WholeSnoc(es: seq<Engine>, ts: seq<nat>, budget: int, b: Engine, t: nat)
    requires WholeStarts(es, ts, budget) && WholeStart(es[|ts|], b, budget - Sum(ts), ts == [], t)
    ensures WholeStarts(es + [b], ts + [t], budget)
  {
    hide WholeStart, Sum;
    var all, more := es + [b], ts + [t];
    assert more[..|ts|] == ts;
    forall j | 0 <= j < |more| ensures WholeStart(all[j], all[j + 1], budget - Sum(more[..j]), j == 0, more[j]) {
      if j < |ts| {
        assert more[..j] == ts[..j] && more[j] == ts[j] && all[j] == es[j] && all[j + 1] == es[j + 1];
      }
    }
  }

  /** The first `n` of the waiting list run, behind those that did. */
  ghost predicate Advanced(e: Engine, e': Engine, n: nat) {
    && n <= |e.waiting| && e'.waiting == e.waiting[n..] && e'.running == e.running + e.waiting[..n]
    && e'.cfg == e.cfg && e'.swapped == e.swapped
  }

  ghost predicate Progress(es: seq<Engine>, ts: seq<nat>, chunks: seq<Chunk>) {
    && |es| == |ts| + 1 && Advanced(es[0], es[|ts|], |ts|)
    && chunks == Listed(es[0].waiting[..|ts|], ts)
  }

  lemma ProgressSnoc(es: seq<Engine>, ts: seq<nat>, chunks: seq<Chunk>, b: Engine, t: nat)
    requires Progress(es, ts, chunks) && Started(es[|ts|], b)
    ensures
      var head := es[|ts|].waiting[0];
      Progress(es + [b], ts + [t], chunks + if t > 0 then [Chunk(head, t)] else [])
  {
    StartedShorter(es[|ts|], b);
    hide Started, Listed;
    var n, w := |ts|, es[0].waiting;
    assert w[..n + 1] == w[..n] + [w[n]] && w[n..][1..] == w[n + 1..];
    ListedSnoc(w[..n], ts, w[n], t);
  }

  /** The recursion of AdmitWhole, laid out. */
  lemma {:induction false} AdmitWholeRuns(e: Engine, prefills: seq<Chunk>, left: int, es: seq<Engine>, ts: seq<nat>,
                                          budget: int)
    returns (all: seq<Engine>, given: seq<nat>)
    requires WholeStarts(es, ts, budget) && Progress(es, ts, prefills)
    requires es[|ts|] == e && left == budget - Sum(ts)
    ensures var r := AdmitWhole(e, prefills, left, ts != []);
            WholeAdmission(all, given, budget, r.0) && Progress(all, given, r.1) && all[0] == es[0]
    decreases |e.waiting|
  {
    hide Allocate, WholeStarts, Progress, Started, Refused, Obtains, Sum, StartHead;
    StartsSize(es, ts, budget);
    if !WholeTries(e, left, ts == []) {
      all, given := es, ts;
    } else {
      AllocateStarts(e);
      var a := Allocate(e, e.waiting[0]);
      if !a.ok {
        all, given := es, ts;
      } else {
        var e1 := StartHead(a.engine);
        var t := Remaining(e1.Get(e.waiting[0]));
        StartedShorter(e, e1);
        WholeSnoc(es, ts, budget, e1, t);
        ProgressSnoc(es, ts, prefills, e1, t);
        SumSnoc(ts, t);
        assert prefills + [] == prefills;
        all, given := AdmitWholeRuns(e1, prefills + if t > 0 then [Chunk(e.waiting[0], t)] else [], left - t,
                                     es + [e1], ts + [t], budget);
      }
    }
  }

  lemma StartsSize(es: seq<Engine>, ts: seq<nat>, budget: int)
    requires WholeStarts(es, ts, budget)
    ensures |es| == |ts| + 1
  {
  }

  lemma StartedShorter(a: Engine, b: Engine)
    requires Started(a, b)
    ensures a.waiting != [] && b.waiting == a.waiting[1..] && b.running == a.running + [a.waiting[0]]
    ensures b.cfg == a.cfg && b.swapped == a.swapped
  {
  }

  // ---- chunked prefill

  /** The share of one sequence: what it lacks, within what is left of the budget and
      within the cap, if there is one. */
  ghost predicate Portion(cfg: Config, lack: nat, left: int, t: nat) {
    && t <= lack && (t > 0 ==> t <= left) && (cfg.chunkCap > 0 ==> t <= cfg.chunkCap)
    && (t == lack || t == left || (left <= 0 && t == 0) || (cfg.chunkCap > 0 && t == cfg.chunkCap))
  }

  ghost predicate Portions(e: Engine, partial: seq<int>, budget: int, ts: seq<nat>) {
    && |ts| == |partial|
    && forall i :: 0 <= i < |ts| ==> Portion(e.cfg, Lack(e.Get(partial[i])), budget - Sum(ts[..i]), ts[i])
  }

  lemma PortionsSnoc(e: Engine, partial: seq<int>, budget: int, ts: seq<nat>, id: int, t: nat)
    requires Portions(e, partial, budget, ts) && Portion(e.cfg, Lack(e.Get(id)), budget - Sum(ts), t)
    ensures Portions(e, partial + [id], budget, ts + [t])
  {
    hide Portion, Sum, Lack;
    var ids, more := partial + [id], ts + [t];
    assert more[..|ts|] == ts;
    forall i | 0 <= i < |more| ensures Portion(e.cfg, Lack(e.Get(ids[i])), budget - Sum(more[..i]), more[i]) {
      if i < |ts| {
        assert more[..i] == ts[..i] && more[i] == ts[i] && ids[i] == partial[i];
      }
    }
  }

  lemma SizeIsPortion(cfg: Config, lack: nat, left: nat)
    requires left > 0
    ensures Portion(cfg, lack, left, ChunkSize(cfg, lack, left))
    ensures lack > 0 ==> ChunkSize(cfg, lack, left) > 0
  {
  }

  /** Running sequences still in prefill are given their shares in turn. */
  lemma {:induction false} PartialPortions(e: Engine, partial: seq<int>, left: int, done: seq<int>, ts: seq<nat>,
                                           budget: int)
    returns (all: seq<nat>)
    requires Portions(e, done, budget, ts) && left == budget - Sum(ts)
    ensures Portions(e, done + partial, budget, all)
    ensures Listed(done + partial, all) == Listed(done, ts) + PartialChunks(e, partial, left)
    ensures Sum(all) == Sum(ts) + TotalTokens(PartialChunks(e, partial, left))
  {
    hide Portion, Portions, Sum, Listed, PartialChunks, TotalTokens, ChunkSize, Lack;
    PortionsSize(e, done, budget, ts);
    if partial == [] {
      all := ts;
      assert done + [] == done && Listed(done, ts) + [] == Listed(done, ts);
      NoPartial(e, left);
    } else {
      var id, rest := partial[0], partial[1..];
      var t := ShareOf(e, id, left);
      var next := PartialChunks(e, rest, left - t);
      OnePortion(e, id, left);
      PortionsSnoc(e, done, budget, ts, id, t);
      ListedSnoc(done, ts, id, t);
      SumSnoc(ts, t);
      all := PartialPortions(e, rest, left - t, done + [id], ts + [t], budget);
      OneMoreChunk(e, partial, left);
      assert (done + [id]) + rest == done + partial;
      PortionsSize(e, done + partial, budget, all);
      Reassociate(Listed(done, ts), if t > 0 then [Chunk(id, t)] else [], next);
    }
  }

  function ShareOf(e: Engine, id: int, left: int): nat {
    if left <= 0 then 0 else ChunkSize(e.cfg, Remaining(e.Get(id)), left)
  }

  lemma NoPartial(e: Engine, left: int)
    ensures PartialChunks(e, [], left) == [] && TotalTokens([]) == 0
  {
  }

  lemma Reassociate<T>(a: seq<T>, b: seq<T>, c: seq<T>)
    ensures (a + b) + c == a + (b + c)
  {
  }

  lemma OnePortion(e: Engine, id: int, left: int)
    ensures Portion(e.cfg, Lack(e.Get(id)), left, ShareOf(e, id, left))
  {
    if left > 0 {
      SizeIsPortion(e.cfg, Remaining(e.Get(id)), left);
    }
  }

  lemma PortionsSize(e: Engine, partial: seq<int>, budget: int, ts: seq<nat>)
    requires Portions(e, partial, budget, ts)
    ensures |ts| == |partial|
  {
  }

  lemma OneMoreChunk(e: Engine, partial: seq<int>, left: int)
    requires partial != []
    ensures
      var t := ShareOf(e, partial[0], left);
      var rest := PartialChunks(e, partial[1..], left - t);
      && PartialChunks(e, partial, left) == (if t > 0 then [Chunk(partial[0], t)] else []) + rest
      && TotalTokens(PartialChunks(e, partial, left)) == t + TotalTokens(rest)
  {
    var t := ShareOf(e, partial[0], left);
    var all, rest := PartialChunks(e, partial, left), PartialChunks(e, partial[1..], left - t);
    if t > 0 {
      assert all == [Chunk(partial[0], t)] + rest && all[1..] == rest;
    } else {
      assert all == rest;
    }
  }

  /** The head may be tried: the budget is not spent, and there is room beside those that
      run and, once more, those that are given chunks. */
  predicate ChunkTries(e: Engine, left: int, given: nat) {
    e.waiting != [] && left > 0 && |e.running| + given < e.cfg.maxNumSeqs
  }

  ghost predicate ChunkStart(a: Engine, b: Engine, left: int, given: nat, t: nat) {
    ChunkTries(a, left, given) && Started(a, b) && Portion(a.cfg, Lack(b.Get(a.waiting[0])), left, t)
  }

  ghost predicate ChunkStop(a: Engine, b: Engine, left: int, given: nat) {
    if ChunkTries(a, left, given) then Refused(a, b) else b == a
  }

  /** How many are given tokens. */
  function Given(ts: seq<nat>): (n: nat)
    ensures n <= |ts|
  {
    if ts == [] then 0 else Given(ts[..|ts| - 1]) + if ts[|ts| - 1] > 0 then 1 else 0
  }

  lemma GivenSnoc(ts: seq<nat>, t: nat)
    ensures Given(ts + [t]) == Given(ts) + if t > 0 then 1 else 0
  {
    assert (ts + [t])[..|ts|] == ts;
  }

  ghost predicate ChunkStarts(es: seq<Engine>, ts: seq<nat>, budget: int, given: nat) {
    && |es| == |ts| + 1
    && forall j :: 0 <= j < |ts| ==>
         ChunkStart(es[j], es[j + 1], budget - Sum(ts[..j]), given + Given(ts[..j]), ts[j])
  }

  ghost predicate ChunkAdmission(es: seq<Engine>, ts: seq<nat>, budget: int, given: nat, end: Engine) {
    ChunkStarts(es, ts, budget, given) && ChunkStop(es[|ts|], end, budget - Sum(ts), given + Given(ts))
  }

  lemma ChunkSnoc(es: seq<Engine>, ts: seq<nat>, budget: int, given: nat, b: Engine, t: nat)
    requires ChunkStarts(es, ts, budget, given)
    requires ChunkStart(es[|ts|], b, budget - Sum(ts), given + Given(ts), t)
    ensures ChunkStarts(es + [b], ts + [t], budget, given)
  {
    hide ChunkStart, Sum, Given;
    var all, more := es + [b], ts + [t];
    Prefixes(ts, t);
    forall j | 0 <= j < |more|
      ensures ChunkStart(all[j], all[j + 1], budget - Sum(more[..j]), given + Given(more[..j]), more[j])
    {
      if j < |ts| {
        assert more[j] == ts[j] && all[j] == es[j] && all[j + 1] == es[j + 1];
      }
    }
  }

  lemma Prefixes(ts: seq<nat>, t: nat)
    ensures forall j :: 0 <= j <= |ts| ==> (ts + [t])[..j] == ts[..j]
    ensures ts[..|ts|] == ts
  {
  }

  /** The recursion of AdmitChunked, laid out. */
  lemma {:induction false} AdmitChunkedRuns(e: Engine, prefills: seq<Chunk>, left: int, es: seq<Engine>, ts: seq<nat>,
                                            budget: int, first: seq<Chunk>, chunks: seq<Chunk>)
    returns (all: seq<Engine>, given: seq<nat>, listed: seq<Chunk>)
    requires ChunkStarts(es, ts, budget, |first|) && Progress(es, ts, chunks) && prefills == first + chunks
    requires es[|ts|] == e && left == budget - Sum(ts) && |chunks| == Given(ts)
    ensures var r := AdmitChunked(e, prefills, left);
            ChunkAdmission(all, given, budget, |first|, r.0) && Progress(all, given, listed) && all[0] == es[0]
            && r.1 == first + listed
    decreases |e.waiting|
  {
    hide Allocate, ChunkStarts, Progress, Started, Refused, Obtains, Sum, StartHead, Portion, Given;
    ChunkStartsSize(es, ts, budget, |first|);
    if !ChunkTries(e, left, |prefills|) {
      all, given, listed := es, ts, chunks;
    } else {
      AllocateStarts(e);
      var a := Allocate(e, e.waiting[0]);
      if !a.ok {
        all, given, listed := es, ts, chunks;
      } else {
        var e1 := StartHead(a.engine);
        var lack := Remaining(e1.Get(e.waiting[0]));
        var t := ChunkSize(e.cfg, lack, left);
        StartedShorter(e, e1);
        SizeIsPortion(e.cfg, lack, left);
        NoneLacking(e.cfg, left);
        ChunkSnoc(es, ts, budget, |first|, e1, t);
        ProgressSnoc(es, ts, chunks, e1, t);
        SumSnoc(ts, t);
        GivenSnoc(ts, t);
        var more := if t > 0 then [Chunk(e.waiting[0], t)] else [];
        assert first + (chunks + more) == prefills + more;
        assert prefills + [] == prefills;
        all, given, listed := AdmitChunkedRuns(e1, prefills + more, left - t, es + [e1], ts + [t],
                                               budget, first, chunks + more);
      }
    }
  }

  lemma NoneLacking(cfg: Config, left: nat)
    ensures ChunkSize(cfg, 0, left) == 0
  {
  }

  lemma ChunkStartsSize(es: seq<Engine>, ts: seq<nat>, budget: int, given: nat)
    requires ChunkStarts(es, ts, budget, given)
    ensures |es| == |ts| + 1
  {
  }

  // ---- the decodes

  /** Those whose prompt is prefilled, or those whose prompt is not, in order. */
  function Picked(e: Engine, ids: seq<int>, done: bool): seq<int> {
    if ids == [] then []
    else
      var n := |ids| - 1;
      var s := e.Get(ids[n]);
      Picked(e, ids[..n], done) + if (s.prefilled >= s.req.promptTokens) == done then [ids[n]] else []
  }

  lemma {:induction false} FilterPlus(e: Engine, a: seq<int>, id: int, done: bool)
    ensures FilterDone(e, a + [id], done) == FilterDone(e, a, done) + FilterDone(e, [id], done)
  {
    if a == [] {
      assert a + [id] == [id];
    } else {
      assert (a + [id])[1..] == a[1..] + [id];
      FilterPlus(e, a[1..], id, done);
    }
  }

  lemma {:induction false} FilterPicks(e: Engine, ids: seq<int>, done: bool)
    ensures FilterDone(e, ids, done) == Picked(e, ids, done)
  {
    if ids != [] {
      var n := |ids| - 1;
      assert ids == ids[..n] + [ids[n]];
      FilterPicks(e, ids[..n], done);
      FilterPlus(e, ids[..n], ids[n], done);
    }
  }

  // ---- restoring

  /** What a swapped sequence allocates blocks for: its known ids up to its length, or
      as many zeros as it is long. */
  ghost predicate RestoresFor(s: Sequence, tokens: seq<Token>) {
    var n, ids := s.req.promptTokens + s.generated, s.req.tokenIds;
    if ids == [] || n == 0 then |tokens| == n && forall i :: 0 <= i < n ==> tokens[i] == 0
    else tokens == if |ids| <= n then ids else ids[..n]
  }

  predicate RestoreTries(e: Engine) {
    && e.swapped != [] && |e.running| < e.cfg.maxNumSeqs
    && var s := e.Get(e.swapped[0]);
       e.kv.CanAllocate(CeilDiv(s.req.promptTokens + s.generated, e.kv.blockSize))
  }

  /** The first swapped sequence gets blocks for what it has and runs again, last. */
  ghost predicate Restored(a: Engine, b: Engine) {
    && RestoreTries(a)
    && var id, s := a.swapped[0], a.Get(a.swapped[0]);
       exists tokens :: RestoresFor(s, tokens) && AllocatePrompt(a.kv, tokens).ok
         && var r := AllocatePrompt(a.kv, tokens);
            b == a.(swapped := a.swapped[1..], running := a.running + [id], kv := r.pool,
                    lost := a.lost + multiset(s.table),
                    seqs := a.seqs[id := s.(table := r.table, status := Running)])
  }

  ghost predicate RestoreRaises(a: Engine) {
    && RestoreTries(a)
    && exists tokens :: RestoresFor(a.Get(a.swapped[0]), tokens) && !AllocatePrompt(a.kv, tokens).ok
  }

  ghost predicate Restores(rs: seq<Engine>) {
    rs != [] && forall j :: 0 <= j < |rs| - 1 ==> Restored(rs[j], rs[j + 1])
  }

  ghost predicate Back(e: Engine, e': Engine, n: nat) {
    && n <= |e.swapped| && e'.swapped == e.swapped[n..] && e'.running == e.running + e.swapped[..n]
    && e'.cfg == e.cfg && e'.waiting == e.waiting
  }

  lemma TokensRestore(s: Sequence)
    ensures RestoresFor(s, RestoreTokens(s))
  {
    var n, ids := s.req.promptTokens + s.generated, s.req.tokenIds;
    if |ids| <= n {
      assert ids[..|ids|] == ids;
    }
  }

  lemma RestoresSnoc(rs: seq<Engine>, b: Engine)
    requires Restores(rs) && Restored(rs[|rs| - 1], b)
    ensures Restores(rs + [b])
  {
    hide Restored;
    var all := rs + [b];
    forall j | 0 <= j < |all| - 1 ensures Restored(all[j], all[j + 1]) {
    }
  }

  lemma RestoredMoves(a: Engine, b: Engine)
    requires Restored(a, b)
    ensures a.swapped != [] && b.swapped == a.swapped[1..] && b.running == a.running + [a.swapped[0]]
    ensures b.cfg == a.cfg && b.waiting == a.waiting
  {
  }

  /** The recursion of RestoreSwapped, laid out. */
  lemma {:induction false} RestoreRuns(e: Engine, rs: seq<Engine>) returns (all: seq<Engine>)
    requires Restores(rs) && rs[|rs| - 1] == e && Back(rs[0], e, |rs| - 1)
    ensures Restores(all) && all[0] == rs[0] && Back(rs[0], all[|all| - 1], |all| - 1)
    ensures RestoreSwapped(e).None? ==> RestoreRaises(all[|all| - 1])
    ensures RestoreSwapped(e).Some? ==> RestoreSwapped(e).value == all[|all| - 1] && !RestoreTries(all[|all| - 1])
    decreases |e.swapped|
  {
    hide Restores, Back, RestoresFor, RestoreTokens, AllocatePrompt;
    RestoresSize(rs);
    if !RestoreTries(e) {
      all := rs;
    } else {
      var id, s := e.swapped[0], e.Get(e.swapped[0]);
      TokensRestore(s);
      var r := AllocatePrompt(e.kv, RestoreTokens(s));
      if !r.ok {
        all := rs;
      } else {
        var e1 := e.Put(id, s.(table := r.table, status := Running)).(
          swapped := e.swapped[1..], running := e.running + [id], kv := r.pool, lost := e.lost + multiset(s.table));
        assert Restored(e, e1);
        RestoresSnoc(rs, e1);
        RestoredMoves(e, e1);
        BackSnoc(rs[0], e, e1, |rs| - 1);
        all := RestoreRuns(e1, rs + [e1]);
      }
    }
  }

  lemma RestoresSize(rs: seq<Engine>)
    requires Restores(rs)
    ensures rs != []
  {
  }

  lemma BackSnoc(e: Engine, a: Engine, b: Engine, n: nat)
    requires Back(e, a, n) && a.swapped != []
    requires b.swapped == a.swapped[1..] && b.running == a.running + [a.swapped[0]]
    requires b.cfg == a.cfg && b.waiting == a.waiting
    ensures Back(e, b, n + 1)
  {
    assert e.swapped[..n + 1] == e.swapped[..n] + [e.swapped[n]] && e.swapped[n..][1..] == e.swapped[n + 1..];
  }

  // ---- a step's work

  /** Without chunking: whole prompts while they fit; without any, the swapped ones
      return and everybody prefilled decodes. */
  ghost predicate WholeChoice(f: Engine, w: Work, es: seq<Engine>, ts: seq<nat>, end: Engine, rs: seq<Engine>) {
    && |es| == |ts| + 1 && es[0] == f && |ts| <= |f.waiting| && Restores(rs) && rs[0] == end
    && WholeAdmission(es, ts, f.cfg.maxBatchedTokens, end)
    && var prefills, last := Listed(f.waiting[..|ts|], ts), rs[|rs| - 1];
       if prefills != [] then w == Work(end, prefills, []) && Advanced(f, end, |ts|)
       else if RestoreRaises(last) then w == WorkFailed
       else
         && !RestoreTries(last) && w == Work(last, [], Picked(last, last.running, true))
         && |rs| - 1 <= |f.swapped|
         && last.waiting == f.waiting[|ts|..] && last.swapped == f.swapped[|rs| - 1..]
         && last.running == f.running + f.waiting[..|ts|] + f.swapped[..|rs| - 1]
  }

  /** With chunking: everybody prefilled decodes, at one token each; the rest of the
      budget goes to those in prefill, and then to those that wait. */
  ghost predicate ChunkedChoice(f: Engine, w: Work, shares: seq<nat>, es: seq<Engine>, ts: seq<nat>) {
    var decodes, partial := Picked(f, f.running, true), Picked(f, f.running, false);
    var budget := f.cfg.maxBatchedTokens - |decodes|;
    && Portions(f, partial, budget, shares) && |shares| == |partial|
    && |es| == |ts| + 1 && es[0] == f && |ts| <= |f.waiting|
    && w.Work? && w.decodes == decodes
    && w.prefills == Listed(partial, shares) + Listed(f.waiting[..|ts|], ts)
    && ChunkAdmission(es, ts, budget - Sum(shares), |Listed(partial, shares)|, w.engine)
    && Advanced(f, w.engine, |ts|)
  }

  ghost predicate Chosen(f: Engine, w: Work) {
    if f.cfg.chunked then exists shares, es, ts :: ChunkedChoice(f, w, shares, es, ts)
    else exists es, ts, end, rs :: WholeChoice(f, w, es, ts, end, rs)
  }

  lemma WholeChosen(f: Engine)
    requires !f.cfg.chunked
    ensures Chosen(f, SchedulePriority(f))
  {
    hide AdmitWhole, RestoreSwapped, RestoreTries, RestoreRaises, Restored, WholeStop, Restores;
    assert WholeStarts([f], [], f.cfg.maxBatchedTokens) && f.waiting[..0] == [] && f.waiting[0..] == f.waiting;
    assert f.running + [] == f.running && Progress([f], [], []);
    var es, ts := AdmitWholeRuns(f, [], f.cfg.maxBatchedTokens, [f], [], f.cfg.maxBatchedTokens);
    var (end, prefills) := AdmitWhole(f, [], f.cfg.maxBatchedTokens, false);
    WholeAdvanced(es, ts, end, prefills, f.cfg.maxBatchedTokens);
    JustOne(end);
    if prefills != [] {
      assert WholeChoice(f, SchedulePriority(f), es, ts, end, [end]);
    } else {
      var rs := RestoreRuns(end, [end]);
      RestoresSize(rs);
      var last := rs[|rs| - 1];
      FilterPicks(last, last.running, true);
      if RestoreSwapped(end).Some? {
        RaisesTries(last);
        assert f.waiting[|ts|..] == end.waiting;
        Reassociate(f.running, f.waiting[..|ts|], end.swapped[..|rs| - 1]);
      }
      assert WholeChoice(f, SchedulePriority(f), es, ts, end, rs);
    }
  }

  lemma JustOne(e: Engine)
    ensures Restores([e]) && Back(e, e, 0)
  {
    assert e.running + e.swapped[..0] == e.running;
  }

  lemma RaisesTries(a: Engine)
    requires !RestoreTries(a)
    ensures !RestoreRaises(a)
  {
  }

  /** Where the lists stand when admission has ended. */
  lemma WholeAdvanced(es: seq<Engine>, ts: seq<nat>, end: Engine, prefills: seq<Chunk>, budget: int)
    requires WholeAdmission(es, ts, budget, end) && Progress(es, ts, prefills)
    ensures Advanced(es[0], end, |ts|) && prefills == Listed(es[0].waiting[..|ts|], ts)
  {
    hide WholeStarts, Listed, Obtains;
  }

  lemma ChunkedChosen(f: Engine)
    requires f.cfg.chunked
    ensures Chosen(f, ScheduleChunked(f))
  {
    hide AdmitChunked, PartialChunks, FilterDone, Picked, Portions, TotalTokens, Listed;
    hide ChunkAdmission, ChunkStarts, Progress, Advanced, Sum, Given;
    FilterPicks(f, f.running, true);
    FilterPicks(f, f.running, false);
    var decodes, partial := Picked(f, f.running, true), Picked(f, f.running, false);
    var budget := f.cfg.maxBatchedTokens - |decodes|;
    var first := PartialChunks(f, partial, budget);
    NoPortions(f, budget);
    var shares := PartialPortions(f, partial, budget, [], [], budget);
    assert [] + partial == partial && [] + first == first;
    PortionsSize(f, partial, budget, shares);
    var left := budget - TotalTokens(first);
    NoChunkStarts(f, left, |first|);
    assert first + [] == first;
    var es, ts, listed := AdmitChunkedRuns(f, first, left, [f], [], left, first, []);
    var r := AdmitChunked(f, first, left);
    ChunkAdvanced(es, ts, r.0, listed, left, |first|);
    assert ChunkedChoice(f, ScheduleChunked(f), shares, es, ts);
  }

  lemma NoPortions(f: Engine, budget: int)
    ensures Portions(f, [], budget, []) && Listed([], []) == [] && Sum([]) == 0
  {
  }

  lemma NoChunkStarts(f: Engine, budget: int, given: nat)
    ensures ChunkStarts([f], [], budget, given) && Progress([f], [], []) && Given([]) == 0 && Sum([]) == 0
  {
    assert f.waiting[..0] == [] && f.waiting[0..] == f.waiting && f.running + [] == f.running;
  }

  lemma ChunkAdvanced(es: seq<Engine>, ts: seq<nat>, end: Engine, chunks: seq<Chunk>, budget: int, given: nat)
    requires ChunkAdmission(es, ts, budget, given, end) && Progress(es, ts, chunks)
    ensures |es| == |ts| + 1 && |ts| <= |es[0].waiting|
    ensures Advanced(es[0], end, |ts|) && chunks == Listed(es[0].waiting[..|ts|], ts)
  {
    hide ChunkStarts, Listed, Obtains;
  }

  /** Every step's work is chosen by these rules, from the waiting list put in order. */
  lemma ScheduleChosen(e: Engine)
    ensures exists f :: Ordered(e, f) && Chosen(f, Schedule(e))
  {
    hide Ordered, Chosen, ScheduleChunked, SchedulePriority;
    var f := SortWaiting(e);
    SortOrdered(e);
    SortedConfig(e);
    if f.cfg.chunked {
      ChunkedChosen(f);
    } else {
      WholeChosen(f);
    }
    assert Ordered(e, f) && Chosen(f, Schedule(e));
  }

  lemma SortedConfig(e: Engine)
    ensures SortWaiting(e).cfg == e.cfg
  {
  }

  // ---- what follows

  /** Those that a step starts are the first of the waiting list in order, and run behind
      those that ran: by priority none that stays waiting goes before them. */
  lemma StartsFirst(e: Engine)
    ensures Schedule(e).Work? ==> exists f, n: nat :: StartsOf(e, Schedule(e).engine, f, n)
  {
    hide Ordered, Chosen, Schedule;
    ScheduleChosen(e);
    var f :| Ordered(e, f) && Chosen(f, Schedule(e));
    OrderedLists(e, f);
    if Schedule(e).Work? {
      var n := ChosenStarts(f, Schedule(e));
      assert StartsOf(e, Schedule(e).engine, f, n);
    }
  }

  ghost predicate StartsOf(e: Engine, e': Engine, f: Engine, n: nat) {
    && Ordered(e, f) && n <= |f.waiting| && e'.waiting == f.waiting[n..] && e.running + f.waiting[..n] <= e'.running
    && (e.cfg.byPriority ==> forall i, j :: 0 <= i < n <= j < |f.waiting| ==>
          var a, b := e.Get(f.waiting[i]).req, e.Get(f.waiting[j]).req;
          a.priority < b.priority || (a.priority == b.priority && a.arrival <= b.arrival))
  }

  lemma OrderedLists(e: Engine, f: Engine)
    requires Ordered(e, f)
    ensures f.running == e.running && f.cfg == e.cfg
    ensures e.cfg.byPriority ==> forall i, j :: 0 <= i < j < |f.waiting| ==>
              var a, b := e.Get(f.waiting[i]).req, e.Get(f.waiting[j]).req;
              a.priority < b.priority || (a.priority == b.priority && a.arrival <= b.arrival)
  {
    hide Peers;
  }

  lemma ChosenStarts(f: Engine, w: Work) returns (n: nat)
    requires Chosen(f, w) && w.Work?
    ensures n <= |f.waiting| && w.engine.waiting == f.waiting[n..] && f.running + f.waiting[..n] <= w.engine.running
  {
    hide ChunkAdmission, WholeAdmission, Restores, RestoreTries, RestoreRaises, Listed, Picked, Portions;
    if f.cfg.chunked {
      var shares, es, ts :| ChunkedChoice(f, w, shares, es, ts);
      n := |ts|;
    } else {
      var es, ts, end, rs :| WholeChoice(f, w, es, ts, end, rs);
      n := |ts|;
    }
  }

  lemma StartKeeps(a: Engine, b: Engine, left: int, first: bool, t: nat)
    requires WholeStart(a, b, left, first, t)
    ensures a.waiting != [] && b.waiting == a.waiting[1..]
    ensures forall x :: x != a.waiting[0] ==> b.Get(x) == a.Get(x)
  {
    hide Obtains, AllocatePrompt;
  }

  /** The records of those that still wait are as they were. */
  lemma {:induction false} StillWaiting(es: seq<Engine>, ts: seq<nat>, budget: int, j: nat, k: nat)
    requires WholeStarts(es, ts, budget) && NoDup(es[0].waiting) && j <= k < |es[0].waiting| && j <= |ts|
    ensures es[j].waiting == es[0].waiting[j..] && es[j].Get(es[0].waiting[k]) == es[0].Get(es[0].waiting[k])
  {
    if j > 0 {
      StillWaiting(es, ts, budget, j - 1, k);
      StillWaiting(es, ts, budget, j - 1, j - 1);
      StartAt(es, ts, budget, j - 1);
      hide WholeStarts;
      StartKeeps(es[j - 1], es[j], budget - Sum(ts[..j - 1]), j - 1 == 0, ts[j - 1]);
      assert es[0].waiting[j - 1..][1..] == es[0].waiting[j..];
      assert es[0].waiting[k] != es[0].waiting[j - 1];
    }
  }

  lemma {:induction false} ListedTokens(ids: seq<int>, ts: seq<nat>)
    requires |ids| == |ts|
    ensures TotalTokens(Listed(ids, ts)) == Sum(ts) && |Listed(ids, ts)| <= |ts|
  {
    if ts != [] {
      var n := |ts| - 1;
      ListedTokens(ids[..n], ts[..n]);
      TotalPlus(Listed(ids[..n], ts[..n]), Chunk(ids[n], ts[n]));
      assert Listed(ids[..n], ts[..n]) + [] == Listed(ids[..n], ts[..n]);
    }
  }

  lemma {:induction false} TotalPlus(a: seq<Chunk>, c: Chunk)
    ensures TotalTokens(a + [c]) == TotalTokens(a) + c.tokens
  {
    if a == [] {
      assert a + [c] == [c];
    } else {
      assert (a + [c])[1..] == a[1..] + [c];
      TotalPlus(a[1..], c);
    }
  }

  /** The last prompt admitted fits the budget with all before it, unless it is the
      first, or is thought to have cached tokens that it no longer has. */
  lemma WholeWithin(es: seq<Engine>, ts: seq<nat>, budget: int)
    requires WholeStarts(es, ts, budget) && |ts| > 1 && NoDup(es[0].waiting) && |ts| <= |es[0].waiting|
    requires forall x :: x in es[0].waiting ==> es[0].Get(x).cached == 0
    ensures Sum(ts) <= budget
  {
    hide WholeStarts, WholeStart, NoDup, Sum;
    StartsSize(es, ts, budget);
    var n := |ts| - 1;
    StillWaiting(es, ts, budget, n, n);
    StartAt(es, ts, budget, n);
    assert es[0].waiting[n] in es[0].waiting;
    StartFits(es[n], es[n + 1], budget - Sum(ts[..n]), ts[n]);
    SumLast(ts);
  }

  lemma StartAt(es: seq<Engine>, ts: seq<nat>, budget: int, j: nat)
    requires WholeStarts(es, ts, budget) && j < |ts|
    ensures |es| == |ts| + 1 && WholeStart(es[j], es[j + 1], budget - Sum(ts[..j]), j == 0, ts[j])
  {
  }

  lemma SumLast(ts: seq<nat>)
    requires ts != []
    ensures Sum(ts) == Sum(ts[..|ts| - 1]) + ts[|ts| - 1]
  {
  }

  lemma StartFits(a: Engine, b: Engine, left: int, t: nat)
    requires WholeStart(a, b, left, false, t)
    requires a.waiting != [] ==> a.Get(a.waiting[0]).cached == 0
    ensures t <= left
  {
    hide Obtains, AllocatePrompt;
  }

  /** Without chunking, prompts that never ran before are admitted within the budget, or
      one alone. */
  lemma BudgetKept(e: Engine)
    requires !e.cfg.chunked && NoDup(e.waiting) && forall x :: x in e.waiting ==> e.Get(x).cached == 0
    ensures
      var w := Schedule(e);
      w.Work? ==> |w.prefills| <= 1 || TotalTokens(w.prefills) <= e.cfg.maxBatchedTokens
  {
    hide Ordered, Chosen, Schedule, NoDup;
    ScheduleChosen(e);
    var f :| Ordered(e, f) && Chosen(f, Schedule(e));
    OrderedLists(e, f);
    OrderedMembers(e, f);
    if Schedule(e).Work? {
      ChosenWithin(f, Schedule(e));
    }
  }

  lemma OrderedMembers(e: Engine, f: Engine)
    requires Ordered(e, f) && NoDup(e.waiting)
    ensures NoDup(f.waiting) && f.seqs == e.seqs && forall x :: x in f.waiting <==> x in e.waiting
  {
    hide Peers, Prioritised, NoDup;
    if e.cfg.byPriority {
      forall x ensures x in f.waiting <==> x in e.waiting {
        assert x in f.waiting <==> x in multiset(f.waiting);
      }
      forall x | x in f.waiting ensures multiset(f.waiting)[x] <= 1 {
        NoDupMultiplicity(e.waiting, x);
      }
      MultiplicityNoDup(f.waiting);
    }
  }

  lemma ChosenWithin(f: Engine, w: Work)
    requires !f.cfg.chunked && Chosen(f, w) && w.Work?
    requires NoDup(f.waiting) && forall x :: x in f.waiting ==> f.Get(x).cached == 0
    ensures |w.prefills| <= 1 || TotalTokens(w.prefills) <= f.cfg.maxBatchedTokens
  {
    hide WholeStarts, WholeStop, Restores, RestoreTries, RestoreRaises, Listed, Picked, NoDup, TotalTokens, Sum;
    var es, ts, end, rs :| WholeChoice(f, w, es, ts, end, rs);
    ListedTokens(f.waiting[..|ts|], ts);
    if |ts| > 1 {
      WholeWithin(es, ts, f.cfg.maxBatchedTokens);
    }
  }
}
