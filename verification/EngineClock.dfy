/** How late a run can end: with bounded arrivals and step durations the clock
    limit never cuts it short. */
module EngineClock {
  import opened Lists
  import opened PagedSpec
  import opened EngineSpec
  import opened EngineAccounting
  import opened EngineRuns
  import opened EngineHealth
  import opened EngineHealthySteps
  import opened EngineDebt
  import opened EngineTotal

  /** A part of a step that leaves the clock and the arrival queue alone. */
  ghost predicate SameClock(e: Engine, e': Engine) {
    e'.now == e.now && e'.pending == e.pending
  }

  lemma {:induction false} AdmitChunkedClock(e: Engine, chunks: seq<Chunk>, budget: int)
    ensures SameClock(e, AdmitChunked(e, chunks, budget).0)
    decreases |e.waiting|
  {
    hide AllocatePrompt;
    if !(e.waiting == [] || budget <= 0 || |e.running| + |chunks| >= e.cfg.maxNumSeqs) {
      var id := e.waiting[0];
      var a := Allocate(e, id);
      if a.ok {
        var e1 := StartHead(a.engine);
        var remaining := Remaining(e1.Get(id));
        var chunk := ChunkSize(e.cfg, remaining, budget);
        AdmitChunkedClock(e1, chunks, budget);
        AdmitChunkedClock(e1, chunks + [Chunk(id, chunk)], budget - chunk);
      }
    }
  }

  lemma {:induction false} AdmitWholeClock(e: Engine, chunks: seq<Chunk>, budget: int, admitted: bool)
    ensures SameClock(e, AdmitWhole(e, chunks, budget, admitted).0)
    decreases |e.waiting|
  {
    hide AllocatePrompt;
    if !(e.waiting == [] || |e.running| >= e.cfg.maxNumSeqs || budget <= 0) {
      var id := e.waiting[0];
      var a := Allocate(e, id);
      if a.ok {
        var e1 := StartHead(a.engine);
        var chunk := Remaining(e1.Get(id));
        AdmitWholeClock(e1, chunks + [Chunk(id, chunk)], budget - chunk, true);
        AdmitWholeClock(e1, chunks, budget, true);
      }
    }
  }

  lemma {:induction false} RestoreClock(e: Engine)
    ensures RestoreSwapped(e).Some? ==> SameClock(e, RestoreSwapped(e).value)
    decreases |e.swapped|
  {
    hide AllocatePrompt;
    if e.swapped != [] {
      var id := e.swapped[0];
      var s := e.Get(id);
      var r := AllocatePrompt(e.kv, RestoreTokens(s));
      RestoreClock(e.Put(id, s.(table := r.table, status := Running)).(
                     swapped := e.swapped[1..], running := e.running + [id],
                     kv := r.pool, lost := e.lost + multiset(s.table)));
    }
  }

  lemma ScheduleClock(e: Engine)
    ensures Schedule(e).Work? ==> SameClock(e, Schedule(e).engine)
  {
    hide AdmitChunked, AdmitWhole, RestoreSwapped, FilterDone, PartialChunks, SortByPriority;
    var e1 := SortWaiting(e);
    if e.cfg.chunked {
      var budget := e.cfg.maxBatchedTokens - |FilterDone(e1, e1.running, true)|;
      var first := PartialChunks(e1, FilterDone(e1, e1.running, false), budget);
      AdmitChunkedClock(e1, first, budget - TotalTokens(first));
    } else {
      AdmitWholeClock(e1, [], e.cfg.maxBatchedTokens, false);
      RestoreClock(AdmitWhole(e1, [], e.cfg.maxBatchedTokens, false).0);
    }
  }

  lemma {:induction false} GrowOneClock(e: Engine, id: int, survivors: seq<int>)
    ensures GrowOne(e, id, survivors).Growth? ==> SameClock(e, GrowOne(e, id, survivors).engine)
    decreases |e.running|
  {
    hide AppendToken, Free;
    var s := e.Get(id);
    match AppendToken(e.kv, s.table, s.TotalLen()) {
      case Grown(_, _, _) =>
      case IndexError =>
      case OutOfBlocks(kv) =>
        var v := Victim(e.running, id);
        if v.Some? {
          GrowOneClock(Preempt(e.(kv := kv), v.value), id, Remove(survivors, v.value));
        }
    }
  }

  lemma {:induction false} GrowAllClock(e: Engine, decodes: seq<int>, survivors: seq<int>)
    ensures GrowAll(e, decodes, survivors).Growth? ==> SameClock(e, GrowAll(e, decodes, survivors).engine)
    decreases |decodes|
  {
    hide GrowOne;
    if decodes != [] {
      GrowOneClock(e, decodes[0], survivors);
      var g := GrowOne(e, decodes[0], survivors);
      if g.Growth? {
        GrowAllClock(g.engine, decodes[1..], g.survivors);
      }
    }
  }

  lemma {:induction false} ForEachClock(e: Engine, ids: seq<int>, f: Sequence -> Sequence)
    ensures SameClock(e, ForEach(e, ids, f))
    decreases |ids|
  {
    if ids != [] {
      ForEachClock(e.Put(ids[0], f(e.Get(ids[0]))), ids[1..], f);
    }
  }

  lemma {:induction false} ForChunksClock(e: Engine, chunks: seq<Chunk>, f: (Sequence, nat) -> Sequence)
    ensures SameClock(e, ForChunks(e, chunks, f))
    decreases |chunks|
  {
    if chunks != [] {
      ForChunksClock(e.Put(chunks[0].id, f(e.Get(chunks[0].id), chunks[0].tokens)), chunks[1..], f);
    }
  }

  lemma {:induction false} FinishClock(e: Engine, ids: seq<int>)
    ensures SameClock(e, FinishDone(e, ids))
    decreases |ids|
  {
    hide Free;
    if ids != [] {
      FinishClock(if e.Get(ids[0]).Done() then FinishOne(e, ids[0]) else e, ids[1..]);
    }
  }

  lemma ApplyClock(e: Engine, prefills: seq<Chunk>, decodes: seq<int>, input: StepInput)
    ensures var e' := ApplyWork(e, prefills, decodes, input);
      e'.now == e.now + input.duration && e'.pending == e.pending
  {
    hide ForEach, ForChunks, FinishDone;
    ForEachClock(e, decodes, CountingSpec(e.cfg.draftTokens, input.accepted));
    var e2 := Clocked(e, prefills, decodes, input);
    var tokens := TokensPerDecode(e.cfg, prefills, decodes, input.accepted);
    ForChunksClock(e2, prefills, AddPrefill);
    var e3 := ForChunks(e2, prefills, AddPrefill);
    ForEachClock(e3, decodes, Emitting(tokens, e2.now));
    var e4 := ForEach(e3, decodes, Emitting(tokens, e2.now));
    ForChunksClock(e4, prefills, EmittingFirst(e2.now));
    var e5 := ForChunks(e4, prefills, EmittingFirst(e2.now));
    FinishClock(e5, e5.running);
  }

  /** A working step takes exactly its duration and admits nothing. */
  lemma StepWorkClock(e: Engine, input: StepInput)
    ensures var r := StepWork(e, input);
      !r.Idle? && (r.Worked? ==> r.engine.now == e.now + input.duration && r.engine.pending == e.pending)
  {
    hide Schedule, GrowAll, ApplyWork;
    ScheduleClock(e);
    var w := Schedule(e);
    if w.Work? {
      GrowAllClock(w.engine, w.decodes, []);
      var g := GrowAll(w.engine, w.decodes, []);
      if g.Growth? {
        ApplyClock(g.engine, w.prefills, g.survivors, input);
      }
    }
  }

  // ---- arrivals

  ghost predicate ArriveBy(q: seq<Request>, last: real) {
    forall i :: 0 <= i < |q| ==> q[i].arrival <= last
  }

  lemma {:induction false} AdmitArriveBy(e: Engine, last: real)
    requires ArriveBy(e.pending, last)
    ensures ArriveBy(AdmitArrivals(e).pending, last) && AdmitArrivals(e).now == e.now
    decreases |e.pending|
  {
    if e.pending != [] && e.pending[0].arrival <= e.now {
      AdmitArriveBy(AdmitOne(e), last);
    }
  }

  lemma WakeClock(e: Engine, last: real)
    requires ArriveBy(e.pending, last)
    ensures ArriveBy(Wake(e).pending, last)
    ensures Wake(e).now <= if e.now < last then last else e.now
  {
    hide AdmitArrivals;
    AdmitArriveBy(e, last);
    var e1 := AdmitArrivals(e);
    if !(InFlight(e1) || e1.pending == []) {
      AdmitArriveBy(e1.(now := e1.pending[0].arrival), last);
    }
  }

  ghost predicate AtMostLong(env: nat -> StepInput, longest: real) {
    longest >= 0.0 && forall n :: 0.0 <= env(n).duration <= longest
  }

  /** n of the longest steps past the last arrival. */
  function Deadline(last: real, longest: real, n: nat): real {
    last + longest * n as real
  }

  lemma LaterSteps(longest: real, a: nat, b: nat)
    requires longest >= 0.0 && a <= b
    ensures longest * a as real <= longest * b as real
    ensures longest * (a + 1) as real == longest * a as real + longest
  {
    assert (a + 1) as real == a as real + 1.0;
    assert a as real <= b as real;
  }

  /** After n working steps the clock is at most n durations past the last arrival. */
  lemma {:induction false} RunClock(e: Engine, m: nat, env: nat -> StepInput, steps: nat, maxMs: real,
                                    last: real, longest: real)
    requires Healthy(e, m) && AtMostLong(env, longest) && ArriveBy(e.pending, last)
    requires last >= 0.0 && e.now <= Deadline(last, longest, e.stepNo)
    ensures var r := Run(e, env, steps, maxMs);
      r.Some? && r.value.now <= Deadline(last, longest, r.value.stepNo)
    decreases steps
  {
    hide Healthy, Step, Accounted, Members, Deadline;
    if steps > 0 && e.now < maxMs {
      var input := env(e.stepNo);
      assert 0.0 <= input.duration <= longest;
      StepHealthy(e, m, input);
      HealthyBooks(e, m);
      StepAccounted(e, input);
      StepClock(e, input, last, longest);
      var r := Step(e, input);
      if r.Worked? {
        RunClock(r.engine, m, env, steps - 1, maxMs, last, longest);
      }
    }
  }

  lemma StepClock(e: Engine, input: StepInput, last: real, longest: real)
    requires Accounted(e) && ArriveBy(e.pending, last) && last >= 0.0 && 0.0 <= input.duration <= longest
    requires e.now <= Deadline(last, longest, e.stepNo)
    ensures var r := Step(e, input);
      && (r.Worked? ==> ArriveBy(r.engine.pending, last)
                        && r.engine.now <= Deadline(last, longest, e.stepNo + 1))
      && (r.Idle? ==> r.engine.now <= Deadline(last, longest, e.stepNo))
  {
    hide Wake, StepWork, Accounted;
    WakeClock(e, last);
    StepWorkClock(Wake(e), input);
    LaterSteps(longest, e.stepNo, e.stepNo);
    LaterSteps(longest, 0, e.stepNo);
    assert longest * 0 as real == 0.0;
  }

  lemma {:induction false} SubmitArriveBy(e: Engine, reqs: seq<Request>, last: real)
    requires ArriveBy(e.pending, last) && ArriveBy(reqs, last)
    ensures var e' := Submit(e, reqs); ArriveBy(e'.pending, last) && e'.now == e.now
    decreases |reqs|
  {
    if reqs != [] {
      InsertArriveBy(e.pending, reqs[0], last);
      SubmitArriveBy(e.(pending := InsertPending(e.pending, reqs[0])), reqs[1..], last);
    }
  }

  lemma {:induction false} InsertArriveBy(q: seq<Request>, r: Request, last: real)
    requires ArriveBy(q, last) && r.arrival <= last
    ensures ArriveBy(InsertPending(q, r), last)
  {
    if q != [] && r.arrival >= q[0].arrival {
      InsertArriveBy(q[1..], r, last);
    }
  }

  /** With arrivals up to `last`, steps of at most `longest`, and limits beyond what
      that can need, the run finishes every request. */
  lemma EveryRequestFinishes(cfg: Config, numBlocks: nat, size: pos, watermark: real, m: nat, reqs: seq<Request>,
                             env: nat -> StepInput, steps: nat, maxMs: real, last: real, longest: real)
    requires LargeEnough(cfg, InitPool(numBlocks, size, false, watermark), m)
    requires Acceptable(reqs, size, m) && ArriveBy(reqs, last) && last >= 0.0 && AtMostLong(env, longest)
    requires steps > PendingDebt(reqs) && maxMs > Deadline(last, longest, PendingDebt(reqs))
    ensures var r := Run(Submit(InitEngine(cfg, InitPool(numBlocks, size, false, watermark)), reqs), env, steps, maxMs);
      && r.Some?
      && multiset(r.value.finished) == multiset(Ids(reqs))
      && (forall x :: x in r.value.finished ==> r.value.Get(x).generated == r.value.Get(x).req.outputTokens)
      && |r.value.kv.freeIds| == |r.value.kv.blocks|
  {
    hide Healthy, Submit, AtMostOnce, InitPool, Run, RequestOk, Fits, PendingDebt, Members, Debt;
    TotalCorrectness(cfg, numBlocks, size, watermark, m, reqs, env, steps, maxMs);
    var e0 := InitEngine(cfg, InitPool(numBlocks, size, false, watermark));
    InitFresh(cfg, numBlocks, size, watermark, m);
    InitSize(numBlocks, size, watermark);
    assert multiset{} + multiset(Ids(reqs)) == multiset(Ids(reqs));
    SubmitFresh(e0, m, reqs);
    SubmitArriveBy(e0, reqs, last);
    var e := Submit(e0, reqs);
    RunClock(e, m, env, steps, maxMs, last, longest);
    LaterSteps(longest, Run(e, env, steps, maxMs).value.stepNo, PendingDebt(reqs));
  }
}
