/** Total correctness of a run with the prefix cache off and a pool large enough
    for a full batch: no preemption, no stall, every request finished with exactly
    its output, and every block back on the free list. */
module EngineLiveness {
  import opened Lists
  import opened PagedSpec
  import opened PagedInvariant
  import opened EngineSpec
  import opened EngineAccounting
  import opened EngineMoves
  import opened EngineSteps
  import opened EngineRuns
  import opened EngineMemory
  import opened EngineChunked
  import opened EngineFit
  import opened EngineHealth
  import opened EngineHealthySteps
  import opened EngineHealthyWork
  import opened EngineDebt

  // ---- what the scheduler hands out

  /** Prefill chunks are for running sequences in prefill, and not empty; without
      chunked prefill they are all that remains. */
  ghost predicate ChunksSuit(e: Engine, chunks: seq<Chunk>) {
    forall i :: 0 <= i < |chunks| ==>
      && chunks[i].id in e.running
      && Prefilling(e.Get(chunks[i].id), e.kv.blockSize)
      && 0 < chunks[i].tokens <= Remaining(e.Get(chunks[i].id))
      && (!e.cfg.chunked ==> chunks[i].tokens == Remaining(e.Get(chunks[i].id)))
  }

  /** `now'` is what became of `e` while sequences were admitted. */
  ghost predicate Admitted(e: Engine, e': Engine, chunks: seq<Chunk>) {
    && e'.cfg == e.cfg && e'.kv.blockSize == e.kv.blockSize && e'.swapped == e.swapped
    && e.running <= e'.running
    && (forall x :: x in e.running ==> e'.Get(x) == e.Get(x))
    && (forall x :: x in e'.running ==>
          x in e.running || (Prefilling(e'.Get(x), e'.kv.blockSize) && (!e.cfg.chunked ==> x in ChunkIds(chunks))))
    && Debt(e') <= Debt(e)
  }

  lemma AdmittedRefl(e: Engine, chunks: seq<Chunk>)
    ensures Admitted(e, e, chunks)
  {
  }

  /** One admitted sequence and its chunk, then the rest of the loop. */
  lemma AdmittedStep(e: Engine, e1: Engine, e2: Engine, chunks1: seq<Chunk>, chunks2: seq<Chunk>)
    requires e.waiting != [] && HeadStarted(e, e1) && e.waiting[0] !in e.running && e1.swapped == e.swapped
    requires Debt(e1) <= Debt(e)
    requires Admitted(e1, e2, chunks2)
    requires !e.cfg.chunked ==> e.waiting[0] in ChunkIds(chunks1)
    requires forall x :: x in ChunkIds(chunks1) ==> x in ChunkIds(chunks2)
    ensures Admitted(e, e2, chunks2)
  {
    hide Debt, ChunkIds, Prefilling;
    var id := e.waiting[0];
    assert e.running <= e1.running <= e2.running;
    forall x | x in e.running ensures e2.Get(x) == e.Get(x) {
      assert x in e1.running;
    }
    forall x | x in e2.running && x !in e.running
      ensures Prefilling(e2.Get(x), e2.kv.blockSize) && (!e.cfg.chunked ==> x in ChunkIds(chunks2))
    {
      if x in e1.running {
        assert x == id;
        assert Prefilling(e1.Get(id), e1.kv.blockSize);
      }
    }
  }

  lemma SuitKept(e: Engine, e1: Engine, chunks: seq<Chunk>)
    requires ChunksSuit(e, chunks) && e.waiting != [] && HeadStarted(e, e1) && e.waiting[0] !in e.running
    ensures ChunksSuit(e1, chunks)
  {
    hide Prefilling;
    forall i | 0 <= i < |chunks| ensures e1.Get(chunks[i].id) == e.Get(chunks[i].id) && chunks[i].id in e1.running {
      assert chunks[i].id in e.running;
    }
  }

  lemma SuitSnoc(e: Engine, chunks: seq<Chunk>, id: int, tokens: nat)
    requires ChunksSuit(e, chunks) && id in e.running && JustAdmitted(e.Get(id), e.kv.blockSize)
    requires 0 < tokens <= Remaining(e.Get(id)) && (!e.cfg.chunked ==> tokens == Remaining(e.Get(id)))
    ensures ChunksSuit(e, chunks + [Chunk(id, tokens)])
    ensures id in ChunkIds(chunks + [Chunk(id, tokens)])
    ensures forall x :: x in ChunkIds(chunks) ==> x in ChunkIds(chunks + [Chunk(id, tokens)])
  {
    ChunkIdsAppend(chunks, Chunk(id, tokens));
    hide Prefilling, ChunkIds;
  }

  /** The facts one turn of either admission loop needs. */
  lemma TurnHealthy(e: Engine, m: nat, todo: seq<int>, chunks: seq<Chunk>)
    requires MidStep(e, m, todo) && e.waiting != [] && |e.running| < e.cfg.maxNumSeqs
    requires ChunksSuit(e, chunks) && forall x :: x in todo ==> x in e.running
    ensures var id := e.waiting[0];
      var a := Allocate(e, id);
      && (!a.ok ==> a.engine == e && e.running != [])
      && (a.ok ==> var e1 := StartHead(a.engine);
            && MidStep(e1, m, todo) && HeadStarted(e, e1) && ChunksSuit(e1, chunks)
            && id !in e.running && Debt(e1) <= Debt(e) && e1.swapped == e.swapped
            && Remaining(e1.Get(id)) > 0 && id in e1.running
            && forall x :: x in todo ==> x in e1.running)
  {
    var id := e.waiting[0];
    HeadIsOutside(e, m, todo);
    AdmitHealthy(e, m, todo);
    var a := Allocate(e, id);
    if a.ok {
      hide Allocate, MidStep;
      var e1 := StartHead(a.engine);
      SuitKept(e, e1, chunks);
      CalmAdmits(e, e1, m, todo);
      HeadStartedDebt(e, e1);
      assert id in e1.running;
    } else if e.running == [] {
      RoomToAdmit(e, m, todo, id);
    }
  }

  lemma HeadIsOutside(e: Engine, m: nat, todo: seq<int>)
    requires MidStep(e, m, todo) && e.waiting != []
    ensures e.waiting[0] !in e.running && e.waiting[0] in e.seqs && Untouched(e.Get(e.waiting[0]))
  {
    WaitingHead(e);
    hide Accounted, MemoryOk, Sole;
  }

  lemma CalmAdmits(e: Engine, e1: Engine, m: nat, todo: seq<int>)
    requires MidStep(e, m, todo) && MidStep(e1, m, todo) && e.waiting != [] && HeadStarted(e, e1)
    ensures Untouched(e.Get(e.waiting[0])) && e1.swapped == e.swapped
  {
    hide Accounted, MemoryOk, Sole;
  }

  lemma {:induction false} AdmitChunkedHealthy(e: Engine, m: nat, todo: seq<int>, chunks: seq<Chunk>, budget: int)
    requires MidStep(e, m, todo) && ChunksSuit(e, chunks) && e.cfg.chunked
    requires forall x :: x in todo ==> x in e.running
    ensures var (e', cs) := AdmitChunked(e, chunks, budget);
      && MidStep(e', m, todo) && ChunksSuit(e', cs) && Admitted(e, e', cs) && |cs| >= |chunks|
      && (e.running == [] && e.waiting != [] && chunks == [] && budget > 0 && e.cfg.maxNumSeqs > 0 ==> cs != [])
    decreases |e.waiting|
  {
    hide MidStep, ChunksSuit, Allocate, Debt, Admitted, HeadStarted;
    AdmittedRefl(e, chunks);
    if !(e.waiting == [] || budget <= 0 || |e.running| + |chunks| >= e.cfg.maxNumSeqs) {
      TurnHealthy(e, m, todo, chunks);
      var id := e.waiting[0];
      var a := Allocate(e, id);
      AllocateLists(e, id);
      if a.ok {
        var e1 := StartHead(a.engine);
        StartedShape(e, e1);
        var remaining := Remaining(e1.Get(id));
        var chunk := ChunkSize(e.cfg, remaining, budget);
        SuitSnoc(e1, chunks, id, chunk);
        var chunks1 := chunks + [Chunk(id, chunk)];
        AdmitChunkedHealthy(e1, m, todo, chunks1, budget - chunk);
        var r := AdmitChunked(e1, chunks1, budget - chunk);
        AdmittedStep(e, e1, r.0, [], r.1);
      }
    }
  }

  lemma AllocateLists(e: Engine, id: int)
    ensures SameLists(e, Allocate(e, id).engine)
  {
    hide AllocatePrompt;
  }

  lemma StartedShape(e: Engine, e1: Engine)
    requires HeadStarted(e, e1)
    ensures |e1.waiting| < |e.waiting| && e1.cfg == e.cfg && e1.running == e.running + [e.waiting[0]]
    ensures JustAdmitted(e1.Get(e.waiting[0]), e1.kv.blockSize)
  {
  }

  lemma {:induction false} AdmitWholeHealthy(
    e: Engine, m: nat, todo: seq<int>, chunks: seq<Chunk>, budget: int, admitted: bool)
    requires MidStep(e, m, todo) && ChunksSuit(e, chunks)
    requires forall x :: x in todo ==> x in e.running
    ensures var (e', cs) := AdmitWhole(e, chunks, budget, admitted);
      && MidStep(e', m, todo) && ChunksSuit(e', cs) && Admitted(e, e', cs)
      && (forall x :: x in ChunkIds(chunks) ==> x in ChunkIds(cs)) && |cs| >= |chunks|
      && (e.running == [] && e.waiting != [] && chunks == [] && budget > 0 && !admitted && e.cfg.maxNumSeqs > 0
          ==> cs != [])
      && (cs == chunks ==> e'.running == e.running)
    decreases |e.waiting|
  {
    hide MidStep, ChunksSuit, Allocate, Debt, Admitted, HeadStarted, ChunkIds;
    AdmittedRefl(e, chunks);
    if !(e.waiting == [] || |e.running| >= e.cfg.maxNumSeqs || budget <= 0) {
      var id := e.waiting[0];
      if !(e.Get(id).req.promptTokens - e.Get(id).cached > budget && admitted) {
        TurnHealthy(e, m, todo, chunks);
        var a := Allocate(e, id);
        AllocateLists(e, id);
        if a.ok {
          var e1 := StartHead(a.engine);
          StartedShape(e, e1);
          var chunk := Remaining(e1.Get(id));
          SuitSnoc(e1, chunks, id, chunk);
          var chunks1 := chunks + [Chunk(id, chunk)];
          AdmitWholeHealthy(e1, m, todo, chunks1, budget - chunk, true);
          var r := AdmitWhole(e1, chunks1, budget - chunk, true);
          AdmittedStep(e, e1, r.0, chunks1, r.1);
        }
      }
    }
  }

  /** The step's work in a healthy engine. */
  ghost predicate WorkSuits(w: Work, m: nat, todo: seq<int>) {
    && w.Work? && MidStep(w.engine, m, todo) && ChunksSuit(w.engine, w.prefills)
    && NoDup(todo) && (forall x :: x in todo ==> x in w.engine.running)
    && (w.decodes == todo || (w.decodes == [] && w.prefills != [] && !w.engine.cfg.chunked))
    && (w.prefills != [] || w.decodes != [])
    && (forall x :: x in w.engine.running ==>
          || x in todo
          || (w.engine.cfg.chunked && Prefilling(w.engine.Get(x), w.engine.kv.blockSize))
          || x in ChunkIds(w.prefills))
  }

  lemma SubNoDup(a: seq<int>, b: seq<int>)
    requires multiset(a) <= multiset(b) && forall x :: x in b ==> multiset(b)[x] <= 1
    ensures NoDup(a)
  {
    forall x | x in a ensures multiset(a)[x] <= 1 {
      assert multiset(a)[x] >= 1;
    }
    MultiplicityNoDup(a);
  }

  lemma RunningOnce(e: Engine)
    requires Accounted(e)
    ensures forall x :: x in e.running ==> multiset(e.running)[x] <= 1
  {
    forall x | x in e.running ensures multiset(e.running)[x] <= 1 {
      OnOneList(e, x);
    }
  }

  /** The sequences that decode: distinct, running, with their prompt in place. */
  lemma TodoIs(e: Engine, m: nat)
    requires Healthy(e, m)
    ensures var todo := FilterDone(e, e.running, true);
      && NoDup(todo) && MidStep(e, m, todo)
      && (forall x :: x in todo <==> x in e.running && e.Get(x).PrefillDone())
  {
    var todo := FilterDone(e, e.running, true);
    FilterDoneIs(e, e.running, true);
    RunningOnce(e);
    SubNoDup(todo, e.running);
    hide FilterDone;
    SettledIsMid(e, m, todo);
  }

  lemma {:induction false} PartialSuits(e: Engine, partial: seq<int>, budget: int)
    requires e.cfg.chunked
    requires forall x :: x in partial ==> x in e.running && Prefilling(e.Get(x), e.kv.blockSize)
    ensures ChunksSuit(e, PartialChunks(e, partial, budget))
  {
    if partial != [] && budget > 0 {
      var id := partial[0];
      assert id in partial;
      var chunk := ChunkSize(e.cfg, Remaining(e.Get(id)), budget);
      PartialSuits(e, partial[1..], budget - chunk);
      hide Prefilling;
      var rest := PartialChunks(e, partial[1..], budget - chunk);
      assert forall i :: 0 < i < |[Chunk(id, chunk)] + rest| ==> ([Chunk(id, chunk)] + rest)[i] == rest[i - 1];
    }
  }

  lemma HealthyFacts(e: Engine, m: nat)
    requires Healthy(e, m)
    ensures e.cfg.maxNumSeqs > 0 && e.cfg.maxBatchedTokens > 0 && e.swapped == [] && Settled(e) && Accounted(e)
    ensures forall x :: x in e.running && !e.Get(x).PrefillDone() ==> Prefilling(e.Get(x), e.kv.blockSize)
  {
  }

  lemma ChunkedWork(e: Engine, m: nat)
    requires Healthy(e, m) && InFlight(e) && e.cfg.chunked
    ensures WorkSuits(ScheduleChunked(e), m, FilterDone(e, e.running, true))
    ensures Debt(ScheduleChunked(e).engine) <= Debt(e)
  {
    hide Healthy, MidStep, ChunksSuit, Debt, AdmitChunked, FilterDone, PartialChunks, Prefilling, ChunkIds;
    TodoIs(e, m);
    HealthyFacts(e, m);
    FilterDoneIs(e, e.running, false);
    var todo := FilterDone(e, e.running, true);
    var partial := FilterDone(e, e.running, false);
    var budget := e.cfg.maxBatchedTokens - |todo|;
    PartialSuits(e, partial, budget);
    PartialBudget(e, partial, budget);
    var first := PartialChunks(e, partial, budget);
    var left := budget - TotalTokens(first);
    AdmitChunkedHealthy(e, m, todo, first, left);
    ChunkedProgress(e, todo, partial, budget);
  }

  /** Something is scheduled: a decode, a partial prefill, or an admission. */
  lemma ChunkedProgress(e: Engine, todo: seq<int>, partial: seq<int>, budget: int)
    requires InFlight(e) && e.swapped == [] && e.cfg.maxBatchedTokens > 0
    requires budget == e.cfg.maxBatchedTokens - |todo|
    requires forall x :: x in todo <==> x in e.running && e.Get(x).PrefillDone()
    requires forall x :: x in partial <==> x in e.running && !e.Get(x).PrefillDone()
    ensures todo != [] || (budget > 0 && (partial != [] || (e.running == [] && e.waiting != [])))
    ensures partial == [] ==> PartialChunks(e, partial, budget) == []
  {
    if todo == [] && e.running != [] {
      var x := e.running[0];
      assert x in e.running;
      assert x in partial;
    }
  }

  lemma PriorityWork(e: Engine, m: nat)
    requires Healthy(e, m) && InFlight(e) && !e.cfg.chunked
    ensures WorkSuits(SchedulePriority(e), m, FilterDone(e, e.running, true))
    ensures Debt(SchedulePriority(e).engine) <= Debt(e)
  {
    hide Healthy, MidStep, ChunksSuit, Debt, AdmitWhole, FilterDone, Prefilling, Decoding;
    TodoIs(e, m);
    HealthyFacts(e, m);
    var todo := FilterDone(e, e.running, true);
    AllDecode(e, m);
    NothingSuits(e);
    AdmitWholeHealthy(e, m, todo, [], e.cfg.maxBatchedTokens, false);
    var (e1, prefills) := AdmitWhole(e, [], e.cfg.maxBatchedTokens, false);
    if prefills == [] {
      assert e1.running == e.running;
      FilterSame(e, e1, e.running, true);
      AnyIsTodo(e, todo);
    }
  }

  lemma AllDecode(e: Engine, m: nat)
    requires Healthy(e, m) && !e.cfg.chunked
    ensures forall x :: x in e.running ==> e.Get(x).PrefillDone()
  {
  }

  lemma NothingSuits(e: Engine)
    ensures ChunksSuit(e, [])
  {
  }

  lemma AnyIsTodo(e: Engine, todo: seq<int>)
    requires forall x :: x in e.running ==> x in todo
    ensures e.running != [] ==> todo != []
  {
    if e.running != [] {
      var x := e.running[0];
      assert x in e.running;
    }
  }
}
