/** Chunked prefill with swapping: a swapped sequence never comes back. */
module EngineStuck {
  import opened Lists
  import opened PagedSpec
  import opened EngineSpec
  import opened EngineAccounting
  import opened EngineRuns
  import opened EngineTotal

  /** The swapped list only ever gains entries. */
  ghost predicate StillSwapped(e: Engine, e': Engine) {
    e'.cfg == e.cfg && e.swapped <= e'.swapped
  }

  /** A part of a step that leaves the swapped list alone. */
  ghost predicate SameSwapped(e: Engine, e': Engine) {
    e'.cfg == e.cfg && e'.swapped == e.swapped
  }

  lemma TurnSwapped(e: Engine)
    requires e.waiting != []
    ensures var a := Allocate(e, e.waiting[0]);
      && SameSwapped(e, a.engine) && a.engine.waiting == e.waiting
      && SameSwapped(e, StartHead(a.engine)) && |StartHead(a.engine).waiting| < |e.waiting|
  {
    hide AllocatePrompt;
  }

  lemma SameTrans(a: Engine, b: Engine, c: Engine)
    requires SameSwapped(a, b) && SameSwapped(b, c)
    ensures SameSwapped(a, c)
  {
  }

  lemma {:induction false} AdmitChunkedSwapped(e: Engine, chunks: seq<Chunk>, budget: int)
    ensures SameSwapped(e, AdmitChunked(e, chunks, budget).0)
    decreases |e.waiting|
  {
    hide Allocate, StartHead, ChunkSize, Remaining;
    if e.waiting == [] || budget <= 0 || |e.running| + |chunks| >= e.cfg.maxNumSeqs {
      assert AdmitChunked(e, chunks, budget).0 == e;
    } else {
      var id := e.waiting[0];
      TurnSwapped(e);
      hide SameSwapped;
      var a := Allocate(e, id);
      if a.ok {
        var e1 := StartHead(a.engine);
        var remaining := Remaining(e1.Get(id));
        if remaining == 0 {
          AdmitChunkedSwapped(e1, chunks, budget);
          SameTrans(e, e1, AdmitChunked(e1, chunks, budget).0);
        } else {
          var chunk := ChunkSize(e.cfg, remaining, budget);
          var more := chunks + [Chunk(id, chunk)];
          AdmitChunkedSwapped(e1, more, budget - chunk);
          SameTrans(e, e1, AdmitChunked(e1, more, budget - chunk).0);
        }
      }
    }
  }

  lemma ScheduleSwapped(e: Engine)
    requires e.cfg.chunked
    ensures Schedule(e).Work? && StillSwapped(e, Schedule(e).engine)
  {
    hide AdmitChunked, FilterDone, PartialChunks, SortByPriority;
    var e1 := SortWaiting(e);
    var budget := e.cfg.maxBatchedTokens - |FilterDone(e1, e1.running, true)|;
    var first := PartialChunks(e1, FilterDone(e1, e1.running, false), budget);
    AdmitChunkedSwapped(e1, first, budget - TotalTokens(first));
  }

  lemma {:induction false} GrowOneSwapped(e: Engine, id: int, survivors: seq<int>)
    ensures GrowOne(e, id, survivors).Growth? ==> StillSwapped(e, GrowOne(e, id, survivors).engine)
    decreases |e.running|
  {
    hide AppendToken, Free;
    var s := e.Get(id);
    match AppendToken(e.kv, s.table, s.TotalLen()) {
      case Grown(_, _, _) =>
      case IndexError =>
      case OutOfBlocks(kv) =>
        var v := Victim(e.running, id);
        if v.Some? {
          GrowOneSwapped(Preempt(e.(kv := kv), v.value), id, Remove(survivors, v.value));
        }
    }
  }

  lemma {:induction false} GrowAllSwapped(e: Engine, decodes: seq<int>, survivors: seq<int>)
    ensures GrowAll(e, decodes, survivors).Growth? ==> StillSwapped(e, GrowAll(e, decodes, survivors).engine)
    decreases |decodes|
  {
    hide GrowOne;
    if decodes != [] {
      GrowOneSwapped(e, decodes[0], survivors);
      var g := GrowOne(e, decodes[0], survivors);
      if g.Growth? {
        GrowAllSwapped(g.engine, decodes[1..], g.survivors);
      }
    }
  }

  lemma {:induction false} ForEachSwapped(e: Engine, ids: seq<int>, f: Sequence -> Sequence)
    ensures StillSwapped(e, ForEach(e, ids, f))
    decreases |ids|
  {
    if ids != [] {
      ForEachSwapped(e.Put(ids[0], f(e.Get(ids[0]))), ids[1..], f);
    }
  }

  lemma {:induction false} ForChunksSwapped(e: Engine, chunks: seq<Chunk>, f: (Sequence, nat) -> Sequence)
    ensures StillSwapped(e, ForChunks(e, chunks, f))
    decreases |chunks|
  {
    if chunks != [] {
      ForChunksSwapped(e.Put(chunks[0].id, f(e.Get(chunks[0].id), chunks[0].tokens)), chunks[1..], f);
    }
  }

  lemma {:induction false} FinishSwapped(e: Engine, ids: seq<int>)
    ensures StillSwapped(e, FinishDone(e, ids))
    decreases |ids|
  {
    hide Free;
    if ids != [] {
      FinishSwapped(if e.Get(ids[0]).Done() then FinishOne(e, ids[0]) else e, ids[1..]);
    }
  }

  lemma ApplySwapped(e: Engine, prefills: seq<Chunk>, decodes: seq<int>, input: StepInput)
    ensures StillSwapped(e, ApplyWork(e, prefills, decodes, input))
  {
    hide ForEach, ForChunks, FinishDone;
    ForEachSwapped(e, decodes, CountingSpec(e.cfg.draftTokens, input.accepted));
    var e2 := Clocked(e, prefills, decodes, input);
    var tokens := TokensPerDecode(e.cfg, prefills, decodes, input.accepted);
    ForChunksSwapped(e2, prefills, AddPrefill);
    var e3 := ForChunks(e2, prefills, AddPrefill);
    ForEachSwapped(e3, decodes, Emitting(tokens, e2.now));
    var e4 := ForEach(e3, decodes, Emitting(tokens, e2.now));
    ForChunksSwapped(e4, prefills, EmittingFirst(e2.now));
    var e5 := ForChunks(e4, prefills, EmittingFirst(e2.now));
    FinishSwapped(e5, e5.running);
  }

  lemma {:induction false} ArrivalsSwapped(e: Engine)
    ensures StillSwapped(e, AdmitArrivals(e))
    decreases |e.pending|
  {
    if !(e.pending == [] || e.pending[0].arrival > e.now) {
      var r := WithTokens(e.pending[0]);
      ArrivalsSwapped(e.Put(r.id, NewSequence(r)).(pending := e.pending[1..], waiting := e.waiting + [r.id]));
    }
  }

  lemma StepSwapped(e: Engine, input: StepInput)
    requires e.cfg.chunked
    ensures !Step(e, input).Crashed? ==> StillSwapped(e, Step(e, input).engine)
  {
    hide AdmitArrivals, Schedule, GrowAll, ApplyWork;
    ArrivalsSwapped(e);
    var a := AdmitArrivals(e);
    if !(InFlight(a) || a.pending == []) {
      ArrivalsSwapped(a.(now := a.pending[0].arrival));
    }
    var e1 := Wake(e);
    assert StillSwapped(e, e1);
    ScheduleSwapped(e1);
    var w := Schedule(e1);
    GrowAllSwapped(w.engine, w.decodes, []);
    var g := GrowAll(w.engine, w.decodes, []);
    if g.Growth? {
      ApplySwapped(g.engine, w.prefills, g.survivors, input);
    }
  }

  /** With chunked prefill nothing is ever restored: whatever is swapped out stays
      so in every run, however much memory becomes free, and never finishes. */
  lemma {:induction false} NeverRestored(e: Engine, env: nat -> StepInput, steps: nat, maxMs: real)
    requires Accounted(e) && e.cfg.chunked && Durations(env)
    ensures var r := Run(e, env, steps, maxMs);
      r.Some? ==>
        && e.swapped <= r.value.swapped
        && forall x :: x in e.swapped ==> x in r.value.swapped && x !in r.value.finished
    decreases steps
  {
    hide Accounted, Step;
    if steps == 0 || e.now >= maxMs {
      SwappedUnfinished(e);
    } else {
      var input := env(e.stepNo);
      assert input.duration >= 0.0;
      StepAccounted(e, input);
      StepSwapped(e, input);
      var r := Step(e, input);
      if r.Idle? {
        SwappedUnfinished(r.engine);
      } else if !r.Crashed? {
        NeverRestored(r.engine, env, steps - 1, maxMs);
      }
    }
  }

  lemma SwappedUnfinished(e: Engine)
    requires Accounted(e)
    ensures forall x :: x in e.swapped ==> x !in e.finished
  {
    hide Members, RecordsOk, PendingOk;
    forall x | x in e.swapped ensures x !in e.finished {
      assert e.Get(x).status == Swapped;
    }
  }
}
