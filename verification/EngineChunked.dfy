/** Chunked prefill never starves decode: a running sequence that has its prompt
    and still owes tokens gets at least one in every step, unless that step
    preempts it; and prefill work stays within what the decodes leave. */
module EngineChunked {
  import opened Lists
  import opened PagedSpec
  import opened EngineSpec
  import opened EngineAccounting
  import opened EngineMoves
  import opened EngineSteps
  import opened EngineRuns

  // ---- the budget

  lemma {:induction false} TotalAppend(a: seq<Chunk>, c: Chunk)
    ensures TotalTokens(a + [c]) == TotalTokens(a) + c.tokens
  {
    if a == [] {
      assert a + [c] == [c];
    } else {
      TotalAppend(a[1..], c);
      assert (a + [c])[1..] == a[1..] + [c];
    }
  }

  /** A cap of 0 is no cap. */
  ghost predicate Capped(cfg: Config, chunks: seq<Chunk>) {
    forall i :: 0 <= i < |chunks| ==>
      chunks[i].tokens > 0 && (cfg.chunkCap != 0 ==> chunks[i].tokens <= cfg.chunkCap)
  }

  function Positive(n: int): nat {
    if n < 0 then 0 else n
  }

  lemma {:induction false} PartialBudget(e: Engine, partial: seq<int>, budget: int)
    requires forall x :: x in partial ==> !e.Get(x).PrefillDone()
    ensures var cs := PartialChunks(e, partial, budget);
      && TotalTokens(cs) <= Positive(budget) && Capped(e.cfg, cs) && |cs| <= |partial|
      && (partial != [] && budget > 0 ==> cs != [])
  {
    if partial != [] && budget > 0 {
      var chunk := ChunkSize(e.cfg, Remaining(e.Get(partial[0])), budget);
      assert !e.Get(partial[0]).PrefillDone();
      var rest := PartialChunks(e, partial[1..], budget - chunk);
      PartialBudget(e, partial[1..], budget - chunk);
      assert ([Chunk(partial[0], chunk)] + rest)[1..] == rest;
    }
  }

  lemma {:induction false} AdmitBudget(e: Engine, prefills: seq<Chunk>, budget: int)
    requires Capped(e.cfg, prefills)
    ensures var (e', cs) := AdmitChunked(e, prefills, budget);
      TotalTokens(cs) <= TotalTokens(prefills) + Positive(budget) && Capped(e.cfg, cs)
    decreases |e.waiting|
  {
    hide AllocatePrompt;
    if !(e.waiting == [] || budget <= 0 || |e.running| + |prefills| >= e.cfg.maxNumSeqs) {
      var id := e.waiting[0];
      var a := Allocate(e, id);
      if a.ok {
        var e1 := StartHead(a.engine);
        var remaining := Remaining(e1.Get(id));
        if remaining == 0 {
          AdmitBudget(e1, prefills, budget);
        } else {
          var chunk := ChunkSize(e.cfg, remaining, budget);
          TotalAppend(prefills, Chunk(id, chunk));
          AdmitBudget(e1, prefills + [Chunk(id, chunk)], budget - chunk);
        }
      }
    }
  }

  /** Decodes take one token of budget each; prefill gets at most the rest, in
      chunks no larger than the per-request cap. */
  lemma ChunkedBudget(e: Engine)
    requires e.cfg.chunked
    ensures var w := Schedule(e);
      && w.Work? && Capped(e.cfg, w.prefills)
      && w.decodes == FilterDone(e, e.running, true)
      && TotalTokens(w.prefills) <= Positive(e.cfg.maxBatchedTokens - |w.decodes|)
  {
    hide AdmitChunked, SortByPriority, FilterDone, PartialChunks, Capped;
    var e1 := SortWaiting(e);
    FilterSame(e, e1, e.running, true);
    FirstBudget(e1);
    var budget := e.cfg.maxBatchedTokens - |FilterDone(e1, e.running, true)|;
    var first := PartialChunks(e1, FilterDone(e1, e.running, false), budget);
    AdmitBudget(e1, first, budget - TotalTokens(first));
  }

  lemma FirstBudget(e: Engine)
    ensures var budget := e.cfg.maxBatchedTokens - |FilterDone(e, e.running, true)|;
      var first := PartialChunks(e, FilterDone(e, e.running, false), budget);
      TotalTokens(first) <= Positive(budget) && Capped(e.cfg, first)
  {
    hide FilterDone, PartialChunks, Capped;
    FilterDoneIs(e, e.running, false);
    PartialBudget(e, FilterDone(e, e.running, false), e.cfg.maxBatchedTokens - |FilterDone(e, e.running, true)|);
  }

  lemma {:induction false} FilterSame(e: Engine, e': Engine, ids: seq<int>, done: bool)
    requires forall x :: x in ids ==> e'.Get(x) == e.Get(x)
    ensures FilterDone(e', ids, done) == FilterDone(e, ids, done)
  {
    if ids != [] {
      FilterSame(e, e', ids[1..], done);
    }
  }

  // ---- following one sequence through a step

  lemma AdmitOneKeeps(e: Engine, x: int)
    requires Accounted(e) && e.pending != [] && x in e.seqs
    ensures AdmitOne(e).Get(x) == e.Get(x) && x in AdmitOne(e).seqs && AdmitOne(e).running == e.running
  {
    AdmitOneMembers(e);
    NotTracked(e, e.pending[0].id);
  }

  lemma {:induction false} ArrivalsKeep(e: Engine, x: int)
    requires Accounted(e) && x in e.seqs
    ensures var e' := AdmitArrivals(e);
      e'.Get(x) == e.Get(x) && x in e'.seqs && e'.running == e.running
    decreases |e.pending|
  {
    hide Accounted, Members, WithTokens, NewSequence;
    if e.pending != [] && e.pending[0].arrival <= e.now {
      AdmitOneKeeps(e, x);
      AdmitOneAccounted(e);
      ArrivalsKeep(AdmitOne(e), x);
    }
  }

  lemma {:induction false} AdmitChunkedKeeps(e: Engine, prefills: seq<Chunk>, budget: int, x: int)
    requires Accounted(e) && PrefillsOk(e, prefills) && x in e.running
    ensures AdmitChunked(e, prefills, budget).0.Get(x) == e.Get(x)
    decreases |e.waiting|
  {
    hide Accounted, PrefillsOk, Members, Allocate;
    if !(e.waiting == [] || budget <= 0 || |e.running| + |prefills| >= e.cfg.maxNumSeqs) {
      AdmitStepOk(e, prefills);
      var id := e.waiting[0];
      var a := Allocate(e, id);
      AllocateKeeps(e, x);
      if a.ok {
        var e1 := StartHead(a.engine);
        var remaining := Remaining(e1.Get(id));
        if remaining == 0 {
          AdmitChunkedKeeps(e1, prefills, budget, x);
        } else {
          var chunk := ChunkSize(e.cfg, remaining, budget);
          AddChunk(e1, prefills, id, chunk, e.running);
          AdmitChunkedKeeps(e1, prefills + [Chunk(id, chunk)], budget - chunk, x);
        }
      }
    }
  }

  lemma AllocateKeeps(e: Engine, x: int)
    requires Accounted(e) && e.waiting != [] && x in e.running
    ensures var a := Allocate(e, e.waiting[0]);
      a.engine.Get(x) == e.Get(x) && x != e.waiting[0] && StartHead(a.engine).Get(x) == e.Get(x)
  {
    WaitingHead(e);
    hide AllocatePrompt, Accounted;
  }

  /** The sequence has been preempted since, or only its table has changed. */
  ghost predicate Kept(base: Sequence, s: Sequence) {
    s.nPreemptions > base.nPreemptions || s.(table := base.table) == base
  }

  lemma PreemptKeeps(e: Engine, v: int, x: int, base: Sequence)
    requires Kept(base, e.Get(x))
    ensures Kept(base, Preempt(e, v).Get(x))
    ensures x == v ==> Preempt(e, v).Get(x).nPreemptions > base.nPreemptions
    ensures x != v ==> Preempt(e, v).Get(x) == e.Get(x)
  {
    hide Free;
  }

  lemma {:induction false} RemoveKeeps(s: seq<int>, v: int, x: int)
    requires x in s && x != v
    ensures x in Remove(s, v)
  {
    if s[0] != v && s[0] != x {
      RemoveKeeps(s[1..], v, x);
    }
  }

  /** A sequence in the survivors stays there until it is preempted; the one being
      grown joins them or is preempted. */
  lemma {:induction false} GrowOneKeeps(e: Engine, id: int, survivors: seq<int>, x: int, base: Sequence)
    requires Kept(base, e.Get(x))
    ensures var g := GrowOne(e, id, survivors);
      g.Growth? ==>
        && Kept(base, g.engine.Get(x))
        && (x in survivors || x == id || e.Get(x).nPreemptions > base.nPreemptions ==>
              x in g.survivors || g.engine.Get(x).nPreemptions > base.nPreemptions)
    decreases |e.running|
  {
    hide AppendToken, Preempt;
    var s := e.Get(id);
    match AppendToken(e.kv, s.table, s.TotalLen()) {
      case Grown(kv, table, _) =>
      case IndexError =>
      case OutOfBlocks(kv) =>
        var e1 := e.(kv := kv);
        match Victim(e.running, id) {
          case Some(v) =>
            PreemptKeeps(e1, v, x, base);
            PreemptRunning(e1, v);
            if x in survivors && x != v {
              RemoveKeeps(survivors, v, x);
            }
            GrowOneKeeps(Preempt(e1, v), id, Remove(survivors, v), x, base);
          case None =>
            PreemptKeeps(e1, id, x, base);
        }
    }
  }

  lemma PreemptRunning(e: Engine, v: int)
    ensures Preempt(e, v).running == Remove(e.running, v)
  {
    hide Free;
  }

  lemma {:induction false} GrowAllKeeps(e: Engine, decodes: seq<int>, survivors: seq<int>, x: int, base: Sequence)
    requires Kept(base, e.Get(x))
    ensures var g := GrowAll(e, decodes, survivors);
      g.Growth? ==>
        && Kept(base, g.engine.Get(x))
        && (x in survivors || x in decodes || e.Get(x).nPreemptions > base.nPreemptions ==>
              x in g.survivors || g.engine.Get(x).nPreemptions > base.nPreemptions)
    decreases |decodes|
  {
    hide GrowOne, Kept;
    if decodes != [] {
      GrowOneKeeps(e, decodes[0], survivors, x, base);
      match GrowOne(e, decodes[0], survivors) {
        case GrowFailed =>
        case Growth(e1, survivors1) => GrowAllKeeps(e1, decodes[1..], survivors1, x, base);
      }
    }
  }

  // ---- emission

  /** No transformation of the step takes a token back or preempts. */
  ghost predicate NotBelow(s: Sequence, s': Sequence) {
    s'.generated >= s.generated && s'.nPreemptions == s.nPreemptions
  }

  lemma {:induction false} ForEachNotBelow(e: Engine, ids: seq<int>, f: Sequence -> Sequence, x: int)
    requires Accounted(e) && Improves(f, e.now)
    requires forall y :: y in ids ==> y in e.seqs
    requires forall s :: RecordOk(s, e.now) ==> NotBelow(s, f(s))
    requires x in e.seqs
    ensures NotBelow(e.Get(x), ForEach(e, ids, f).Get(x))
    ensures x in ids && (forall s :: RecordOk(s, e.now) && !s.Done() ==> f(s).generated > s.generated)
            && !e.Get(x).Done()
            ==> ForEach(e, ids, f).Get(x).generated > e.Get(x).generated
    decreases |ids|
  {
    hide RecordOk, Members, Accounted;
    if ids != [] {
      var e1 := e.Put(ids[0], f(e.Get(ids[0])));
      KnownRecord(e, ids[0]);
      PutAccounted(e, e1, ids[0]);
      ForEachNotBelow(e1, ids[1..], f, x);
    }
  }

  lemma {:induction false} ForChunksNotBelow(e: Engine, chunks: seq<Chunk>, f: (Sequence, nat) -> Sequence, x: int)
    requires Accounted(e) && ImprovesChunks(f, e.now)
    requires forall i :: 0 <= i < |chunks| ==> chunks[i].id in e.seqs
    requires forall s, n :: RecordOk(s, e.now) ==> NotBelow(s, f(s, n))
    requires x in e.seqs
    ensures NotBelow(e.Get(x), ForChunks(e, chunks, f).Get(x))
    decreases |chunks|
  {
    hide RecordOk, Members, Accounted;
    if chunks != [] {
      var c := chunks[0];
      var e1 := e.Put(c.id, f(e.Get(c.id), c.tokens));
      KnownRecord(e, c.id);
      PutAccounted(e, e1, c.id);
      ForChunksNotBelow(e1, chunks[1..], f, x);
    }
  }

  lemma {:induction false} AddPrefillsNotBelow(e: Engine, chunks: seq<Chunk>, x: int)
    ensures var s, s' := e.Get(x), ForChunks(e, chunks, AddPrefill).Get(x);
      NotBelow(s, s') && s'.generated == s.generated && s'.req == s.req
    decreases |chunks|
  {
    if chunks != [] {
      AddPrefillsNotBelow(e.Put(chunks[0].id, AddPrefill(e.Get(chunks[0].id), chunks[0].tokens)), chunks[1..], x);
    }
  }

  lemma {:induction false} CountSpecsNotBelow(e: Engine, ids: seq<int>, k: nat, accepted: nat, x: int)
    ensures var s, s' := e.Get(x), ForEach(e, ids, CountingSpec(k, accepted)).Get(x);
      NotBelow(s, s') && s'.generated == s.generated && s'.req == s.req
    decreases |ids|
  {
    if ids != [] {
      CountSpecsNotBelow(e.Put(ids[0], CountSpec(e.Get(ids[0]), k, accepted)), ids[1..], k, accepted, x);
    }
  }

  lemma {:induction false} FinishNotBelow(e: Engine, ids: seq<int>, x: int)
    ensures NotBelow(e.Get(x), FinishDone(e, ids).Get(x))
    decreases |ids|
  {
    hide Free;
    if ids != [] {
      FinishNotBelow(if e.Get(ids[0]).Done() then FinishOne(e, ids[0]) else e, ids[1..], x);
    }
  }

  lemma EmittingGrows(tokens: nat, now: real)
    requires tokens >= 1 && now >= 0.0
    ensures forall s :: RecordOk(s, now) ==> NotBelow(s, Emitting(tokens, now)(s))
    ensures forall s :: RecordOk(s, now) && !s.Done() ==> Emitting(tokens, now)(s).generated > s.generated
    ensures forall s, n :: RecordOk(s, now) ==> NotBelow(s, EmittingFirst(now)(s, n))
  {
    forall s | RecordOk(s, now)
      ensures NotBelow(s, Emitting(tokens, now)(s))
      ensures !s.Done() ==> Emitting(tokens, now)(s).generated > s.generated
    {
      EmittedOk(s, tokens, now);
      hide RecordOk;
    }
    forall s, n: nat | RecordOk(s, now) ensures NotBelow(s, EmittingFirst(now)(s, n)) {
      assert s.firstToken < 0.0 ==> s.generated == 0;
    }
  }

  /** Every surviving decode that still owes tokens gets at least one. */
  lemma ApplyWorkEmits(e: Engine, prefills: seq<Chunk>, decodes: seq<int>, input: StepInput, x: int)
    requires Accounted(e) && input.duration >= 0.0
    requires ChunksFit(e, prefills) && DistinctChunks(prefills)
    requires forall y :: y in decodes ==> y in e.seqs
    requires x in e.seqs
    ensures var s, s' := e.Get(x), ApplyWork(e, prefills, decodes, input).Get(x);
      NotBelow(s, s') && (x in decodes && !s.Done() ==> s'.generated > s.generated)
  {
    hide Accounted, Members, RecordOk, Credited, ChunksFit, DistinctChunks;
    ClockedOk(e, prefills, decodes, input);
    if Speculates(e.cfg, prefills, decodes) {
      CountSpecsNotBelow(e, decodes, e.cfg.draftTokens, input.accepted, x);
    }
    hide ForEach;
    var e2 := Clocked(e, prefills, decodes, input);
    CreditedEmits(e2, prefills, decodes, TokensPerDecode(e.cfg, prefills, decodes, input.accepted), x);
  }

  lemma CreditedEmits(e: Engine, prefills: seq<Chunk>, decodes: seq<int>, tokens: nat, x: int)
    requires Accounted(e) && ChunksFit(e, prefills) && DistinctChunks(prefills)
    requires forall y :: y in decodes ==> y in e.seqs
    requires x in e.seqs && tokens >= 1
    ensures var s, s' := e.Get(x), Credited(e, prefills, decodes, tokens).Get(x);
      NotBelow(s, s') && (x in decodes && !s.Done() ==> s'.generated > s.generated)
  {
    hide Accounted, Members, RecordOk, FinishDone, ForEach, ForChunks, Emitted, FirstEmitted, AddPrefill;
    ClockNonNegative(e);
    EmittingImproves(tokens, e.now);
    EmittingGrows(tokens, e.now);
    AddPrefillsOk(e, prefills);
    AddPrefillsNotBelow(e, prefills, x);
    var e3 := ForChunks(e, prefills, AddPrefill);
    ForEachOk(e3, decodes, Emitting(tokens, e.now));
    ForEachNotBelow(e3, decodes, Emitting(tokens, e.now), x);
    var e4 := ForEach(e3, decodes, Emitting(tokens, e.now));
    ForChunksOk(e4, prefills, EmittingFirst(e.now));
    ForChunksNotBelow(e4, prefills, EmittingFirst(e.now), x);
    var e5 := ForChunks(e4, prefills, EmittingFirst(e.now));
    FinishNotBelow(e5, e5.running, x);
  }

  // ---- the theorem

  lemma ScheduleKeeps(e: Engine, x: int)
    requires Accounted(e) && e.cfg.chunked && x in e.running && e.Get(x).PrefillDone()
    ensures var w := Schedule(e);
      w.Work? && w.engine.Get(x) == e.Get(x) && x in w.decodes
  {
    hide Accounted, Members, FilterDone, PartialChunks, AdmitChunked, SortByPriority, ChunksFit;
    SortWaitingAccounted(e);
    var e1 := SortWaiting(e);
    FilterDoneIs(e1, e.running, true);
    var budget := e.cfg.maxBatchedTokens - |FilterDone(e1, e.running, true)|;
    FirstChunksOk(e1, budget);
    var first := PartialChunks(e1, FilterDone(e1, e.running, false), budget);
    AdmitChunkedKeeps(e1, first, budget - TotalTokens(first), x);
  }

  /** DECODE NEVER STARVES. Under chunked prefill, a sequence that is running with
      its whole prompt in place and still owes tokens has emitted at least one more
      when the step ends, or has been preempted in it. */
  lemma DecodeNeverStarves(e: Engine, input: StepInput, x: int)
    requires Accounted(e) && e.cfg.chunked && input.duration >= 0.0
    requires x in e.running && e.Get(x).PrefillDone() && !e.Get(x).Done()
    ensures var r := Step(e, input);
      !r.Crashed? ==>
        && !r.Idle?
        && (r.engine.Get(x).nPreemptions > e.Get(x).nPreemptions
            || (r.Worked? && x in r.decodes && r.engine.Get(x).generated > e.Get(x).generated))
  {
    hide Accounted, Members, Wake, StepWork, RecordOk;
    WakeKeeps(e, x);
    WakeAccounted(e);
    StepWorkEmits(Wake(e), input, x);
  }

  lemma WakeKeeps(e: Engine, x: int)
    requires Accounted(e) && x in e.running
    ensures var e1 := Wake(e); e1.Get(x) == e.Get(x) && e1.running == e.running && InFlight(e1)
  {
    RunningKnown(e);
    hide Accounted, AdmitArrivals;
    ArrivalsKeep(e, x);
  }

  lemma StepWorkEmits(e: Engine, input: StepInput, x: int)
    requires Accounted(e) && e.cfg.chunked && input.duration >= 0.0
    requires x in e.running && e.Get(x).PrefillDone() && !e.Get(x).Done()
    ensures var r := StepWork(e, input);
      !r.Crashed? ==>
        && !r.Idle?
        && (r.engine.Get(x).nPreemptions > e.Get(x).nPreemptions
            || (r.Worked? && x in r.decodes && r.engine.Get(x).generated > e.Get(x).generated))
  {
    hide Accounted, Members, Schedule, GrowAll, ApplyWork, PrefillsOk, ChunksFit, DistinctChunks, Shrunk;
    ScheduleOk(e);
    ScheduleKeeps(e, x);
    var w := Schedule(e);
    RunningUnfinished(w.engine, w.decodes);
    GrowAllOk(w.engine, w.decodes, [], w.decodes);
    GrowAllKeeps(w.engine, w.decodes, [], x, e.Get(x));
    var g := GrowAll(w.engine, w.decodes, []);
    if g.Growth? {
      PrefillsDistinctIn(w.engine, w.prefills);
      FitsAfterGrowth(w.engine, g.engine, w.prefills);
      if !(w.prefills == [] && g.survivors == []) {
        ApplyWorkEmits(g.engine, w.prefills, g.survivors, input, x);
      }
    }
  }
}
