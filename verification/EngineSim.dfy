/** The engine as the object it is: lists, records and clock updated in place by
    the scheduler's loops, and proved to follow EngineSpec. */
module EngineSimModule {
  import opened Lists
  import opened PagedSpec
  import opened PagedInvariant
  import opened PagedKVCacheModule
  import opened EngineSpec
  import opened EngineAccounting
  import opened EngineMoves
  import opened EngineSteps
  import opened EngineRuns
  import opened EngineMemory
  import opened EngineChunked
  import opened EngineHealthySteps

  /** The pool's counters determine the references it has handed out. */
  lemma RefsUnique(p: Pool, a: multiset<nat>, b: multiset<nat>)
    requires Inv(p, a) && Inv(p, b)
    ensures a == b
  {
    assert RefsOk(p, a) && RefsOk(p, b);
    hide Inv;
    forall x: nat ensures a[x] == b[x] {
      assert x in a || x in b ==> x < |p.blocks|;
    }
  }

  datatype Outcome = WentIdle | WentStalled | DidWork(prefills: seq<Chunk>, decodes: seq<int>) | DidCrash

  class EngineSim {
    const cfg: Config
    const kv: PagedKVCache
    var now: real
    var stepNo: nat
    var seqs: map<int, Sequence>
    var pending: seq<Request>
    var waiting: seq<int>
    var running: seq<int>
    var swapped: seq<int>
    var finished: seq<int>
    var totalPreemptions: nat
    /** Model only: the references of dropped and overwritten tables. */
    var lost: multiset<nat>

    function State(): Engine
      reads this, kv
    {
      Engine(cfg, kv.State(), now, stepNo, seqs, pending, waiting, running, swapped, finished, totalPreemptions, lost)
    }

    ghost predicate Valid()
      reads this, kv
    {
      kv.Valid() && Accounted(State()) && MemoryOk(State())
    }

    constructor (cfg: Config, numBlocks: nat, blockSize: pos, caching: bool, watermarkFraction: real)
      ensures State() == InitEngine(cfg, InitPool(numBlocks, blockSize, caching, watermarkFraction))
      ensures Valid() && fresh(kv)
    {
      this.cfg := cfg;
      kv := new PagedKVCache(numBlocks, blockSize, caching, watermarkFraction);
      now, stepNo := 0.0, 0;
      seqs, pending, waiting, running, swapped, finished := map[], [], [], [], [], [];
      totalPreemptions, lost := 0, multiset{};
      new;
      InitAccounted(cfg, kv.State());
      assert Held(State()) == multiset{};
    }

    method SubmitRequests(reqs: seq<Request>)
      requires Valid()
      requires forall i :: 0 <= i < |reqs| ==> RequestOk(reqs[i])
      requires AtMostOnce(Members(State()) + multiset(Ids(reqs)))
      modifies this
      ensures State() == Submit(old(State()), reqs)
      ensures Valid()
    {
      hide Accounted, MemoryOk, AtMostOnce, Members, Ids, RequestOk, InsertPending;
      ghost var start := State();
      SubmitAccounted(start, reqs);
      SubmitMemory(start, reqs);
      assert reqs[0..] == reqs;
      for i := 0 to |reqs|
        invariant Submit(State(), reqs[i..]) == Submit(start, reqs)
        invariant kv.Valid()
      {
        assert reqs[i..][1..] == reqs[i + 1..];
        pending := InsertPending(pending, reqs[i]);
      }
    }

    /** Requests whose time has come join the waiting list. */
    method TakeArrivals()
      requires Valid()
      modifies this
      ensures State() == AdmitArrivals(old(State()))
      ensures Valid()
    {
      hide Accounted, MemoryOk, PagedKVCache.Valid;
      ghost var start := State();
      AdmitArrivalsAccounted(start);
      AdmitArrivalsMemory(start);
      while pending != [] && pending[0].arrival <= now
        invariant AdmitArrivals(State()) == AdmitArrivals(start)
        invariant kv.Valid()
        decreases |pending|
      {
        var r := WithTokens(pending[0]);
        seqs := seqs[r.id := NewSequence(r)];
        pending := pending[1..];
        waiting := waiting + [r.id];
      }
    }

    /** The prompt blocks of a waiting sequence; false if memory is short. */
    method AllocateSeq(id: int) returns (ok: bool)
      requires Valid() && id in waiting
      modifies this, kv
      ensures Admission(State(), ok) == Allocate(old(State()), id)
      ensures Valid()
    {
      hide Accounted, MemoryOk, PagedKVCache.Valid, AllocatePrompt, Members;
      WaitingKnown(State(), id);
      AllocateKeepsAll(State(), id);
      var s := seqs[id];
      var can := kv.CanAllocate(CeilDiv(s.req.promptTokens, kv.blockSize));
      if !can { return false; }
      var table, cached, fits := kv.PromptTable(s.req.tokenIds);
      if !fits {
        lost := lost + multiset(table);
        return false;
      }
      lost := lost + multiset(s.table);
      seqs := seqs[id := s.(table := table, cached := cached, prefilled := cached)];
      return true;
    }

    /** Evicts a running sequence. */
    method PreemptSeq(v: int)
      requires Valid() && v in running
      modifies this, kv
      ensures State() == Preempt(old(State()), v)
      ensures Valid()
    {
      hide Accounted, MemoryOk, PagedKVCache.Valid, Free, Held, Members;
      PreemptKeepsAll(State(), v);
      SameRefs();
      var s := seqs[v];
      totalPreemptions := totalPreemptions + 1;
      s := s.(nPreemptions := s.nPreemptions + 1);
      kv.FreeTable(s.table);
      if cfg.swap {
        seqs := seqs[v := s.(table := [], status := Swapped)];
        swapped := swapped + [v];
      } else {
        seqs := seqs[v := Restarted(s)];
        waiting := [v] + waiting;
      }
      running := Remove(running, v);
    }

    /** The head of the waiting list starts running. */
    method StartHeadSeq()
      requires Valid() && waiting != [] && |running| < cfg.maxNumSeqs
      modifies this
      ensures State() == StartHead(old(State()))
      ensures Valid()
    {
      hide Accounted, MemoryOk, PagedKVCache.Valid, Members;
      WaitingKnown(State(), waiting[0]) by { assert waiting[0] in waiting; }
      StartHeadAccounted(State());
      StartHeadMemory(State());
      var id := waiting[0];
      waiting := waiting[1..];
      seqs := seqs[id := seqs[id].(status := Running)];
      running := running + [id];
    }

    /** Chunks for the sequences still in prefill, while the budget lasts. */
    method ChoosePartials(partial: seq<int>, budget: int) returns (prefills: seq<Chunk>, left: int)
      requires forall x :: x in partial ==> x in seqs
      ensures prefills == PartialChunks(State(), partial, budget) && left == budget - TotalTokens(prefills)
    {
      hide ChunkSize, PartialChunks, TotalTokens;
      ghost var e := State();
      prefills, left := [], budget;
      assert partial[0..] == partial;
      NothingYet(e, partial, budget);
      for i := 0 to |partial|
        invariant prefills + PartialChunks(e, partial[i..], left) == PartialChunks(e, partial, budget)
        invariant left == budget - TotalTokens(prefills)
      {
        var id := partial[i];
        assert id in partial;
        PartialStep(e, partial, i, left, prefills);
        if left <= 0 { return; }
        var chunk := ChunkSize(cfg, Remaining(seqs[id]), left);
        if chunk > 0 {
          prefills := prefills + [Chunk(id, chunk)];
          left := left - chunk;
        }
      }
      PartialEnd(e, partial, left, prefills);
    }

    /** Admission under chunked prefill. */
    method AdmitForChunks(first: seq<Chunk>, budget: int) returns (prefills: seq<Chunk>)
      requires Valid() && PrefillsOk(State(), first)
      modifies this, kv
      ensures (State(), prefills) == AdmitChunked(old(State()), first, budget)
      ensures Valid() && PrefillsOk(State(), prefills)
    {
      hide Accounted, MemoryOk, PagedKVCache.Valid, Members, PrefillsOk, Allocate, StartHead;
      ghost var start := State();
      prefills := first;
      var left := budget;
      while waiting != [] && left > 0 && |running| + |prefills| < cfg.maxNumSeqs
        invariant Valid() && PrefillsOk(State(), prefills)
        invariant AdmitChunked(State(), prefills, left) == AdmitChunked(start, first, budget)
        decreases |waiting|
      {
        ghost var before := State();
        AdmitStepOk(before, prefills);
        var id := waiting[0];
        var ok := AllocateSeq(id);
        if !ok { return; }
        StartHeadSeq();
        StartedLists(before, State());
        var remaining := Remaining(seqs[id]);
        if remaining > 0 {
          var chunk := ChunkSize(cfg, remaining, left);
          AddChunk(State(), prefills, id, chunk, before.running);
          prefills := prefills + [Chunk(id, chunk)];
          left := left - chunk;
        }
      }
    }

    /** Admission of whole prompts under prefill priority. */
    method AdmitPrompts() returns (prefills: seq<Chunk>)
      requires Valid()
      modifies this, kv
      ensures (State(), prefills) == AdmitWhole(old(State()), [], cfg.maxBatchedTokens, false)
      ensures Valid() && PrefillsOk(State(), prefills)
    {
      hide Accounted, MemoryOk, PagedKVCache.Valid, Members, PrefillsOk, Allocate, StartHead;
      ghost var start := State();
      prefills := [];
      NoPrefills(State());
      var left, admitted := cfg.maxBatchedTokens, false;
      while waiting != [] && |running| < cfg.maxNumSeqs && left > 0
        invariant Valid() && PrefillsOk(State(), prefills)
        invariant AdmitWhole(State(), prefills, left, admitted) == AdmitWhole(start, [], cfg.maxBatchedTokens, false)
        decreases |waiting|
      {
        ghost var before := State();
        AdmitStepOk(before, prefills);
        var id := waiting[0];
        assert id in waiting;
        WaitingKnown(State(), id);
        if seqs[id].req.promptTokens - seqs[id].cached > left && admitted { return; }
        var ok := AllocateSeq(id);
        if !ok { return; }
        StartHeadSeq();
        StartedLists(before, State());
        var chunk := Remaining(seqs[id]);
        if chunk > 0 {
          AddChunk(State(), prefills, id, chunk, before.running);
          prefills := prefills + [Chunk(id, chunk)];
          left := left - chunk;
        }
        admitted := true;
      }
    }

    /** Swapped sequences come back while there is room; false when OutOfBlocks
        escapes. */
    method RestoreSwappedSeqs() returns (ok: bool)
      requires Valid()
      modifies this, kv
      ensures match RestoreSwapped(old(State()))
        case None => !ok
        case Some(e) => ok && State() == e && Valid()
    {
      hide Accounted, MemoryOk, PagedKVCache.Valid, Members, AllocatePrompt;
      ghost var start := State();
      while swapped != [] && |running| < cfg.maxNumSeqs
        invariant Valid() && RestoreSwapped(State()) == RestoreSwapped(start)
        decreases |swapped|
      {
        var id := swapped[0];
        assert id in swapped;
        SwappedKnown(State(), id);
        var can := kv.CanAllocate(CeilDiv(seqs[id].TotalLen(), kv.blockSize));
        if !can { return true; }
        ok := RestoreSeq();
        if !ok { return; }
      }
      return true;
    }

    /** The first swapped sequence back in the batch. */
    method RestoreSeq() returns (ok: bool)
      requires Valid() && swapped != [] && |running| < cfg.maxNumSeqs
      modifies this, kv
      ensures var r := AllocatePrompt(old(State()).kv, RestoreTokens(old(State()).Get(old(swapped)[0])));
        && ok == r.ok
        && (ok ==> State() == Restored(old(State()), r) && Valid())
    {
      hide Accounted, MemoryOk, PagedKVCache.Valid, Members, AllocatePrompt, RestoreTokens;
      ghost var before := State();
      var id := swapped[0];
      assert id in swapped;
      SwappedKnown(State(), id);
      var s := seqs[id];
      var table, cached, fits := kv.PromptTable(RestoreTokens(s));
      if !fits { return false; }
      RestoredAccounted(before, Allocation(kv.State(), table, cached, true));
      RestoredMemory(before, Allocation(kv.State(), table, cached, true));
      swapped := swapped[1..];
      seqs := seqs[id := s.(table := table, status := Running)];
      lost := lost + multiset(s.table);
      running := running + [id];
      return true;
    }

    /** Chooses the step's work; false when an exception escapes. */
    method ScheduleStep() returns (ok: bool, prefills: seq<Chunk>, decodes: seq<int>)
      requires Valid()
      modifies this, kv
      ensures match Schedule(old(State()))
        case WorkFailed => !ok
        case Work(e, p, d) => ok && State() == e && prefills == p && decodes == d && Valid()
    {
      hide Accounted, MemoryOk, PagedKVCache.Valid, Members, PrefillsOk, AdmitChunked, AdmitWhole, RestoreSwapped,
           PartialChunks, FilterDone, SortByPriority;
      SortWaitingAccounted(State());
      SortMemory(State());
      if cfg.byPriority {
        waiting := SortByPriority(State(), waiting);
      }
      prefills, decodes := [], [];
      if cfg.chunked {
        decodes := FilterDone(State(), running, true);
        var partial := FilterDone(State(), running, false);
        FilterDoneIs(State(), running, false);
        RunningKnown(State());
        var budget := cfg.maxBatchedTokens - |decodes|;
        FirstChunksOk(State(), budget);
        var first, left := ChoosePartials(partial, budget);
        prefills := AdmitForChunks(first, left);
        return true, prefills, decodes;
      }
      prefills := AdmitPrompts();
      if prefills != [] { return true, prefills, []; }
      ok := RestoreSwappedSeqs();
      if ok { decodes := FilterDone(State(), running, true); }
    }

    // ---- growing

    /** The newest running sequence other than `id`. */
    method FindVictim(id: int) returns (victim: Option<int>)
      ensures victim == Victim(running, id)
    {
      var i := |running|;
      assert running[..i] == running;
      while i > 0
        invariant 0 <= i <= |running| && Victim(running[..i], id) == Victim(running, id)
      {
        assert running[..i][..i - 1] == running[..i - 1];
        if running[i - 1] != id { return Some(running[i - 1]); }
        i := i - 1;
      }
      return None;
    }

    /** One token of KV for sequence `id`, preempting others as long as the pool
        is empty; false when an exception escapes. */
    method GrowSeq(id: int, before: seq<int>, ghost ids: seq<int>) returns (ok: bool, survivors: seq<int>)
      requires Valid() && Unfinished(State(), ids) && id in ids
      modifies this, kv
      ensures match GrowOne(old(State()), id, before)
        case GrowFailed => !ok
        case Growth(e, kept) => ok && State() == e && survivors == kept && Valid() && Unfinished(State(), ids)
    {
      hide Accounted, MemoryOk, PagedKVCache.Valid, Members, AppendToken, Preempt, Held;
      ghost var start := State();
      survivors := before;
      while true
        invariant Valid() && Unfinished(State(), ids)
        invariant GrowOne(State(), id, survivors) == GrowOne(start, id, before)
        decreases |running|
      {
        ghost var now' := State();
        var s := seqs[id];
        HeldTable(now', id);
        SameRefs();
        GrownMemory(now', id);
        var outcome := kv.GrowTable(s.table, s.TotalLen());
        match outcome {
          case Done(table, _) =>
            TableGrownOk(now', id, table, kv.State());
            seqs := seqs[id := s.(table := table)];
            survivors := survivors + [id];
            return true, survivors;
          case NoTail => return false, survivors;
          case NoBlocks =>
            KvAccounted(now', kv.State());
            var victim := FindVictim(id);
            if victim.None? {
              if id !in running { return false, survivors; }
              PreemptUnfinished(State(), id, ids);
              PreemptSeq(id);
              return true, survivors;
            }
            PreemptUnfinished(State(), victim.value, ids);
            PreemptAccounted(State(), victim.value);
            PreemptSeq(victim.value);
            survivors := Remove(survivors, victim.value);
        }
      }
    }

    method GrowOrPreempt(decodes: seq<int>) returns (ok: bool, survivors: seq<int>)
      requires Valid() && Unfinished(State(), decodes)
      modifies this, kv
      ensures match GrowAll(old(State()), decodes, [])
        case GrowFailed => !ok
        case Growth(e, kept) => ok && State() == e && survivors == kept && Valid()
    {
      hide Accounted, MemoryOk, PagedKVCache.Valid, Members, GrowOne, Unfinished;
      ghost var start := State();
      survivors := [];
      assert decodes[0..] == decodes;
      for i := 0 to |decodes|
        invariant Valid() && Unfinished(State(), decodes)
        invariant GrowAll(State(), decodes[i..], survivors) == GrowAll(start, decodes, [])
      {
        assert decodes[i..][1..] == decodes[i + 1..];
        assert decodes[i] in decodes;
        ok, survivors := GrowSeq(decodes[i], survivors, decodes);
        if !ok { return; }
      }
      ok := true;
    }

    // ---- applying the work

    method CountDrafts(decodes: seq<int>, accepted: nat)
      requires forall x :: x in decodes ==> x in seqs
      modifies this
      ensures State() == ForEach(old(State()), decodes, CountingSpec(cfg.draftTokens, accepted))
      ensures now == old(now) && seqs.Keys == old(seqs).Keys
    {
      ghost var start := State();
      ghost var f := CountingSpec(cfg.draftTokens, accepted);
      assert decodes[0..] == decodes;
      for i := 0 to |decodes|
        invariant seqs.Keys == old(seqs).Keys && now == old(now)
        invariant ForEach(State(), decodes[i..], f) == ForEach(start, decodes, f)
      {
        assert decodes[i..][1..] == decodes[i + 1..];
        var id := decodes[i];
        assert id in decodes;
        seqs := seqs[id := CountSpec(seqs[id], cfg.draftTokens, accepted)];
      }
    }

    method CreditPrefills(prefills: seq<Chunk>)
      requires forall i :: 0 <= i < |prefills| ==> prefills[i].id in seqs
      modifies this
      ensures State() == ForChunks(old(State()), prefills, AddPrefill)
      ensures now == old(now) && seqs.Keys == old(seqs).Keys
    {
      ghost var start := State();
      assert prefills[0..] == prefills;
      for i := 0 to |prefills|
        invariant seqs.Keys == old(seqs).Keys && now == old(now)
        invariant ForChunks(State(), prefills[i..], AddPrefill) == ForChunks(start, prefills, AddPrefill)
      {
        assert prefills[i..][1..] == prefills[i + 1..];
        var c := prefills[i];
        seqs := seqs[c.id := AddPrefill(seqs[c.id], c.tokens)];
      }
    }

    method EmitTokens(decodes: seq<int>, tokens: nat)
      requires forall x :: x in decodes ==> x in seqs
      modifies this
      ensures State() == ForEach(old(State()), decodes, Emitting(tokens, now))
      ensures now == old(now) && seqs.Keys == old(seqs).Keys
    {
      ghost var start := State();
      ghost var f := Emitting(tokens, now);
      assert decodes[0..] == decodes;
      for i := 0 to |decodes|
        invariant seqs.Keys == old(seqs).Keys && now == old(now)
        invariant ForEach(State(), decodes[i..], f) == ForEach(start, decodes, f)
      {
        assert decodes[i..][1..] == decodes[i + 1..];
        var id := decodes[i];
        assert id in decodes;
        seqs := seqs[id := Emitted(seqs[id], tokens, now)];
      }
    }

    method EmitFirstTokens(prefills: seq<Chunk>)
      requires forall i :: 0 <= i < |prefills| ==> prefills[i].id in seqs
      modifies this
      ensures State() == ForChunks(old(State()), prefills, EmittingFirst(now))
      ensures now == old(now) && seqs.Keys == old(seqs).Keys
    {
      ghost var start := State();
      ghost var f := EmittingFirst(now);
      assert prefills[0..] == prefills;
      for i := 0 to |prefills|
        invariant seqs.Keys == old(seqs).Keys && now == old(now)
        invariant ForChunks(State(), prefills[i..], f) == ForChunks(start, prefills, f)
      {
        assert prefills[i..][1..] == prefills[i + 1..];
        var c := prefills[i];
        seqs := seqs[c.id := FirstEmitted(seqs[c.id], now)];
      }
    }

    /** Sequences with all their tokens leave the batch and return their blocks. */
    method FinishSeqs()
      requires Valid()
      modifies this, kv
      ensures State() == FinishDone(old(State()), old(running))
      ensures Valid()
    {
      hide Accounted, MemoryOk, PagedKVCache.Valid, Members, FinishOne, Held, Free;
      ghost var start := State();
      var batch := running;
      assert batch[0..] == batch;
      for i := 0 to |batch|
        invariant Valid() && multiset(batch[i..]) <= multiset(running)
        invariant FinishDone(State(), batch[i..]) == FinishDone(start, batch)
      {
        var id := batch[i];
        BatchStep(batch, i, running);
        RunningKnown(State());
        if seqs[id].Done() {
          FinishOneAccounted(State(), id);
          FinishOneMemory(State(), id);
          FinishHeld(State(), id);
          SameRefs();
          FinishSeq(id);
        }
      }
    }

    method FinishSeq(id: int)
      requires Valid() && id in running && id in seqs && multiset(seqs[id].table) <= kv.refs
      modifies this, kv
      ensures State() == FinishOne(old(State()), id) && kv.Valid()
    {
      hide Accounted, MemoryOk, PagedKVCache.Valid, Members, Held, Free;
      var s := seqs[id];
      kv.FreeTable(s.table);
      seqs := seqs[id := s.(finish := now, status := Finished, table := [])];
      running := Remove(running, id);
      finished := finished + [id];
    }

    /** Applies the step's work and the clock. */
    method ApplyStep(prefills: seq<Chunk>, decodes: seq<int>, input: StepInput)
      requires Valid() && input.duration >= 0.0
      requires ChunksFit(State(), prefills) && DistinctChunks(prefills)
      requires forall x :: x in decodes ==> x in seqs
      modifies this, kv
      ensures State() == ApplyWork(old(State()), prefills, decodes, input)
      ensures Valid()
    {
      hide Accounted, MemoryOk, PagedKVCache.Valid, Members, ForEach, ForChunks, FinishDone, ChunksFit, DistinctChunks;
      ghost var start := State();
      ClockedOk(start, prefills, decodes, input);
      ClockedMemory(start, prefills, decodes, input);
      var tokens := 1;
      if cfg.draftTokens > 0 && decodes != [] && prefills == [] {
        tokens := input.accepted + 1;
        CountDrafts(decodes, input.accepted);
      }
      now := now + input.duration;
      stepNo := stepNo + 1;
      assert State() == Clocked(start, prefills, decodes, input);
      CreditWork(prefills, decodes, tokens);
    }

    method CreditWork(prefills: seq<Chunk>, decodes: seq<int>, tokens: nat)
      requires Valid() && ChunksFit(State(), prefills) && DistinctChunks(prefills)
      requires forall x :: x in decodes ==> x in seqs
      modifies this, kv
      ensures State() == Credited(old(State()), prefills, decodes, tokens)
      ensures Valid()
    {
      hide Accounted, MemoryOk, PagedKVCache.Valid, Members, ForEach, ForChunks, FinishDone, DistinctChunks;
      ghost var e := State();
      TokenedOk(e, prefills, decodes, tokens);
      TokenedMemory(e, prefills, decodes, tokens);
      ForChunksKeys(e, prefills, AddPrefill);
      ForEachKeys(ForChunks(e, prefills, AddPrefill), decodes, Emitting(tokens, now));
      CreditPrefills(prefills);
      EmitTokens(decodes, tokens);
      EmitFirstTokens(prefills);
      assert State() == Tokened(e, prefills, decodes, tokens);
      FinishSeqs();
    }

    /** Arrivals are admitted, and an idle engine jumps to the next one. */
    method WakeUp()
      requires Valid()
      modifies this
      ensures State() == Wake(old(State()))
      ensures Valid()
    {
      hide Accounted, MemoryOk, PagedKVCache.Valid, Members, AdmitArrivals;
      AdmitArrivalsAccounted(State());
      TakeArrivals();
      if running == [] && waiting == [] && swapped == [] && pending != [] {
        ClockAccounted(State(), pending[0].arrival, stepNo);
        ClockMemory(State(), pending[0].arrival, stepNo);
        now := pending[0].arrival;
        TakeArrivals();
      }
    }

    method StepOnce(input: StepInput) returns (r: Outcome)
      requires Valid() && input.duration >= 0.0
      modifies this, kv
      ensures match Step(old(State()), input)
        case Idle(e) => r == WentIdle && State() == e
        case Stalled(e) => r == WentStalled && State() == e
        case Worked(e, p, d) => r == DidWork(p, d) && State() == e
        case Crashed => r == DidCrash
      ensures !r.DidCrash? ==> Valid()
    {
      hide Accounted, MemoryOk, PagedKVCache.Valid, Members, Wake, StepWork;
      WakeUp();
      if running == [] && waiting == [] && swapped == [] && pending == [] { return WentIdle; }
      r := StepBody(input);
    }

    method StepBody(input: StepInput) returns (r: Outcome)
      requires Valid() && input.duration >= 0.0
      modifies this, kv
      ensures match StepWork(old(State()), input)
        case Idle(_) => false
        case Stalled(e) => r == WentStalled && State() == e
        case Worked(e, p, d) => r == DidWork(p, d) && State() == e
        case Crashed => r == DidCrash
      ensures !r.DidCrash? ==> Valid()
    {
      hide Accounted, MemoryOk, PagedKVCache.Valid, Members, Schedule, GrowAll, ApplyWork, PrefillsOk, ChunksFit,
           DistinctChunks, Shrunk;
      ScheduleOk(State());
      var ok, prefills, decodes := ScheduleStep();
      if !ok { return DidCrash; }
      ghost var chosen := State();
      RunningUnfinished(chosen, decodes);
      GrowAllOk(chosen, decodes, [], decodes);
      GrowNothingHere(chosen);
      if decodes != [] {
        ok, decodes := GrowOrPreempt(decodes);
        if !ok { return DidCrash; }
      }
      PrefillsDistinctIn(chosen, prefills);
      FitsAfterGrowth(chosen, State(), prefills);
      if prefills == [] && decodes == [] {
        ClockAccounted(State(), now + TICK, stepNo + 1);
        ClockMemory(State(), now + TICK, stepNo + 1);
        now := now + TICK;
        stepNo := stepNo + 1;
        return WentStalled;
      }
      ApplyStep(prefills, decodes, input);
      return DidWork(prefills, decodes);
    }

    /** Steps until nothing is left or a limit is reached. */
    method RunAll(env: nat -> StepInput, maxSteps: nat, maxMs: real) returns (crashed: bool)
      requires Valid() && forall n :: env(n).duration >= 0.0
      requires stepNo <= maxSteps
      modifies this, kv
      ensures match Run(old(State()), env, maxSteps - old(stepNo), maxMs)
        case None => crashed
        case Some(e) => !crashed && State() == e && Valid()
    {
      hide Accounted, MemoryOk, PagedKVCache.Valid, Members, Step;
      ghost var start := State();
      while stepNo < maxSteps && now < maxMs
        invariant Valid() && stepNo <= maxSteps
        invariant Run(State(), env, maxSteps - stepNo, maxMs) == Run(start, env, maxSteps - start.stepNo, maxMs)
        decreases maxSteps - stepNo
      {
        var input := env(stepNo);
        assert input.duration >= 0.0;
        StepAccounted(State(), input);
        var r := StepOnce(input);
        if r.DidCrash? { return true; }
        if r.WentIdle? { return false; }
      }
      return false;
    }

    /** The pool's references are those of the sequences. */
    lemma SameRefs()
      requires Valid()
      ensures kv.refs == Held(State())
    {
      RefsUnique(kv.State(), kv.refs, Held(State()));
    }
  }

  lemma {:induction false} ForChunksKeys(e: Engine, chunks: seq<Chunk>, f: (Sequence, nat) -> Sequence)
    requires forall i :: 0 <= i < |chunks| ==> chunks[i].id in e.seqs
    ensures ForChunks(e, chunks, f).seqs.Keys == e.seqs.Keys
    decreases |chunks|
  {
    if chunks != [] {
      ForChunksKeys(e.Put(chunks[0].id, f(e.Get(chunks[0].id), chunks[0].tokens)), chunks[1..], f);
    }
  }

  lemma {:induction false} ForEachKeys(e: Engine, ids: seq<int>, f: Sequence -> Sequence)
    requires forall x :: x in ids ==> x in e.seqs
    ensures ForEach(e, ids, f).seqs.Keys == e.seqs.Keys
    decreases |ids|
  {
    if ids != [] {
      var id := ids[0];
      assert id in ids;
      ForEachKeys(e.Put(id, f(e.Get(id))), ids[1..], f);
    }
  }

  lemma GrowNothingHere(e: Engine)
    ensures GrowAll(e, [], []) == Growth(e, [])
  {
  }

  lemma NothingYet(e: Engine, partial: seq<int>, budget: int)
    ensures [] + PartialChunks(e, partial, budget) == PartialChunks(e, partial, budget)
    ensures TotalTokens([]) == 0
  {
  }

  /** One turn of the loop over the sequences in prefill. */
  lemma PartialStep(e: Engine, partial: seq<int>, i: nat, left: int, prefills: seq<Chunk>)
    requires i < |partial|
    ensures left <= 0 ==> prefills + PartialChunks(e, partial[i..], left) == prefills
    ensures left > 0 ==>
      var chunk := ChunkSize(e.cfg, Remaining(e.Get(partial[i])), left);
      var more := if chunk > 0 then prefills + [Chunk(partial[i], chunk)] else prefills;
      && prefills + PartialChunks(e, partial[i..], left) == more + PartialChunks(e, partial[i + 1..], left - chunk)
      && TotalTokens(more) == TotalTokens(prefills) + chunk
  {
    assert partial[i..][1..] == partial[i + 1..];
    if left > 0 {
      var chunk := ChunkSize(e.cfg, Remaining(e.Get(partial[i])), left);
      TotalAppend(prefills, Chunk(partial[i], chunk));
    }
  }

  lemma PartialEnd(e: Engine, partial: seq<int>, left: int, prefills: seq<Chunk>)
    ensures prefills + PartialChunks(e, partial[|partial|..], left) == prefills
  {
  }

  lemma BatchStep(batch: seq<int>, i: nat, running: seq<int>)
    requires i < |batch| && multiset(batch[i..]) <= multiset(running)
    ensures batch[i] in running && batch[i..][0] == batch[i] && batch[i..][1..] == batch[i + 1..]
    ensures multiset(batch[i + 1..]) <= multiset(running) - multiset{batch[i]}
    ensures multiset(batch[i + 1..]) <= multiset(running)
  {
    assert batch[i..] == [batch[i]] + batch[i + 1..];
    assert multiset(batch[i..]) == multiset{batch[i]} + multiset(batch[i + 1..]);
    assert multiset(running)[batch[i]] >= 1;
  }

  /** What starting the head did to the lists. */
  lemma StartedLists(e: Engine, e1: Engine)
    requires e.waiting != []
    requires var a := Allocate(e, e.waiting[0]); e1 == StartHead(a.engine) && SameLists(e, a.engine)
    ensures |e1.waiting| < |e.waiting| && e1.running == e.running + [e.waiting[0]]
  {
    hide Allocate;
  }

  lemma SwappedKnown(e: Engine, id: int)
    requires Accounted(e) && id in e.swapped
    ensures id in e.seqs && e.seqs[id].status != Finished
  {
    assert OnSomeList(e, id);
  }

  lemma HeldTable(e: Engine, id: int)
    requires Accounted(e) && id in e.seqs && e.seqs[id].status != Finished
    ensures multiset(e.Get(id).table) <= Held(e)
  {
    UnfinishedIsLive(e, id);
    RefsExchanged(e, e, Live(e), id);
  }

  lemma AllocateKeepsAll(e: Engine, id: int)
    requires Accounted(e) && MemoryOk(e) && id in e.waiting
    ensures Accounted(Allocate(e, id).engine) && MemoryOk(Allocate(e, id).engine)
  {
    WaitingKnown(e, id);
    AllocateAccounted(e, id);
    AllocateMemory(e, id);
    hide Accounted, MemoryOk, Allocate;
  }

  lemma PreemptKeepsAll(e: Engine, v: int)
    requires Accounted(e) && MemoryOk(e) && v in e.running
    ensures Accounted(Preempt(e, v)) && MemoryOk(Preempt(e, v))
    ensures v in e.seqs && multiset(e.Get(v).table) <= Held(e)
  {
    hide Preempt, Held, MemoryOk;
    RunningKnown(e);
    PreemptAccounted(e, v);
    PreemptMemory(e, v);
    PreemptHeld(e, v);
  }

  lemma WaitingKnown(e: Engine, id: int)
    requires Accounted(e) && id in e.waiting
    ensures id in e.seqs && e.seqs[id].status != Finished
  {
    assert OnSomeList(e, id);
  }
}
