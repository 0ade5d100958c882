/** Which sequences a scheduler starts, and what their tables are filled with. */
module EngineStarts {
  import opened Lists
  import opened PagedSpec
  import opened PagedHits
  import opened EngineSpec
  import opened EngineAccounting
  import opened EngineMoves
  import opened EngineSteps
  import opened EngineRuns
  import opened EngineChunked
  import opened EngineFit
  import opened EngineGrowth

  /** One record through the scheduler: it starts to run with a filled table, or it
      stays as it is. */
  ghost predicate Started(s: Sequence, s': Sequence, size: pos) {
    || s' == s
    || (s.status == Waiting && |s'.table| == CeilDiv(s.req.promptTokens, size) && s'.cached == s'.prefilled
        && s' == s.(status := Running, table := s'.table, cached := s'.cached, prefilled := s'.prefilled))
    || (s.status == Swapped && |s'.table| == CeilDiv(|RestoreTokens(s)|, size)
        && s' == s.(status := Running, table := s'.table))
  }

  ghost predicate AllStarted(e: Engine, e': Engine) {
    e'.kv.blockSize == e.kv.blockSize && forall x :: Started(e.Get(x), e'.Get(x), e.kv.blockSize)
  }

  lemma StartedTrans(a: Engine, b: Engine, c: Engine)
    requires AllStarted(a, b) && AllStarted(b, c)
    ensures AllStarted(a, c)
  {
    forall x ensures Started(a.Get(x), c.Get(x), a.kv.blockSize) {
      assert Started(a.Get(x), b.Get(x), a.kv.blockSize) && Started(b.Get(x), c.Get(x), b.kv.blockSize);
    }
  }

  lemma SameStarted(e: Engine, e': Engine)
    requires e'.kv.blockSize == e.kv.blockSize && forall x :: e'.Get(x) == e.Get(x)
    ensures AllStarted(e, e')
  {
  }

  lemma AddBlockSize(p: Pool, hash: Option<Digest>, nTokens: nat)
    ensures AddBlock(p, hash, nTokens).pool.blockSize == p.blockSize
  {
  }

  lemma PlaceFullSize(p: Pool, h: Digest, matching: bool)
    ensures PlaceFull(p, h, matching).pool.blockSize == p.blockSize
  {
  }

  lemma {:induction false} AllocateFullSize(p: Pool, chunks: seq<seq<Token>>, i: nat, prev: Option<Digest>,
                                            matching: bool, table: seq<nat>, cached: nat)
    requires i <= |chunks|
    ensures AllocateFull(p, chunks, i, prev, matching, table, cached).pool.blockSize == p.blockSize
    decreases |chunks| - i
  {
    hide PlaceFull;
    if i < |chunks| {
      var h := HashBlock(prev, chunks[i]);
      var r := PlaceFull(p, h, matching);
      PlaceFullSize(p, h, matching);
      if r.bid.Some? {
        AllocateFullSize(r.pool, chunks, i + 1, Some(h), r.hit, table + [r.bid.value],
                         if r.hit then cached + p.blockSize else cached);
      }
    }
  }

  lemma AllocateSize(p: Pool, tokens: seq<Token>)
    ensures var r := AllocatePrompt(p, tokens);
      r.pool.blockSize == p.blockSize && (r.ok ==> |r.table| == CeilDiv(|tokens|, p.blockSize))
  {
    hide AllocateFull, AddBlock, CeilDiv;
    var chunks := Chunks(tokens, p.blockSize);
    AllocateFullSize(p, chunks, 0, None, p.caching, [], 0);
    AddBlockSize(AllocateFull(p, chunks, 0, None, p.caching, [], 0).pool, None, |tokens| % p.blockSize);
    PromptShape(p, tokens);
    CeilDivIs(|tokens|, p.blockSize);
  }

  lemma RecordOf(e: Engine, x: int)
    requires Accounted(e) && x in e.seqs
    ensures RecordOk(e.Get(x), e.now)
  {
  }

  lemma AdmittedStarts(e: Engine)
    requires Accounted(e) && e.waiting != []
    ensures
      var a := Allocate(e, e.waiting[0]);
      && (a.ok ==> AllStarted(e, StartHead(a.engine)))
      && (!a.ok ==> AllStarted(e, a.engine))
      && a.engine.waiting == e.waiting
  {
    var id := e.waiting[0];
    WaitingHead(e);
    RecordOf(e, id);
    AllocateSize(e.kv, e.Get(id).req.tokenIds);
    hide AllocatePrompt, Accounted;
  }

  lemma {:induction false} AdmitChunkedStarts(e: Engine, prefills: seq<Chunk>, budget: int)
    requires Accounted(e) && PrefillsOk(e, prefills)
    ensures AllStarted(e, AdmitChunked(e, prefills, budget).0)
    decreases |e.waiting|
  {
    hide Accounted, PrefillsOk, Members, Allocate, StartHead, AllStarted;
    SameStarted(e, e);
    if !(e.waiting == [] || budget <= 0 || |e.running| + |prefills| >= e.cfg.maxNumSeqs) {
      AdmitStepOk(e, prefills);
      AdmittedStarts(e);
      var id := e.waiting[0];
      var a := Allocate(e, id);
      if a.ok {
        var e1 := StartHead(a.engine);
        StartShrinks(a.engine);
        var remaining := Remaining(e1.Get(id));
        if remaining == 0 {
          AdmitChunkedStarts(e1, prefills, budget);
          StartedTrans(e, e1, AdmitChunked(e1, prefills, budget).0);
        } else {
          var chunk := ChunkSize(e.cfg, remaining, budget);
          AddChunk(e1, prefills, id, chunk, e.running);
          var more := prefills + [Chunk(id, chunk)];
          AdmitChunkedStarts(e1, more, budget - chunk);
          StartedTrans(e, e1, AdmitChunked(e1, more, budget - chunk).0);
        }
      }
    }
  }

  lemma StartShrinks(e: Engine)
    requires e.waiting != []
    ensures |StartHead(e).waiting| < |e.waiting|
  {
  }

  lemma {:induction false} AdmitWholeStarts(e: Engine, prefills: seq<Chunk>, budget: int, admitted: bool)
    requires Accounted(e) && PrefillsOk(e, prefills)
    ensures AllStarted(e, AdmitWhole(e, prefills, budget, admitted).0)
    decreases |e.waiting|
  {
    hide Accounted, PrefillsOk, Members, Allocate, StartHead, AllStarted;
    SameStarted(e, e);
    if !(e.waiting == [] || |e.running| >= e.cfg.maxNumSeqs || budget <= 0) {
      var id := e.waiting[0];
      if !(e.Get(id).req.promptTokens - e.Get(id).cached > budget && admitted) {
        AdmitStepOk(e, prefills);
        AdmittedStarts(e);
        var a := Allocate(e, id);
        if a.ok {
          var e1 := StartHead(a.engine);
          StartShrinks(a.engine);
          var chunk := Remaining(e1.Get(id));
          if chunk > 0 {
            AddChunk(e1, prefills, id, chunk, e.running);
            var more := prefills + [Chunk(id, chunk)];
            AdmitWholeStarts(e1, more, budget - chunk, true);
            StartedTrans(e, e1, AdmitWhole(e1, more, budget - chunk, true).0);
          } else {
            AdmitWholeStarts(e1, prefills, budget, true);
            StartedTrans(e, e1, AdmitWhole(e1, prefills, budget, true).0);
          }
        }
      }
    }
  }

  lemma RestoredStarts(e: Engine, r: Allocation)
    requires Accounted(e) && e.swapped != [] && r == AllocatePrompt(e.kv, RestoreTokens(e.Get(e.swapped[0]))) && r.ok
    ensures AllStarted(e, Restored(e, r))
  {
    var id := e.swapped[0];
    assert e.Get(id).status == Swapped;
    AllocateSize(e.kv, RestoreTokens(e.Get(id)));
    hide AllocatePrompt, Accounted, RestoreTokens;
  }

  lemma {:induction false} RestoreStarts(e: Engine)
    requires Accounted(e)
    ensures RestoreSwapped(e).Some? ==> AllStarted(e, RestoreSwapped(e).value)
    decreases |e.swapped|
  {
    hide Accounted, AllocatePrompt, RestoreTokens, AllStarted;
    SameStarted(e, e);
    if e.swapped != [] && |e.running| < e.cfg.maxNumSeqs {
      var r := AllocatePrompt(e.kv, RestoreTokens(e.Get(e.swapped[0])));
      if r.ok {
        RestoredStarts(e, r);
        RestoredAccounted(e, r);
        RestoreStarts(Restored(e, r));
        if RestoreSwapped(Restored(e, r)).Some? {
          StartedTrans(e, Restored(e, r), RestoreSwapped(Restored(e, r)).value);
        }
      }
    }
  }

  /** Scheduling starts sequences, each with a filled table, and leaves the rest. */
  lemma ScheduleStarts(e: Engine)
    requires Accounted(e)
    ensures Schedule(e).Work? ==> AllStarted(e, Schedule(e).engine)
  {
    hide Accounted, AllStarted, AdmitChunked, AdmitWhole, RestoreSwapped, PartialChunks, FilterDone, PrefillsOk,
         SortByPriority;
    SortWaitingAccounted(e);
    var e1 := SortWaiting(e);
    SameStarted(e, e1);
    if e.cfg.chunked {
      var budget := e.cfg.maxBatchedTokens - |FilterDone(e1, e1.running, true)|;
      FirstChunksOk(e1, budget);
      var first := PartialChunks(e1, FilterDone(e1, e1.running, false), budget);
      AdmitChunkedStarts(e1, first, budget - TotalTokens(first));
      StartedTrans(e, e1, AdmitChunked(e1, first, budget - TotalTokens(first)).0);
    } else {
      NoPrefills(e1);
      AdmitWholeStarts(e1, [], e.cfg.maxBatchedTokens, false);
      AdmitWholeOk(e1, [], e.cfg.maxBatchedTokens, false);
      var e2 := AdmitWhole(e1, [], e.cfg.maxBatchedTokens, false).0;
      StartedTrans(e, e1, e2);
      RestoreStarts(e2);
      if RestoreSwapped(e2).Some? {
        StartedTrans(e, e2, RestoreSwapped(e2).value);
      }
    }
  }

  // ---- the decodes

  lemma DecodesDistinct(e: Engine)
    requires Accounted(e) && Schedule(e).Work?
    ensures NoDup(Schedule(e).decodes)
  {
    hide Accounted, AdmitChunked, AdmitWhole, RestoreSwapped, PartialChunks, FilterDone, SortByPriority, Members,
         PrefillsOk;
    SortWaitingAccounted(e);
    var e1 := SortWaiting(e);
    if e.cfg.chunked {
      DoneDistinct(e1);
    } else {
      NoPrefills(e1);
      AdmitWholeOk(e1, [], e.cfg.maxBatchedTokens, false);
      var e2 := AdmitWhole(e1, [], e.cfg.maxBatchedTokens, false).0;
      RestoreSwappedAccounted(e2);
      if RestoreSwapped(e2).Some? {
        DoneDistinct(RestoreSwapped(e2).value);
      }
    }
  }

  lemma DoneDistinct(e: Engine)
    requires Accounted(e)
    ensures NoDup(FilterDone(e, e.running, true))
  {
    RunningNoDup(e);
    hide Accounted;
    var ids := FilterDone(e, e.running, true);
    FilterDoneIs(e, e.running, true);
    forall x | x in ids ensures multiset(ids)[x] <= 1 {
      NoDupMultiplicity(e.running, x);
    }
    MultiplicityNoDup(ids);
  }
}
