/** With caching off no run ever shares a block. What growing the decodes needs is
    then simply the number of decodes whose length is on a block boundary. */
module EngineUnshared {
  import opened Lists
  import opened PagedSpec
  import opened PagedInvariant
  import opened PagedAdmission
  import opened EngineSpec
  import opened EngineAccounting
  import opened EngineRuns
  import opened EngineMemory
  import opened EngineGrowth

  /** Caching is off and every block has one holder at most. */
  ghost predicate Unshared(p: Pool) {
    !p.caching && p.cache == map[] && forall b :: 0 <= b < |p.blocks| ==> p.blocks[b].refCount <= 1
  }

  // ---- the pool's operations

  lemma InitUnshared(numBlocks: nat, blockSize: pos, watermarkFraction: real)
    ensures Unshared(InitPool(numBlocks, blockSize, false, watermarkFraction))
  {
  }

  lemma AddBlockUnshared(p: Pool, hash: Option<Digest>, nTokens: nat)
    requires Unshared(p)
    ensures Unshared(AddBlock(p, hash, nTokens).pool)
  {
    assert EvictOne(p).None?;
  }

  lemma ReleaseUnshared(p: Pool, b: nat)
    requires Unshared(p)
    ensures Unshared(Release(p, b))
  {
  }

  lemma {:induction false} FreeUnshared(p: Pool, table: seq<nat>)
    requires Unshared(p)
    ensures Unshared(Free(p, table))
    decreases |table|
  {
    hide Release, Unshared;
    if table != [] {
      ReleaseUnshared(p, table[0]);
      FreeUnshared(Release(p, table[0]), table[1..]);
    }
  }

  lemma {:induction false} AllocateFullUnshared(p: Pool, chunks: seq<seq<Token>>, i: nat, prev: Option<Digest>,
                                                matching: bool, table: seq<nat>, cached: nat)
    requires i <= |chunks| && Unshared(p)
    ensures Unshared(AllocateFull(p, chunks, i, prev, matching, table, cached).pool)
    decreases |chunks| - i
  {
    if i < |chunks| {
      var h := HashBlock(prev, chunks[i]);
      assert Unshared(CountMiss(p)) && h !in p.cache;
      hide AddBlock, Unshared;
      AddBlockUnshared(CountMiss(p), Some(h), p.blockSize);
      var r := PlaceFull(p, h, matching);
      if r.bid.Some? {
        AllocateFullUnshared(r.pool, chunks, i + 1, Some(h), r.hit, table + [r.bid.value],
                             if r.hit then cached + p.blockSize else cached);
      }
    }
  }

  lemma AllocatePromptUnshared(p: Pool, tokens: seq<Token>)
    requires Unshared(p)
    ensures Unshared(AllocatePrompt(p, tokens).pool)
  {
    hide AllocateFull, AddBlock, Unshared;
    var chunks := Chunks(tokens, p.blockSize);
    AllocateFullUnshared(p, chunks, 0, None, p.caching, [], 0);
    var full := AllocateFull(p, chunks, 0, None, p.caching, [], 0);
    AddBlockUnshared(full.pool, None, |tokens| % p.blockSize);
  }

  lemma AppendUnshared(p: Pool, table: seq<nat>, len: nat)
    requires Unshared(p)
    ensures var r := AppendToken(p, table, len); !r.IndexError? ==> Unshared(r.pool)
  {
    hide AddBlock;
    AddBlockUnshared(p, None, 1);
  }

  // ---- the engine's

  lemma {:induction false} ArrivalsUnshared(e: Engine)
    ensures AdmitArrivals(e).kv == e.kv
    decreases |e.pending|
  {
    if !(e.pending == [] || e.pending[0].arrival > e.now) {
      var r := WithTokens(e.pending[0]);
      ArrivalsUnshared(e.Put(r.id, NewSequence(r)).(pending := e.pending[1..], waiting := e.waiting + [r.id]));
    }
  }

  lemma AllocateUnshared(e: Engine, id: int)
    requires Unshared(e.kv)
    ensures var a := Allocate(e, id);
      && Unshared(a.engine.kv) && a.engine.waiting == e.waiting
      && (e.waiting != [] ==> StartHead(a.engine).kv == a.engine.kv && |StartHead(a.engine).waiting| < |e.waiting|)
  {
    hide AllocatePrompt, Unshared;
    AllocatePromptUnshared(e.kv, e.Get(id).req.tokenIds);
  }

  lemma {:induction false} AdmitChunkedUnshared(e: Engine, chunks: seq<Chunk>, budget: int)
    requires Unshared(e.kv)
    ensures Unshared(AdmitChunked(e, chunks, budget).0.kv)
    decreases |e.waiting|
  {
    hide Allocate, StartHead, ChunkSize, Remaining, Unshared;
    if !(e.waiting == [] || budget <= 0 || |e.running| + |chunks| >= e.cfg.maxNumSeqs) {
      var id := e.waiting[0];
      AllocateUnshared(e, id);
      var a := Allocate(e, id);
      if a.ok {
        var e1 := StartHead(a.engine);
        var remaining := Remaining(e1.Get(id));
        if remaining == 0 {
          AdmitChunkedUnshared(e1, chunks, budget);
        } else {
          var chunk := ChunkSize(e.cfg, remaining, budget);
          AdmitChunkedUnshared(e1, chunks + [Chunk(id, chunk)], budget - chunk);
        }
      }
    }
  }

  lemma {:induction false} AdmitWholeUnshared(e: Engine, chunks: seq<Chunk>, budget: int, admitted: bool)
    requires Unshared(e.kv)
    ensures Unshared(AdmitWhole(e, chunks, budget, admitted).0.kv)
    decreases |e.waiting|
  {
    hide Allocate, StartHead, Remaining, Unshared;
    if !(e.waiting == [] || |e.running| >= e.cfg.maxNumSeqs || budget <= 0) {
      var id := e.waiting[0];
      AllocateUnshared(e, id);
      var a := Allocate(e, id);
      if a.ok {
        var e1 := StartHead(a.engine);
        var chunk := Remaining(e1.Get(id));
        AdmitWholeUnshared(e1, chunks + [Chunk(id, chunk)], budget - chunk, true);
        AdmitWholeUnshared(e1, chunks, budget, true);
      }
    }
  }

  lemma {:induction false} RestoreUnshared(e: Engine)
    requires Unshared(e.kv)
    ensures RestoreSwapped(e).Some? ==> Unshared(RestoreSwapped(e).value.kv)
    decreases |e.swapped|
  {
    hide AllocatePrompt, Unshared;
    if e.swapped != [] {
      var id := e.swapped[0];
      var s := e.Get(id);
      var r := AllocatePrompt(e.kv, RestoreTokens(s));
      AllocatePromptUnshared(e.kv, RestoreTokens(s));
      RestoreUnshared(e.Put(id, s.(table := r.table, status := Running)).(
                        swapped := e.swapped[1..], running := e.running + [id],
                        kv := r.pool, lost := e.lost + multiset(s.table)));
    }
  }

  lemma ScheduleUnshared(e: Engine)
    requires Unshared(e.kv)
    ensures Schedule(e).Work? ==> Unshared(Schedule(e).engine.kv)
  {
    hide AdmitChunked, AdmitWhole, RestoreSwapped, FilterDone, PartialChunks, SortByPriority, Unshared;
    var e1 := SortWaiting(e);
    if e.cfg.chunked {
      var budget := e.cfg.maxBatchedTokens - |FilterDone(e1, e1.running, true)|;
      var first := PartialChunks(e1, FilterDone(e1, e1.running, false), budget);
      AdmitChunkedUnshared(e1, first, budget - TotalTokens(first));
    } else {
      AdmitWholeUnshared(e1, [], e.cfg.maxBatchedTokens, false);
      RestoreUnshared(AdmitWhole(e1, [], e.cfg.maxBatchedTokens, false).0);
    }
  }

  lemma {:induction false} GrowOneUnshared(e: Engine, id: int, survivors: seq<int>)
    requires Unshared(e.kv)
    ensures GrowOne(e, id, survivors).Growth? ==> Unshared(GrowOne(e, id, survivors).engine.kv)
    decreases |e.running|
  {
    hide AppendToken, Free, Unshared;
    var s := e.Get(id);
    AppendUnshared(e.kv, s.table, s.TotalLen());
    var r := AppendToken(e.kv, s.table, s.TotalLen());
    if r.OutOfBlocks? {
      var e1 := e.(kv := r.pool);
      FreeUnshared(e1.kv, s.table);
      if Victim(e.running, id).Some? {
        var v := Victim(e.running, id).value;
        FreeUnshared(e1.kv, e.Get(v).table);
        GrowOneUnshared(Preempt(e1, v), id, Remove(survivors, v));
      }
    }
  }

  lemma {:induction false} GrowAllUnshared(e: Engine, decodes: seq<int>, survivors: seq<int>)
    requires Unshared(e.kv)
    ensures GrowAll(e, decodes, survivors).Growth? ==> Unshared(GrowAll(e, decodes, survivors).engine.kv)
    decreases |decodes|
  {
    hide GrowOne, Unshared;
    if decodes != [] {
      GrowOneUnshared(e, decodes[0], survivors);
      var g := GrowOne(e, decodes[0], survivors);
      if g.Growth? {
        GrowAllUnshared(g.engine, decodes[1..], g.survivors);
      }
    }
  }

  lemma {:induction false} FinishUnshared(e: Engine, ids: seq<int>)
    requires Unshared(e.kv)
    ensures Unshared(FinishDone(e, ids).kv)
    decreases |ids|
  {
    hide Free, Unshared;
    if ids != [] {
      FreeUnshared(e.kv, e.Get(ids[0]).table);
      FinishUnshared(if e.Get(ids[0]).Done() then FinishOne(e, ids[0]) else e, ids[1..]);
    }
  }

  lemma {:induction false} ForEachKv(e: Engine, ids: seq<int>, f: Sequence -> Sequence)
    ensures ForEach(e, ids, f).kv == e.kv
    decreases |ids|
  {
    if ids != [] {
      ForEachKv(e.Put(ids[0], f(e.Get(ids[0]))), ids[1..], f);
    }
  }

  lemma {:induction false} ForChunksKv(e: Engine, chunks: seq<Chunk>, f: (Sequence, nat) -> Sequence)
    ensures ForChunks(e, chunks, f).kv == e.kv
    decreases |chunks|
  {
    if chunks != [] {
      ForChunksKv(e.Put(chunks[0].id, f(e.Get(chunks[0].id), chunks[0].tokens)), chunks[1..], f);
    }
  }

  lemma ApplyUnshared(e: Engine, prefills: seq<Chunk>, decodes: seq<int>, input: StepInput)
    requires Unshared(e.kv)
    ensures Unshared(ApplyWork(e, prefills, decodes, input).kv)
  {
    hide ForEach, ForChunks, FinishDone, Unshared;
    ForEachKv(e, decodes, CountingSpec(e.cfg.draftTokens, input.accepted));
    var e2 := Clocked(e, prefills, decodes, input);
    var tokens := TokensPerDecode(e.cfg, prefills, decodes, input.accepted);
    ForChunksKv(e2, prefills, AddPrefill);
    var e3 := ForChunks(e2, prefills, AddPrefill);
    ForEachKv(e3, decodes, Emitting(tokens, e2.now));
    var e4 := ForEach(e3, decodes, Emitting(tokens, e2.now));
    ForChunksKv(e4, prefills, EmittingFirst(e2.now));
    var e5 := ForChunks(e4, prefills, EmittingFirst(e2.now));
    FinishUnshared(e5, e5.running);
  }

  lemma StepUnshared(e: Engine, input: StepInput)
    requires Unshared(e.kv)
    ensures !Step(e, input).Crashed? ==> Unshared(Step(e, input).engine.kv)
  {
    hide AdmitArrivals, Schedule, GrowAll, ApplyWork, Unshared;
    ArrivalsUnshared(e);
    var a := AdmitArrivals(e);
    if !(InFlight(a) || a.pending == []) {
      ArrivalsUnshared(a.(now := a.pending[0].arrival));
    }
    var e1 := Wake(e);
    ScheduleUnshared(e1);
    var w := Schedule(e1);
    if w.Work? {
      GrowAllUnshared(w.engine, w.decodes, []);
      var g := GrowAll(w.engine, w.decodes, []);
      if g.Growth? {
        ApplyUnshared(g.engine, w.prefills, g.survivors, input);
      }
    }
  }

  lemma {:induction false} SubmitKv(e: Engine, reqs: seq<Request>)
    ensures Submit(e, reqs).kv == e.kv
    decreases |reqs|
  {
    if reqs != [] {
      SubmitKv(e.(pending := InsertPending(e.pending, reqs[0])), reqs[1..]);
    }
  }

  /** Whatever is submitted and however many steps are taken, no block is shared. */
  lemma {:induction false} ExecuteUnshared(e: Engine, commands: seq<Command>)
    requires Unshared(e.kv)
    ensures var r := Execute(e, commands); r.Some? ==> Unshared(r.value.kv)
    decreases |commands|
  {
    hide Step, Submit, Unshared;
    if commands != [] {
      match commands[0] {
        case SubmitAll(reqs) =>
          SubmitKv(e, reqs);
          ExecuteUnshared(Submit(e, reqs), commands[1..]);
        case StepOnce(input) =>
          StepUnshared(e, input);
          var r := Step(e, input);
          if !r.Crashed? {
            ExecuteUnshared(r.engine, commands[1..]);
          }
      }
    }
  }

  // ---- what growing needs

  /** How many of these are about to cross a block boundary. */
  function Crossers(e: Engine, ids: seq<int>): nat {
    if ids == [] then 0
    else (if e.Get(ids[0]).TotalLen() % e.kv.blockSize == 0 then 1 else 0) + Crossers(e, ids[1..])
  }

  lemma UnsharedRefs(e: Engine)
    requires MemoryOk(e) && Unshared(e.kv)
    ensures forall b :: Held(e)[b] <= 1
    ensures Available(e.kv) == |e.kv.freeIds|
  {
    hide Held;
    var refs := Held(e);
    forall b ensures refs[b] <= 1 {
      assert b in refs ==> b < |e.kv.blocks|;
    }
    assert IdleEntries(e.kv) == {};
  }

  lemma {:induction false} NeedsCrossers(e: Engine, ids: seq<int>, refs: multiset<nat>)
    requires forall b :: refs[b] <= 1
    ensures Needs(e, ids, refs) == Crossers(e, ids)
    decreases |ids|
  {
    if ids != [] {
      NeedsCrossers(e, ids[1..], refs);
    }
  }

  /** With caching off nobody is preempted exactly when the free blocks suffice for
      the decodes on a block boundary. */
  lemma PreemptsNobodyExactly(e: Engine, decodes: seq<int>)
    requires Accounted(e) && MemoryOk(e) && Growable(e, decodes) && Unshared(e.kv)
    ensures Undisturbed(e, GrowAll(e, decodes, [])) <==> Crossers(e, decodes) <= |e.kv.freeIds|
  {
    hide Accounted, MemoryOk, GrowAll, Growable, Unshared, Undisturbed, Available, Held;
    UnsharedRefs(e);
    NeedsCrossers(e, decodes, Held(e));
    GrowthExact(e, decodes, []);
  }

  /** ... and with every running sequence decoding, the step raises exactly when the
      free blocks do not suffice for those before the newest. */
  lemma RaisesExactly(e: Engine)
    requires Accounted(e) && MemoryOk(e) && Growable(e, e.running) && Unshared(e.kv) && e.running != []
    requires WaitingLen(e, e.running[|e.running| - 1]) % e.kv.blockSize != 0
    ensures GrowAll(e, e.running, []) == GrowFailed
       <==> Crossers(e, e.running[..|e.running| - 1]) > |e.kv.freeIds|
  {
    hide Accounted, MemoryOk, GrowAll, Growable, Unshared, Available, Held;
    UnsharedRefs(e);
    NeedsCrossers(e, e.running[..|e.running| - 1], Held(e));
    GrowthFailsExactly(e, e.running, []);
  }

  lemma {:induction false} AllDone(e: Engine, ids: seq<int>)
    requires forall x :: x in ids ==> e.Get(x).PrefillDone()
    ensures FilterDone(e, ids, true) == ids
  {
    if ids != [] {
      assert ids[0] in ids && ids == [ids[0]] + ids[1..];
      AllDone(e, ids[1..]);
    }
  }

  /** Every running sequence decodes, and nothing else is in flight. */
  ghost predicate OnlyDecoding(e: Engine) {
    && !e.cfg.chunked && e.waiting == [] && e.swapped == [] && e.pending == []
    && e.running != [] && forall x :: x in e.running ==> e.Get(x).PrefillDone() && e.Get(x).table != []
  }

  lemma DecodesAll(e: Engine)
    requires OnlyDecoding(e)
    ensures Wake(e) == e && Schedule(e) == Work(e, [], e.running)
  {
    AllDone(e, e.running);
    assert SortWaiting(e) == e;
    assert AdmitWhole(e, [], e.cfg.maxBatchedTokens, false) == (e, []);
  }

  /** So a whole step that only decodes raises exactly then. */
  lemma StepRaisesExactly(e: Engine, input: StepInput)
    requires Accounted(e) && MemoryOk(e) && Unshared(e.kv) && OnlyDecoding(e)
    requires WaitingLen(e, e.running[|e.running| - 1]) % e.kv.blockSize != 0
    ensures Step(e, input).Crashed? <==> Crossers(e, e.running[..|e.running| - 1]) > |e.kv.freeIds|
  {
    hide Accounted, MemoryOk, GrowAll, Unshared, Crossers, ApplyWork, Wake, Schedule, AdmitWhole;
    RunningNoDup(e);
    RaisesExactly(e);
    DecodesAll(e);
  }
}
