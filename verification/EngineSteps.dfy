/** Each step, and so every run, keeps the books. */
module EngineSteps {
  import opened Lists
  import opened PagedSpec
  import opened EngineSpec
  import opened EngineAccounting
  import opened EngineMoves

  function ChunkIds(chunks: seq<Chunk>): seq<int> {
    if chunks == [] then [] else [chunks[0].id] + ChunkIds(chunks[1..])
  }

  /** The chunk of each sequence fits what is left of its prompt. */
  ghost predicate ChunksFit(e: Engine, chunks: seq<Chunk>) {
    forall i :: 0 <= i < |chunks| ==>
      chunks[i].id in e.seqs && e.Get(chunks[i].id).prefilled + chunks[i].tokens <= e.Get(chunks[i].id).req.promptTokens
  }

  /** The prefill work belongs to distinct running sequences and fits them. */
  ghost predicate PrefillsOk(e: Engine, chunks: seq<Chunk>) {
    multiset(ChunkIds(chunks)) <= multiset(e.running) && ChunksFit(e, chunks)
  }

  lemma {:induction false} ChunkIdsAppend(a: seq<Chunk>, c: Chunk)
    ensures ChunkIds(a + [c]) == ChunkIds(a) + [c.id]
  {
    if a == [] {
      assert a + [c] == [c];
    } else {
      ChunkIdsAppend(a[1..], c);
      assert (a + [c])[1..] == a[1..] + [c];
    }
  }

  lemma {:induction false} ChunkIdIn(chunks: seq<Chunk>, i: nat)
    requires i < |chunks|
    ensures chunks[i].id in ChunkIds(chunks)
  {
    if i > 0 {
      ChunkIdIn(chunks[1..], i - 1);
      assert chunks[1..][i - 1] == chunks[i];
    }
  }

  // ---- choosing chunks

  lemma {:induction false} FilterDoneIs(e: Engine, ids: seq<int>, done: bool)
    ensures multiset(FilterDone(e, ids, done)) <= multiset(ids)
    ensures forall x :: x in FilterDone(e, ids, done) <==> x in ids && e.Get(x).PrefillDone() == done
  {
    if ids != [] {
      FilterDoneIs(e, ids[1..], done);
      assert ids == [ids[0]] + ids[1..];
    }
  }

  lemma {:induction false} PartialChunksOk(e: Engine, partial: seq<int>, budget: int)
    requires forall x :: x in partial ==> x in e.seqs && !e.Get(x).PrefillDone()
    ensures var cs := PartialChunks(e, partial, budget);
      && multiset(ChunkIds(cs)) <= multiset(partial) && ChunksFit(e, cs)
  {
    hide ChunkIds, ChunksFit;
    NoChunks(e);
    if partial != [] && budget > 0 {
      var chunk := ChunkSize(e.cfg, Remaining(e.Get(partial[0])), budget);
      var rest := PartialChunks(e, partial[1..], budget - chunk);
      assert partial[0] in e.seqs && chunk <= Remaining(e.Get(partial[0]));
      PartialChunksOk(e, partial[1..], budget - chunk);
      ConsChunk(e, partial[0], chunk, rest);
      SubMultisetCons(partial, ChunkIds(rest));
    }
  }

  lemma NoChunks(e: Engine)
    ensures ChunkIds([]) == [] && ChunksFit(e, [])
  {
  }

  lemma SubMultisetCons(s: seq<int>, rest: seq<int>)
    requires s != [] && multiset(rest) <= multiset(s[1..])
    ensures multiset(rest) <= multiset(s)
    ensures multiset([s[0]] + rest) <= multiset(s)
  {
    assert s == [s[0]] + s[1..];
  }

  lemma ConsChunk(e: Engine, id: int, tokens: nat, rest: seq<Chunk>)
    ensures ChunkIds([Chunk(id, tokens)] + rest) == [id] + ChunkIds(rest)
    ensures ChunksFit(e, rest) && id in e.seqs && e.Get(id).prefilled + tokens <= e.Get(id).req.promptTokens
            ==> ChunksFit(e, [Chunk(id, tokens)] + rest)
  {
    var cs := [Chunk(id, tokens)] + rest;
    assert cs[1..] == rest;
    assert forall i :: 0 < i < |cs| ==> cs[i] == rest[i - 1];
  }

  /** Records other than `id` and the list membership of the chunks stay. */
  lemma PrefillsKept(e: Engine, e': Engine, id: int, chunks: seq<Chunk>)
    requires PrefillsOk(e, chunks) && id !in e.running
    requires forall x :: x in e.seqs && x != id ==> x in e'.seqs && e'.seqs[x] == e.seqs[x]
    requires multiset(e.running) <= multiset(e'.running)
    ensures PrefillsOk(e', chunks)
  {
    forall i | 0 <= i < |chunks|
      ensures chunks[i].id in e'.seqs && e'.Get(chunks[i].id) == e.Get(chunks[i].id)
    {
      ChunkIdIn(chunks, i);
      assert chunks[i].id in multiset(ChunkIds(chunks));
      assert chunks[i].id in multiset(e.running);
    }
  }

  lemma AddChunk(e: Engine, chunks: seq<Chunk>, id: int, tokens: nat, before: seq<int>)
    requires PrefillsOk(e, chunks) && multiset(ChunkIds(chunks)) <= multiset(before)
    requires e.running == before + [id] && id in e.seqs
    requires e.Get(id).prefilled + tokens <= e.Get(id).req.promptTokens
    ensures PrefillsOk(e, chunks + [Chunk(id, tokens)])
  {
    hide ChunkIds, ChunksFit;
    ChunkIdsAppend(chunks, Chunk(id, tokens));
    SnocSub(ChunkIds(chunks), before, id);
    SnocChunk(e, chunks, id, tokens);
  }

  lemma SnocSub(a: seq<int>, b: seq<int>, id: int)
    requires multiset(a) <= multiset(b)
    ensures multiset(a + [id]) <= multiset(b + [id])
  {
  }

  lemma SnocChunk(e: Engine, chunks: seq<Chunk>, id: int, tokens: nat)
    requires ChunksFit(e, chunks) && id in e.seqs
    requires e.Get(id).prefilled + tokens <= e.Get(id).req.promptTokens
    ensures ChunksFit(e, chunks + [Chunk(id, tokens)])
  {
  }

  /** What admitting one more sequence keeps. */
  lemma AdmitStepOk(e: Engine, prefills: seq<Chunk>)
    requires Accounted(e) && PrefillsOk(e, prefills)
    requires e.waiting != [] && |e.running| < e.cfg.maxNumSeqs
    ensures var id := e.waiting[0];
      var a := Allocate(e, id);
      && Accounted(a.engine) && PrefillsOk(a.engine, prefills) && Members(a.engine) == Members(e)
      && SameLists(e, a.engine) && a.engine.stepNo == e.stepNo && a.engine.seqs.Keys == e.seqs.Keys
      && (a.ok ==> var e1 := StartHead(a.engine);
            && Accounted(e1) && PrefillsOk(e1, prefills) && Members(e1) == Members(e)
            && e1.cfg == e.cfg && e1.now == e.now && e1.stepNo == e.stepNo
            && multiset(ChunkIds(prefills)) <= multiset(e.running)
            && e1.running == e.running + [id] && id in e1.seqs && e1.seqs.Keys == e.seqs.Keys)
  {
    hide Allocate, Accounted, Members, PrefillsOk, StartHead;
    var id := e.waiting[0];
    var a := Allocate(e, id);
    WaitingHead(e);
    AllocateAccounted(e, id);
    PrefillsKept(e, a.engine, id, prefills);
    if a.ok {
      StartStepOk(a.engine, prefills);
    }
  }

  lemma StartStepOk(e: Engine, prefills: seq<Chunk>)
    requires Accounted(e) && PrefillsOk(e, prefills) && e.waiting != [] && |e.running| < e.cfg.maxNumSeqs
    ensures var e1 := StartHead(e);
      && Accounted(e1) && PrefillsOk(e1, prefills) && Members(e1) == Members(e)
      && e1.cfg == e.cfg && e1.now == e.now && e1.stepNo == e.stepNo
      && multiset(ChunkIds(prefills)) <= multiset(e.running)
      && e1.running == e.running + [e.waiting[0]] && e.waiting[0] in e1.seqs && e1.seqs.Keys == e.seqs.Keys
  {
    hide Accounted, Members, PrefillsOk, StartHead;
    StartHeadAccounted(e);
    RunningGrows(e, prefills);
  }

  lemma WaitingHead(e: Engine)
    requires Accounted(e) && e.waiting != []
    ensures var id := e.waiting[0]; id in e.seqs && e.seqs[id].status == Waiting && id !in e.running
  {
    assert OnSomeList(e, e.waiting[0]);
    HeadTracked(e);
  }

  lemma RunningGrows(e: Engine, prefills: seq<Chunk>)
    requires PrefillsOk(e, prefills) && e.waiting != [] && e.waiting[0] !in e.running
    ensures PrefillsOk(StartHead(e), prefills)
    ensures multiset(ChunkIds(prefills)) <= multiset(e.running)
    ensures StartHead(e).running == e.running + [e.waiting[0]]
  {
    var id := e.waiting[0];
    assert multiset(e.running + [id]) == multiset(e.running) + multiset{id};
    PrefillsKept(e, StartHead(e), id, prefills);
  }

  lemma {:induction false} AdmitChunkedOk(e: Engine, prefills: seq<Chunk>, budget: int)
    requires Accounted(e) && PrefillsOk(e, prefills)
    ensures var (e', cs) := AdmitChunked(e, prefills, budget);
      && Accounted(e') && PrefillsOk(e', cs) && Members(e') == Members(e)
      && e'.cfg == e.cfg && e'.now == e.now && e'.stepNo == e.stepNo && e'.seqs.Keys == e.seqs.Keys
      && e.running <= e'.running
    decreases |e.waiting|
  {
    hide Accounted, PrefillsOk, Members, Allocate;
    if !(e.waiting == [] || budget <= 0 || |e.running| + |prefills| >= e.cfg.maxNumSeqs) {
      AdmitStepOk(e, prefills);
      var id := e.waiting[0];
      var a := Allocate(e, id);
      if a.ok {
        var e1 := StartHead(a.engine);
        var remaining := Remaining(e1.Get(id));
        if remaining == 0 {
          AdmitChunkedOk(e1, prefills, budget);
        } else {
          var chunk := ChunkSize(e.cfg, remaining, budget);
          AddChunk(e1, prefills, id, chunk, e.running);
          AdmitChunkedOk(e1, prefills + [Chunk(id, chunk)], budget - chunk);
        }
      }
    }
  }

  lemma {:induction false} AdmitWholeOk(e: Engine, prefills: seq<Chunk>, budget: int, admitted: bool)
    requires Accounted(e) && PrefillsOk(e, prefills)
    ensures var (e', cs) := AdmitWhole(e, prefills, budget, admitted);
      && Accounted(e') && PrefillsOk(e', cs) && Members(e') == Members(e)
      && e'.cfg == e.cfg && e'.now == e.now && e'.stepNo == e.stepNo && e'.seqs.Keys == e.seqs.Keys
      && e.running <= e'.running
    decreases |e.waiting|
  {
    hide Accounted, PrefillsOk, Members, Allocate;
    if !(e.waiting == [] || |e.running| >= e.cfg.maxNumSeqs || budget <= 0) {
      var id := e.waiting[0];
      if !(e.Get(id).req.promptTokens - e.Get(id).cached > budget && admitted) {
        AdmitStepOk(e, prefills);
        var a := Allocate(e, id);
        if a.ok {
          var e1 := StartHead(a.engine);
          var chunk := Remaining(e1.Get(id));
          if chunk > 0 {
            AddChunk(e1, prefills, id, chunk, e.running);
            AdmitWholeOk(e1, prefills + [Chunk(id, chunk)], budget - chunk, true);
          } else {
            AdmitWholeOk(e1, prefills, budget, true);
          }
        }
      }
    }
  }

  /** The scheduler's choice: prefills fit, and decodes are sequences it holds. */
  ghost predicate WorkOk(e: Engine, w: Work) {
    w.Work? ==>
      && Accounted(w.engine) && Members(w.engine) == Members(e)
      && w.engine.cfg == e.cfg && w.engine.now == e.now && w.engine.stepNo == e.stepNo
      && PrefillsOk(w.engine, w.prefills)
      && forall x :: x in w.decodes ==> x in w.engine.running
  }

  lemma RunningKnown(e: Engine)
    requires Accounted(e)
    ensures forall x :: x in e.running ==> x in e.seqs
  {
    forall x | x in e.running ensures x in e.seqs {
      assert OnSomeList(e, x);
    }
  }

  lemma NoPrefills(e: Engine)
    ensures PrefillsOk(e, [])
  {
  }

  lemma ScheduleOk(e: Engine)
    requires Accounted(e)
    ensures WorkOk(e, Schedule(e))
  {
    SortWaitingAccounted(e);
    var e1 := SortWaiting(e);
    hide SortWaiting, Accounted, Members, PrefillsOk;
    if e.cfg.chunked {
      ScheduleChunkedOk(e1);
    } else {
      SchedulePriorityOk(e1);
    }
  }

  lemma ScheduleChunkedOk(e: Engine)
    requires Accounted(e)
    ensures WorkOk(e, ScheduleChunked(e))
  {
    hide Accounted, Members, PartialChunks, FilterDone, AdmitChunked, ChunksFit;
    var decodes := FilterDone(e, e.running, true);
    var partial := FilterDone(e, e.running, false);
    var budget := e.cfg.maxBatchedTokens - |decodes|;
    var first := PartialChunks(e, partial, budget);
    FilterDoneIs(e, e.running, true);
    FirstChunksOk(e, budget);
    AdmitChunkedOk(e, first, budget - TotalTokens(first));
  }

  lemma FirstChunksOk(e: Engine, budget: int)
    requires Accounted(e)
    ensures PrefillsOk(e, PartialChunks(e, FilterDone(e, e.running, false), budget))
  {
    hide Accounted, PartialChunks, FilterDone, ChunksFit;
    RunningKnown(e);
    FilterDoneIs(e, e.running, false);
    PartialChunksOk(e, FilterDone(e, e.running, false), budget);
  }

  lemma SchedulePriorityOk(e: Engine)
    requires Accounted(e)
    ensures WorkOk(e, SchedulePriority(e))
  {
    hide Accounted, Members;
    NoPrefills(e);
    AdmitWholeOk(e, [], e.cfg.maxBatchedTokens, false);
    var (e1, prefills) := AdmitWhole(e, [], e.cfg.maxBatchedTokens, false);
    if prefills == [] {
      RestoreSwappedAccounted(e1);
      match RestoreSwapped(e1) {
        case None =>
        case Some(e2) =>
          NoPrefills(e2);
          RunningKnown(e2);
          FilterDoneIs(e2, e2.running, true);
      }
    }
  }

  // ---- growing the decodes

  /** Growth changes tables and lists and restarts sequences, nothing else. */
  ghost predicate Shrunk(e: Engine, e': Engine) {
    && e'.cfg == e.cfg && e'.now == e.now && e'.stepNo == e.stepNo
    && e'.seqs.Keys == e.seqs.Keys
    && forall x :: x in e.seqs ==> e'.seqs[x].req == e.seqs[x].req && e'.seqs[x].prefilled <= e.seqs[x].prefilled
  }

  lemma GrownRecordOk(s: Sequence, table: seq<nat>, now: real)
    requires RecordOk(s, now) && s.status != Finished
    ensures RecordOk(s.(table := table), now)
  {
  }

  lemma TableGrownOk(e: Engine, id: int, table: seq<nat>, kv: Pool)
    requires Accounted(e) && id in e.seqs && e.seqs[id].status != Finished
    ensures var e' := e.Put(id, e.Get(id).(table := table)).(kv := kv);
      Accounted(e') && Members(e') == Members(e) && Shrunk(e, e') && SameLists(e, e')
  {
    var e' := e.Put(id, e.Get(id).(table := table)).(kv := kv);
    GrownRecordOk(e.seqs[id], table, e.now);
    assert Later(e.seqs[id], e'.Get(id), e.now);
    hide RecordOk, Accounted;
    PutAccounted(e, e', id);
  }

  /** The sequences being grown are on the waiting, running or swapped list. */
  ghost predicate Unfinished(e: Engine, ids: seq<int>) {
    forall x :: x in ids ==> x in e.seqs && e.seqs[x].status != Finished
  }

  lemma PreemptUnfinished(e: Engine, v: int, ids: seq<int>)
    requires Accounted(e) && v in e.running && Unfinished(e, ids)
    ensures Unfinished(Preempt(e, v), ids) && Shrunk(e, Preempt(e, v))
  {
    PreemptAccounted(e, v);
    hide Accounted, Members, Free;
  }

  lemma KvAccounted(e: Engine, kv: Pool)
    requires Accounted(e)
    ensures Accounted(e.(kv := kv)) && Members(e.(kv := kv)) == Members(e) && Shrunk(e, e.(kv := kv))
  {
    var e' := e.(kv := kv);
    assert Tracked(e') == Tracked(e);
    assert forall x :: OnSomeList(e', x) == OnSomeList(e, x);
    hide Members, RecordOk, AtMostOnce;
    assert forall x :: e'.Get(x) == e.Get(x);
  }

  ghost predicate GrowthOk(e: Engine, ids: seq<int>, g: Growth) {
    g.Growth? ==>
      && Accounted(g.engine) && Members(g.engine) == Members(e) && Shrunk(e, g.engine)
      && Unfinished(g.engine, ids)
      && forall x :: x in g.survivors ==> x in ids
  }

  lemma ShrunkTrans(a: Engine, b: Engine, c: Engine)
    requires Shrunk(a, b) && Shrunk(b, c)
    ensures Shrunk(a, c)
  {
  }

  lemma {:induction false} GrowOneOk(e: Engine, id: int, survivors: seq<int>, ids: seq<int>)
    requires Accounted(e) && Unfinished(e, ids) && id in ids
    requires forall x :: x in survivors ==> x in ids
    ensures GrowthOk(e, ids, GrowOne(e, id, survivors))
    decreases |e.running|
  {
    hide Accounted, Members, AppendToken, Preempt, Shrunk;
    var s := e.Get(id);
    match AppendToken(e.kv, s.table, s.TotalLen()) {
      case Grown(kv, table, _) =>
        TableGrownOk(e, id, table, kv);
      case IndexError =>
      case OutOfBlocks(kv) =>
        var e1 := e.(kv := kv);
        KvAccounted(e, kv);
        match Victim(e.running, id) {
          case Some(v) =>
            PreemptAccounted(e1, v);
            PreemptUnfinished(e1, v, ids);
            RemoveSubset(survivors, v);
            GrowOneOk(Preempt(e1, v), id, Remove(survivors, v), ids);
            ShrunkTrans(e, e1, Preempt(e1, v));
            var g := GrowOne(Preempt(e1, v), id, Remove(survivors, v));
            if g.Growth? {
              ShrunkTrans(e, Preempt(e1, v), g.engine);
            }
          case None =>
            if id in e.running {
              PreemptAccounted(e1, id);
              PreemptUnfinished(e1, id, ids);
              ShrunkTrans(e, e1, Preempt(e1, id));
            }
        }
    }
  }

  lemma {:induction false} GrowAllOk(e: Engine, decodes: seq<int>, survivors: seq<int>, ids: seq<int>)
    requires Accounted(e) && Unfinished(e, ids)
    requires forall x :: x in survivors || x in decodes ==> x in ids
    ensures GrowthOk(e, ids, GrowAll(e, decodes, survivors))
    decreases |decodes|
  {
    hide Accounted, Members, GrowOne, Shrunk, Unfinished;
    if decodes != [] {
      GrowOneOk(e, decodes[0], survivors, ids);
      match GrowOne(e, decodes[0], survivors) {
        case GrowFailed =>
        case Growth(e1, survivors1) =>
          GrowAllOk(e1, decodes[1..], survivors1, ids);
          var g := GrowAll(e1, decodes[1..], survivors1);
          if g.Growth? {
            ShrunkTrans(e, e1, g.engine);
          }
      }
    } else {
      ShrunkRefl(e);
    }
  }

  lemma ShrunkRefl(e: Engine)
    ensures Shrunk(e, e)
  {
  }
}
