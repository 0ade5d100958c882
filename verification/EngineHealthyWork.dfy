/** Growing the decodes and crediting the step's work in a healthy engine. */
module EngineHealthyWork {
  import opened Lists
  import opened PagedSpec
  import opened PagedInvariant
  import opened EngineSpec
  import opened EngineAccounting
  import opened EngineMoves
  import opened EngineSteps
  import opened EngineRuns
  import opened EngineMemory
  import opened EngineFit
  import opened EngineHealth
  import opened EngineHealthySteps

  // ---- growing

  /** Nothing but tables and the pool's contents differs. */
  ghost predicate OnlyTables(e: Engine, e': Engine) {
    && e' == e.(seqs := e'.seqs, kv := e'.kv) && SameConfig(e.kv, e'.kv)
    && e'.seqs.Keys == e.seqs.Keys
    && forall x :: e'.Get(x) == e.Get(x).(table := e'.Get(x).table)
  }

  lemma GrowOneHealthy(e: Engine, m: nat, todo: seq<int>, survivors: seq<int>)
    requires MidStep(e, m, todo) && todo != [] && todo[0] in e.running && todo[0] !in todo[1..]
    ensures var g := GrowOne(e, todo[0], survivors);
      && g.Growth? && g.survivors == survivors + [todo[0]]
      && MidStep(g.engine, m, todo[1..]) && OnlyTables(e, g.engine)
  {
    var id := todo[0];
    var s := e.Get(id);
    MidTables(e, m, todo);
    if s.TotalLen() % e.kv.blockSize == 0 {
      BlockForGrowth(e, m, todo, id);
    }
    LiveOnce(e, id);
    RunningIsLive(e, id);
    var r := AppendToken(e.kv, s.table, s.TotalLen());
    AppendSole(e.kv, Held(e), s.table, s.TotalLen());
    RunningUnfinished(e, [id]);
    var e' := e.Put(id, s.(table := r.table)).(kv := r.pool);
    TableGrownOk(e, id, r.table, r.pool);
    TableExchanged(e, id, r.table, r.pool);
    hide Accounted, MemoryOk, Sole, Held, AppendToken, Inv;
    GrownTables(e, m, todo, r.table, r.pool);
    GrownCalm(e, m, id, r.table, r.pool);
    assert MemoryOk(e') by { GrownMemoryOk(e', r.pool); }
  }

  lemma GrownMemoryOk(e: Engine, kv: Pool)
    requires e.kv == kv && Inv(kv, Held(e))
    ensures MemoryOk(e)
  {
  }

  lemma RunningIsLive(e: Engine, id: int)
    requires Accounted(e) && id in e.running
    ensures multiset(e.Get(id).table) <= Held(e) && multiset(Live(e))[id] == 1
  {
    LiveOnce(e, id);
    RefsExchanged(e, e, Live(e), id);
  }

  lemma GrownCalm(e: Engine, m: nat, id: int, table: seq<nat>, kv: Pool)
    requires Calm(e, m) && SameConfig(e.kv, kv) && id in e.seqs && id !in e.waiting
    ensures var e' := e.Put(id, e.Get(id).(table := table)).(kv := kv);
      Calm(e', m) && OnlyTables(e, e')
  {
    hide Fits;
    var e' := e.Put(id, e.Get(id).(table := table)).(kv := kv);
    assert forall x :: x in e.waiting ==> e'.Get(x) == e.Get(x);
  }

  lemma GrownTables(e: Engine, m: nat, todo: seq<int>, table: seq<nat>, kv: Pool)
    requires Tables(e, todo) && todo != [] && todo[0] in e.running && todo[0] !in todo[1..]
    requires SameConfig(e.kv, kv)
    requires var s := e.Get(todo[0]);
      |table| == |s.table| + if s.TotalLen() % e.kv.blockSize == 0 then 1 else 0
    ensures Tables(e.Put(todo[0], e.Get(todo[0]).(table := table)).(kv := kv), todo[1..])
  {
    var id := todo[0];
    var s := e.Get(id);
    var e' := e.Put(id, s.(table := table)).(kv := kv);
    assert Decoding(s, e.kv.blockSize);
    DivNext(s.TotalLen(), e.kv.blockSize);
    assert Grown'(e'.Get(id), e.kv.blockSize);
    hide Decoding, Grown', Prefilling;
    forall x | x in e'.running && x != id ensures e'.Get(x) == e.Get(x) {
    }
    assert forall x :: x in todo[1..] ==> x in todo && x != id;
  }

  lemma OnlyTablesTrans(a: Engine, b: Engine, c: Engine)
    requires OnlyTables(a, b) && OnlyTables(b, c)
    ensures OnlyTables(a, c)
  {
  }

  /** Every decode is grown; nobody is preempted. */
  lemma {:induction false} GrowAllHealthy(e: Engine, m: nat, todo: seq<int>, survivors: seq<int>)
    requires MidStep(e, m, todo) && NoDup(todo)
    requires forall x :: x in todo ==> x in e.running
    ensures var g := GrowAll(e, todo, survivors);
      && g.Growth? && g.survivors == survivors + todo
      && MidStep(g.engine, m, []) && OnlyTables(e, g.engine)
    decreases |todo|
  {
    hide MidStep, GrowOne;
    if todo != [] {
      var id := todo[0];
      assert id in todo;
      assert id in e.running;
      assert forall j :: 0 <= j < |todo[1..]| ==> todo[1..][j] == todo[j + 1];
      GrowOneHealthy(e, m, todo, survivors);
      var g1 := GrowOne(e, todo[0], survivors);
      GrowAllHealthy(g1.engine, m, todo[1..], g1.survivors);
      OnlyTablesTrans(e, g1.engine, GrowAll(g1.engine, todo[1..], g1.survivors).engine);
      assert survivors + [todo[0]] + todo[1..] == survivors + todo;
    } else {
      assert survivors + todo == survivors;
    }
  }

  // ---- what crediting does to one record

  function ChunkFor(chunks: seq<Chunk>, id: int): nat {
    if chunks == [] then 0
    else if chunks[0].id == id then chunks[0].tokens
    else ChunkFor(chunks[1..], id)
  }

  lemma {:induction false} ForEachPoint(e: Engine, ids: seq<int>, f: Sequence -> Sequence, x: int)
    requires NoDup(ids)
    ensures ForEach(e, ids, f).Get(x) == if x in ids then f(e.Get(x)) else e.Get(x)
    decreases |ids|
  {
    if ids != [] {
      ForEachPoint(e.Put(ids[0], f(e.Get(ids[0]))), ids[1..], f, x);
      assert x in ids[1..] <==> x in ids && x != ids[0];
    }
  }

  lemma {:induction false} ForChunksPoint(e: Engine, chunks: seq<Chunk>, f: (Sequence, nat) -> Sequence, x: int)
    requires DistinctChunks(chunks)
    ensures ForChunks(e, chunks, f).Get(x)
            == if x in ChunkIds(chunks) then f(e.Get(x), ChunkFor(chunks, x)) else e.Get(x)
    decreases |chunks|
  {
    if chunks != [] {
      var c := chunks[0];
      ForChunksPoint(e.Put(c.id, f(e.Get(c.id), c.tokens)), chunks[1..], f, x);
      if c.id == x {
        ChunkIdsAre(chunks[1..]);
      }
    }
  }

  /** The record of x after the work has been credited, before finished sequences
      leave. */
  function CreditedRecord(s: Sequence, chunk: nat, inPrefills: bool, inDecodes: bool, tokens: nat, now: real)
    : Sequence
  {
    var s1 := if inPrefills then AddPrefill(s, chunk) else s;
    var s2 := if inDecodes then Emitted(s1, tokens, now) else s1;
    if inPrefills then FirstEmitted(s2, now) else s2
  }

  /** The step's work suits the batch: prefills belong to sequences in prefill,
      decodes have been grown, and the rest is as it was. */
  ghost predicate WorkFor(s: Sequence, chunk: nat, inPrefills: bool, inDecodes: bool, size: pos, chunked: bool) {
    && !s.Done()
    && if inPrefills then
         !inDecodes && Prefilling(s, size) && 0 < chunk <= Remaining(s) && (!chunked ==> chunk == Remaining(s))
       else if inDecodes then Grown'(s, size)
       else Decoding(s, size) || (chunked && Prefilling(s, size))
  }

  lemma CreditedIsSettled(s: Sequence, chunk: nat, inPrefills: bool, inDecodes: bool,
                          size: pos, chunked: bool, tokens: nat, now: real)
    requires RecordOk(s, now) && now >= 0.0 && tokens >= 1
    requires WorkFor(s, chunk, inPrefills, inDecodes, size, chunked)
    ensures var s' := CreditedRecord(s, chunk, inPrefills, inDecodes, tokens, now);
      && s'.req == s.req && s'.status == s.status && s'.table == s.table
      && (Decoding(s', size) || (chunked && Prefilling(s', size)))
      && Owed(s') <= Owed(s) && (inPrefills || inDecodes ==> Owed(s') < Owed(s))
      && (s'.Done() ==> Owed(s') == 0)
  {
    var s' := CreditedRecord(s, chunk, inPrefills, inDecodes, tokens, now);
    if inPrefills {
      CeilDivIs(s.req.promptTokens, size);
      DivMonotone(size, s.req.promptTokens + size - 1, size);
      DivModUnique(size, size, 1, 0);
    } else if inDecodes {
      EmittedOk(s, tokens, now);
      DivMonotone(s.TotalLen(), s'.TotalLen() - 1, size);
    }
  }

  /** Tokens a sequence still has to prefill or to emit. */
  function Owed(s: Sequence): nat {
    Remaining(s) + if s.Done() then 0 else s.req.outputTokens - s.generated
  }

  // ---- finished sequences leave

  lemma {:induction false} FreeConfig(p: Pool, table: seq<nat>)
    ensures SameConfig(p, Free(p, table))
    decreases |table|
  {
    if table != [] {
      FreeConfig(Release(p, table[0]), table[1..]);
    }
  }

  /** The batch after finishing: nobody left in it is done, and nothing else about
      the sequences that stay has changed. */
  ghost predicate Swept(e: Engine, e': Engine, ids: seq<int>) {
    && SameConfig(e.kv, e'.kv) && e'.cfg == e.cfg && e'.lost == e.lost && e'.swapped == e.swapped
    && e'.waiting == e.waiting && e'.pending == e.pending && e'.totalPreemptions == e.totalPreemptions
    && e'.seqs.Keys == e.seqs.Keys && multiset(e'.running) <= multiset(e.running)
    && (forall x :: x in e'.running ==> x in e.running && e'.Get(x) == e.Get(x) && (x in ids ==> !e.Get(x).Done()))
    && (forall x :: x in e.waiting ==> e'.Get(x) == e.Get(x))
    && (forall x :: e'.Get(x).req == e.Get(x).req && Owed(e'.Get(x)) == Owed(e.Get(x)))
  }

  lemma FinishOneSweeps(e: Engine, id: int)
    requires Accounted(e) && id in e.running
    ensures Swept(e, FinishOne(e, id), [])
    ensures id !in FinishOne(e, id).running
  {
    OnlyRunning(e, id);
    RemoveSubset(e.running, id);
    RemoveMultiset(e.running, id);
    FreeConfig(e.kv, e.Get(id).table);
    assert OnSomeList(e, id);
    hide Accounted, Free;
  }

  lemma SweptTrans(a: Engine, b: Engine, c: Engine, id: int, ids: seq<int>)
    requires Swept(a, b, []) && Swept(b, c, ids)
    requires id !in b.running || (b == a && !a.Get(id).Done())
    ensures Swept(a, c, [id] + ids)
  {
  }

  lemma {:induction false} FinishDoneSweeps(e: Engine, ids: seq<int>)
    requires Accounted(e) && multiset(ids) <= multiset(e.running)
    ensures Swept(e, FinishDone(e, ids), ids)
    decreases |ids|
  {
    hide Accounted, Members, FinishOne, Swept;
    SweptRefl(e);
    if ids != [] {
      assert ids == [ids[0]] + ids[1..];
      assert multiset(ids) == multiset{ids[0]} + multiset(ids[1..]);
      assert multiset(e.running)[ids[0]] >= 1;
      if e.Get(ids[0]).Done() {
        FinishOneAccounted(e, ids[0]);
        FinishOneSweeps(e, ids[0]);
        FinishDoneSweeps(FinishOne(e, ids[0]), ids[1..]);
        SweptTrans(e, FinishOne(e, ids[0]), FinishDone(e, ids), ids[0], ids[1..]);
      } else {
        FinishDoneSweeps(e, ids[1..]);
        SweptTrans(e, e, FinishDone(e, ids), ids[0], ids[1..]);
      }
    }
  }

  lemma SweptRefl(e: Engine)
    ensures Swept(e, e, [])
  {
  }

  lemma {:induction false} FinishDoneSole(e: Engine, ids: seq<int>)
    requires Accounted(e) && Sole(Held(e)) && multiset(ids) <= multiset(e.running)
    ensures Sole(Held(FinishDone(e, ids)))
    decreases |ids|
  {
    hide Accounted, Members, FinishOne, Held;
    if ids != [] {
      assert ids == [ids[0]] + ids[1..];
      assert multiset(ids) == multiset{ids[0]} + multiset(ids[1..]);
      assert multiset(e.running)[ids[0]] >= 1;
      if e.Get(ids[0]).Done() {
        FinishOneAccounted(e, ids[0]);
        FinishHeld(e, ids[0]);
        FinishDoneSole(FinishOne(e, ids[0]), ids[1..]);
      } else {
        FinishDoneSole(e, ids[1..]);
      }
    }
  }
}
