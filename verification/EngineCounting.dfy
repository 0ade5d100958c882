/** With caching off, growing the decodes is a matter of counting: free blocks, the
    running list in order, and the size of each table decide who survives, who is
    preempted and whether the step raises, whichever sequence is the newest. */
module EngineCounting {
  import opened Lists
  import opened PagedSpec
  import opened EngineSpec
  import opened EngineAccounting
  import opened EngineSteps
  import opened EngineRuns
  import opened EngineStarts
  import opened EngineChunked
  import opened EngineGrowth
  import opened EngineUnshared
  import opened EngineFit

  // ---- counting

  /** Free blocks, who runs, newest last, the blocks of each table, and who has been
      grown so far. */
  datatype Tally = Tally(free: nat, running: seq<int>, held: map<int, nat>, survivors: seq<int>)
  {
    function Of(x: int): nat {
      if x in held then held[x] else 0
    }
  }

  datatype Count = Counted(tally: Tally) | CountFailed

  /** The length a sequence has while growing: a preempted one waits. */
  function LenNow(e: Engine, t: Tally, x: int): nat {
    if x in t.running then e.Get(x).TotalLen() else WaitingLen(e, x)
  }

  function Give(t: Tally, v: int): Tally {
    t.(free := t.free + t.Of(v), running := Remove(t.running, v), held := t.held[v := 0],
       survivors := Remove(t.survivors, v))
  }

  /** On a block boundary a sequence takes a free block, or the newest other running
      sequence gives back its blocks, or it gives back its own; off the boundary it
      takes none, but needs to have one. */
  function CountOne(e: Engine, t: Tally, id: int): Count
    decreases |t.running|
  {
    if LenNow(e, t, id) % e.kv.blockSize != 0 then
      if t.Of(id) == 0 then CountFailed else Counted(t.(survivors := t.survivors + [id]))
    else if t.free > 0 then
      Counted(t.(free := t.free - 1, held := t.held[id := t.Of(id) + 1], survivors := t.survivors + [id]))
    else
      match Victim(t.running, id)
      case Some(v) => CountOne(e, Give(t, v), id)
      case None => if id in t.running then Counted(Give(t, id).(survivors := t.survivors)) else CountFailed
  }

  function CountAll(e: Engine, t: Tally, ids: seq<int>): Count
    decreases |ids|
  {
    if ids == [] then Counted(t)
    else match CountOne(e, t, ids[0])
      case CountFailed => CountFailed
      case Counted(t1) => CountAll(e, t1, ids[1..])
  }

  function TallyOf(e: Engine): Tally {
    Tally(|e.kv.freeIds|, e.running, map x | x in e.running :: |e.Get(x).table|, [])
  }

  // ---- the pool counts along

  lemma AppendCounts(p: Pool, table: seq<nat>, len: nat)
    requires Unshared(p)
    ensures
      var r := AppendToken(p, table, len);
      if len % p.blockSize != 0 then
        if table == [] then r == IndexError
        else r.Grown? && r.table == table && r.pool.freeIds == p.freeIds && r.pool.blockSize == p.blockSize
      else if p.freeIds == [] then
        r.OutOfBlocks? && r.pool.freeIds == [] && r.pool.blockSize == p.blockSize
      else
        r.Grown? && |r.table| == |table| + 1 && |r.pool.freeIds| == |p.freeIds| - 1 && r.pool.blockSize == p.blockSize
  {
    assert EvictOne(p).None?;
  }

  lemma ReleaseCounts(p: Pool, b: nat)
    requires Unshared(p)
    ensures |Release(p, b).freeIds| == |p.freeIds| + 1 && Release(p, b).blockSize == p.blockSize
  {
  }

  /** Every block a table gives back is free. */
  lemma {:induction false} FreeCounts(p: Pool, table: seq<nat>)
    requires Unshared(p)
    ensures |Free(p, table).freeIds| == |p.freeIds| + |table| && Free(p, table).blockSize == p.blockSize
    decreases |table|
  {
    hide Release, Unshared;
    if table != [] {
      ReleaseCounts(p, table[0]);
      ReleaseUnshared(p, table[0]);
      FreeCounts(Release(p, table[0]), table[1..]);
    }
  }

  // ---- the engine counts along

  /** The engine, come from `e0`, is as the tally says. */
  ghost predicate Tallied(e0: Engine, e: Engine, t: Tally, survivors: seq<int>) {
    && Unshared(e.kv) && e.cfg == e0.cfg && e.kv.blockSize == e0.kv.blockSize
    && |e.kv.freeIds| == t.free && e.running == t.running && NoDup(e.running) && survivors == t.survivors
    && forall x :: x in e0.running ==> TalliedOne(e0, e, t, x)
  }

  ghost predicate TalliedOne(e0: Engine, e: Engine, t: Tally, x: int) {
    var s := e.Get(x);
    && |s.table| == t.Of(x) && s.TotalLen() == LenNow(e0, t, x) && s.req == e0.Get(x).req
    && (x in e.running ==> s.generated == e0.Get(x).generated)
  }

  lemma StartTallied(e: Engine)
    requires Unshared(e.kv) && NoDup(e.running)
    ensures Tallied(e, e, TallyOf(e), [])
  {
  }

  /** A preempted sequence gives back what the tally says. */
  lemma PreemptTallied(e0: Engine, e: Engine, t: Tally, survivors: seq<int>, v: int)
    requires Tallied(e0, e, t, survivors) && v in e.running && v in e0.running
    ensures Tallied(e0, Preempt(e, v), Give(t, v), Remove(survivors, v))
  {
    FreeCounts(e.kv, e.Get(v).table);
    FreeUnshared(e.kv, e.Get(v).table);
    RemoveNoDup(e.running, v);
    hide Unshared, Free;
    assert TalliedOne(e0, e, t, v);
    var e', t' := Preempt(e, v), Give(t, v);
    assert e'.running == t'.running && v !in t'.running;
    forall x | x in e0.running ensures TalliedOne(e0, e', t', x) {
      assert TalliedOne(e0, e, t, x);
      if x != v {
        assert x in t'.running <==> x in t.running;
        assert e'.Get(x) == e.Get(x);
      }
    }
  }

  lemma GrownTallied(e0: Engine, e: Engine, t: Tally, survivors: seq<int>, id: int)
    requires Tallied(e0, e, t, survivors) && id in e0.running
    requires AppendToken(e.kv, e.Get(id).table, e.Get(id).TotalLen()).Grown?
    ensures GrowOne(e, id, survivors).Growth?
    ensures CountOne(e0, t, id).Counted?
    ensures var g := GrowOne(e, id, survivors); Tallied(e0, g.engine, CountOne(e0, t, id).tally, g.survivors)
  {
    assert TalliedOne(e0, e, t, id);
    AppendCounts(e.kv, e.Get(id).table, e.Get(id).TotalLen());
    AppendUnshared(e.kv, e.Get(id).table, e.Get(id).TotalLen());
    hide Unshared, AppendToken;
    var e', t' := GrowOne(e, id, survivors).engine, CountOne(e0, t, id).tally;
    assert e'.running == e.running && t'.running == t.running;
    forall x | x in e0.running ensures TalliedOne(e0, e', t', x) {
      assert TalliedOne(e0, e, t, x);
    }
  }

  /** The pool may count its failure. */
  lemma PoolTallied(e0: Engine, e: Engine, t: Tally, survivors: seq<int>, kv: Pool)
    requires Tallied(e0, e, t, survivors) && Unshared(kv) && kv.blockSize == e.kv.blockSize
    requires |kv.freeIds| == |e.kv.freeIds|
    ensures Tallied(e0, e.(kv := kv), t, survivors)
  {
    hide Unshared;
    forall x | x in e0.running ensures TalliedOne(e0, e.(kv := kv), t, x) {
      assert TalliedOne(e0, e, t, x);
    }
  }

  /** When no block is left the count does as the engine does: it preempts the newest
      other sequence, or the sequence itself. */
  lemma MakesRoom(e: Engine, t: Tally, survivors: seq<int>, id: int, e0: Engine, kv: Pool)
    requires Tallied(e0, e, t, survivors) && id in e0.running
    requires AppendToken(e.kv, e.Get(id).table, e.Get(id).TotalLen()) == OutOfBlocks(kv)
    ensures Tallied(e0, e.(kv := kv), t, survivors)
    ensures
      var v := Victim(e.running, id);
      if v.Some? then
        && GrowOne(e, id, survivors) == GrowOne(Preempt(e.(kv := kv), v.value), id, Remove(survivors, v.value))
        && CountOne(e0, t, id) == CountOne(e0, Give(t, v.value), id)
      else
        && GrowOne(e, id, survivors)
           == (if id in e.running then Growth(Preempt(e.(kv := kv), id), survivors) else GrowFailed)
        && CountOne(e0, t, id)
           == (if id in e.running then Counted(Give(t, id).(survivors := survivors)) else CountFailed)
  {
    assert TalliedOne(e0, e, t, id);
    AppendCounts(e.kv, e.Get(id).table, e.Get(id).TotalLen());
    AppendUnshared(e.kv, e.Get(id).table, e.Get(id).TotalLen());
    PoolTallied(e0, e, t, survivors, kv);
    hide Unshared, AppendToken, TalliedOne, Preempt, Give;
  }

  lemma IndexCounts(e0: Engine, e: Engine, t: Tally, survivors: seq<int>, id: int)
    requires Tallied(e0, e, t, survivors) && id in e0.running
    requires AppendToken(e.kv, e.Get(id).table, e.Get(id).TotalLen()).IndexError?
    ensures GrowOne(e, id, survivors) == GrowFailed && CountOne(e0, t, id) == CountFailed
  {
    assert TalliedOne(e0, e, t, id);
    AppendCounts(e.kv, e.Get(id).table, e.Get(id).TotalLen());
    hide Unshared, AppendToken;
  }

  /** Whoever gives its own blocks back leaves the survivors as they were. */
  lemma SurvivorsKept(e0: Engine, e: Engine, t: Tally, a: seq<int>, b: seq<int>)
    requires Tallied(e0, e, t, a)
    ensures Tallied(e0, e, t.(survivors := b), b)
  {
    forall x | x in e0.running ensures TalliedOne(e0, e, t.(survivors := b), x) {
      assert TalliedOne(e0, e, t, x);
    }
  }

  ghost predicate Within(a: seq<int>, b: seq<int>) {
    forall x :: x in a ==> x in b
  }

  /** What the count says of one decode is what growing it does. */
  lemma {:induction false} GrowOneCounted(e0: Engine, e: Engine, t: Tally, survivors: seq<int>, id: int)
    requires Tallied(e0, e, t, survivors) && id in e0.running && NoDup(e.running) && Within(e.running, e0.running)
    ensures
      var g, c := GrowOne(e, id, survivors), CountOne(e0, t, id);
      && (g == GrowFailed <==> c == CountFailed)
      && (g.Growth? && c.Counted? ==>
            Tallied(e0, g.engine, c.tally, g.survivors) && Within(g.engine.running, e0.running))
    decreases |e.running|
  {
    hide AppendToken, Tallied, Preempt, Give, CountOne, GrowOne;
    var r := AppendToken(e.kv, e.Get(id).table, e.Get(id).TotalLen());
    if r.Grown? {
      GrownTallied(e0, e, t, survivors, id);
      GrownRuns(e, id, survivors);
    } else if r.OutOfBlocks? {
      var e1 := e.(kv := r.pool);
      MakesRoom(e, t, survivors, id, e0, r.pool);
      var v := if Victim(e.running, id).Some? then Victim(e.running, id).value else id;
      if v in e.running {
        PreemptTallied(e0, e1, t, survivors, v);
        PreemptRunning(e1, v);
        RemoveNoDup(e.running, v);
        if v != id {
          GrowOneCounted(e0, Preempt(e1, v), Give(t, v), Remove(survivors, v), id);
        } else {
          SurvivorsKept(e0, Preempt(e1, id), Give(t, id), Remove(survivors, id), survivors);
        }
      }
    } else {
      IndexCounts(e0, e, t, survivors, id);
    }
  }

  lemma GrownRuns(e: Engine, id: int, survivors: seq<int>)
    requires AppendToken(e.kv, e.Get(id).table, e.Get(id).TotalLen()).Grown? && GrowOne(e, id, survivors).Growth?
    ensures GrowOne(e, id, survivors).engine.running == e.running
  {
    hide AppendToken;
  }

  lemma RunsOnce(e0: Engine, e: Engine, t: Tally, survivors: seq<int>)
    requires Tallied(e0, e, t, survivors)
    ensures NoDup(e.running)
  {
  }

  lemma {:induction false} GrowAllCounted(e0: Engine, e: Engine, t: Tally, survivors: seq<int>, ids: seq<int>)
    requires Tallied(e0, e, t, survivors) && Within(e.running, e0.running) && Within(ids, e0.running)
    ensures
      var g, c := GrowAll(e, ids, survivors), CountAll(e0, t, ids);
      && (g == GrowFailed <==> c == CountFailed)
      && (g.Growth? && c.Counted? ==> Tallied(e0, g.engine, c.tally, g.survivors))
    decreases |ids|
  {
    hide Tallied, GrowOne, CountOne;
    if ids != [] {
      assert ids[0] in ids && forall x :: x in ids[1..] ==> x in ids;
      RunsOnce(e0, e, t, survivors);
      GrowOneCounted(e0, e, t, survivors, ids[0]);
      var g, c := GrowOne(e, ids[0], survivors), CountOne(e0, t, ids[0]);
      if g.Growth? && c.Counted? {
        GrowAllCounted(e0, g.engine, c.tally, g.survivors, ids[1..]);
      }
    }
  }

  /** Counting decides growing: whether it raises, and if not, who survives, who still
      runs, how many blocks each of them has and how many are free. */
  lemma GrowthCounted(e: Engine, decodes: seq<int>)
    requires Unshared(e.kv) && NoDup(e.running) && forall x :: x in decodes ==> x in e.running
    ensures
      var g, c := GrowAll(e, decodes, []), CountAll(e, TallyOf(e), decodes);
      && (g == GrowFailed <==> c == CountFailed)
      && (g.Growth? && c.Counted? ==>
            && g.survivors == c.tally.survivors && g.engine.running == c.tally.running
            && |g.engine.kv.freeIds| == c.tally.free
            && forall x :: x in e.running ==> |g.engine.Get(x).table| == c.tally.Of(x))
  {
    StartTallied(e);
    GrowAllCounted(e, e, TallyOf(e), [], decodes);
    hide Unshared, GrowAll, CountAll;
    var g, c := GrowAll(e, decodes, []), CountAll(e, TallyOf(e), decodes);
    if g.Growth? && c.Counted? {
      forall x | x in e.running ensures |g.engine.Get(x).table| == c.tally.Of(x) {
        assert TalliedOne(e, g.engine, c.tally, x);
      }
    }
  }

  // ---- a restore never raises

  lemma TakeCounts(p: Pool, hash: Option<Digest>, nTokens: nat)
    requires Unshared(p) && p.freeIds != []
    ensures
      var t := AddBlock(p, hash, nTokens);
      && t.bid.Some? && |t.pool.freeIds| == |p.freeIds| - 1 && t.pool.blockSize == p.blockSize
      && t.pool.watermark == p.watermark && CountMiss(p).freeIds == p.freeIds && Unshared(CountMiss(p))
  {
  }

  lemma {:induction false} FullCounts(p: Pool, chunks: seq<seq<Token>>, i: nat, prev: Option<Digest>, matching: bool,
                                      table: seq<nat>, cached: nat)
    requires i <= |chunks| && Unshared(p) && |p.freeIds| >= |chunks| - i
    ensures
      var r := AllocateFull(p, chunks, i, prev, matching, table, cached);
      r.ok && |r.pool.freeIds| == |p.freeIds| - (|chunks| - i) && Unshared(r.pool)
    decreases |chunks| - i
  {
    if i < |chunks| {
      var h := HashBlock(prev, chunks[i]);
      assert h !in p.cache;
      TakeCounts(p, Some(h), p.blockSize);
      TakeCounts(CountMiss(p), Some(h), p.blockSize);
      AddBlockUnshared(CountMiss(p), Some(h), p.blockSize);
      hide AddBlock, Unshared;
      var r := PlaceFull(p, h, matching);
      FullCounts(r.pool, chunks, i + 1, Some(h), r.hit, table + [r.bid.value],
                 if r.hit then cached + p.blockSize else cached);
    }
  }

  lemma PromptCounts(p: Pool, tokens: seq<Token>, n: nat)
    requires Unshared(p) && |tokens| <= n && p.CanAllocate(CeilDiv(n, p.blockSize))
    ensures AllocatePrompt(p, tokens).ok && Unshared(AllocatePrompt(p, tokens).pool)
  {
    hide AllocateFull, AddBlock;
    EnoughFree(p, |tokens|, n);
    AllocatePromptUnshared(p, tokens);
    var chunks := Chunks(tokens, p.blockSize);
    FullCounts(p, chunks, 0, None, p.caching, [], 0);
    var full := AllocateFull(p, chunks, 0, None, p.caching, [], 0);
    if |tokens| % p.blockSize != 0 {
      TakeCounts(full.pool, None, |tokens| % p.blockSize);
    }
  }

  lemma EnoughFree(p: Pool, k: nat, n: nat)
    requires Unshared(p) && k <= n && p.CanAllocate(CeilDiv(n, p.blockSize))
    ensures |p.freeIds| >= k / p.blockSize + if k % p.blockSize == 0 then 0 else 1
  {
    CeilDivIs(k, p.blockSize);
    DivMonotone(k + p.blockSize - 1, n + p.blockSize - 1, p.blockSize);
    assert (set h | h in p.cache && p.Idle(h)) == {};
  }

  /** With caching off whatever the guard lets come back gets its blocks. */
  lemma {:induction false} RestoreNeverFails(e: Engine)
    requires Unshared(e.kv)
    ensures RestoreSwapped(e).Some?
    decreases |e.swapped|
  {
    hide AllocatePrompt, Unshared;
    if !(e.swapped == [] || |e.running| >= e.cfg.maxNumSeqs) {
      var id := e.swapped[0];
      var s := e.Get(id);
      if e.kv.CanAllocate(CeilDiv(s.TotalLen(), e.kv.blockSize)) {
        PromptCounts(e.kv, RestoreTokens(s), s.TotalLen());
        var r := AllocatePrompt(e.kv, RestoreTokens(s));
        RestoreNeverFails(e.Put(id, s.(table := r.table, status := Running)).(
                            swapped := e.swapped[1..], running := e.running + [id],
                            kv := r.pool, lost := e.lost + multiset(s.table)));
      }
    }
  }

  lemma ScheduleNeverFails(e: Engine)
    requires Unshared(e.kv)
    ensures Schedule(e).Work?
  {
    hide AdmitChunked, AdmitWhole, RestoreSwapped, FilterDone, PartialChunks, SortByPriority, Unshared;
    var e1 := SortWaiting(e);
    if !e.cfg.chunked {
      AdmitWholeUnshared(e1, [], e.cfg.maxBatchedTokens, false);
      RestoreNeverFails(AdmitWhole(e1, [], e.cfg.maxBatchedTokens, false).0);
    }
  }

  // ---- whole steps and runs

  lemma WakeUnshared(e: Engine)
    requires Unshared(e.kv)
    ensures Unshared(Wake(e).kv)
  {
    hide AdmitArrivals, Unshared;
    ArrivalsUnshared(e);
    var a := AdmitArrivals(e);
    if !(InFlight(a) || a.pending == []) {
      ArrivalsUnshared(a.(now := a.pending[0].arrival));
    }
  }

  /** What a step is about to grow does not count out. */
  ghost predicate CountsOut(e: Engine) {
    var w := Schedule(Wake(e));
    w.Work? && CountAll(w.engine, TallyOf(w.engine), w.decodes) == CountFailed
  }

  /** With caching off, whatever else a step does, it raises exactly when growing its
      decodes counts out. */
  lemma StepCountsOut(e: Engine, input: StepInput)
    requires Accounted(e) && Unshared(e.kv)
    ensures Step(e, input).Crashed? <==> (InFlight(Wake(e)) || Wake(e).pending != []) && CountsOut(e)
  {
    hide Accounted, Unshared, Wake, Schedule, GrowAll, CountAll, ApplyWork, Members, PrefillsOk;
    WakeAccounted(e);
    WakeUnshared(e);
    ScheduleNeverFails(Wake(e));
    ScheduleOk(Wake(e));
    DecodesDistinct(Wake(e));
    ScheduleUnshared(Wake(e));
    var w := Schedule(Wake(e));
    RunningNoDup(w.engine);
    GrowthCounted(w.engine, w.decodes);
  }

  /** Command i is a step, and the run gets to it in a state of which `p` holds. */
  ghost predicate StepsFrom(p: Engine -> bool, e: Engine, commands: seq<Command>, i: nat)
    requires i < |commands|
  {
    var before := Execute(e, commands[..i]);
    commands[i].StepOnce? && before.Some? && p(before.value)
  }

  /** Some step of the run is taken in such a state. */
  ghost predicate SomeStepFrom(p: Engine -> bool, e: Engine, commands: seq<Command>) {
    exists i :: 0 <= i < |commands| && StepsFrom(p, e, commands, i)
  }

  /** What the step is about to grow does not count out. */
  ghost predicate Raises(e: Engine) {
    (InFlight(Wake(e)) || Wake(e).pending != []) && CountsOut(e)
  }

  lemma StepsLater(p: Engine -> bool, e: Engine, e1: Engine, commands: seq<Command>, i: nat)
    requires i + 1 < |commands| && Execute(e, commands[..i + 1]) == Execute(e1, commands[1..][..i])
    ensures StepsFrom(p, e, commands, i + 1) <==> StepsFrom(p, e1, commands[1..], i)
  {
    hide Execute;
  }

  lemma ExecuteFirst(e: Engine, commands: seq<Command>, i: nat)
    requires i < |commands|
    ensures
      commands[0].SubmitAll? ==>
        Execute(e, commands[..i + 1]) == Execute(Submit(e, commands[0].reqs), commands[1..][..i])
    ensures
      commands[0].StepOnce? && !Step(e, commands[0].input).Crashed? ==>
        Execute(e, commands[..i + 1]) == Execute(Step(e, commands[0].input).engine, commands[1..][..i])
    ensures
      commands[0].StepOnce? && Step(e, commands[0].input).Crashed? ==> Execute(e, commands[..i + 1]) == None
  {
    hide Step, Submit;
    assert commands[..i + 1][1..] == commands[1..][..i];
  }

  /** A run has such a step if it starts with one or its rest has one. */
  lemma StepsRest(p: Engine -> bool, e: Engine, e1: Engine, commands: seq<Command>)
    requires commands != []
    requires forall i :: 0 <= i < |commands| ==> Execute(e, commands[..i + 1]) == Execute(e1, commands[1..][..i])
    ensures SomeStepFrom(p, e, commands) <==> StepsFrom(p, e, commands, 0) || SomeStepFrom(p, e1, commands[1..])
  {
    hide StepsFrom, Execute;
    forall i: nat | i + 1 < |commands|
      ensures StepsFrom(p, e, commands, i + 1) <==> StepsFrom(p, e1, commands[1..], i)
    {
      StepsLater(p, e, e1, commands, i);
    }
    if SomeStepFrom(p, e, commands) && !StepsFrom(p, e, commands, 0) {
      var i :| 0 <= i < |commands| && StepsFrom(p, e, commands, i);
      assert StepsFrom(p, e1, commands[1..], i - 1);
    }
    if SomeStepFrom(p, e1, commands[1..]) {
      var i :| 0 <= i < |commands[1..]| && StepsFrom(p, e1, commands[1..], i);
      assert StepsFrom(p, e, commands, i + 1);
    }
  }

  lemma StepsNow(p: Engine -> bool, e: Engine, commands: seq<Command>)
    requires commands != []
    ensures StepsFrom(p, e, commands, 0) <==> commands[0].StepOnce? && p(e)
  {
    assert commands[..0] == [];
  }

  /** A run without caching ends in an exception exactly when it gets to a step that
      does not count out. */
  lemma {:induction false} RunCountsOut(e: Engine, commands: seq<Command>)
    requires Accounted(e) && Unshared(e.kv) && (forall i :: 0 <= i < |commands| ==> CommandOk(commands[i]))
    requires AtMostOnce(Members(e) + multiset(Submitted(commands)))
    ensures Execute(e, commands) == None <==> SomeStepFrom(Raises, e, commands)
    decreases |commands|
  {
    hide Accounted, Members, AtMostOnce, Step, Submit, Unshared, Raises, StepsFrom;
    if commands != [] {
      assert CommandOk(commands[0]);
      StepsNow(Raises, e, commands);
      forall i | 0 <= i < |commands| {
        ExecuteFirst(e, commands, i);
      }
      var rest := commands[1..];
      var tail := multiset(Submitted(rest));
      match commands[0] {
        case SubmitAll(reqs) =>
          var mine := multiset(Ids(reqs));
          assert multiset(Submitted(commands)) == mine + tail;
          assert Members(e) + mine + tail == Members(e) + multiset(Submitted(commands));
          AtMostOnceSub(Members(e) + mine, tail);
          SubmitAccounted(e, reqs);
          SubmitKv(e, reqs);
          RunCountsOut(Submit(e, reqs), rest);
          StepsRest(Raises, e, Submit(e, reqs), commands);
        case StepOnce(input) =>
          assert Submitted(commands) == Submitted(rest);
          RaisesStep(e, input);
          StepAccounted(e, input);
          StepUnshared(e, input);
          var r := Step(e, input);
          if !r.Crashed? {
            RunCountsOut(r.engine, rest);
            StepsRest(Raises, e, r.engine, commands);
          }
      }
    }
  }

  lemma RaisesStep(e: Engine, input: StepInput)
    requires Accounted(e) && Unshared(e.kv)
    ensures Step(e, input).Crashed? <==> Raises(e)
  {
    hide Accounted, Unshared, Step, CountsOut, Wake;
    StepCountsOut(e, input);
  }
}
