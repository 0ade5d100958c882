/** What a step does to one sequence's record, from waking to retiring: it may start
    to run, be grown or preempted, be credited, and finish. */
module EngineRecords {
  import opened Lists
  import opened PagedSpec
  import opened EngineSpec
  import opened EngineAccounting
  import opened EngineMoves
  import opened EngineSteps
  import opened EngineRuns
  import opened EngineChunked
  import opened EngineGrowth
  import opened EngineHealthyWork
  import opened EngineTotal
  import opened EngineStarts

  // ---- growth

  /** The record of a sequence that has been preempted. */
  function Preempted(s: Sequence, swap: bool): Sequence {
    var s1 := s.(nPreemptions := s.nPreemptions + 1);
    if swap then s1.(table := [], status := Swapped) else Restarted(s1)
  }

  function Crosses(s: Sequence, size: pos): nat {
    if s.TotalLen() % size == 0 then 1 else 0
  }

  /** Where a sequence stands in the growth loop: in the batch, among the survivors,
      still to be grown. */
  datatype Place = Place(runs: bool, survives: bool, due: bool)

  function PlaceOf(e: Engine, survivors: seq<int>, decodes: seq<int>, x: int): Place {
    Place(x in e.running, x in survivors, x in decodes)
  }

  /** One record from place `p` to the end of the growth loop, where it runs or not
      and survives or not. A preempted one that is still due is grown without a table:
      it survives with a single block. */
  ghost predicate Grew(s: Sequence, s': Sequence, p: Place, p': Place, swap: bool, size: pos) {
    if !p.runs then
      && !p'.runs && s' == s.(table := s'.table)
      && (if p.due then p'.survives && |s'.table| == |s.table| + Crosses(s, size) && s'.table != []
          else s' == s && p'.survives == p.survives)
    else if p'.runs then
      && s' == s.(table := s'.table) && p'.survives == (p.survives || p.due)
      && |s'.table| == |s.table| + (if p.due then Crosses(s, size) else 0)
      && (!p.due ==> s' == s)
    else
      && s' == Preempted(s, swap).(table := s'.table)
      && (if p'.survives then p.due && |s'.table| == 1 && Crosses(s', size) == 1 else s'.table == [])
  }

  /** One turn of the loop, seen from a record. */
  ghost predicate Turned(s: Sequence, s': Sequence, p: Place, p': Place, own: bool, swap: bool, size: pos) {
    if !p.runs then
      && !p'.runs && s' == s.(table := s'.table)
      && (if own then p'.survives && |s'.table| == |s.table| + Crosses(s, size) && s'.table != []
          else s' == s && p'.survives == p.survives)
    else if p'.runs then
      && s' == s.(table := s'.table) && p'.survives == (p.survives || own)
      && |s'.table| == |s.table| + (if own then Crosses(s, size) else 0)
      && (!own ==> s' == s)
    else
      s' == Preempted(s, swap) && !p'.survives
  }

  lemma AppendSize(p: Pool, table: seq<nat>, len: nat)
    ensures var r := AppendToken(p, table, len);
      r.Grown? ==> |r.table| == |table| + (if len % p.blockSize == 0 then 1 else 0) && r.pool.blockSize == p.blockSize
  {
    hide AddBlock, Release;
    AppendConfig(p, table, len);
  }

  lemma AppendHolds(p: Pool, table: seq<nat>, len: nat)
    ensures var r := AppendToken(p, table, len); r.Grown? ==> r.table != []
  {
  }

  lemma PreemptRecord(e: Engine, v: int, x: int)
    requires NoDup(e.running) && v in e.running
    ensures
      var e' := Preempt(e, v);
      && NoDup(e'.running) && e'.cfg == e.cfg && e'.kv.blockSize == e.kv.blockSize
      && (x in e'.running <==> x in e.running && x != v)
      && e'.Get(x) == if x == v then Preempted(e.Get(x), e.cfg.swap) else e.Get(x)
  {
    RemoveNoDup(e.running, v);
    EngineGrowth.FreeConfig(e.kv, e.Get(v).table);
    hide Free;
  }

  lemma {:induction false} GrowOneTurns(e: Engine, id: int, survivors: seq<int>, x: int)
    requires NoDup(e.running) && NoDup(survivors) && id !in survivors
    ensures
      var g := GrowOne(e, id, survivors);
      g.Growth? ==>
        && NoDup(g.engine.running) && NoDup(g.survivors) && (forall y :: y in g.survivors ==> y in survivors || y == id)
        && g.engine.cfg == e.cfg && g.engine.kv.blockSize == e.kv.blockSize
        && Turned(e.Get(x), g.engine.Get(x), PlaceOf(e, survivors, [], x), PlaceOf(g.engine, g.survivors, [], x),
                  x == id, e.cfg.swap, e.kv.blockSize)
    decreases |e.running|
  {
    hide AppendToken, Preempt, Preempted;
    var s := e.Get(id);
    var r := AppendToken(e.kv, s.table, s.TotalLen());
    AppendSize(e.kv, s.table, s.TotalLen());
    AppendConfig(e.kv, s.table, s.TotalLen());
    AppendHolds(e.kv, s.table, s.TotalLen());
    if r.Grown? {
      SnocNoDup(survivors, id);
    } else if r.OutOfBlocks? {
      var e1 := e.(kv := r.pool);
      if Victim(e.running, id).Some? {
        var v := Victim(e.running, id).value;
        PreemptRecord(e1, v, x);
        PreemptRecord(e1, v, id);
        PreemptRunning(e1, v);
        RemoveNoDup(survivors, v);
        GrowOneTurns(Preempt(e1, v), id, Remove(survivors, v), x);
      } else if id in e.running {
        PreemptRecord(e1, id, x);
      }
    }
  }

  lemma {:induction false} GrowAllGrew(e: Engine, decodes: seq<int>, survivors: seq<int>, x: int)
    requires NoDup(e.running) && NoDup(survivors) && NoDup(decodes) && forall y :: y in decodes ==> y !in survivors
    ensures
      var g := GrowAll(e, decodes, survivors);
      g.Growth? ==>
        && NoDup(g.survivors) && g.engine.cfg == e.cfg && g.engine.kv.blockSize == e.kv.blockSize
        && Grew(e.Get(x), g.engine.Get(x), PlaceOf(e, survivors, decodes, x), PlaceOf(g.engine, g.survivors, [], x),
                e.cfg.swap, e.kv.blockSize)
    decreases |decodes|
  {
    hide GrowOne, Turned, Grew;
    if decodes == [] {
      GrewRefl(e.Get(x), PlaceOf(e, survivors, [], x), e.cfg.swap, e.kv.blockSize);
    } else {
      var id, rest := decodes[0], decodes[1..];
      RestDistinct(decodes);
      GrowOneTurns(e, id, survivors, x);
      var g := GrowOne(e, id, survivors);
      if g.Growth? {
        GrowAllGrew(g.engine, rest, g.survivors, x);
        var h := GrowAll(g.engine, rest, g.survivors);
        if h.Growth? {
          TurnedGrew(e.Get(x), g.engine.Get(x), h.engine.Get(x), PlaceOf(e, survivors, [], x),
                     PlaceOf(g.engine, g.survivors, [], x), PlaceOf(h.engine, h.survivors, [], x),
                     x == id, x in rest, e.cfg.swap, e.kv.blockSize);
        }
      }
    }
  }

  lemma RestDistinct(decodes: seq<int>)
    requires decodes != [] && NoDup(decodes)
    ensures decodes[0] !in decodes[1..] && NoDup(decodes[1..])
    ensures forall y :: y in decodes <==> y == decodes[0] || y in decodes[1..]
  {
    forall i | 0 <= i < |decodes[1..]| ensures decodes[1..][i] != decodes[0] {
      assert decodes[1..][i] == decodes[i + 1];
    }
    assert decodes == [decodes[0]] + decodes[1..];
  }

  lemma GrewRefl(s: Sequence, p: Place, swap: bool, size: pos)
    requires !p.due
    ensures Grew(s, s, p, p, swap, size)
  {
  }

  lemma TurnedGrew(a: Sequence, b: Sequence, c: Sequence, p: Place, q: Place, r: Place, own: bool, due: bool,
                   swap: bool, size: pos)
    requires Turned(a, b, p, q, own, swap, size) && Grew(b, c, q.(due := due), r, swap, size)
    requires !(own && due) && (due || own ==> !p.survives)
    ensures Grew(a, c, p.(due := own || due), r, swap, size)
  {
  }

  // ---- crediting and retiring

  function Retired(s: Sequence, now: real): Sequence {
    s.(finish := now, status := Finished, table := [])
  }

  lemma {:induction false} FinishPoint(e: Engine, ids: seq<int>, x: int)
    requires NoDup(ids)
    ensures
      var s, e' := e.Get(x), FinishDone(e, ids);
      e'.Get(x) == (if x in ids && s.Done() then Retired(s, e.now) else s) && e'.kv.blockSize == e.kv.blockSize
    decreases |ids|
  {
    hide Free;
    if ids != [] {
      RestDistinct(ids);
      EngineGrowth.FreeConfig(e.kv, e.Get(ids[0]).table);
      FinishPoint(if e.Get(ids[0]).Done() then FinishOne(e, ids[0]) else e, ids[1..], x);
    }
  }

  /** The record of `x` when a step has been credited and the finished have left. */
  function Settled(s: Sequence, cfg: Config, prefills: seq<Chunk>, decodes: seq<int>, input: StepInput, now: real,
                   runs: bool, x: int): Sequence {
    var counted := if Speculates(cfg, prefills, decodes) && x in decodes
                   then CountSpec(s, cfg.draftTokens, input.accepted) else s;
    var credited := CreditedRecord(counted, ChunkFor(prefills, x), x in ChunkIds(prefills), x in decodes,
                                   TokensPerDecode(cfg, prefills, decodes, input.accepted), now);
    if runs && credited.Done() then Retired(credited, now) else credited
  }

  lemma ApplyPoint(e: Engine, prefills: seq<Chunk>, decodes: seq<int>, input: StepInput, x: int)
    requires DistinctChunks(prefills) && NoDup(decodes) && NoDup(e.running)
    ensures
      var e' := ApplyWork(e, prefills, decodes, input);
      && e'.Get(x) == Settled(e.Get(x), e.cfg, prefills, decodes, input, e.now + input.duration, x in e.running, x)
      && e'.kv.blockSize == e.kv.blockSize && e'.cfg == e.cfg
  {
    hide ForEach, ForChunks, FinishDone, CreditedRecord, Retired, ChunkFor, ChunkIds;
    if Speculates(e.cfg, prefills, decodes) {
      ForEachPoint(e, decodes, CountingSpec(e.cfg.draftTokens, input.accepted), x);
    }
    EachSame(e, decodes, CountingSpec(e.cfg.draftTokens, input.accepted));
    var e2 := Clocked(e, prefills, decodes, input);
    var tokens := TokensPerDecode(e.cfg, prefills, decodes, input.accepted);
    TokenedRecord(e2, prefills, decodes, tokens, x);
    TokenedSame(e2, prefills, decodes, tokens);
    var e5 := Tokened(e2, prefills, decodes, tokens);
    hide Tokened;
    FinishPoint(e5, e5.running, x);
    FinishSame(e5, e5.running);
  }

  lemma {:induction false} FinishSame(e: Engine, ids: seq<int>)
    ensures FinishDone(e, ids).cfg == e.cfg
    decreases |ids|
  {
    hide Free;
    if ids != [] {
      FinishSame(if e.Get(ids[0]).Done() then FinishOne(e, ids[0]) else e, ids[1..]);
    }
  }

  lemma {:induction false} EachSame(e: Engine, ids: seq<int>, f: Sequence -> Sequence)
    ensures ForEach(e, ids, f) == e.(seqs := ForEach(e, ids, f).seqs)
    decreases |ids|
  {
    if ids != [] {
      EachSame(e.Put(ids[0], f(e.Get(ids[0]))), ids[1..], f);
    }
  }

  lemma {:induction false} ChunksSame(e: Engine, chunks: seq<Chunk>, f: (Sequence, nat) -> Sequence)
    ensures ForChunks(e, chunks, f) == e.(seqs := ForChunks(e, chunks, f).seqs)
    decreases |chunks|
  {
    if chunks != [] {
      ChunksSame(e.Put(chunks[0].id, f(e.Get(chunks[0].id), chunks[0].tokens)), chunks[1..], f);
    }
  }

  lemma TokenedSame(e: Engine, prefills: seq<Chunk>, decodes: seq<int>, tokens: nat)
    ensures var e' := Tokened(e, prefills, decodes, tokens); e' == e.(seqs := e'.seqs)
  {
    hide ForEach, ForChunks;
    ChunksSame(e, prefills, AddPrefill);
    var e3 := ForChunks(e, prefills, AddPrefill);
    EachSame(e3, decodes, Emitting(tokens, e.now));
    ChunksSame(ForEach(e3, decodes, Emitting(tokens, e.now)), prefills, EmittingFirst(e.now));
  }

  // ---- what the scheduler works for

  ghost predicate AllPositive(chunks: seq<Chunk>) {
    forall i :: 0 <= i < |chunks| ==> chunks[i].tokens > 0
  }

  lemma {:induction false} AdmitWholePositive(e: Engine, prefills: seq<Chunk>, budget: int, admitted: bool)
    requires AllPositive(prefills)
    ensures AllPositive(AdmitWhole(e, prefills, budget, admitted).1)
    decreases |e.waiting|
  {
    hide Allocate, StartHead;
    if !(e.waiting == [] || |e.running| >= e.cfg.maxNumSeqs || budget <= 0) {
      var id := e.waiting[0];
      var a := Allocate(e, id);
      AllocateWaiting(e, id);
      if a.ok {
        var e1 := StartHead(a.engine);
        StartShrinks(a.engine);
        var chunk := Remaining(e1.Get(id));
        if chunk > 0 {
          AdmitWholePositive(e1, prefills + [Chunk(id, chunk)], budget - chunk, true);
        }
        AdmitWholePositive(e1, prefills, budget, true);
      }
    }
  }

  lemma AllocateWaiting(e: Engine, id: int)
    ensures Allocate(e, id).engine.waiting == e.waiting
  {
    hide AllocatePrompt;
  }

  /** The parts of a step's work: prefills lack prompt tokens, decodes have them all. */
  ghost predicate Divided(e: Engine, w: Work) {
    w.Work? ==>
      && (forall x :: x in ChunkIds(w.prefills) ==> x in w.engine.running && !w.engine.Get(x).PrefillDone())
      && (forall x :: x in w.decodes ==> x in w.engine.running && w.engine.Get(x).PrefillDone())
  }

  lemma {:induction false} ChunkIdAt(chunks: seq<Chunk>, x: int) returns (i: nat)
    requires x in ChunkIds(chunks)
    ensures i < |chunks| && chunks[i].id == x
  {
    if chunks[0].id == x {
      i := 0;
    } else {
      var j := ChunkIdAt(chunks[1..], x);
      i := j + 1;
    }
  }

  lemma LackPrompt(e: Engine, chunks: seq<Chunk>)
    requires ChunksFit(e, chunks) && AllPositive(chunks)
    ensures forall x :: x in ChunkIds(chunks) ==> !e.Get(x).PrefillDone()
  {
    forall x | x in ChunkIds(chunks) ensures !e.Get(x).PrefillDone() {
      var i := ChunkIdAt(chunks, x);
    }
  }

  lemma ChunksRun(e: Engine, chunks: seq<Chunk>)
    requires PrefillsOk(e, chunks)
    ensures forall x :: x in ChunkIds(chunks) ==> x in e.running
  {
    forall x | x in ChunkIds(chunks) ensures x in e.running {
      assert multiset(ChunkIds(chunks))[x] >= 1;
    }
  }

  lemma ScheduleDivides(e: Engine)
    requires Accounted(e)
    ensures Divided(e, Schedule(e))
  {
    hide Accounted, PrefillsOk, Members, Schedule;
    ScheduleOk(e);
    var w := Schedule(e);
    if w.Work? {
      ScheduledPositive(e);
      PrefillsDistinctIn(w.engine, w.prefills);
      LackPrompt(w.engine, w.prefills);
      ChunksRun(w.engine, w.prefills);
      ScheduledDone(e);
    }
  }

  lemma ScheduledPositive(e: Engine)
    requires Schedule(e).Work?
    ensures AllPositive(Schedule(e).prefills)
  {
    hide AdmitChunked, AdmitWhole, RestoreSwapped, PartialChunks, FilterDone, SortByPriority;
    if e.cfg.chunked {
      ChunkedBudget(e);
    } else {
      var e1 := SortWaiting(e);
      assert AllPositive([]);
      AdmitWholePositive(e1, [], e1.cfg.maxBatchedTokens, false);
      assert Schedule(e) == SchedulePriority(e1);
    }
  }

  lemma ScheduledDone(e: Engine)
    requires Accounted(e) && Schedule(e).Work?
    ensures var w := Schedule(e); forall x :: x in w.decodes ==> w.engine.Get(x).PrefillDone()
  {
    hide Accounted, AdmitChunked, AdmitWhole, RestoreSwapped, PartialChunks, FilterDone, SortByPriority, PrefillsOk,
         ChunksFit, Members;
    SortWaitingAccounted(e);
    var e1 := SortWaiting(e);
    if e.cfg.chunked {
      FilterDoneIs(e1, e1.running, true);
      var budget := e.cfg.maxBatchedTokens - |FilterDone(e1, e1.running, true)|;
      FirstChunksOk(e1, budget);
      var first := PartialChunks(e1, FilterDone(e1, e1.running, false), budget);
      forall x | x in e1.running ensures AdmitChunked(e1, first, budget - TotalTokens(first)).0.Get(x) == e1.Get(x) {
        AdmitChunkedKeeps(e1, first, budget - TotalTokens(first), x);
      }
    } else {
      var e2 := AdmitWhole(e1, [], e.cfg.maxBatchedTokens, false).0;
      if RestoreSwapped(e2).Some? {
        FilterDoneIs(RestoreSwapped(e2).value, RestoreSwapped(e2).value.running, true);
      }
    }
  }

  // ---- the step

  /** What a step makes of the record of `x`, from its scheduled state `s1` over its
      grown state `s2`. */
  ghost predicate Stepped(s0: Sequence, s1: Sequence, s2: Sequence, s': Sequence, cfg: Config, size: pos, p: Place,
                          p': Place, r: StepResult, input: StepInput, now: real, x: int) {
    && Started(s0, s1, size) && Grew(s1, s2, p, p', cfg.swap, size) && !p.survives
    && (p.runs <==> s1.status == Running) && (p'.runs <==> s2.status == Running)
    && (p.due ==> p.runs && s1.PrefillDone())
    && match r
       case Worked(_, prefills, decodes) =>
         && (p'.survives <==> x in decodes) && (x in ChunkIds(prefills) ==> p.runs && !s1.PrefillDone())
         && s' == Settled(s2, cfg, prefills, decodes, input, now, p'.runs, x)
       case _ => s' == s2 && !p'.survives
  }

  lemma RunningIs(e: Engine, x: int)
    requires Accounted(e)
    ensures x in e.running <==> e.Get(x).status == Running
  {
    if e.Get(x).status == Running {
      assert x in e.seqs && OnSomeList(e, x);
    }
  }

  lemma StepWorkRecord(e: Engine, input: StepInput, x: int) returns (s1: Sequence, s2: Sequence, p: Place, p': Place)
    requires Accounted(e) && input.duration >= 0.0 && !StepWork(e, input).Crashed?
    ensures
      var r := StepWork(e, input);
      && Stepped(e.Get(x), s1, s2, r.engine.Get(x), e.cfg, e.kv.blockSize, p, p', r, input,
                 e.now + input.duration, x)
      && r.engine.kv.blockSize == e.kv.blockSize
    ensures Schedule(e).Work? && s1 == Schedule(e).engine.Get(x)
  {
    hide Accounted, Schedule, GrowAll, ApplyWork, PrefillsOk, ChunksFit, DistinctChunks, Shrunk, Settled, Grew, Started,
         Members;
    ScheduleOk(e);
    ScheduleStarts(e);
    ScheduleDivides(e);
    DecodesDistinct(e);
    var w := Schedule(e);
    RunningUnfinished(w.engine, w.decodes);
    GrowAllOk(w.engine, w.decodes, [], w.decodes);
    RunningNoDup(w.engine);
    GrowAllGrew(w.engine, w.decodes, [], x);
    var g := GrowAll(w.engine, w.decodes, []);
    PrefillsDistinctIn(w.engine, w.prefills);
    ShrunkClock(w.engine, g.engine);
    RunningNoDup(g.engine);
    RunningIs(w.engine, x);
    RunningIs(g.engine, x);
    ApplyPoint(g.engine, w.prefills, g.survivors, input, x);
    s1, s2 := w.engine.Get(x), g.engine.Get(x);
    p, p' := PlaceOf(w.engine, [], w.decodes, x), PlaceOf(g.engine, g.survivors, [], x);
  }
}
