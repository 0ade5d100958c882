/** Each step of a healthy engine does work and leaves it healthy; whole runs end
    with everything finished. */
module EngineTotal {
  import opened Lists
  import opened PagedSpec
  import opened PagedInvariant
  import opened EngineSpec
  import opened EngineAccounting
  import opened EngineMoves
  import opened EngineSteps
  import opened EngineRuns
  import opened EngineMemory
  import opened EngineFit
  import opened EngineHealth
  import opened EngineHealthySteps
  import opened EngineHealthyWork
  import opened EngineDebt
  import opened EngineLiveness

  ghost predicate WorkReady(e: Engine, prefills: seq<Chunk>, decodes: seq<int>) {
    && DistinctChunks(prefills) && NoDup(decodes) && (prefills != [] || decodes != [])
    && (forall x :: x in ChunkIds(prefills) ==> x in e.running)
    && (forall x :: x in decodes ==> x in e.running)
    && (forall x :: x in e.running ==>
          WorkFor(e.Get(x), ChunkFor(prefills, x), x in ChunkIds(prefills), x in decodes,
                  e.kv.blockSize, e.cfg.chunked))
  }

  ghost predicate Ready(e: Engine, m: nat, prefills: seq<Chunk>, decodes: seq<int>) {
    && Accounted(e) && MemoryOk(e) && Sole(Held(e)) && Calm(e, m)
    && ChunksFit(e, prefills) && WorkReady(e, prefills, decodes)
  }

  // ---- the scheduler's work is ready to apply

  lemma {:induction false} ChunkForIs(chunks: seq<Chunk>, i: nat)
    requires i < |chunks| && DistinctChunks(chunks)
    ensures ChunkFor(chunks, chunks[i].id) == chunks[i].tokens
  {
    if i > 0 {
      assert chunks[0].id != chunks[i].id;
      ChunkForIs(chunks[1..], i - 1);
    }
  }

  lemma ChunkIdAt(chunks: seq<Chunk>, x: int) returns (i: nat)
    requires x in ChunkIds(chunks)
    ensures i < |chunks| && chunks[i].id == x
  {
    ChunkIdsAre(chunks);
    i :| 0 <= i < |ChunkIds(chunks)| && ChunkIds(chunks)[i] == x;
  }

  /** A grown or untouched engine and the work chosen for it fit together. */
  lemma ReadyAfterGrowth(w: Work, e: Engine, m: nat, todo: seq<int>, rest: seq<int>)
    requires WorkSuits(w, m, todo) && OnlyTables(w.engine, e) && MidStep(e, m, rest)
    requires DistinctChunks(w.prefills) && ChunksFit(e, w.prefills)
    requires forall x :: x in todo ==> w.engine.Get(x).PrefillDone()
    requires (w.decodes == todo && rest == []) || (w.decodes == [] && rest == todo)
    ensures Ready(e, m, w.prefills, w.decodes)
  {
    hide Accounted, MemoryOk, Sole, Held, ChunksFit;
    forall x | x in ChunkIds(w.prefills) ensures x in e.running {
      var i := ChunkIdAt(w.prefills, x);
    }
    forall x | x in e.running
      ensures WorkFor(e.Get(x), ChunkFor(w.prefills, x), x in ChunkIds(w.prefills), x in w.decodes,
                      e.kv.blockSize, e.cfg.chunked)
    {
      RecordReady(w, e, m, todo, rest, x);
    }
  }

  lemma RecordReady(w: Work, e: Engine, m: nat, todo: seq<int>, rest: seq<int>, x: int)
    requires WorkSuits(w, m, todo) && OnlyTables(w.engine, e) && Tables(e, rest) && x in e.running
    requires DistinctChunks(w.prefills)
    requires forall y :: y in todo ==> w.engine.Get(y).PrefillDone()
    requires (w.decodes == todo && rest == []) || (w.decodes == [] && rest == todo)
    ensures WorkFor(e.Get(x), ChunkFor(w.prefills, x), x in ChunkIds(w.prefills), x in w.decodes,
                    e.kv.blockSize, e.cfg.chunked)
  {
    hide MidStep, CeilDiv;
    var s, s0 := e.Get(x), w.engine.Get(x);
    assert s == s0.(table := s.table);
    if x in ChunkIds(w.prefills) {
      var i := ChunkIdAt(w.prefills, x);
      ChunkForIs(w.prefills, i);
      assert Prefilling(w.engine.Get(w.prefills[i].id), w.engine.kv.blockSize);
    }
  }

  // ---- the clock

  ghost predicate OnlySpec(e: Engine, e': Engine) {
    && SameTables(e, e')
    && forall x ::
         e'.Get(x) == e.Get(x).(specProposed := e'.Get(x).specProposed, specAccepted := e'.Get(x).specAccepted)
  }

  /** The two engines have the same lists, pool and limits. */
  ghost predicate SameTables(e: Engine, e': Engine) {
    && e'.cfg == e.cfg && e'.pending == e.pending && e'.waiting == e.waiting && e'.running == e.running
    && e'.swapped == e.swapped && e'.kv == e.kv && e'.lost == e.lost
    && e'.totalPreemptions == e.totalPreemptions && e'.seqs.Keys == e.seqs.Keys
    && forall x :: e'.Get(x).table == e.Get(x).table && e'.Get(x).req == e.Get(x).req
  }

  lemma {:induction false} CountOnlySpec(e: Engine, ids: seq<int>, k: nat, accepted: nat)
    requires forall x :: x in ids ==> x in e.seqs
    ensures OnlySpec(e, ForEach(e, ids, CountingSpec(k, accepted)))
    decreases |ids|
  {
    if ids != [] {
      var id := ids[0];
      assert id in ids;
      CountOnlySpec(e.Put(id, CountSpec(e.Get(id), k, accepted)), ids[1..], k, accepted);
    }
  }

  lemma ClockedOnlySpec(e: Engine, prefills: seq<Chunk>, decodes: seq<int>, input: StepInput)
    requires forall x :: x in decodes ==> x in e.seqs
    ensures OnlySpec(e, Clocked(e, prefills, decodes, input))
  {
    CountOnlySpec(e, decodes, e.cfg.draftTokens, input.accepted);
    hide ForEach;
  }

  lemma SameTablesHeld(e: Engine, e': Engine)
    requires SameTables(e, e')
    ensures Held(e') == Held(e)
  {
    LiveSame(e, e');
    RefsSame(e, e', Live(e));
  }

  lemma SpecCalm(e: Engine, e': Engine, m: nat)
    requires OnlySpec(e, e') && Calm(e, m)
    ensures Calm(e', m) && Debt(e') <= Debt(e)
  {
    LiveSame(e, e');
    forall x ensures Owed(e'.Get(x)) == Owed(e.Get(x)) && (Untouched(e.Get(x)) ==> Untouched(e'.Get(x))) {
    }
    DebtAtMost(e, e');
    hide Fits, Debt, Untouched;
    forall x | x in e'.seqs ensures Fits(e'.seqs[x].req, e'.kv.blockSize, m) {
      assert e'.Get(x).req == e.Get(x).req;
    }
  }

  lemma SpecReady(e: Engine, e': Engine, prefills: seq<Chunk>, decodes: seq<int>)
    requires OnlySpec(e, e') && WorkReady(e, prefills, decodes)
    ensures WorkReady(e', prefills, decodes)
  {
    hide CeilDiv, ChunkFor, ChunkIds, DistinctChunks;
    forall x | x in e'.running
      ensures WorkFor(e'.Get(x), ChunkFor(prefills, x), x in ChunkIds(prefills), x in decodes,
                      e'.kv.blockSize, e'.cfg.chunked)
    {
      assert WorkFor(e.Get(x), ChunkFor(prefills, x), x in ChunkIds(prefills), x in decodes,
                     e.kv.blockSize, e.cfg.chunked);
    }
  }

  lemma ReadyKnown(e: Engine, m: nat, prefills: seq<Chunk>, decodes: seq<int>)
    requires Ready(e, m, prefills, decodes)
    ensures forall x :: x in decodes ==> x in e.seqs
  {
    RunningKnown(e);
    hide Accounted, MemoryOk, Sole;
  }

  lemma ClockedReady(e: Engine, m: nat, prefills: seq<Chunk>, decodes: seq<int>, input: StepInput)
    requires Ready(e, m, prefills, decodes) && input.duration >= 0.0
    ensures Ready(Clocked(e, prefills, decodes, input), m, prefills, decodes)
    ensures Debt(Clocked(e, prefills, decodes, input)) <= Debt(e)
  {
    hide Accounted, MemoryOk, Sole, Held, Calm, WorkReady, Clocked, OnlySpec, ChunksFit, Debt;
    ReadyKnown(e, m, prefills, decodes);
    var e' := Clocked(e, prefills, decodes, input);
    ClockedOk(e, prefills, decodes, input);
    ClockedMemory(e, prefills, decodes, input);
    ClockedOnlySpec(e, prefills, decodes, input);
    SpecIsTables(e, e');
    SameTablesHeld(e, e');
    SpecCalm(e, e', m);
    SpecReady(e, e', prefills, decodes);
  }

  lemma SpecIsTables(e: Engine, e': Engine)
    requires OnlySpec(e, e')
    ensures SameTables(e, e')
  {
  }

  // ---- crediting

  lemma TokenedRecord(e: Engine, prefills: seq<Chunk>, decodes: seq<int>, tokens: nat, x: int)
    requires DistinctChunks(prefills) && NoDup(decodes)
    ensures Tokened(e, prefills, decodes, tokens).Get(x)
            == CreditedRecord(e.Get(x), ChunkFor(prefills, x), x in ChunkIds(prefills), x in decodes, tokens, e.now)
  {
    hide ForEach, ForChunks, AddPrefill, Emitted, FirstEmitted, ChunkFor, ChunkIds;
    var e3 := ForChunks(e, prefills, AddPrefill);
    var e4 := ForEach(e3, decodes, Emitting(tokens, e.now));
    ForChunksPoint(e, prefills, AddPrefill, x);
    ForEachPoint(e3, decodes, Emitting(tokens, e.now), x);
    ForChunksPoint(e4, prefills, EmittingFirst(e.now), x);
  }

  lemma RecordKeeps(s: Sequence, chunk: nat, inPrefills: bool, inDecodes: bool, tokens: nat, now: real)
    ensures var s' := CreditedRecord(s, chunk, inPrefills, inDecodes, tokens, now);
      s'.table == s.table && s'.req == s.req
  {
  }

  /** Sequences outside the batch are untouched by the step's work. */
  lemma TokenedShape(e: Engine, m: nat, prefills: seq<Chunk>, decodes: seq<int>, tokens: nat)
    requires Ready(e, m, prefills, decodes)
    ensures var e5 := Tokened(e, prefills, decodes, tokens);
      && SameTables(e, e5)
      && (forall x :: x !in e.running ==> e5.Get(x) == e.Get(x))
  {
    hide Accounted, MemoryOk, Sole, Held, Calm, Tokened, CreditedRecord, ChunksFit, WorkFor, ChunkFor, ChunkIds;
    ReadyKnown(e, m, prefills, decodes);
    TokenedOk(e, prefills, decodes, tokens);
    var e5 := Tokened(e, prefills, decodes, tokens);
    forall x
      ensures e5.Get(x).table == e.Get(x).table && e5.Get(x).req == e.Get(x).req
      ensures x !in e.running ==> e5.Get(x) == e.Get(x)
    {
      TokenedRecord(e, prefills, decodes, tokens, x);
      RecordKeeps(e.Get(x), ChunkFor(prefills, x), x in ChunkIds(prefills), x in decodes, tokens, e.now);
      OutsideRecord(e.Get(x), ChunkFor(prefills, x), tokens, e.now);
    }
  }

  lemma OutsideRecord(s: Sequence, chunk: nat, tokens: nat, now: real)
    ensures CreditedRecord(s, chunk, false, false, tokens, now) == s
  {
  }

  /** What the work did to the sequences of the batch. */
  lemma TokenedRunning(e: Engine, m: nat, prefills: seq<Chunk>, decodes: seq<int>, tokens: nat, x: int)
    requires Ready(e, m, prefills, decodes) && x in e.running && tokens >= 1
    ensures var s, s' := e.Get(x), Tokened(e, prefills, decodes, tokens).Get(x);
      && (Decoding(s', e.kv.blockSize) || (e.cfg.chunked && Prefilling(s', e.kv.blockSize)))
      && Owed(s') <= Owed(s) && (x in ChunkIds(prefills) || x in decodes ==> Owed(s') < Owed(s))
  {
    hide MemoryOk, Sole, Held, Calm, Tokened, CreditedRecord, ChunksFit, WorkFor, ChunkFor, ChunkIds, RecordOk,
         Decoding, Prefilling, Owed;
    TokenedRecord(e, prefills, decodes, tokens, x);
    assert OnSomeList(e, x);
    assert RecordOk(e.Get(x), e.now) && e.now >= 0.0;
    CreditedIsSettled(e.Get(x), ChunkFor(prefills, x), x in ChunkIds(prefills), x in decodes,
                      e.kv.blockSize, e.cfg.chunked, tokens, e.now);
  }

  lemma TokenedDebt(e: Engine, m: nat, prefills: seq<Chunk>, decodes: seq<int>, tokens: nat)
    requires Ready(e, m, prefills, decodes) && tokens >= 1
    ensures Debt(Tokened(e, prefills, decodes, tokens)) < Debt(e)
  {
    hide Accounted, MemoryOk, Sole, Held, Tokened, ChunksFit, WorkFor, ChunkFor, Owed, DistinctChunks;
    var e5 := Tokened(e, prefills, decodes, tokens);
    TokenedShape(e, m, prefills, decodes, tokens);
    LiveSame(e, e5);
    forall x | x in Live(e) ensures Owed(e5.Get(x)) <= Owed(e.Get(x)) {
      if x in e.running {
        TokenedRunning(e, m, prefills, decodes, tokens, x);
      }
    }
    var y := Worker(prefills, decodes);
    assert y in e.running;
    TokenedRunning(e, m, prefills, decodes, tokens, y);
    DebtBelow(e, e5, y);
  }

  /** Some sequence the step works for. */
  function Worker(prefills: seq<Chunk>, decodes: seq<int>): (y: int)
    requires prefills != [] || decodes != []
    ensures y in ChunkIds(prefills) || y in decodes
  {
    if prefills != [] then prefills[0].id else decodes[0]
  }

  lemma SweptDebt(e: Engine, e': Engine, ids: seq<int>)
    requires Swept(e, e', ids)
    ensures Debt(e') <= Debt(e)
  {
    LiveMultiset(e);
    LiveMultiset(e');
    hide Live, Owed;
    DebtAtMost(e, e');
  }

  lemma SweptCalm(e: Engine, e5: Engine, e': Engine, m: nat)
    requires Calm(e, m) && SameTables(e, e5) && Swept(e5, e', e5.running)
    requires forall x :: x in e.waiting ==> e5.Get(x) == e.Get(x)
    ensures Calm(e', m)
  {
    hide Fits, Owed, Untouched;
    forall x | x in e'.seqs ensures Fits(e'.seqs[x].req, e'.kv.blockSize, m) {
      assert e'.Get(x).req == e5.Get(x).req == e.Get(x).req;
      assert x in e.seqs;
    }
  }

  lemma CreditedHealthy(e: Engine, m: nat, prefills: seq<Chunk>, decodes: seq<int>, tokens: nat)
    requires Ready(e, m, prefills, decodes) && tokens >= 1
    ensures Healthy(Credited(e, prefills, decodes, tokens), m)
    ensures Debt(Credited(e, prefills, decodes, tokens)) < Debt(e)
  {
    hide Accounted, MemoryOk, Sole, Held, Calm, Tokened, ChunksFit, WorkFor, ChunkFor, ChunkIds,
         FinishDone, Decoding, Prefilling, Debt, Members;
    ReadyKnown(e, m, prefills, decodes);
    TokenedOk(e, prefills, decodes, tokens);
    TokenedShape(e, m, prefills, decodes, tokens);
    var e5 := Tokened(e, prefills, decodes, tokens);
    var e' := FinishDone(e5, e5.running);
    FinishDoneAccounted(e5, e5.running);
    LiveSame(e, e5);
    MemorySame(e, e5);
    FinishDoneMemory(e5, e5.running);
    SameTablesHeld(e, e5);
    FinishDoneSole(e5, e5.running);
    FinishDoneSweeps(e5, e5.running);
    NotBoth(e);
    SweptCalm(e, e5, e', m);
    TokenedDebt(e, m, prefills, decodes, tokens);
    SweptDebt(e5, e', e5.running);
    forall x | x in e'.running
      ensures !e'.Get(x).Done()
      ensures Decoding(e'.Get(x), e.kv.blockSize) || (e.cfg.chunked && Prefilling(e'.Get(x), e.kv.blockSize))
    {
      TokenedRunning(e, m, prefills, decodes, tokens, x);
    }
    assert e'.kv.blockSize == e.kv.blockSize && e'.cfg == e.cfg;
  }

  lemma NotBoth(e: Engine)
    requires Accounted(e)
    ensures forall x :: x in e.waiting ==> x !in e.running
  {
    forall x | x in e.waiting ensures x !in e.running {
      OnOneList(e, x);
    }
  }

  // ---- steps

  lemma ScheduleHealthy(e: Engine, m: nat)
    requires Healthy(e, m) && InFlight(e)
    ensures Schedule(e).Work?
    ensures exists todo :: WorkSuits(Schedule(e), m, todo)
              && forall x :: x in todo ==> Schedule(e).engine.Get(x).PrefillDone()
    ensures Debt(Schedule(e).engine) <= Debt(e)
  {
    hide Healthy, Debt, SortWaiting, ScheduleChunked, SchedulePriority, WorkSuits, FilterDone;
    var e1 := SortWaiting(e);
    SortHealthy(e, m);
    SortDebt(e);
    SortInFlight(e);
    var todo := FilterDone(e1, e1.running, true);
    if e.cfg.chunked {
      ChunkedWork(e1, m);
    } else {
      PriorityWork(e1, m);
    }
    SuitsIsWork(Schedule(e), m, todo);
    TodoDone(e1, m, todo);
  }

  lemma SortInFlight(e: Engine)
    ensures InFlight(SortWaiting(e)) == InFlight(e) && SortWaiting(e).cfg == e.cfg
  {
    SortMultiset(e, e.waiting);
    assert |multiset(SortWaiting(e).waiting)| == |multiset(e.waiting)|;
  }

  /** The sequences to decode have their prompts, before and after admission. */
  lemma TodoDone(e: Engine, m: nat, todo: seq<int>)
    requires todo == FilterDone(e, e.running, true)
    requires var w := if e.cfg.chunked then ScheduleChunked(e) else SchedulePriority(e); WorkSuits(w, m, todo)
    ensures var w := if e.cfg.chunked then ScheduleChunked(e) else SchedulePriority(e);
      forall x :: x in todo ==> w.engine.Get(x).PrefillDone()
  {
    var w := if e.cfg.chunked then ScheduleChunked(e) else SchedulePriority(e);
    hide MidStep, ChunksSuit, ScheduleChunked, SchedulePriority, FilterDone;
    forall x | x in todo ensures w.engine.Get(x).PrefillDone() {
      MidTodoDone(w.engine, m, todo, x);
    }
  }

  lemma MidTodoDone(e: Engine, m: nat, todo: seq<int>, x: int)
    requires MidStep(e, m, todo) && x in todo && x in e.running
    ensures e.Get(x).PrefillDone()
  {
    assert Decoding(e.Get(x), e.kv.blockSize);
  }

  lemma GrowHealthy(w: Work, m: nat, todo: seq<int>)
    requires WorkSuits(w, m, todo) && Accounted(w.engine)
    requires DistinctChunks(w.prefills) && ChunksFit(w.engine, w.prefills)
    requires forall x :: x in todo ==> w.engine.Get(x).PrefillDone()
    ensures var g := GrowAll(w.engine, w.decodes, []);
      && g.Growth? && g.survivors == w.decodes && Ready(g.engine, m, w.prefills, w.decodes)
      && Debt(g.engine) <= Debt(w.engine)
  {
    hide Accounted, Ready, Debt, GrowAll, MidStep, OnlyTables, ChunksFit, ChunksSuit;
    if w.decodes == todo {
      GrowAllHealthy(w.engine, m, todo, []);
      assert [] + todo == todo;
      var e := GrowAll(w.engine, todo, []).engine;
      OnlyTablesDebt(w.engine, e);
      OnlyTablesFit(w.engine, e, w.prefills);
      ReadyAfterGrowth(w, e, m, todo, []);
    } else {
      GrowNothing(w.engine);
      OnlyTablesRefl(w.engine);
      ReadyAfterGrowth(w, w.engine, m, todo, todo);
    }
  }

  lemma GrowNothing(e: Engine)
    ensures GrowAll(e, [], []) == Growth(e, [])
  {
  }

  lemma OnlyTablesRefl(e: Engine)
    ensures OnlyTables(e, e)
  {
  }

  lemma OnlyTablesFit(e: Engine, e': Engine, chunks: seq<Chunk>)
    requires OnlyTables(e, e') && ChunksFit(e, chunks)
    ensures ChunksFit(e', chunks)
  {
  }

  lemma StepWorkHealthy(e: Engine, m: nat, input: StepInput)
    requires Healthy(e, m) && InFlight(e) && input.duration >= 0.0
    ensures var r := StepWork(e, input);
      r.Worked? && Healthy(r.engine, m) && Debt(r.engine) < Debt(e)
  {
    hide Healthy, Debt, Schedule, WorkSuits, GrowAll, Clocked, Credited, Ready, PrefillsOk, ChunksFit, DistinctChunks,
         Accounted;
    HealthyBooks(e, m);
    ScheduleOk(e);
    ScheduleHealthy(e, m);
    var w := Schedule(e);
    var todo :| WorkSuits(w, m, todo) && forall x :: x in todo ==> w.engine.Get(x).PrefillDone();
    SuitsIsWork(w, m, todo);
    PrefillsDistinctIn(w.engine, w.prefills);
    GrowHealthy(w, m, todo);
    var e2 := GrowAll(w.engine, w.decodes, []).engine;
    ClockedReady(e2, m, w.prefills, w.decodes, input);
    CreditedHealthy(Clocked(e2, w.prefills, w.decodes, input), m, w.prefills, w.decodes,
                    TokensPerDecode(e2.cfg, w.prefills, w.decodes, input.accepted));
  }

  lemma SuitsIsWork(w: Work, m: nat, todo: seq<int>)
    requires WorkSuits(w, m, todo)
    ensures w.Work? && (w.prefills != [] || w.decodes != [])
  {
  }

  /** A healthy engine's step does work, and less is left to do; when nothing is
      left the step says so. */
  lemma StepHealthy(e: Engine, m: nat, input: StepInput)
    requires Healthy(e, m) && input.duration >= 0.0
    ensures var r := Step(e, input);
      && (r.Idle? || r.Worked?) && Healthy(r.engine, m)
      && (r.Worked? ==> Debt(r.engine) < Debt(e))
      && (r.Idle? ==> !InFlight(r.engine) && r.engine.pending == [] && r.engine.now >= e.now)
  {
    hide Healthy, Debt, Wake, StepWork, Accounted, Members;
    HealthyBooks(e, m);
    WakeHealthy(e, m);
    WakeAccounted(e);
    WakeDebt(e);
    if InFlight(Wake(e)) {
      StepWorkHealthy(Wake(e), m, input);
    }
  }

  // ---- runs

  ghost predicate Durations(env: nat -> StepInput) {
    forall n :: env(n).duration >= 0.0
  }

  /** Nothing is left: all blocks are free, and what was accepted is finished. */
  ghost predicate AllFinished(e: Engine) {
    !InFlight(e) && e.pending == []
  }

  /** The results of the steps a run takes, in order. */
  function StepsOf(e: Engine, env: nat -> StepInput, steps: nat, maxMs: real): seq<StepResult>
    decreases steps
  {
    if steps == 0 || e.now >= maxMs then []
    else
      var r := Step(e, env(e.stepNo));
      [r] + if r.Idle? || r.Crashed? then [] else StepsOf(r.engine, env, steps - 1, maxMs)
  }

  /** A run ends where its last step does, and crashes exactly when that one does. */
  lemma {:induction false} RunsToLast(e: Engine, env: nat -> StepInput, steps: nat, maxMs: real)
    ensures
      var taken := StepsOf(e, env, steps, maxMs);
      Run(e, env, steps, maxMs)
      == if taken == [] then Some(e)
         else if taken[|taken| - 1].Crashed? then None else Some(taken[|taken| - 1].engine)
    decreases steps
  {
    hide Step;
    if steps > 0 && e.now < maxMs {
      var r := Step(e, env(e.stepNo));
      if !r.Idle? && !r.Crashed? {
        RunsToLast(r.engine, env, steps - 1, maxMs);
      }
    }
  }

  /** A run works in every step, and stops because everything is finished or
      because a limit was reached. */
  lemma {:induction false} RunHealthy(e: Engine, m: nat, env: nat -> StepInput, steps: nat, maxMs: real)
    requires Healthy(e, m) && Durations(env)
    ensures var r := Run(e, env, steps, maxMs);
      && r.Some? && Healthy(r.value, m) && Members(r.value) == Members(e)
      && e.stepNo <= r.value.stepNo <= e.stepNo + Debt(e)
      && (steps > Debt(e) && r.value.now < maxMs ==> AllFinished(r.value))
    ensures forall step :: step in StepsOf(e, env, steps, maxMs) ==> step.Worked? || step.Idle?
    decreases steps
  {
    hide Healthy, Debt, Step, Accounted, Members;
    if steps > 0 && e.now < maxMs {
      var input := env(e.stepNo);
      assert input.duration >= 0.0;
      StepHealthy(e, m, input);
      HealthyBooks(e, m);
      StepAccounted(e, input);
      var r := Step(e, input);
      if r.Worked? {
        RunHealthy(r.engine, m, env, steps - 1, maxMs);
      }
    }
  }

  // ---- a fresh engine

  lemma {:induction false} PendingDebtInsert(q: seq<Request>, r: Request)
    ensures PendingDebt(InsertPending(q, r)) == PendingDebt(q) + RequestSize(r)
  {
    if q == [] || r.arrival < q[0].arrival {
      assert ([r] + q)[1..] == q;
    } else {
      PendingDebtInsert(q[1..], r);
      var rest := InsertPending(q[1..], r);
      assert ([q[0]] + rest)[1..] == rest;
    }
  }

  lemma {:induction false} InsertPendingFits(q: seq<Request>, r: Request, size: pos, m: nat)
    requires Fits(r, size, m) && forall i :: 0 <= i < |q| ==> Fits(q[i], size, m)
    ensures forall i :: 0 <= i < |InsertPending(q, r)| ==> Fits(InsertPending(q, r)[i], size, m)
  {
    hide Fits;
    if q != [] && r.arrival >= q[0].arrival {
      InsertPendingFits(q[1..], r, size, m);
    }
  }

  /** What a caller checks before submitting: distinct, well-formed requests that
      fit a block budget of m each. */
  ghost predicate Acceptable(reqs: seq<Request>, size: pos, m: nat) {
    AtMostOnce(multiset(Ids(reqs)))
    && forall i :: 0 <= i < |reqs| ==> RequestOk(reqs[i]) && Fits(reqs[i], size, m)
  }

  /** Fresh: nothing submitted has arrived yet. */
  ghost predicate Fresh(e: Engine, m: nat) {
    e.running == [] && e.waiting == [] && e.seqs == map[] && Healthy(e, m)
  }

  lemma {:induction false} SubmitFresh(e: Engine, m: nat, reqs: seq<Request>)
    requires Fresh(e, m)
    requires forall i :: 0 <= i < |reqs| ==> RequestOk(reqs[i]) && Fits(reqs[i], e.kv.blockSize, m)
    requires AtMostOnce(Members(e) + multiset(Ids(reqs)))
    ensures var e' := Submit(e, reqs);
      && Fresh(e', m) && Members(e') == Members(e) + multiset(Ids(reqs))
      && Debt(e') == Debt(e) + PendingDebt(reqs) && e'.stepNo == e.stepNo && e'.kv == e.kv
    decreases |reqs|
  {
    hide Fresh, Members, AtMostOnce, RequestOk, Fits, Debt;
    if reqs != [] {
      var r := reqs[0];
      assert Ids(reqs) == [r.id] + Ids(reqs[1..]);
      assert multiset(Ids(reqs)) == multiset{r.id} + multiset(Ids(reqs[1..]));
      assert Members(e) + multiset{r.id} + multiset(Ids(reqs[1..])) == Members(e) + multiset(Ids(reqs));
      AtMostOnceSub(Members(e) + multiset{r.id}, multiset(Ids(reqs[1..])));
      SubmitOneFresh(e, m, r);
      SubmitFresh(e.(pending := InsertPending(e.pending, r)), m, reqs[1..]);
    }
  }

  lemma SubmitOneFresh(e: Engine, m: nat, r: Request)
    requires Fresh(e, m) && RequestOk(r) && Fits(r, e.kv.blockSize, m)
    requires AtMostOnce(Members(e) + multiset{r.id})
    ensures var e1 := e.(pending := InsertPending(e.pending, r));
      Fresh(e1, m) && Members(e1) == Members(e) + multiset{r.id} && Debt(e1) == Debt(e) + RequestSize(r)
  {
    var e1 := e.(pending := InsertPending(e.pending, r));
    SubmitOneAccounted(e, r);
    PendingDebtInsert(e.pending, r);
    InsertPendingFits(e.pending, r, e.kv.blockSize, m);
    RefsSame(e, e1, Live(e));
    hide Accounted, Members, Sole, Fits, AtMostOnce, RequestOk;
    MemorySame(e, e1);
    hide MemoryOk, Inv;
    SumSame(e, e1);
  }

  lemma SumSame(e: Engine, e': Engine)
    requires e'.running == [] && e'.waiting == [] && e'.swapped == []
    ensures SumOwed(e', Live(e')) == 0
  {
  }

  /** Large enough: a full batch of largest requests, and one on top of the
      watermark. */
  predicate LargeEnough(cfg: Config, kv: Pool, m: nat) {
    && cfg.maxNumSeqs >= 1 && cfg.maxBatchedTokens >= 1
    && |kv.blocks| >= cfg.maxNumSeqs * m && |kv.blocks| >= m + kv.watermark
  }

  lemma InitFresh(cfg: Config, numBlocks: nat, size: pos, watermark: real, m: nat)
    requires LargeEnough(cfg, InitPool(numBlocks, size, false, watermark), m)
    ensures var e := InitEngine(cfg, InitPool(numBlocks, size, false, watermark));
      Fresh(e, m) && Members(e) == multiset{} && Debt(e) == 0
  {
    var kv := InitPool(numBlocks, size, false, watermark);
    InitInv(numBlocks, size, false, watermark);
    InitAccounted(cfg, kv);
    InitSize(numBlocks, size, watermark);
    hide Inv, Accounted, InitPool, Members;
    var e := InitEngine(cfg, kv);
    assert Held(e) == multiset{};
  }

  /** All sequences finished: nobody holds a block, so every block is free. */
  lemma AllFree(e: Engine, m: nat)
    requires Healthy(e, m) && AllFinished(e)
    ensures |e.kv.freeIds| == |e.kv.blocks| && multiset(e.finished) == Members(e)
    ensures forall x :: x in e.finished ==> e.Get(x).generated == e.Get(x).req.outputTokens
  {
    assert Held(e) == multiset{};
    FreePlusHeld(e.kv, Held(e));
    forall x | x in e.finished ensures e.Get(x).generated == e.Get(x).req.outputTokens {
      assert OnSomeList(e, x);
    }
  }

  /** TOTAL CORRECTNESS. With the prefix cache off and a pool that is large enough,
      under either policy, with or without speculation and whatever the accepted
      drafts: every step does work, so none crashes or stalls, except a last one that
      finds nothing left; none preempts; at most as many steps are taken
      as there are prompt and output tokens; and unless the clock limit cuts the
      run short, every submitted request ends up finished with exactly its output
      tokens, and every block is on the free list. */
  lemma TotalCorrectness(cfg: Config, numBlocks: nat, size: pos, watermark: real, m: nat,
                         reqs: seq<Request>, env: nat -> StepInput, steps: nat, maxMs: real)
    requires LargeEnough(cfg, InitPool(numBlocks, size, false, watermark), m)
    requires Acceptable(reqs, size, m) && Durations(env) && steps > PendingDebt(reqs)
    ensures var r := Run(Submit(InitEngine(cfg, InitPool(numBlocks, size, false, watermark)), reqs), env, steps, maxMs);
      && r.Some? && r.value.totalPreemptions == 0
      && r.value.stepNo <= PendingDebt(reqs)
      && (r.value.now < maxMs ==>
            && multiset(r.value.finished) == multiset(Ids(reqs))
            && (forall x :: x in r.value.finished ==> r.value.Get(x).generated == r.value.Get(x).req.outputTokens)
            && |r.value.kv.freeIds| == |r.value.kv.blocks|)
    ensures
      var e := Submit(InitEngine(cfg, InitPool(numBlocks, size, false, watermark)), reqs);
      forall step :: step in StepsOf(e, env, steps, maxMs) ==> step.Worked? || step.Idle?
  {
    hide Accounted, Members, Debt, Submit, Healthy, AtMostOnce, InitPool, Run, StepsOf, RequestOk, Fits;
    var kv := InitPool(numBlocks, size, false, watermark);
    var e0 := InitEngine(cfg, kv);
    InitFresh(cfg, numBlocks, size, watermark, m);
    InitSize(numBlocks, size, watermark);
    assert multiset{} + multiset(Ids(reqs)) == multiset(Ids(reqs));
    SubmitFresh(e0, m, reqs);
    var e := Submit(e0, reqs);
    RunHealthy(e, m, env, steps, maxMs);
    var r := Run(e, env, steps, maxMs).value;
    HealthyPreempts(r, m);
    if r.now < maxMs {
      AllFree(r, m);
    }
  }

  lemma InitSize(numBlocks: nat, size: pos, watermark: real)
    ensures InitPool(numBlocks, size, false, watermark).blockSize == size
    ensures !InitPool(numBlocks, size, false, watermark).caching
  {
  }

  lemma HealthyPreempts(e: Engine, m: nat)
    requires Healthy(e, m)
    ensures e.totalPreemptions == 0
  {
  }
}
