/** The books over whole runs: any sequence of submissions and steps. */
module EngineRuns {
  import opened Lists
  import opened PagedSpec
  import opened EngineSpec
  import opened EngineAccounting
  import opened EngineMoves
  import opened EngineSteps

  // ---- one record

  lemma EmittedOk(s: Sequence, tokens: nat, now: real)
    requires RecordOk(s, now) && now >= 0.0
    ensures Later(s, Emitted(s, tokens, now), now)
    ensures Emitted(s, tokens, now).generated
            == Min(s.generated + tokens, s.req.outputTokens)
  {
    var s' := Emitted(s, tokens, now);
    forall i, j | 0 <= i <= j < |s'.tokenTimes| ensures s'.tokenTimes[i] <= s'.tokenTimes[j] {
      assert j < |s.tokenTimes| || s'.tokenTimes[j] == now;
    }
  }

  lemma FirstEmittedOk(s: Sequence, now: real)
    requires RecordOk(s, now) && now >= 0.0
    ensures Later(s, FirstEmitted(s, now), now)
  {
  }

  lemma CountSpecOk(s: Sequence, k: nat, accepted: nat, now: real)
    requires RecordOk(s, now)
    ensures Later(s, CountSpec(s, k, accepted), now)
  {
  }

  // ---- all records of a list

  ghost predicate Improves(f: Sequence -> Sequence, now: real) {
    forall s :: RecordOk(s, now) ==> Later(s, f(s), now)
  }

  /** Only records change, and only to later states. */
  ghost predicate Evolved(e: Engine, e': Engine) {
    && Accounted(e') && Members(e') == Members(e) && SameLists(e, e') && e'.stepNo == e.stepNo
    && e'.kv == e.kv && e'.lost == e.lost && e'.totalPreemptions == e.totalPreemptions
    && e'.seqs.Keys == e.seqs.Keys
  }

  lemma {:induction false} ForEachOk(e: Engine, ids: seq<int>, f: Sequence -> Sequence)
    requires Accounted(e) && Improves(f, e.now)
    requires forall x :: x in ids ==> x in e.seqs
    ensures Evolved(e, ForEach(e, ids, f))
    decreases |ids|
  {
    hide RecordOk, Members, Accounted;
    if ids != [] {
      var e1 := e.Put(ids[0], f(e.Get(ids[0])));
      KnownRecord(e, ids[0]);
      PutAccounted(e, e1, ids[0]);
      ForEachOk(e1, ids[1..], f);
    }
  }

  lemma KnownRecord(e: Engine, id: int)
    requires Accounted(e) && id in e.seqs
    ensures e.Get(id).req.id == id && RecordOk(e.Get(id), e.now)
  {
  }

  ghost predicate ImprovesChunks(f: (Sequence, nat) -> Sequence, now: real) {
    forall s, n :: RecordOk(s, now) ==> Later(s, f(s, n), now)
  }

  lemma {:induction false} ForChunksOk(e: Engine, chunks: seq<Chunk>, f: (Sequence, nat) -> Sequence)
    requires Accounted(e) && ImprovesChunks(f, e.now)
    requires forall i :: 0 <= i < |chunks| ==> chunks[i].id in e.seqs
    ensures Evolved(e, ForChunks(e, chunks, f))
    decreases |chunks|
  {
    hide RecordOk, Members, Accounted;
    if chunks != [] {
      var c := chunks[0];
      var e1 := e.Put(c.id, f(e.Get(c.id), c.tokens));
      KnownRecord(e, c.id);
      PutAccounted(e, e1, c.id);
      ForChunksOk(e1, chunks[1..], f);
    }
  }

  lemma AddPrefillOk(s: Sequence, tokens: nat, now: real)
    requires RecordOk(s, now) && s.prefilled + tokens <= s.req.promptTokens
    ensures Later(s, AddPrefill(s, tokens), now)
  {
  }

  ghost predicate DistinctChunks(chunks: seq<Chunk>) {
    forall i, j :: 0 <= i < j < |chunks| ==> chunks[i].id != chunks[j].id
  }

  lemma {:induction false} AddPrefillsOk(e: Engine, chunks: seq<Chunk>)
    requires Accounted(e) && ChunksFit(e, chunks) && DistinctChunks(chunks)
    ensures Evolved(e, ForChunks(e, chunks, AddPrefill))
    decreases |chunks|
  {
    hide RecordOk, Members, Accounted;
    if chunks != [] {
      var c := chunks[0];
      var e1 := e.Put(c.id, AddPrefill(e.Get(c.id), c.tokens));
      KnownRecord(e, c.id);
      AddPrefillOk(e.Get(c.id), c.tokens, e.now);
      PutAccounted(e, e1, c.id);
      assert ChunksFit(e1, chunks[1..]) by {
        forall i | 0 <= i < |chunks[1..]|
          ensures chunks[1..][i].id in e1.seqs && e1.Get(chunks[1..][i].id) == e.Get(chunks[1..][i].id)
        {
          assert chunks[1..][i] == chunks[i + 1];
        }
      }
      AddPrefillsOk(e1, chunks[1..]);
    }
  }

  lemma {:induction false} ChunkIdsAre(chunks: seq<Chunk>)
    ensures |ChunkIds(chunks)| == |chunks|
    ensures forall i :: 0 <= i < |chunks| ==> ChunkIds(chunks)[i] == chunks[i].id
  {
    if chunks != [] {
      ChunkIdsAre(chunks[1..]);
    }
  }

  lemma PrefillsDistinct(e: Engine, chunks: seq<Chunk>)
    requires AtMostOnce(Members(e)) && multiset(ChunkIds(chunks)) <= multiset(e.running)
    ensures DistinctChunks(chunks)
  {
    var ids := ChunkIds(chunks);
    forall x | x in ids ensures multiset(ids)[x] <= 1 {
      OnOneList(e, x);
    }
    MultiplicityNoDup(ids);
    ChunkIdsAre(chunks);
  }

  // ---- applying the work

  lemma ApplyWorkOk(e: Engine, prefills: seq<Chunk>, decodes: seq<int>, input: StepInput)
    requires Accounted(e) && input.duration >= 0.0
    requires ChunksFit(e, prefills) && DistinctChunks(prefills)
    requires forall x :: x in decodes ==> x in e.seqs
    ensures var e' := ApplyWork(e, prefills, decodes, input);
      && Accounted(e') && Members(e') == Members(e) && e'.cfg == e.cfg
      && e'.now == e.now + input.duration && e'.stepNo == e.stepNo + 1
  {
    hide Accounted, Members, RecordOk, Clocked, Credited;
    ClockedOk(e, prefills, decodes, input);
    var e2 := Clocked(e, prefills, decodes, input);
    CreditedOk(e2, prefills, decodes, TokensPerDecode(e.cfg, prefills, decodes, input.accepted));
  }

  lemma CountingSpecImproves(e: Engine, k: nat, accepted: nat)
    ensures Improves(CountingSpec(k, accepted), e.now)
  {
    forall s | RecordOk(s, e.now) ensures Later(s, CountingSpec(k, accepted)(s), e.now) {
      CountSpecOk(s, k, accepted, e.now);
    }
  }

  lemma ClockedOk(e: Engine, prefills: seq<Chunk>, decodes: seq<int>, input: StepInput)
    requires Accounted(e) && input.duration >= 0.0
    requires forall x :: x in decodes ==> x in e.seqs
    ensures var e2 := Clocked(e, prefills, decodes, input);
      && Accounted(e2) && Members(e2) == Members(e) && e2.cfg == e.cfg
      && e2.now == e.now + input.duration && e2.stepNo == e.stepNo + 1 && e2.seqs.Keys == e.seqs.Keys
      && (ChunksFit(e, prefills) ==> ChunksFit(e2, prefills))
  {
    hide Accounted, Members, RecordOk, CountSpec, ForEach;
    var spec := Speculates(e.cfg, prefills, decodes);
    var count := CountingSpec(e.cfg.draftTokens, input.accepted);
    var e1 := if spec then ForEach(e, decodes, count) else e;
    if spec {
      CountingSpecImproves(e, e.cfg.draftTokens, input.accepted);
      ForEachOk(e, decodes, count);
      assert prefills == [];
    }
    var now := e1.now + input.duration;
    ClockAccounted(e1, now, e1.stepNo + 1);
    ClockMembers(e1, now, e1.stepNo + 1);
  }

  lemma EmittingImproves(tokens: nat, now: real)
    requires now >= 0.0
    ensures Improves(Emitting(tokens, now), now) && ImprovesChunks(EmittingFirst(now), now)
  {
    forall s | RecordOk(s, now) ensures Later(s, Emitting(tokens, now)(s), now) {
      EmittedOk(s, tokens, now);
    }
    forall s, n: nat | RecordOk(s, now) ensures Later(s, EmittingFirst(now)(s, n), now) {
      FirstEmittedOk(s, now);
    }
  }

  lemma TokenedOk(e: Engine, prefills: seq<Chunk>, decodes: seq<int>, tokens: nat)
    requires Accounted(e) && ChunksFit(e, prefills) && DistinctChunks(prefills)
    requires forall x :: x in decodes ==> x in e.seqs
    ensures Evolved(e, Tokened(e, prefills, decodes, tokens))
  {
    hide Accounted, Members, RecordOk, ForEach, ForChunks, Emitted, FirstEmitted, AddPrefill;
    ClockNonNegative(e);
    EmittingImproves(tokens, e.now);
    AddPrefillsOk(e, prefills);
    var e3 := ForChunks(e, prefills, AddPrefill);
    ForEachOk(e3, decodes, Emitting(tokens, e.now));
    var e4 := ForEach(e3, decodes, Emitting(tokens, e.now));
    ForChunksOk(e4, prefills, EmittingFirst(e.now));
  }

  lemma CreditedOk(e: Engine, prefills: seq<Chunk>, decodes: seq<int>, tokens: nat)
    requires Accounted(e) && ChunksFit(e, prefills) && DistinctChunks(prefills)
    requires forall x :: x in decodes ==> x in e.seqs
    ensures var e' := Credited(e, prefills, decodes, tokens);
      && Accounted(e') && Members(e') == Members(e) && e'.cfg == e.cfg
      && e'.now == e.now && e'.stepNo == e.stepNo
  {
    hide Accounted, Members, FinishDone, Tokened;
    TokenedOk(e, prefills, decodes, tokens);
    var e5 := Tokened(e, prefills, decodes, tokens);
    FinishDoneAccounted(e5, e5.running);
  }

  lemma ClockNonNegative(e: Engine)
    requires Accounted(e)
    ensures e.now >= 0.0
  {
  }

  // ---- steps

  /** A step that completes keeps the books and every request, advances the
      counter by one (unless nothing was left to do), and never turns the clock
      back. */
  lemma StepAccounted(e: Engine, input: StepInput)
    requires Accounted(e) && input.duration >= 0.0
    ensures var r := Step(e, input);
      !r.Crashed? ==>
        && Accounted(r.engine) && Members(r.engine) == Members(e) && r.engine.cfg == e.cfg
        && r.engine.now >= e.now
        && r.engine.stepNo == e.stepNo + if r.Idle? then 0 else 1
  {
    hide Accounted, Members, Wake, StepWork;
    WakeAccounted(e);
    var e1 := Wake(e);
    if InFlight(e1) || e1.pending != [] {
      StepWorkAccounted(e1, input);
    }
  }

  lemma RunningUnfinished(e: Engine, ids: seq<int>)
    requires Accounted(e) && forall x :: x in ids ==> x in e.running
    ensures Unfinished(e, ids)
  {
    forall x | x in ids ensures x in e.seqs && e.seqs[x].status != Finished {
      assert OnSomeList(e, x);
    }
  }

  lemma FitsAfterGrowth(e: Engine, e': Engine, chunks: seq<Chunk>)
    requires ChunksFit(e, chunks) && Shrunk(e, e')
    ensures ChunksFit(e', chunks)
  {
  }

  lemma PrefillsDistinctIn(e: Engine, chunks: seq<Chunk>)
    requires Accounted(e) && PrefillsOk(e, chunks)
    ensures DistinctChunks(chunks) && ChunksFit(e, chunks)
  {
    PrefillsDistinct(e, chunks);
  }

  lemma StepWorkAccounted(e: Engine, input: StepInput)
    requires Accounted(e) && input.duration >= 0.0
    ensures var r := StepWork(e, input);
      !r.Crashed? ==>
        && Accounted(r.engine) && Members(r.engine) == Members(e) && r.engine.cfg == e.cfg
        && r.engine.now >= e.now && r.engine.stepNo == e.stepNo + 1
        && !r.Idle?
  {
    hide Accounted, Members, Schedule, GrowAll, ApplyWork, PrefillsOk, ChunksFit, DistinctChunks, Shrunk;
    ScheduleOk(e);
    var w := Schedule(e);
    if w.Work? {
      RunningUnfinished(w.engine, w.decodes);
      GrowAllOk(w.engine, w.decodes, [], w.decodes);
      var g := GrowAll(w.engine, w.decodes, []);
      if g.Growth? {
        PrefillsDistinctIn(w.engine, w.prefills);
        FitsAfterGrowth(w.engine, g.engine, w.prefills);
        ShrunkClock(w.engine, g.engine);
        if w.prefills == [] && g.survivors == [] {
          ClockAccounted(g.engine, g.engine.now + TICK, g.engine.stepNo + 1);
          ClockMembers(g.engine, g.engine.now + TICK, g.engine.stepNo + 1);
        } else {
          ApplyWorkOk(g.engine, w.prefills, g.survivors, input);
        }
      }
    }
  }

  lemma ShrunkClock(e: Engine, e': Engine)
    requires Shrunk(e, e')
    ensures e'.now == e.now && e'.stepNo == e.stepNo && e'.cfg == e.cfg
  {
  }

  lemma ClockMembers(e: Engine, now: real, stepNo: nat)
    ensures Members(e.(now := now, stepNo := stepNo)) == Members(e)
  {
  }

  // ---- runs

  datatype Command = SubmitAll(reqs: seq<Request>) | StepOnce(input: StepInput)

  /** None once a step has crashed. */
  function Execute(e: Engine, commands: seq<Command>): Option<Engine>
    decreases |commands|
  {
    if commands == [] then Some(e)
    else match commands[0]
      case SubmitAll(reqs) => Execute(Submit(e, reqs), commands[1..])
      case StepOnce(input) =>
        var r := Step(e, input);
        if r.Crashed? then None else Execute(r.engine, commands[1..])
  }

  function Submitted(commands: seq<Command>): seq<int> {
    if commands == [] then []
    else (match commands[0] case SubmitAll(reqs) => Ids(reqs) case StepOnce(_) => []) + Submitted(commands[1..])
  }

  predicate CommandOk(c: Command) {
    match c
    case SubmitAll(reqs) => forall i :: 0 <= i < |reqs| ==> RequestOk(reqs[i])
    case StepOnce(input) => input.duration >= 0.0
  }

  lemma InitAccounted(cfg: Config, kv: Pool)
    ensures Accounted(InitEngine(cfg, kv)) && Members(InitEngine(cfg, kv)) == multiset{}
  {
  }

  /** THE ACCOUNTING THEOREM. Whatever is submitted and however many steps run,
      every submitted request is on exactly one of the five lists, and every
      record satisfies RecordOk. */
  lemma {:induction false} ExecuteAccounted(e: Engine, commands: seq<Command>)
    requires Accounted(e)
    requires forall i :: 0 <= i < |commands| ==> CommandOk(commands[i])
    requires AtMostOnce(Members(e) + multiset(Submitted(commands)))
    ensures var r := Execute(e, commands);
      r.Some? ==> Accounted(r.value) && Members(r.value) == Members(e) + multiset(Submitted(commands))
    decreases |commands|
  {
    hide Accounted, Members, AtMostOnce, Step, Submit;
    if commands != [] {
      assert CommandOk(commands[0]);
      var rest := commands[1..];
      var tail := multiset(Submitted(rest));
      match commands[0] {
        case SubmitAll(reqs) =>
          var mine := multiset(Ids(reqs));
          assert multiset(Submitted(commands)) == mine + tail;
          assert Members(e) + mine + tail == Members(e) + multiset(Submitted(commands));
          AtMostOnceSub(Members(e) + mine, tail);
          SubmitAccounted(e, reqs);
          ExecuteAccounted(Submit(e, reqs), rest);
        case StepOnce(input) =>
          assert Submitted(commands) == Submitted(rest);
          StepAccounted(e, input);
          var r := Step(e, input);
          if !r.Crashed? {
            ExecuteAccounted(r.engine, rest);
          }
      }
    }
  }

  /** What Accounted says of one submitted request, in the list's own terms. */
  lemma ExactlyOneList(e: Engine, id: int)
    requires Accounted(e) && Members(e)[id] == 1
    ensures (if id in Ids(e.pending) then 1 else 0) + (if id in e.waiting then 1 else 0)
            + (if id in e.running then 1 else 0) + (if id in e.swapped then 1 else 0)
            + (if id in e.finished then 1 else 0) == 1
    ensures id in e.finished ==> e.Get(id).generated == e.Get(id).req.outputTokens
    ensures id !in Ids(e.pending) ==> id in e.seqs && RecordOk(e.seqs[id], e.now)
  {
    OnOneList(e, id);
    assert OnSomeList(e, id) <==> id in e.seqs;
    TrackedIsList(e, id);
    hide RecordOk;
  }
}
