/** Preempted sequences that the growth loop comes to again, or that had prefill work
    planned: when a waiting sequence holds blocks or has tokens already, and when block
    references are lost. */
module EngineClean {
  import opened Lists
  import opened PagedSpec
  import opened EngineSpec
  import opened EngineAccounting
  import opened EngineSteps
  import opened EngineRuns
  import opened EngineChunked
  import opened EngineHealthyWork
  import opened EngineStarts
  import opened EngineRecords
  import opened EngineTables
  import EngineGrowth
  import opened EngineMoves
  import opened EngineUnshared
  import opened EngineCounting
  import opened EngineOrder

  // ---- records

  /** Only running sequences hold blocks. */
  predicate BareRecord(s: Sequence) {
    s.status == Waiting || s.status == Swapped ==> s.table == []
  }

  /** Whoever has tokens had the whole prompt prefilled, and does not wait. */
  predicate PromptRecord(s: Sequence) {
    s.generated > 0 ==> s.PrefillDone() && s.status != Waiting
  }

  ghost predicate Bare(e: Engine) {
    forall x :: BareRecord(e.Get(x))
  }

  ghost predicate PromptFirst(e: Engine) {
    forall x :: PromptRecord(e.Get(x))
  }

  /** A step's work has not been preempted: the sequence runs on, or has finished. */
  predicate Onward(s: Sequence) {
    s.status == Running || s.status == Finished
  }

  /** Every decode of the step runs on. */
  ghost predicate DecodesRun(r: StepResult) {
    r.Worked? ==> forall x :: x in r.decodes ==> Onward(r.engine.Get(x))
  }

  /** Whoever gets the whole prompt in the step runs on. */
  ghost predicate PrefillsRun(r: StepResult) {
    r.Worked? ==> forall x :: WholePrompt(r, x) ==> Onward(r.engine.Get(x))
  }

  predicate WholePrompt(r: StepResult, x: int)
    requires r.Worked?
  {
    x in ChunkIds(r.prefills) && ChunkFor(r.prefills, x) >= r.engine.Get(x).req.promptTokens
  }

  lemma SteppedBare(s0: Sequence, s1: Sequence, s2: Sequence, s': Sequence, cfg: Config, size: pos, p: Place, p': Place,
                    r: StepResult, input: StepInput, now: real, x: int)
    requires Stepped(s0, s1, s2, s', cfg, size, p, p', r, input, now, x) && BareRecord(s0)
    ensures BareRecord(s') <==> (r.Worked? && x in r.decodes ==> Onward(s'))
  {
    hide ChunkFor, RestoreTokens;
  }

  lemma SteppedPrompt(s0: Sequence, s1: Sequence, s2: Sequence, s': Sequence, cfg: Config, size: pos, p: Place,
                      p': Place, r: StepResult, input: StepInput, now: real, x: int)
    requires Stepped(s0, s1, s2, s', cfg, size, p, p', r, input, now, x) && PromptRecord(s0)
    requires p.runs ==> s0.req.outputTokens >= 1
    ensures
      PromptRecord(s')
      <==> (cfg.swap || !r.Worked?
            || ((x in r.decodes ==> Onward(s'))
                && (x in ChunkIds(r.prefills) && ChunkFor(r.prefills, x) >= s'.req.promptTokens ==> Onward(s'))))
  {
    hide ChunkFor, ChunkIds, RestoreTokens;
  }

  // ---- a step

  lemma WokenClean(e: Engine)
    requires Accounted(e)
    ensures Bare(e) ==> Bare(Wake(e))
    ensures PromptFirst(e) ==> PromptFirst(Wake(e))
    ensures Wake(e).cfg == e.cfg && Wake(e).now >= 0.0
  {
    hide Accounted, Wake;
    WakeAccounted(e);
    ClockNonNegative(e);
    forall x ensures BareRecord(e.Get(x)) ==> BareRecord(Wake(e).Get(x))
      ensures PromptRecord(e.Get(x)) ==> PromptRecord(Wake(e).Get(x))
    {
      WakeRecord(e, x);
    }
  }

  lemma RunsOutput(e: Engine, x: int)
    requires Accounted(e) && Schedule(e).Work? && Schedule(e).engine.Get(x).status == Running
    ensures e.Get(x).req.outputTokens >= 1
  {
    hide Members, Schedule, PrefillsOk, AtMostOnce, StatusOk, PendingOk;
    ScheduleOk(e);
    ScheduleStarts(e);
    var w := Schedule(e).engine;
    assert Started(e.Get(x), w.Get(x), e.kv.blockSize);
    assert x in w.seqs && RecordOk(w.Get(x), w.now);
  }

  lemma SteppedRuns(s0: Sequence, s1: Sequence, s2: Sequence, s': Sequence, cfg: Config, size: pos, p: Place,
                    p': Place, r: StepResult, input: StepInput, now: real, x: int)
    requires Stepped(s0, s1, s2, s', cfg, size, p, p', r, input, now, x)
    ensures p.runs <==> s1.status == Running
  {
  }

  lemma WorkBare(e: Engine, input: StepInput, x: int)
    requires Accounted(e) && input.duration >= 0.0 && !StepWork(e, input).Crashed? && BareRecord(e.Get(x))
    ensures
      var r := StepWork(e, input);
      BareRecord(r.engine.Get(x)) <==> (r.Worked? && x in r.decodes ==> Onward(r.engine.Get(x)))
  {
    hide Accounted, StepWork, Stepped;
    var s1, s2, p, p' := StepWorkRecord(e, input, x);
    var r := StepWork(e, input);
    SteppedBare(e.Get(x), s1, s2, r.engine.Get(x), e.cfg, e.kv.blockSize, p, p', r, input, e.now + input.duration, x);
  }

  lemma WorkPrompt(e: Engine, input: StepInput, x: int)
    requires Accounted(e) && input.duration >= 0.0 && !StepWork(e, input).Crashed? && PromptRecord(e.Get(x))
    ensures
      var r := StepWork(e, input);
      var s' := r.engine.Get(x);
      PromptRecord(s') <==> (e.cfg.swap || !r.Worked?
                             || ((x in r.decodes ==> Onward(s')) && (WholePrompt(r, x) ==> Onward(s'))))
  {
    hide Accounted, StepWork, Stepped;
    var s1, s2, p, p' := StepWorkRecord(e, input, x);
    var r := StepWork(e, input);
    if s1.status == Running {
      RunsOutput(e, x);
    }
    SteppedRuns(e.Get(x), s1, s2, r.engine.Get(x), e.cfg, e.kv.blockSize, p, p', r, input, e.now + input.duration, x);
    SteppedPrompt(e.Get(x), s1, s2, r.engine.Get(x), e.cfg, e.kv.blockSize, p, p', r, input, e.now + input.duration, x);
  }

  /** A step leaves only running sequences with blocks exactly when all its decodes run
      on. */
  lemma StepBareExactly(e: Engine, input: StepInput)
    requires Accounted(e) && input.duration >= 0.0 && Bare(e) && !Step(e, input).Crashed?
    ensures Bare(Step(e, input).engine) <==> DecodesRun(Step(e, input))
  {
    hide Accounted, Wake, StepWork, BareRecord, Onward;
    WokenClean(e);
    WakeAccounted(e);
    var e1, r := Wake(e), Step(e, input);
    if InFlight(e1) || e1.pending != [] {
      forall x ensures BareRecord(r.engine.Get(x)) <==> (r.Worked? && x in r.decodes ==> Onward(r.engine.Get(x))) {
        WorkBare(e1, input, x);
      }
    }
  }

  /** Whoever has tokens after a step has had the prompt prefilled exactly when the
      preempted are swapped, or all decodes, and whoever gets the whole prompt in the
      step, run on. */
  lemma StepPromptExactly(e: Engine, input: StepInput)
    requires Accounted(e) && input.duration >= 0.0 && PromptFirst(e) && !Step(e, input).Crashed?
    ensures
      var r := Step(e, input);
      PromptFirst(r.engine) <==> e.cfg.swap || (DecodesRun(r) && PrefillsRun(r))
  {
    hide Accounted, Wake, StepWork, PromptRecord, Onward, WholePrompt;
    WokenClean(e);
    WakeAccounted(e);
    var e1, r := Wake(e), Step(e, input);
    if InFlight(e1) || e1.pending != [] {
      forall x
        ensures PromptRecord(r.engine.Get(x))
           <==> (e.cfg.swap || !r.Worked? || ((x in r.decodes ==> Onward(r.engine.Get(x)))
                                              && (WholePrompt(r, x) ==> Onward(r.engine.Get(x)))))
      {
        WorkPrompt(e1, input, x);
      }
    }
  }

  // ---- prompts off the block boundary

  /** Requests whose prompts end within a block; nothing is said of a record nobody has
      asked for. */
  predicate OffBoundary(r: Request, size: pos) {
    r.outputTokens >= 1 ==> r.promptTokens % size != 0
  }

  ghost predicate AllOff(e: Engine) {
    && (forall x :: OffBoundary(e.Get(x).req, e.kv.blockSize))
    && forall i :: 0 <= i < |e.pending| ==> OffBoundary(e.pending[i], e.kv.blockSize)
  }

  /** Recomputed, such a sequence is not grown again, so it decodes no more. */
  lemma SteppedOff(s0: Sequence, s1: Sequence, s2: Sequence, s': Sequence, cfg: Config, size: pos, p: Place, p': Place,
                   r: StepResult, input: StepInput, now: real, x: int)
    requires Stepped(s0, s1, s2, s', cfg, size, p, p', r, input, now, x) && !cfg.swap
    requires OffBoundary(s0.req, size) && (p.runs ==> s0.req.outputTokens >= 1)
    ensures r.Worked? && x in r.decodes ==> Onward(s')
    ensures s'.req == s0.req
  {
    hide ChunkFor, ChunkIds, RestoreTokens;
  }

  lemma SteppedReq(s0: Sequence, s1: Sequence, s2: Sequence, s': Sequence, cfg: Config, size: pos, p: Place, p': Place,
                   r: StepResult, input: StepInput, now: real, x: int)
    requires Stepped(s0, s1, s2, s', cfg, size, p, p', r, input, now, x)
    ensures s'.req == s0.req
  {
    hide ChunkFor, ChunkIds, RestoreTokens;
  }

  lemma {:induction false} ArrivalsOff(e: Engine)
    requires AllOff(e)
    ensures AllOff(AdmitArrivals(e))
    decreases |e.pending|
  {
    if !(e.pending == [] || e.pending[0].arrival > e.now) {
      var r := WithTokens(e.pending[0]);
      var e1 := e.Put(r.id, NewSequence(r)).(pending := e.pending[1..], waiting := e.waiting + [r.id]);
      hide NewSequence, SynthTokenIds;
      assert OffBoundary(r, e.kv.blockSize);
      assert NewSequence(r).req == r by { NewReq(r); }
      forall x ensures OffBoundary(e1.Get(x).req, e1.kv.blockSize) {
        assert x != r.id ==> e1.Get(x) == e.Get(x);
      }
      ArrivalsOff(e1);
    }
  }

  lemma NewReq(r: Request)
    ensures NewSequence(r).req == r
  {
  }

  lemma WakeOff(e: Engine)
    requires AllOff(e)
    ensures AllOff(Wake(e))
  {
    hide AdmitArrivals;
    ArrivalsOff(e);
    var a := AdmitArrivals(e);
    if !(InFlight(a) || a.pending == []) {
      var a1 := a.(now := a.pending[0].arrival);
      forall x ensures OffBoundary(a1.Get(x).req, a1.kv.blockSize) {
        assert a1.Get(x) == a.Get(x);
      }
      ArrivalsOff(a1);
    }
  }

  lemma WorkOff(e: Engine, input: StepInput, x: int)
    requires Accounted(e) && input.duration >= 0.0 && !StepWork(e, input).Crashed? && AllOff(e)
    ensures
      var r := StepWork(e, input);
      && OffBoundary(r.engine.Get(x).req, r.engine.kv.blockSize) && r.engine.kv.blockSize == e.kv.blockSize
      && (!e.cfg.swap && r.Worked? && x in r.decodes ==> Onward(r.engine.Get(x)))
  {
    hide Accounted, StepWork, Stepped, Onward;
    var s1, s2, p, p' := StepWorkRecord(e, input, x);
    var r := StepWork(e, input);
    if s1.status == Running {
      RunsOutput(e, x);
    }
    SteppedRuns(e.Get(x), s1, s2, r.engine.Get(x), e.cfg, e.kv.blockSize, p, p', r, input, e.now + input.duration, x);
    SteppedReq(e.Get(x), s1, s2, r.engine.Get(x), e.cfg, e.kv.blockSize, p, p', r, input, e.now + input.duration, x);
    if !e.cfg.swap {
      SteppedOff(e.Get(x), s1, s2, r.engine.Get(x), e.cfg, e.kv.blockSize, p, p', r, input, e.now + input.duration, x);
    }
  }

  lemma StepOff(e: Engine, input: StepInput)
    requires Accounted(e) && input.duration >= 0.0 && !Step(e, input).Crashed? && AllOff(e)
    ensures AllOff(Step(e, input).engine) && Step(e, input).engine.kv.blockSize == e.kv.blockSize
    ensures !e.cfg.swap ==> DecodesRun(Step(e, input))
  {
    hide Accounted, Wake, StepWork, OffBoundary, Onward;
    WakeOff(e);
    WakeRecord(e, 0);
    WakeAccounted(e);
    var e1, r := Wake(e), Step(e, input);
    if InFlight(e1) || e1.pending != [] {
      StepWorkPending(e1, input);
      forall x
        ensures OffBoundary(r.engine.Get(x).req, r.engine.kv.blockSize) && r.engine.kv.blockSize == e1.kv.blockSize
        ensures !e.cfg.swap && r.Worked? && x in r.decodes ==> Onward(r.engine.Get(x))
      {
        WorkOff(e1, input, x);
      }
      WorkOff(e1, input, 0);
    }
  }

  // ---- when references are lost

  /** A sequence that starts to run holds no blocks. */
  predicate StartsEmpty(s: Sequence, s': Sequence) {
    s.status != Running && s'.status == Running ==> s.table == []
  }

  /** References are lost exactly when a sequence starts that holds blocks. */
  ghost predicate LossIs(a: Engine, b: Engine) {
    && a.lost <= b.lost
    && (b.lost == a.lost <==> forall x :: StartsEmpty(a.Get(x), b.Get(x)))
  }

  lemma LossTrans(a: Engine, b: Engine, c: Engine)
    requires LossIs(a, b) && LossIs(b, c) && AllStarted(a, b) && AllStarted(b, c)
    ensures LossIs(a, c)
  {
    forall x ensures StartsEmpty(a.Get(x), c.Get(x))
                <==> StartsEmpty(a.Get(x), b.Get(x)) && StartsEmpty(b.Get(x), c.Get(x)) {
      assert Started(a.Get(x), b.Get(x), a.kv.blockSize) && Started(b.Get(x), c.Get(x), b.kv.blockSize);
    }
    hide StartsEmpty;
  }

  lemma SameLoss(e: Engine, e': Engine)
    requires e'.lost == e.lost && forall x :: e'.Get(x) == e.Get(x)
    ensures LossIs(e, e')
  {
  }

  lemma OneStarts(e: Engine, e': Engine, id: int)
    requires e.Get(id).status != Running && e'.Get(id).status == Running
    requires e'.lost == e.lost + multiset(e.Get(id).table) && forall x :: x != id ==> e'.Get(x) == e.Get(x)
    ensures LossIs(e, e')
  {
    var table := e.Get(id).table;
    if table == [] {
      assert multiset(table) == multiset{};
    } else {
      assert multiset(table)[table[0]] >= 1;
      assert !StartsEmpty(e.Get(id), e'.Get(id));
    }
  }

  lemma AdmittedLoss(e: Engine)
    requires Accounted(e) && Unshared(e.kv) && e.waiting != []
    ensures
      var a := Allocate(e, e.waiting[0]);
      && a.engine.waiting == e.waiting && (!a.ok ==> a.engine == e)
      && (a.ok ==> LossIs(e, StartHead(a.engine)) && Unshared(StartHead(a.engine).kv))
  {
    var id := e.waiting[0];
    WaitingHead(e);
    RecordOf(e, id);
    AllocateUnshared(e, id);
    var s, a := e.Get(id), Allocate(e, id);
    if e.kv.CanAllocate(CeilDiv(s.req.promptTokens, e.kv.blockSize)) {
      PromptCounts(e.kv, s.req.tokenIds, s.req.promptTokens);
      hide AllocatePrompt, Accounted, Unshared;
      OneStarts(e, StartHead(a.engine), id);
    }
  }

  lemma {:induction false} AdmitChunkedLoss(e: Engine, prefills: seq<Chunk>, budget: int)
    requires Accounted(e) && PrefillsOk(e, prefills) && Unshared(e.kv)
    ensures LossIs(e, AdmitChunked(e, prefills, budget).0)
    decreases |e.waiting|
  {
    hide Accounted, PrefillsOk, Members, Allocate, StartHead, AllStarted, Unshared, LossIs;
    SameLoss(e, e);
    if !(e.waiting == [] || budget <= 0 || |e.running| + |prefills| >= e.cfg.maxNumSeqs) {
      AdmitStepOk(e, prefills);
      AdmittedStarts(e);
      AdmittedLoss(e);
      var id := e.waiting[0];
      var a := Allocate(e, id);
      if a.ok {
        var e1 := StartHead(a.engine);
        StartShrinks(a.engine);
        var remaining := Remaining(e1.Get(id));
        if remaining == 0 {
          AdmitChunkedLoss(e1, prefills, budget);
          AdmitChunkedStarts(e1, prefills, budget);
          LossTrans(e, e1, AdmitChunked(e1, prefills, budget).0);
        } else {
          var chunk := ChunkSize(e.cfg, remaining, budget);
          AddChunk(e1, prefills, id, chunk, e.running);
          var more := prefills + [Chunk(id, chunk)];
          AdmitChunkedLoss(e1, more, budget - chunk);
          AdmitChunkedStarts(e1, more, budget - chunk);
          LossTrans(e, e1, AdmitChunked(e1, more, budget - chunk).0);
        }
      }
    }
  }

  lemma {:induction false} AdmitWholeLoss(e: Engine, prefills: seq<Chunk>, budget: int, admitted: bool)
    requires Accounted(e) && PrefillsOk(e, prefills) && Unshared(e.kv)
    ensures LossIs(e, AdmitWhole(e, prefills, budget, admitted).0)
    decreases |e.waiting|
  {
    hide Accounted, PrefillsOk, Members, Allocate, StartHead, AllStarted, Unshared, LossIs;
    SameLoss(e, e);
    if !(e.waiting == [] || |e.running| >= e.cfg.maxNumSeqs || budget <= 0) {
      var id := e.waiting[0];
      if !(e.Get(id).req.promptTokens - e.Get(id).cached > budget && admitted) {
        AdmitStepOk(e, prefills);
        AdmittedStarts(e);
        AdmittedLoss(e);
        var a := Allocate(e, id);
        if a.ok {
          var e1 := StartHead(a.engine);
          StartShrinks(a.engine);
          var chunk := Remaining(e1.Get(id));
          if chunk > 0 {
            AddChunk(e1, prefills, id, chunk, e.running);
            var more := prefills + [Chunk(id, chunk)];
            AdmitWholeLoss(e1, more, budget - chunk, true);
            AdmitWholeStarts(e1, more, budget - chunk, true);
            LossTrans(e, e1, AdmitWhole(e1, more, budget - chunk, true).0);
          } else {
            AdmitWholeLoss(e1, prefills, budget, true);
            AdmitWholeStarts(e1, prefills, budget, true);
            LossTrans(e, e1, AdmitWhole(e1, prefills, budget, true).0);
          }
        }
      }
    }
  }

  lemma RestoredLoss(e: Engine, r: Allocation)
    requires Accounted(e) && e.swapped != [] && r == AllocatePrompt(e.kv, RestoreTokens(e.Get(e.swapped[0]))) && r.ok
    requires Unshared(e.kv)
    ensures LossIs(e, Restored(e, r)) && Unshared(Restored(e, r).kv)
  {
    var id := e.swapped[0];
    assert e.Get(id).status == Swapped;
    AllocatePromptUnshared(e.kv, RestoreTokens(e.Get(id)));
    hide AllocatePrompt, Accounted, RestoreTokens, Unshared;
    OneStarts(e, Restored(e, r), id);
  }

  lemma {:induction false} RestoreLoss(e: Engine)
    requires Accounted(e) && Unshared(e.kv)
    ensures RestoreSwapped(e).Some? ==> LossIs(e, RestoreSwapped(e).value)
    decreases |e.swapped|
  {
    hide Accounted, AllocatePrompt, RestoreTokens, AllStarted, Unshared, LossIs;
    SameLoss(e, e);
    if e.swapped != [] && |e.running| < e.cfg.maxNumSeqs {
      var r := AllocatePrompt(e.kv, RestoreTokens(e.Get(e.swapped[0])));
      if r.ok {
        RestoredStarts(e, r);
        RestoredAccounted(e, r);
        RestoredLoss(e, r);
        RestoreLoss(Restored(e, r));
        RestoreStarts(Restored(e, r));
        if RestoreSwapped(Restored(e, r)).Some? {
          LossTrans(e, Restored(e, r), RestoreSwapped(Restored(e, r)).value);
        }
      }
    }
  }

  /** With caching off, scheduling loses references exactly when it starts a sequence
      that holds some. */
  lemma ScheduleLoss(e: Engine)
    requires Accounted(e) && Unshared(e.kv)
    ensures Schedule(e).Work? && LossIs(e, Schedule(e).engine)
  {
    hide Accounted, AllStarted, AdmitChunked, AdmitWhole, RestoreSwapped, PartialChunks, FilterDone, PrefillsOk,
         SortByPriority, Unshared, LossIs;
    SortWaitingAccounted(e);
    ScheduleNeverFails(e);
    var e1 := SortWaiting(e);
    SameStarted(e, e1);
    SameLoss(e, e1);
    if e.cfg.chunked {
      var budget := e.cfg.maxBatchedTokens - |FilterDone(e1, e1.running, true)|;
      FirstChunksOk(e1, budget);
      var first := PartialChunks(e1, FilterDone(e1, e1.running, false), budget);
      AdmitChunkedLoss(e1, first, budget - TotalTokens(first));
      AdmitChunkedStarts(e1, first, budget - TotalTokens(first));
      LossTrans(e, e1, AdmitChunked(e1, first, budget - TotalTokens(first)).0);
    } else {
      NoPrefills(e1);
      AdmitWholeLoss(e1, [], e.cfg.maxBatchedTokens, false);
      AdmitWholeStarts(e1, [], e.cfg.maxBatchedTokens, false);
      AdmitWholeOk(e1, [], e.cfg.maxBatchedTokens, false);
      AdmitWholeUnshared(e1, [], e.cfg.maxBatchedTokens, false);
      var e2 := AdmitWhole(e1, [], e.cfg.maxBatchedTokens, false).0;
      StartedTrans(e, e1, e2);
      LossTrans(e, e1, e2);
      RestoreLoss(e2);
      RestoreStarts(e2);
      if RestoreSwapped(e2).Some? {
        LossTrans(e, e2, RestoreSwapped(e2).value);
      }
    }
  }

  lemma {:induction false} ArrivalsLose(e: Engine)
    ensures AdmitArrivals(e).lost == e.lost
    decreases |e.pending|
  {
    if !(e.pending == [] || e.pending[0].arrival > e.now) {
      var r := WithTokens(e.pending[0]);
      ArrivalsLose(e.Put(r.id, NewSequence(r)).(pending := e.pending[1..], waiting := e.waiting + [r.id]));
    }
  }

  lemma WakeLoses(e: Engine)
    ensures Wake(e).lost == e.lost
  {
    hide AdmitArrivals;
    ArrivalsLose(e);
    var a := AdmitArrivals(e);
    if !(InFlight(a) || a.pending == []) {
      ArrivalsLose(a.(now := a.pending[0].arrival));
    }
  }

  lemma {:induction false} GrowOneLoses(e: Engine, id: int, survivors: seq<int>)
    ensures GrowOne(e, id, survivors).Growth? ==> GrowOne(e, id, survivors).engine.lost == e.lost
    decreases |e.running|
  {
    hide AppendToken, Free;
    var s := e.Get(id);
    var r := AppendToken(e.kv, s.table, s.TotalLen());
    if r.OutOfBlocks? && Victim(e.running, id).Some? {
      var v := Victim(e.running, id).value;
      GrowOneLoses(Preempt(e.(kv := r.pool), v), id, Remove(survivors, v));
    }
  }

  lemma {:induction false} GrowAllLoses(e: Engine, decodes: seq<int>, survivors: seq<int>)
    ensures GrowAll(e, decodes, survivors).Growth? ==> GrowAll(e, decodes, survivors).engine.lost == e.lost
    decreases |decodes|
  {
    hide GrowOne;
    if decodes != [] {
      GrowOneLoses(e, decodes[0], survivors);
      var g := GrowOne(e, decodes[0], survivors);
      if g.Growth? {
        GrowAllLoses(g.engine, decodes[1..], g.survivors);
      }
    }
  }

  lemma {:induction false} FinishLoses(e: Engine, ids: seq<int>)
    ensures FinishDone(e, ids).lost == e.lost
    decreases |ids|
  {
    hide Free;
    if ids != [] {
      FinishLoses(if e.Get(ids[0]).Done() then FinishOne(e, ids[0]) else e, ids[1..]);
    }
  }

  lemma ApplyLoses(e: Engine, prefills: seq<Chunk>, decodes: seq<int>, input: StepInput)
    ensures ApplyWork(e, prefills, decodes, input).lost == e.lost
  {
    hide ForEach, ForChunks, FinishDone;
    EachSame(e, decodes, CountingSpec(e.cfg.draftTokens, input.accepted));
    var e2 := Clocked(e, prefills, decodes, input);
    var tokens := TokensPerDecode(e.cfg, prefills, decodes, input.accepted);
    TokenedSame(e2, prefills, decodes, tokens);
    var e5 := Tokened(e2, prefills, decodes, tokens);
    FinishLoses(e5, e5.running);
  }

  /** The step starts no sequence that holds blocks. */
  ghost predicate StartsBare(e: Engine) {
    var e1 := Wake(e);
    InFlight(e1) || e1.pending != [] ==>
      Schedule(e1).Work? && forall x :: StartsEmpty(e1.Get(x), Schedule(e1).engine.Get(x))
  }

  /** With caching off a step loses references exactly when it starts a sequence that
      holds some. */
  lemma StepLoss(e: Engine, input: StepInput)
    requires Accounted(e) && Unshared(e.kv) && !Step(e, input).Crashed?
    ensures
      var e' := Step(e, input).engine;
      e.lost <= e'.lost && (e'.lost == e.lost <==> StartsBare(e))
  {
    hide Accounted, Unshared, Wake, Schedule, GrowAll, ApplyWork, StartsEmpty;
    WakeLoses(e);
    WakeAccounted(e);
    WakeUnshared(e);
    var e1 := Wake(e);
    if InFlight(e1) || e1.pending != [] {
      ScheduleLoss(e1);
      var w := Schedule(e1);
      GrowAllLoses(w.engine, w.decodes, []);
      var g := GrowAll(w.engine, w.decodes, []);
      ApplyLoses(g.engine, w.prefills, g.survivors, input);
    }
  }

  /** If only running sequences hold blocks, no step loses any. */
  lemma BareStarts(e: Engine)
    requires Accounted(e) && Unshared(e.kv) && Bare(e)
    ensures StartsBare(e)
  {
    hide Accounted, Unshared, Wake, Schedule;
    WokenCleanBare(e);
    WakeAccounted(e);
    WakeUnshared(e);
    var e1 := Wake(e);
    ScheduleNeverFails(e1);
    ScheduleStarts(e1);
    forall x ensures StartsEmpty(e1.Get(x), Schedule(e1).engine.Get(x)) {
      assert Started(e1.Get(x), Schedule(e1).engine.Get(x), e1.kv.blockSize);
      assert BareRecord(e1.Get(x));
    }
  }

  lemma WokenCleanBare(e: Engine)
    requires Accounted(e) && Bare(e)
    ensures Bare(Wake(e))
  {
    hide Accounted, Wake;
    WokenClean(e);
  }

  // ---- runs

  /** A step that takes on chunks of prompts alone preempts nobody. */
  lemma PrefillsRunOn(e: Engine, input: StepInput)
    requires Accounted(e) && input.duration >= 0.0 && !e.cfg.chunked && !Step(e, input).Crashed?
    ensures PrefillsRun(Step(e, input))
  {
    hide Accounted, Wake, StepWork, WholePrompt, Onward;
    WakeAccounted(e);
    var e1, r := Wake(e), Step(e, input);
    if r.Worked? {
      forall x | WholePrompt(r, x) ensures Onward(r.engine.Get(x)) {
        ChunkedIn(r, x);
        ChunkRunsOn(e1, input, x);
      }
    }
  }

  lemma ChunkedIn(r: StepResult, x: int)
    requires r.Worked? && WholePrompt(r, x)
    ensures x in ChunkIds(r.prefills)
  {
  }

  lemma ChunkRunsOn(e: Engine, input: StepInput, x: int)
    requires Accounted(e) && !e.cfg.chunked && StepWork(e, input).Worked? && x in ChunkIds(StepWork(e, input).prefills)
    ensures Onward(StepWork(e, input).engine.Get(x))
  {
    hide Accounted, AdmitWhole, RestoreSwapped, FilterDone, SortByPriority, ApplyWork, EngineRecords.Settled, Members,
         PrefillsOk;
    ScheduleOk(e);
    var w := Schedule(e);
    assert w.prefills != [] && w.decodes == [];
    hide Schedule;
    assert GrowAll(w.engine, [], []) == Growth(w.engine, []);
    PrefillsDistinctIn(w.engine, w.prefills);
    EngineGrowth.RunningNoDup(w.engine);
    ChunksRun(w.engine, w.prefills);
    RunningIs(w.engine, x);
    ApplyPoint(w.engine, w.prefills, [], input, x);
    SettledOnward(w.engine.Get(x), w.engine.cfg, w.prefills, input, w.engine.now + input.duration, x);
  }

  lemma SettledOnward(s: Sequence, cfg: Config, prefills: seq<Chunk>, input: StepInput, now: real, x: int)
    requires s.status == Running
    ensures Onward(EngineRecords.Settled(s, cfg, prefills, [], input, now, true, x))
  {
  }

  /** What is submitted ends off the boundary. */
  ghost predicate SubmitsOff(commands: seq<Command>, size: pos) {
    forall i :: 0 <= i < |commands| && commands[i].SubmitAll? ==>
      forall j :: 0 <= j < |commands[i].reqs| ==> OffBoundary(commands[i].reqs[j], size)
  }

  lemma {:induction false} SubmitOff(e: Engine, reqs: seq<Request>)
    requires AllOff(e) && forall j :: 0 <= j < |reqs| ==> OffBoundary(reqs[j], e.kv.blockSize)
    ensures AllOff(Submit(e, reqs))
    decreases |reqs|
  {
    hide OffBoundary;
    if reqs != [] {
      InsertOff(e.pending, reqs[0], e.kv.blockSize);
      var e1 := e.(pending := InsertPending(e.pending, reqs[0]));
      forall x ensures OffBoundary(e1.Get(x).req, e1.kv.blockSize) {
        assert e1.Get(x) == e.Get(x);
      }
      SubmitOff(e1, reqs[1..]);
    }
  }

  lemma {:induction false} InsertOff(q: seq<Request>, r: Request, size: pos)
    requires OffBoundary(r, size) && forall i :: 0 <= i < |q| ==> OffBoundary(q[i], size)
    ensures forall i :: 0 <= i < |InsertPending(q, r)| ==> OffBoundary(InsertPending(q, r)[i], size)
  {
    hide OffBoundary;
    if q != [] && r.arrival >= q[0].arrival {
      InsertOff(q[1..], r, size);
    }
  }

  /** The state that recomputation keeps as long as prompts end off the boundary. */
  ghost predicate Orderly(e: Engine) {
    && Accounted(e) && Unshared(e.kv) && AllOff(e) && Bare(e) && !e.cfg.swap && (!e.cfg.chunked ==> PromptFirst(e))
  }

  lemma StepOrderly(e: Engine, input: StepInput)
    requires Orderly(e) && input.duration >= 0.0 && !Step(e, input).Crashed?
    ensures var e' := Step(e, input).engine;
      && Orderly(e') && e'.lost == e.lost && e'.kv.blockSize == e.kv.blockSize && Members(e') == Members(e)
      && e'.cfg == e.cfg
  {
    hide Accounted, Unshared, AllOff, Bare, PromptFirst, DecodesRun, PrefillsRun, StartsBare, Step, Members;
    StepAccounted(e, input);
    StepUnshared(e, input);
    StepOff(e, input);
    StepBareExactly(e, input);
    BareStarts(e);
    StepLoss(e, input);
    if !e.cfg.chunked {
      PrefillsRunOn(e, input);
      StepPromptExactly(e, input);
    }
  }

  lemma SubmitOrderly(e: Engine, reqs: seq<Request>)
    requires Orderly(e) && (forall i :: 0 <= i < |reqs| ==> RequestOk(reqs[i]) && OffBoundary(reqs[i], e.kv.blockSize))
    requires AtMostOnce(Members(e) + multiset(Ids(reqs)))
    ensures var e' := Submit(e, reqs);
      && Orderly(e') && e'.lost == e.lost && e'.kv.blockSize == e.kv.blockSize
      && Members(e') == Members(e) + multiset(Ids(reqs)) && e'.cfg == e.cfg
  {
    SubmitRecord(e, reqs);
    SubmitLost(e, reqs);
    hide Accounted, Unshared, AllOff, RequestOk, OffBoundary, Submit, Members, BareRecord, PromptRecord, AtMostOnce;
    SubmitAccounted(e, reqs);
    SubmitOff(e, reqs);
    var e' := Submit(e, reqs);
    forall x ensures e'.Get(x) == e.Get(x) {
    }
  }

  lemma {:induction false} SubmitLost(e: Engine, reqs: seq<Request>)
    ensures Submit(e, reqs).lost == e.lost
    decreases |reqs|
  {
    if reqs != [] {
      SubmitLost(e.(pending := InsertPending(e.pending, reqs[0])), reqs[1..]);
    }
  }

  lemma {:induction false} ExecuteOrderly(e: Engine, commands: seq<Command>)
    requires Orderly(e) && SubmitsOff(commands, e.kv.blockSize)
    requires forall i :: 0 <= i < |commands| ==> CommandOk(commands[i])
    requires AtMostOnce(Members(e) + multiset(Submitted(commands)))
    ensures var r := Execute(e, commands);
      r.Some? ==> Orderly(r.value) && r.value.lost == e.lost && r.value.cfg == e.cfg
    decreases |commands|
  {
    hide Orderly, Members, AtMostOnce, Step, Submit, OffBoundary, RequestOk;
    if commands != [] {
      assert CommandOk(commands[0]);
      var rest := commands[1..];
      var tail := multiset(Submitted(rest));
      match commands[0] {
        case SubmitAll(reqs) =>
          var mine := multiset(Ids(reqs));
          assert multiset(Submitted(commands)) == mine + tail;
          assert Members(e) + mine + tail == Members(e) + multiset(Submitted(commands));
          AtMostOnceSub(Members(e) + mine, tail);
          SubmitOrderly(e, reqs);
          ExecuteOrderly(Submit(e, reqs), rest);
        case StepOnce(input) =>
          assert Submitted(commands) == Submitted(rest);
          var r := Step(e, input);
          if !r.Crashed? {
            StepOrderly(e, input);
            ExecuteOrderly(r.engine, rest);
          }
      }
    }
  }

  lemma InitOrderly(cfg: Config, numBlocks: nat, size: pos, watermark: real)
    requires !cfg.swap
    ensures var e := InitEngine(cfg, InitPool(numBlocks, size, false, watermark));
      Orderly(e) && Members(e) == multiset{} && e.kv.blockSize == size
  {
    hide Accounted, Unshared, Members;
    InitUnshared(numBlocks, size, watermark);
    InitAccounted(cfg, InitPool(numBlocks, size, false, watermark));
  }

  /** With recomputation, caching off and prompts that end within a block, in every run
      only running sequences hold blocks and no reference is ever lost; with whole
      prompts, whoever has tokens has had the prompt prefilled. */
  lemma NothingLost(cfg: Config, numBlocks: nat, size: pos, watermark: real, commands: seq<Command>)
    requires !cfg.swap && SubmitsOff(commands, size)
    requires forall i :: 0 <= i < |commands| ==> CommandOk(commands[i])
    requires AtMostOnce(multiset(Submitted(commands)))
    ensures
      var r := Execute(InitEngine(cfg, InitPool(numBlocks, size, false, watermark)), commands);
      r.Some? ==> Bare(r.value) && r.value.lost == multiset{} && (!cfg.chunked ==> PromptFirst(r.value))
  {
    hide Orderly, Members, AtMostOnce, Execute, InitPool, CommandOk, SubmitsOff, Submitted;
    var e := InitEngine(cfg, InitPool(numBlocks, size, false, watermark));
    InitOrderly(cfg, numBlocks, size, watermark);
    assert multiset{} + multiset(Submitted(commands)) == multiset(Submitted(commands));
    ExecuteOrderly(e, commands);
    if Execute(e, commands).Some? {
      OrderlyIs(Execute(e, commands).value);
    }
  }

  lemma OrderlyIs(e: Engine)
    requires Orderly(e)
    ensures Bare(e) && (!e.cfg.chunked ==> PromptFirst(e))
  {
  }

  ghost predicate StartsHolder(e: Engine) {
    !StartsBare(e)
  }

  /** Without caching a run loses references exactly when one of its steps starts a
      sequence that holds some. */
  lemma {:induction false} RunLosesExactly(e: Engine, commands: seq<Command>)
    requires Accounted(e) && Unshared(e.kv) && (forall i :: 0 <= i < |commands| ==> CommandOk(commands[i]))
    requires AtMostOnce(Members(e) + multiset(Submitted(commands)))
    ensures
      var r := Execute(e, commands);
      r.Some? ==> e.lost <= r.value.lost && (r.value.lost != e.lost <==> SomeStepFrom(StartsHolder, e, commands))
    decreases |commands|
  {
    hide Accounted, Members, AtMostOnce, Step, Submit, Unshared, StartsBare, StepsFrom;
    if commands != [] {
      assert CommandOk(commands[0]);
      StepsNow(StartsHolder, e, commands);
      forall i | 0 <= i < |commands| {
        ExecuteFirst(e, commands, i);
      }
      var rest := commands[1..];
      var tail := multiset(Submitted(rest));
      match commands[0] {
        case SubmitAll(reqs) =>
          var mine := multiset(Ids(reqs));
          assert multiset(Submitted(commands)) == mine + tail;
          assert Members(e) + mine + tail == Members(e) + multiset(Submitted(commands));
          AtMostOnceSub(Members(e) + mine, tail);
          SubmitAccounted(e, reqs);
          SubmitKv(e, reqs);
          SubmitLost(e, reqs);
          RunLosesExactly(Submit(e, reqs), rest);
          StepsRest(StartsHolder, e, Submit(e, reqs), commands);
        case StepOnce(input) =>
          assert Submitted(commands) == Submitted(rest);
          StepAccounted(e, input);
          var r := Step(e, input);
          if !r.Crashed? {
            StepUnshared(e, input);
            StepLoss(e, input);
            RunLosesExactly(r.engine, rest);
            StepsRest(StartsHolder, e, r.engine, commands);
          }
      }
    }
  }
}
