/** What the operations of a step do, field by field: which sequence is preempted and
    what becomes of it, what the growth loop tries in turn, what a step writes into a
    record, and who leaves. */
module EngineEffects {
  import opened Lists
  import opened PagedSpec
  import opened EngineSpec
  import opened EngineAccounting
  import opened EngineMoves
  import opened EngineSteps
  import opened EngineRuns
  import opened EngineOrder
  import opened EngineChunked
  import opened EngineHealthyWork
  import opened EngineTotal
  import EngineGrowth
  import EngineStarts
  import opened EngineRecords

  // ---- preemption

  /** `v` leaves the running list and gives back its blocks. Swapped, it waits at the end
      of the swapped list with what it has; otherwise it starts over at the head of the
      waiting list. */
  ghost predicate PreemptedTo(a: Engine, b: Engine, v: int) {
    var s := a.Get(v);
    && (exists i :: 0 <= i < |a.running| && a.running[i] == v && v !in a.running[..i]
                    && b.running == a.running[..i] + a.running[i + 1..])
    && b == a.(
         kv := Free(a.kv, s.table), running := b.running, totalPreemptions := a.totalPreemptions + 1,
         swapped := if a.cfg.swap then a.swapped + [v] else a.swapped,
         waiting := if a.cfg.swap then a.waiting else [v] + a.waiting,
         seqs := a.seqs[v := if a.cfg.swap
           then s.(nPreemptions := s.nPreemptions + 1, table := [], status := Swapped)
           else s.(nPreemptions := s.nPreemptions + 1, table := [], prefilled := 0, generated := 0,
                   firstToken := -1.0, tokenTimes := [], status := Waiting)])
  }

  lemma PreemptIs(a: Engine, v: int)
    requires v in a.running
    ensures PreemptedTo(a, Preempt(a, v), v)
  {
    var i := RemoveIs(a.running, v);
    hide Free;
  }

  // ---- growing one sequence

  function Append(e: Engine, id: int): Appended {
    AppendToken(e.kv, e.Get(id).table, e.Get(id).req.promptTokens + e.Get(id).generated)
  }

  /** `v` is the newest running sequence other than `id`. */
  ghost predicate Newest(running: seq<int>, id: int, v: int) {
    v != id && exists i :: 0 <= i < |running| && running[i] == v && forall j :: i < j < |running| ==> running[j] == id
  }

  /** No block is left for the next token of `id`, and the newest other one is preempted. */
  ghost predicate MakesRoom(a: Engine, id: int, v: int, b: Engine) {
    && Append(a, id).OutOfBlocks? && Newest(a.running, id, v)
    && PreemptedTo(a.(kv := Append(a, id).pool), b, v)
  }

  ghost predicate MakeRoom(es: seq<Engine>, id: int, vs: seq<int>) {
    |es| == |vs| + 1 && forall j :: 0 <= j < |vs| ==> MakesRoom(es[j], id, vs[j], es[j + 1])
  }

  /** The survivors without those that were preempted. */
  function Without(survivors: seq<int>, vs: seq<int>): seq<int>
    decreases |vs|
  {
    if vs == [] then survivors else Without(Remove(survivors, vs[0]), vs[1..])
  }

  /** How the growth of `id` ends: with its token placed, or with `id` itself preempted
      for want of any other, or in an exception. */
  ghost predicate Ends(last: Engine, id: int, left: seq<int>, g: Growth) {
    var r := Append(last, id);
    if r.Grown? then
      g == Growth(last.(kv := r.pool, seqs := last.seqs[id := last.Get(id).(table := r.table)]), left + [id])
    else if r.IndexError? then g == GrowFailed
    else
      && (forall x :: x in last.running ==> x == id)
      && if id in last.running
         then g.Growth? && g.survivors == left && PreemptedTo(last.(kv := r.pool), g.engine, id)
         else g == GrowFailed
  }

  /** One sequence is grown: others are preempted, newest first, until the token fits. */
  ghost predicate OneGrown(a: Engine, id: int, survivors: seq<int>, g: Growth) {
    exists es, vs ::
      |es| == |vs| + 1 && MakeRoom(es, id, vs) && es[0] == a && Ends(es[|vs|], id, Without(survivors, vs), g)
  }

  lemma NewestIs(running: seq<int>, id: int)
    ensures Victim(running, id).Some? ==> Newest(running, id, Victim(running, id).value)
  {
    VictimIsNewest(running, id);
  }

  lemma MakeRoomCons(a: Engine, id: int, v: int, es: seq<Engine>, vs: seq<int>)
    requires MakeRoom(es, id, vs) && MakesRoom(a, id, v, es[0])
    ensures MakeRoom([a] + es, id, [v] + vs)
  {
    hide MakesRoom;
    var all, more := [a] + es, [v] + vs;
    forall j | 0 <= j < |more| ensures MakesRoom(all[j], id, more[j], all[j + 1]) {
      if j > 0 {
        assert all[j] == es[j - 1] && all[j + 1] == es[j] && more[j] == vs[j - 1];
      }
    }
  }

  lemma {:induction false} GrowOneIs(a: Engine, id: int, survivors: seq<int>)
    ensures OneGrown(a, id, survivors, GrowOne(a, id, survivors))
    decreases |a.running|
  {
    hide AppendToken, Preempt, PreemptedTo, MakesRoom, Ends, MakeRoom, OneGrown;
    var g := GrowOne(a, id, survivors);
    var r := Append(a, id);
    if r.OutOfBlocks? && Victim(a.running, id).Some? {
      var v := Victim(a.running, id).value;
      var a1 := a.(kv := r.pool);
      var b := Preempt(a1, v);
      PreemptRunning(a1, v);
      RoomMade(a, id, v);
      GrowOneIs(b, id, Remove(survivors, v));
      GrownCons(a, id, v, survivors, b, g);
    } else {
      GrowEnds(a, id, survivors);
      GrownAtOnce(a, id, survivors, g);
    }
  }

  lemma GrownCons(a: Engine, id: int, v: int, survivors: seq<int>, b: Engine, g: Growth)
    requires MakesRoom(a, id, v, b) && OneGrown(b, id, Remove(survivors, v), g)
    ensures OneGrown(a, id, survivors, g)
  {
    hide MakesRoom, Ends, MakeRoom;
    var es, vs :| |es| == |vs| + 1 && MakeRoom(es, id, vs) && es[0] == b
                  && Ends(es[|vs|], id, Without(Remove(survivors, v), vs), g);
    MakeRoomCons(a, id, v, es, vs);
    var all, more := [a] + es, [v] + vs;
    assert more[1..] == vs && all[|more|] == es[|vs|];
    assert |all| == |more| + 1 && all[0] == a && Ends(all[|more|], id, Without(survivors, more), g);
  }

  lemma GrownAtOnce(a: Engine, id: int, survivors: seq<int>, g: Growth)
    requires Ends(a, id, survivors, g)
    ensures OneGrown(a, id, survivors, g)
  {
    hide Ends, MakeRoom;
    NoRoom(a, id);
    var none: seq<int> := [];
    assert |[a]| == |none| + 1 && [a][0] == a && Ends([a][|none|], id, Without(survivors, none), g);
  }

  lemma NoRoom(a: Engine, id: int)
    ensures MakeRoom([a], id, [])
  {
  }

  lemma RoomMade(a: Engine, id: int, v: int)
    requires Append(a, id).OutOfBlocks? && Victim(a.running, id) == Some(v)
    ensures MakesRoom(a, id, v, Preempt(a.(kv := Append(a, id).pool), v))
  {
    hide AppendToken, Preempt, PreemptedTo;
    NewestIs(a.running, id);
    PreemptIs(a.(kv := Append(a, id).pool), v);
  }

  lemma GrowEnds(a: Engine, id: int, survivors: seq<int>)
    requires !(Append(a, id).OutOfBlocks? && Victim(a.running, id).Some?)
    ensures Ends(a, id, survivors, GrowOne(a, id, survivors))
  {
    hide AppendToken, Preempt, PreemptedTo;
    var r := Append(a, id);
    if r.OutOfBlocks? && id in a.running {
      PreemptIs(a.(kv := r.pool), id);
    }
  }

  // ---- growing the decodes

  ghost predicate GrownInTurn(gs: seq<Growth>, decodes: seq<int>) {
    && 1 <= |gs| <= |decodes| + 1
    && forall j :: 0 <= j < |gs| - 1 ==>
         gs[j].Growth? && OneGrown(gs[j].engine, decodes[j], gs[j].survivors, gs[j + 1])
  }

  lemma {:induction false} GrowAllFrom(gs: seq<Growth>, done: seq<int>, decodes: seq<int>) returns (all: seq<Growth>)
    requires GrownInTurn(gs, done + decodes) && |gs| == |done| + 1 && gs[|done|].Growth?
    ensures GrownInTurn(all, done + decodes) && all[0] == gs[0]
    ensures all[|all| - 1] == GrowAll(gs[|done|].engine, decodes, gs[|done|].survivors)
    ensures all[|all| - 1].Growth? ==> |all| == |done + decodes| + 1
    decreases |decodes|
  {
    hide OneGrown, GrowOne;
    var g := gs[|done|];
    if decodes == [] {
      all := gs;
    } else {
      var id, rest := decodes[0], decodes[1..];
      var h := GrowOne(g.engine, id, g.survivors);
      GrowOneIs(g.engine, id, g.survivors);
      assert (done + decodes)[|done|] == id && (done + [id]) + rest == done + decodes;
      var more := gs + [h];
      forall j | 0 <= j < |more| - 1
        ensures more[j].Growth? && OneGrown(more[j].engine, (done + decodes)[j], more[j].survivors, more[j + 1])
      {
        if j < |done| {
          assert more[j] == gs[j] && more[j + 1] == gs[j + 1];
        }
      }
      if h.GrowFailed? {
        all := more;
      } else {
        all := GrowAllFrom(more, done + [id], rest);
      }
    }
  }

  /** The decodes are grown one after the other, up to the first exception. */
  lemma GrowAllInTurn(e: Engine, decodes: seq<int>) returns (gs: seq<Growth>)
    ensures gs != [] && GrownInTurn(gs, decodes) && gs[0] == Growth(e, [])
    ensures gs[|gs| - 1] == GrowAll(e, decodes, [])
    ensures gs[|gs| - 1].Growth? ==> |gs| == |decodes| + 1
  {
    hide OneGrown;
    assert [] + decodes == decodes;
    gs := GrowAllFrom([Growth(e, [])], [], decodes);
  }

  // ---- what a step writes into a record

  /** What the step did for one sequence: the prompt tokens it was given, whether it
      decoded, how many tokens the step gives and how many drafts it proposed. */
  datatype Part = Part(prefills: bool, chunk: nat, decodes: bool, tokens: nat, proposed: nat, accepted: nat)

  /** Prompt tokens count as prefilled. A decoding sequence gets the step's tokens, but no
      more than it lacks, all stamped with the end of the step; one whose prompt is now
      complete gets its first. The first token's time is kept once it is set. */
  ghost predicate RecordCredited(s: Sequence, s': Sequence, p: Part, now: real) {
    var lacks := if s.generated < s.req.outputTokens then s.req.outputTokens - s.generated else 0;
    var given := if !p.decodes then 0 else if p.tokens <= lacks then p.tokens else lacks;
    var filled := s.prefilled + if p.prefills then p.chunk else 0;
    var begins := p.prefills && filled >= s.req.promptTokens && s.firstToken < 0.0
                  && !(p.decodes && s.generated + given > 0);
    && s'.req == s.req && s'.cached == s.cached && s'.nPreemptions == s.nPreemptions
    && s'.prefilled == filled
    && s'.generated == (if begins then 1 else s.generated + given)
    && |s'.tokenTimes| == |s.tokenTimes| + given + (if begins then 1 else 0)
    && s'.tokenTimes[..|s.tokenTimes|] == s.tokenTimes
    && (forall k :: |s.tokenTimes| <= k < |s'.tokenTimes| ==> s'.tokenTimes[k] == now)
    && s'.firstToken == (if begins || (p.decodes && s.firstToken < 0.0 && s.generated + given > 0) then now
                         else s.firstToken)
    && s'.specProposed == s.specProposed + (if p.decodes then p.proposed else 0)
    && s'.specAccepted == s.specAccepted + (if p.decodes then p.accepted else 0)
  }

  /** Whoever runs and has all its tokens is finished, at the end of the step. */
  ghost predicate RecordLeft(s: Sequence, s': Sequence, runs: bool, now: real) {
    if runs && s'.generated >= s.req.outputTokens then s'.status == Finished && s'.finish == now && s'.table == []
    else s'.status == s.status && s'.finish == s.finish && s'.table == s.table
  }

  /** Drafts are proposed when nothing but decodes is worked on. */
  function PartOf(cfg: Config, prefills: seq<Chunk>, decodes: seq<int>, input: StepInput, x: int): Part {
    var drafts := cfg.draftTokens > 0 && decodes != [] && prefills == [];
    Part(x in ChunkIds(prefills), ChunkFor(prefills, x), x in decodes, if drafts then input.accepted + 1 else 1,
         if drafts then cfg.draftTokens else 0, if drafts then input.accepted else 0)
  }

  lemma SettledIs(s: Sequence, cfg: Config, prefills: seq<Chunk>, decodes: seq<int>, input: StepInput, now: real,
                  runs: bool, x: int)
    requires now >= 0.0
    ensures
      var s' := Settled(s, cfg, prefills, decodes, input, now, runs, x);
      RecordCredited(s, s', PartOf(cfg, prefills, decodes, input, x), now) && RecordLeft(s, s', runs, now)
  {
    hide ChunkFor, ChunkIds;
  }

  // ---- who leaves

  /** Those that have all their tokens, in order. */
  function Leaving(e: Engine, ids: seq<int>): seq<int> {
    if ids == [] then []
    else
      var s := e.Get(ids[0]);
      (if s.generated >= s.req.outputTokens then [ids[0]] else []) + Leaving(e, ids[1..])
  }

  /** The pool when the tables of `ids` have been given back one after the other. */
  function GiveBack(p: Pool, e: Engine, ids: seq<int>): Pool
    decreases |ids|
  {
    if ids == [] then p else GiveBack(Free(p, e.Get(ids[0]).table), e, ids[1..])
  }

  lemma {:induction false} LeavingSame(a: Engine, b: Engine, ids: seq<int>)
    requires forall x :: x in ids ==> b.Get(x).generated == a.Get(x).generated && b.Get(x).req == a.Get(x).req
    ensures Leaving(a, ids) == Leaving(b, ids)
  {
    if ids != [] {
      assert ids[0] in ids;
      LeavingSame(a, b, ids[1..]);
    }
  }

  lemma {:induction false} LeavingFrom(e: Engine, ids: seq<int>)
    ensures forall x :: x in Leaving(e, ids) ==> x in ids
  {
    if ids != [] {
      LeavingFrom(e, ids[1..]);
    }
  }

  lemma {:induction false} GiveBackSame(p: Pool, a: Engine, b: Engine, ids: seq<int>)
    requires forall x :: x in ids ==> b.Get(x).table == a.Get(x).table
    ensures GiveBack(p, a, ids) == GiveBack(p, b, ids)
    decreases |ids|
  {
    hide Free;
    if ids != [] {
      assert ids[0] in ids;
      GiveBackSame(Free(p, a.Get(ids[0]).table), a, b, ids[1..]);
    }
  }

  ghost predicate Left(e: Engine, e': Engine, gone: seq<int>) {
    e' == e.(running := Without(e.running, gone), finished := e.finished + gone, kv := GiveBack(e.kv, e, gone),
             seqs := e'.seqs)
  }

  lemma {:induction false} FinishLeaves(e: Engine, ids: seq<int>)
    requires NoDup(ids)
    ensures Left(e, FinishDone(e, ids), Leaving(e, ids))
    decreases |ids|
  {
    hide Free;
    if ids == [] {
      assert e.finished + [] == e.finished;
    } else {
      var id, rest := ids[0], ids[1..];
      RestDistinct(ids);
      LeavingFrom(e, rest);
      if e.Get(id).Done() {
        var e1 := FinishOne(e, id);
        FinishLeaves(e1, rest);
        LeavingSame(e, e1, rest);
        GiveBackSame(e1.kv, e, e1, Leaving(e, rest));
        LeaveCons(e, e1, FinishDone(e, ids), id, Leaving(e, rest));
      } else {
        FinishLeaves(e, rest);
        assert [] + Leaving(e, rest) == Leaving(e, rest);
      }
    }
  }

  lemma LeaveCons(e: Engine, e1: Engine, e': Engine, id: int, rest: seq<int>)
    requires e1 == FinishOne(e, id) && Left(e1, e', rest) && GiveBack(e1.kv, e, rest) == GiveBack(e1.kv, e1, rest)
    ensures Left(e, e', [id] + rest)
  {
    hide Free;
    var all := [id] + rest;
    assert all[1..] == rest && (e.finished + [id]) + rest == e.finished + all;
  }

  // ---- the step

  /** What working a step off makes of the grown engine. */
  ghost predicate WorkedOff(g: Engine, e': Engine, prefills: seq<Chunk>, decodes: seq<int>, input: StepInput) {
    var gone := Leaving(e', g.running);
    && e' == g.(now := g.now + input.duration, stepNo := g.stepNo + 1, running := Without(g.running, gone),
                finished := g.finished + gone, kv := GiveBack(g.kv, g, gone), seqs := e'.seqs)
    && forall x ::
         && RecordCredited(g.Get(x), e'.Get(x), PartOf(g.cfg, prefills, decodes, input, x), e'.now)
         && RecordLeft(g.Get(x), e'.Get(x), x in g.running, e'.now)
  }

  /** A step's outcome: the decodes are grown in turn, and unless growth raises, either
      nothing is left to work on and a tick of 0.1 passes, or the work is worked off. */
  ghost predicate StepTaken(w: Work, input: StepInput, r: StepResult, gs: seq<Growth>) {
    if w.WorkFailed? then r.Crashed?
    else
      && GrownInTurn(gs, w.decodes) && gs[0] == Growth(w.engine, [])
      && var g := gs[|gs| - 1];
         if g.GrowFailed? then r.Crashed?
         else
           && |gs| == |w.decodes| + 1
           && if w.prefills == [] && g.survivors == []
              then r == Stalled(g.engine.(now := g.engine.now + 0.1, stepNo := g.engine.stepNo + 1))
              else r.Worked? && r.prefills == w.prefills && r.decodes == g.survivors
                   && WorkedOff(g.engine, r.engine, w.prefills, g.survivors, input)
  }

  lemma AppliedLists(e: Engine, prefills: seq<Chunk>, decodes: seq<int>, input: StepInput)
    requires NoDup(e.running)
    ensures
      var e', e5 := ApplyWork(e, prefills, decodes, input), Applied(e, prefills, decodes, input);
      && e5 == e.(now := e.now + input.duration, stepNo := e.stepNo + 1, seqs := e5.seqs)
      && Left(e5, e', Leaving(e5, e.running))
  {
    hide ForEach, ForChunks, FinishDone, Leaving, Tokened, Left;
    EachSame(e, decodes, CountingSpec(e.cfg.draftTokens, input.accepted));
    var e2 := Clocked(e, prefills, decodes, input);
    TokenedSame(e2, prefills, decodes, TokensPerDecode(e.cfg, prefills, decodes, input.accepted));
    FinishLeaves(Applied(e, prefills, decodes, input), e.running);
  }

  /** The engine when the step is credited and nobody has left yet. */
  function Applied(e: Engine, prefills: seq<Chunk>, decodes: seq<int>, input: StepInput): Engine {
    Tokened(Clocked(e, prefills, decodes, input), prefills, decodes,
            TokensPerDecode(e.cfg, prefills, decodes, input.accepted))
  }

  /** Crediting leaves the tables alone, and leaving leaves the token counts alone. */
  lemma AppliedRecord(e: Engine, prefills: seq<Chunk>, decodes: seq<int>, input: StepInput, x: int)
    requires DistinctChunks(prefills) && NoDup(decodes) && NoDup(e.running)
    ensures
      var e', e5 := ApplyWork(e, prefills, decodes, input), Applied(e, prefills, decodes, input);
      && e5.Get(x).table == e.Get(x).table && e5.Get(x).req == e'.Get(x).req
      && e5.Get(x).generated == e'.Get(x).generated
  {
    hide ForEach, ForChunks, FinishDone, ChunkFor, ChunkIds, Tokened;
    if Speculates(e.cfg, prefills, decodes) {
      ForEachPoint(e, decodes, CountingSpec(e.cfg.draftTokens, input.accepted), x);
    }
    EachSame(e, decodes, CountingSpec(e.cfg.draftTokens, input.accepted));
    var e2 := Clocked(e, prefills, decodes, input);
    var tokens := TokensPerDecode(e.cfg, prefills, decodes, input.accepted);
    TokenedRecord(e2, prefills, decodes, tokens, x);
    TokenedSame(e2, prefills, decodes, tokens);
    FinishPoint(Tokened(e2, prefills, decodes, tokens), e.running, x);
  }

  lemma WorkOffIs(e: Engine, prefills: seq<Chunk>, decodes: seq<int>, input: StepInput)
    requires DistinctChunks(prefills) && NoDup(decodes) && NoDup(e.running)
    requires e.now >= 0.0 && input.duration >= 0.0
    ensures WorkedOff(e, ApplyWork(e, prefills, decodes, input), prefills, decodes, input)
  {
    hide Applied, ApplyWork, Leaving, GiveBack, Without, NoDup, DistinctChunks, RecordCredited, RecordLeft, Settled,
         PartOf;
    var e', e5 := ApplyWork(e, prefills, decodes, input), Applied(e, prefills, decodes, input);
    AppliedLists(e, prefills, decodes, input);
    forall x ensures e5.Get(x).table == e.Get(x).table && e5.Get(x).req == e'.Get(x).req
                     && e5.Get(x).generated == e'.Get(x).generated {
      AppliedRecord(e, prefills, decodes, input, x);
    }
    LeavingSame(e5, e', e.running);
    GiveBackSame(e.kv, e, e5, Leaving(e', e.running));
    forall x
      ensures RecordCredited(e.Get(x), e'.Get(x), PartOf(e.cfg, prefills, decodes, input, x), e'.now)
      ensures RecordLeft(e.Get(x), e'.Get(x), x in e.running, e'.now)
    {
      ApplyPoint(e, prefills, decodes, input, x);
      SettledIs(e.Get(x), e.cfg, prefills, decodes, input, e.now + input.duration, x in e.running, x);
    }
  }

  lemma SurvivorsDistinct(e: Engine)
    requires Accounted(e) && Schedule(e).Work?
    ensures
      var w := Schedule(e);
      var g := GrowAll(w.engine, w.decodes, []);
      && DistinctChunks(w.prefills)
      && (g.Growth? ==> NoDup(g.survivors) && NoDup(g.engine.running) && g.engine.now >= 0.0)
  {
    hide Accounted, Schedule, GrowAll, PrefillsOk, ChunksFit, DistinctChunks, Members, Shrunk;
    ScheduleOk(e);
    EngineStarts.DecodesDistinct(e);
    var w := Schedule(e);
    RunningUnfinished(w.engine, w.decodes);
    GrowAllOk(w.engine, w.decodes, [], w.decodes);
    EngineGrowth.RunningNoDup(w.engine);
    GrowAllGrew(w.engine, w.decodes, [], 0);
    PrefillsDistinctIn(w.engine, w.prefills);
    var g := GrowAll(w.engine, w.decodes, []);
    if g.Growth? {
      EngineGrowth.RunningNoDup(g.engine);
      ClockNonNegative(g.engine);
    }
  }

  /** Every step of an engine with its books in order is taken so. */
  lemma StepWorkIs(e: Engine, input: StepInput)
    requires Accounted(e) && input.duration >= 0.0
    ensures exists gs :: StepTaken(Schedule(e), input, StepWork(e, input), gs)
  {
    hide Accounted, Schedule, GrowAll, ApplyWork, WorkedOff, GrownInTurn, DistinctChunks, NoDup;
    var w, r := Schedule(e), StepWork(e, input);
    if w.Work? {
      SurvivorsDistinct(e);
      var gs := GrowAllInTurn(w.engine, w.decodes);
      var g := gs[|gs| - 1];
      if g.Growth? && !(w.prefills == [] && g.survivors == []) {
        WorkOffIs(g.engine, w.prefills, g.survivors, input);
      }
      assert StepTaken(w, input, r, gs);
    } else {
      assert StepTaken(w, input, r, []);
    }
  }

  // ---- a run

  /** A run takes steps that work or stall while it may, and ends where it may take no
      more, where nothing is left to do, or in an exception. */
  lemma {:induction false} RunLaidOut(e: Engine, env: nat -> StepInput, steps: nat, maxMs: real)
    returns (es: seq<Engine>)
    ensures 1 <= |es| <= steps + 1 && es[0] == e
    ensures forall j :: 0 <= j < |es| - 1 ==>
              var r := Step(es[j], env(es[j].stepNo));
              es[j].now < maxMs && (r.Worked? || r.Stalled?) && r.engine == es[j + 1]
    ensures
      var last := es[|es| - 1];
      var r := Step(last, env(last.stepNo));
      if |es| - 1 == steps || last.now >= maxMs then Run(e, env, steps, maxMs) == Some(last)
      else if r.Idle? then Run(e, env, steps, maxMs) == Some(r.engine)
      else r.Crashed? && Run(e, env, steps, maxMs) == None
    decreases steps
  {
    hide Step;
    es := [e];
    if steps > 0 && e.now < maxMs {
      var r := Step(e, env(e.stepNo));
      if r.Worked? || r.Stalled? {
        var more := RunLaidOut(r.engine, env, steps - 1, maxMs);
        es := [e] + more;
        forall j | 0 <= j < |es| - 1
          ensures es[j].now < maxMs
          ensures Step(es[j], env(es[j].stepNo)).Worked? || Step(es[j], env(es[j].stepNo)).Stalled?
          ensures Step(es[j], env(es[j].stepNo)).engine == es[j + 1]
        {
          if j > 0 {
            assert es[j] == more[j - 1] && es[j + 1] == more[j];
          }
        }
        assert es[|es| - 1] == more[|more| - 1];
      }
    }
  }
}
