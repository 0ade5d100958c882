/** How large the engine's tables are. A table is filled with a prompt when its
    sequence is admitted or restored, and from then on each step in which the
    sequence decodes tells the allocator its length; every block it has comes from
    the one or the other. */
module EngineTables {
  import opened Lists
  import opened PagedSpec
  import opened EngineSpec
  import opened EngineAccounting
  import opened EngineRuns
  import opened EngineStarts
  import opened EngineHealthyWork
  import opened EngineRecords

  // ---- what a table was filled with

  /** The tokens a running sequence's table was filled with, the lengths its growth
      was told since, and whether it had been swapped out before. */
  datatype Fill = Fill(base: nat, told: seq<nat>, restored: bool)

  /** How many of the lengths lie on a block boundary. */
  function Multiples(told: seq<nat>, size: pos): nat {
    if told == [] then 0 else Multiples(told[..|told| - 1], size) + if told[|told| - 1] % size == 0 then 1 else 0
  }

  /** A sequence that starts to run has its table filled: with the prompt, or with
      what is restored. */
  function Refilled(s: Sequence, f: Fill): Fill {
    match s.status
    case Running => f
    case Swapped => Fill(|RestoreTokens(s)|, [], true)
    case Waiting => Fill(s.req.promptTokens, [], false)
    case Finished => f
  }

  /** What a step does to it: the sequences that decode in it were told their length. */
  function NextFill(e: Engine, input: StepInput, f: Fill, x: int): Fill {
    var s, r := Wake(e).Get(x), Step(e, input);
    var refilled := Refilled(s, f);
    if r.Worked? && x in r.decodes then refilled.(told := refilled.told + [s.TotalLen()]) else refilled
  }

  /** Following sequence `x` through a run. */
  function FillAfter(e: Engine, commands: seq<Command>, f: Fill, x: int): Fill
    decreases |commands|
  {
    if commands == [] then f
    else match commands[0]
      case SubmitAll(reqs) => FillAfter(Submit(e, reqs), commands[1..], f, x)
      case StepOnce(input) =>
        var r := Step(e, input);
        if r.Crashed? then f else FillAfter(r.engine, commands[1..], NextFill(e, input, f, x), x)
  }

  /** The blocks a filled and grown table has. */
  function BlocksOf(f: Fill, size: pos): nat {
    CeilDiv(f.base, size) + Multiples(f.told, size)
  }

  /** A running sequence has the blocks of its fill, and was filled with its prompt
      (or, restored with an empty prompt, with what it had generated). */
  ghost predicate RecordFilled(s: Sequence, f: Fill, size: pos) {
    s.status == Running ==>
      && |s.table| == BlocksOf(f, size)
      && (f.base == s.req.promptTokens || (f.restored && s.req.promptTokens == 0))
  }

  /** The lengths told to a running sequence rise, to below its present length: by
      one each time without speculation. The first of them is then, unless the
      sequence was swapped, that of the prompt with its first token, or of the prompt
      alone when all of it was cached. */
  ghost predicate RecordTold(s: Sequence, f: Fill, plain: bool) {
    && (s.status == Waiting && plain ==> s.generated <= 1)
    && (s.status == Running ==>
          && (s.firstToken < 0.0 <==> s.generated == 0)
          && Rising(f.told, plain)
          && (f.told != [] ==> s.PrefillDone() && Past(s.TotalLen(), f.told[|f.told| - 1], plain))
          && (plain && !f.restored ==> FirstTold(s, f)))
  }

  ghost predicate FirstTold(s: Sequence, f: Fill) {
    var prompt := s.req.promptTokens;
    if f.told == [] then s.generated <= 1 && (s.PrefillDone() ==> s.generated == 1 || s.cached >= prompt)
    else f.told[0] == prompt + 1 || (f.told[0] == prompt && s.cached >= prompt)
  }

  predicate Past(next: nat, len: nat, plain: bool) {
    if plain then next == len + 1 else next > len
  }

  ghost predicate Rising(told: seq<nat>, plain: bool) {
    forall i, j :: 0 <= i && j == i + 1 < |told| ==> Past(told[j], told[i], plain)
  }

  // ---- a step, and a run

  lemma MultiplesSnoc(told: seq<nat>, len: nat, size: pos)
    ensures Multiples(told + [len], size) == Multiples(told, size) + if len % size == 0 then 1 else 0
  {
    assert (told + [len])[..|told|] == told;
  }

  lemma RestoreBase(s: Sequence, now: real)
    requires RecordOk(s, now)
    ensures s.req.promptTokens > 0 ==> RestoreTokens(s) == s.req.tokenIds && |RestoreTokens(s)| == s.req.promptTokens
  {
    assert s.req.tokenIds[..|s.req.tokenIds|] == s.req.tokenIds;
  }

  /** A record that has started to run, or runs on, has the blocks of its fill. */
  lemma StartedFill(s: Sequence, s': Sequence, f: Fill, size: pos, now: real)
    requires Started(s, s', size) && (s.status == Swapped ==> RecordOk(s, now)) && RecordFilled(s, f, size)
    ensures RecordFilled(s', Refilled(s, f), size) && s'.TotalLen() == s.TotalLen() && s'.req == s.req
  {
    if s.status == Swapped {
      RestoreBase(s, now);
    }
    hide RecordOk, RestoreTokens;
  }

  lemma SwappedRecord(e: Engine, x: int)
    requires Accounted(e)
    ensures e.Get(x).status == Swapped ==> RecordOk(e.Get(x), e.now)
  {
    hide RecordOk, Members;
  }

  /** A record through a step has the blocks of its fill, with the length told if it
      was grown. */
  lemma SteppedFill(s0: Sequence, s1: Sequence, s2: Sequence, s': Sequence, cfg: Config, size: pos, p: Place, p': Place,
                    r: StepResult, input: StepInput, now: real, x: int, f: Fill)
    requires Stepped(s0, s1, s2, s', cfg, size, p, p', r, input, now, x)
    requires RecordFilled(s1, f, size) && s1.TotalLen() == s0.TotalLen()
    ensures RecordFilled(s', if r.Worked? && x in r.decodes then f.(told := f.told + [s0.TotalLen()]) else f, size)
  {
    MultiplesSnoc(f.told, s0.TotalLen(), size);
    hide Multiples, Started, ChunkFor;
  }

  ghost predicate Followed(s: Sequence, f: Fill, size: pos, plain: bool) {
    RecordFilled(s, f, size) && RecordTold(s, f, plain)
  }

  lemma StartedTold(s: Sequence, s': Sequence, f: Fill, size: pos, plain: bool)
    requires Started(s, s', size) && TokenStamped(s)
    requires RecordTold(s, f, plain)
    ensures RecordTold(s', Refilled(s, f), plain)
  {
    hide RestoreTokens;
  }

  predicate TokenStamped(s: Sequence) {
    s.firstToken < 0.0 <==> s.generated == 0
  }

  lemma StampedRecord(e: Engine, x: int)
    requires Accounted(e)
    ensures TokenStamped(e.Get(x))
  {
    hide Members;
    if x in e.seqs {
      assert RecordOk(e.Get(x), e.now);
    }
  }

  lemma RisingSnoc(told: seq<nat>, len: nat, plain: bool)
    requires Rising(told, plain) && (told != [] ==> Past(len, told[|told| - 1], plain))
    ensures Rising(told + [len], plain)
  {
  }

  lemma SteppedTold(s0: Sequence, s1: Sequence, s2: Sequence, s': Sequence, cfg: Config, size: pos, p: Place, p': Place,
                    r: StepResult, input: StepInput, now: real, x: int, f: Fill)
    requires Stepped(s0, s1, s2, s', cfg, size, p, p', r, input, now, x)
    requires RecordTold(s1, f, cfg.draftTokens == 0) && s1.TotalLen() == s0.TotalLen() && now >= 0.0
    ensures RecordTold(s', if r.Worked? && x in r.decodes then f.(told := f.told + [s0.TotalLen()]) else f,
                       cfg.draftTokens == 0)
  {
    if f.told == [] || Past(s0.TotalLen(), f.told[|f.told| - 1], cfg.draftTokens == 0) {
      if Rising(f.told, cfg.draftTokens == 0) {
        RisingSnoc(f.told, s0.TotalLen(), cfg.draftTokens == 0);
      }
    }
    hide Started, ChunkFor, Rising;
  }

  lemma StepWorkTable(e: Engine, input: StepInput, f: Fill, x: int)
    requires Accounted(e) && Followed(e.Get(x), f, e.kv.blockSize, e.cfg.draftTokens == 0) && input.duration >= 0.0
    ensures
      var r, f0 := StepWork(e, input), Refilled(e.Get(x), f);
      !r.Crashed? ==>
        && r.engine.kv.blockSize == e.kv.blockSize
        && Followed(r.engine.Get(x),
                   if r.Worked? && x in r.decodes then f0.(told := f0.told + [e.Get(x).TotalLen()]) else f0,
                   e.kv.blockSize, e.cfg.draftTokens == 0)
  {
    hide Accounted, StepWork, RecordFilled, RecordTold, Refilled, Grew, Settled;
    if !StepWork(e, input).Crashed? {
      var s1, s2, p, p' := StepWorkRecord(e, input, x);
      SwappedRecord(e, x);
      StampedRecord(e, x);
      StartedFill(e.Get(x), s1, f, e.kv.blockSize, e.now);
      StartedTold(e.Get(x), s1, f, e.kv.blockSize, e.cfg.draftTokens == 0);
      var r := StepWork(e, input);
      ClockNonNegative(e);
      SteppedFill(e.Get(x), s1, s2, r.engine.Get(x), e.cfg, e.kv.blockSize, p, p', r, input,
                  e.now + input.duration, x, Refilled(e.Get(x), f));
      SteppedTold(e.Get(x), s1, s2, r.engine.Get(x), e.cfg, e.kv.blockSize, p, p', r, input,
                  e.now + input.duration, x, Refilled(e.Get(x), f));
    }
  }

  /** Waking adds waiting sequences that have nothing yet. */
  predicate Woken(s: Sequence, s': Sequence) {
    s' == s || (s'.status == Waiting && s'.generated == 0 && s'.table == [])
  }

  lemma WakeRecord(e: Engine, x: int)
    requires Accounted(e)
    ensures Wake(e).kv == e.kv && Woken(e.Get(x), Wake(e).Get(x))
  {
    hide Accounted, AdmitArrivals;
    ArrivalRecord(e, x);
    AdmitArrivalsAccounted(e);
    var a := AdmitArrivals(e);
    if !(InFlight(a) || a.pending == []) {
      ArrivalRecord(a.(now := a.pending[0].arrival), x);
    }
  }

  lemma {:induction false} ArrivalRecord(e: Engine, x: int)
    ensures var e' := AdmitArrivals(e);
      e'.kv == e.kv && Woken(e.Get(x), e'.Get(x))
    decreases |e.pending|
  {
    if !(e.pending == [] || e.pending[0].arrival > e.now) {
      var r := WithTokens(e.pending[0]);
      ArrivalRecord(e.Put(r.id, NewSequence(r)).(pending := e.pending[1..], waiting := e.waiting + [r.id]), x);
    }
  }

  lemma StepTable(e: Engine, input: StepInput, f: Fill, x: int)
    requires Accounted(e) && Followed(e.Get(x), f, e.kv.blockSize, e.cfg.draftTokens == 0) && input.duration >= 0.0
    ensures
      var r := Step(e, input);
      !r.Crashed? ==>
        && r.engine.kv.blockSize == e.kv.blockSize
        && Followed(r.engine.Get(x), NextFill(e, input, f, x), e.kv.blockSize, e.cfg.draftTokens == 0)
  {
    hide Accounted, Wake, StepWork, Followed;
    WakeRecord(e, x);
    WakeAccounted(e);
    var e1 := Wake(e);
    WokenFollowed(e.Get(x), e1.Get(x), f, e.kv.blockSize, e.cfg.draftTokens == 0);
    if InFlight(e1) || e1.pending != [] {
      StepWorkTable(e1, input, f, x);
    } else {
      StillRefilled(e1, f, x);
    }
  }

  lemma WokenFollowed(s: Sequence, s': Sequence, f: Fill, size: pos, plain: bool)
    requires Followed(s, f, size, plain) && Woken(s, s')
    ensures Followed(s', f, size, plain)
  {
  }

  /** With nothing in flight nothing is refilled that runs. */
  lemma StillRefilled(e: Engine, f: Fill, x: int)
    requires Accounted(e) && !InFlight(e) && Followed(e.Get(x), f, e.kv.blockSize, e.cfg.draftTokens == 0)
    ensures Followed(e.Get(x), Refilled(e.Get(x), f), e.kv.blockSize, e.cfg.draftTokens == 0)
  {
  }

  lemma {:induction false} SubmitRecord(e: Engine, reqs: seq<Request>)
    ensures Submit(e, reqs).seqs == e.seqs && Submit(e, reqs).kv == e.kv && Submit(e, reqs).cfg == e.cfg
    decreases |reqs|
  {
    if reqs != [] {
      SubmitRecord(e.(pending := InsertPending(e.pending, reqs[0])), reqs[1..]);
    }
  }

  /** In every run, whatever is shared, preempted, swapped or speculated: a running
      sequence's table has the blocks of what it was filled with, rounded up, and one
      for each length on a block boundary its growth was told. */
  lemma {:induction false} ExecuteTables(e: Engine, commands: seq<Command>, f: Fill, x: int)
    requires Accounted(e) && Followed(e.Get(x), f, e.kv.blockSize, e.cfg.draftTokens == 0)
    requires forall i :: 0 <= i < |commands| ==> CommandOk(commands[i])
    requires AtMostOnce(Members(e) + multiset(Submitted(commands)))
    ensures
      var r := Execute(e, commands);
      r.Some? ==>
        && r.value.kv.blockSize == e.kv.blockSize
        && Followed(r.value.Get(x), FillAfter(e, commands, f, x), e.kv.blockSize, e.cfg.draftTokens == 0)
    decreases |commands|
  {
    hide Accounted, Members, AtMostOnce, Step, Submit, Followed, NextFill;
    if commands != [] {
      assert CommandOk(commands[0]);
      var rest := commands[1..];
      var tail := multiset(Submitted(rest));
      match commands[0] {
        case SubmitAll(reqs) =>
          var mine := multiset(Ids(reqs));
          assert multiset(Submitted(commands)) == mine + tail;
          assert Members(e) + mine + tail == Members(e) + multiset(Submitted(commands));
          AtMostOnceSub(Members(e) + mine, tail);
          SubmitAccounted(e, reqs);
          SubmitRecord(e, reqs);
          assert Submit(e, reqs).Get(x) == e.Get(x);
          ExecuteTables(Submit(e, reqs), rest, f, x);
        case StepOnce(input) =>
          assert Submitted(commands) == Submitted(rest);
          StepAccounted(e, input);
          StepTable(e, input, f, x);
          var r := Step(e, input);
          if !r.Crashed? {
            ExecuteTables(r.engine, rest, NextFill(e, input, f, x), x);
          }
      }
    }
  }
}
