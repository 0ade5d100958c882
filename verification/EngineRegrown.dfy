/** A run in which a preempted sequence is grown again in the same step: it is given a
    token while it waits without its prompt, and its block is lost when it starts. */
module EngineRegrown {
  import opened Lists
  import opened PagedSpec
  import opened EngineSpec
  import opened EngineAccounting
  import opened EngineRuns
  import opened EngineRecords
  import opened EngineUnshared
  import opened EngineCounting
  import opened EngineClean
  import opened EngineWitness

  /** It is done after three tokens; the short one goes on. */
  const QUICK := Request(0, 1, 3, 0.0, 0, [5], TokenKeys(None, 0, None, false, 0))

  /** Four blocks of one token. */
  function Small(): Pool {
    InitPool(4, 1, false, 0.01)
  }

  /** An unshared pool of such blocks, n of them free. */
  ghost predicate Spare(p: Pool, n: nat) {
    Unshared(p) && p.blockSize == 1 && p.watermark == 1 && |p.freeIds| == n
  }

  lemma SmallSpare()
    ensures Spare(Small(), 4)
  {
    assert 4 as real * 0.01 == 0.04;
  }

  lemma OneBlock(p: Pool, n: nat, token: Token)
    requires Spare(p, n + 1)
    ensures
      var r := AllocatePrompt(p, [token]);
      r.ok && r.cached == 0 && |r.table| == 1 && Spare(r.pool, n)
    ensures n >= 1 ==> p.CanAllocate(1)
  {
    OneFull(p, token);
    AllocatePromptUnshared(p, [token]);
    var h := HashBlock(None, [token]);
    assert h !in p.cache && NoneEvictable(p) == {};
    TakeCounts(p, Some(h), 1);
    TakeCounts(CountMiss(p), Some(h), 1);
    hide AddBlock, Unshared;
    var t := AddBlock(CountMiss(p), Some(h), 1);
    var full := Allocation(t.pool, [t.bid.value], 0, true);
    assert AllocateFull(t.pool, [[token]], 1, Some(h), false, [t.bid.value], 0) == full;
    assert [] + [t.bid.value] == [t.bid.value];
    assert AllocateFull(p, [[token]], 0, None, false, [], 0) == full;
  }

  function NoneEvictable(p: Pool): set<Digest> {
    set h | h in p.cache && p.Idle(h)
  }

  lemma OneFull(p: Pool, token: Token)
    requires p.blockSize == 1
    ensures Chunks([token], 1) == [[token]]
  {
    assert [token][..1] == [token] && [token][1..] == [];
    assert Chunks([token], 1) == [[token]] + Chunks([], 1);
  }

  lemma Takes(p: Pool, n: nat, table: seq<nat>, len: nat)
    requires Spare(p, n + 1)
    ensures
      var r := AppendToken(p, table, len);
      r.Grown? && |r.table| == |table| + 1 && Spare(r.pool, n)
  {
    AppendCounts(p, table, len);
    AppendUnshared(p, table, len);
    OnBoundary(len);
    AppendMark(p, table, len);
    hide Unshared, AppendToken;
  }

  lemma OnBoundary(len: nat)
    ensures len % 1 == 0
  {
  }

  lemma AppendMark(p: Pool, table: seq<nat>, len: nat)
    ensures var r := AppendToken(p, table, len);
      && (r.Grown? ==> r.pool.watermark == p.watermark)
      && (r.OutOfBlocks? ==> r.pool.watermark == p.watermark)
  {
  }

  lemma Fails(p: Pool, table: seq<nat>, len: nat)
    requires Spare(p, 0)
    ensures var r := AppendToken(p, table, len); r.OutOfBlocks? && Spare(r.pool, 0)
  {
    AppendCounts(p, table, len);
    AppendUnshared(p, table, len);
    OnBoundary(len);
    AppendMark(p, table, len);
    hide Unshared, AppendToken;
  }

  lemma Frees(p: Pool, n: nat, table: seq<nat>)
    requires Spare(p, n)
    ensures Spare(Free(p, table), n + |table|)
  {
    FreeCounts(p, table);
    FreeUnshared(p, table);
    FreeMark(p, table);
    hide Unshared, Free;
  }

  lemma {:induction false} FreeMark(p: Pool, table: seq<nat>)
    ensures Free(p, table).watermark == p.watermark
    decreases |table|
  {
    if table != [] {
      FreeMark(Release(p, table[0]), table[1..]);
    }
  }

  // ---- the first two steps

  function HalfIn(kv: Pool, ta: seq<nat>): Engine {
    Engine(PLAIN, kv, 0.0, 0, map[0 := Admitted(QUICK, ta), 1 := NewSequence(SHORT)], [], [1], [0], [], [], 0,
           multiset{})
  }

  lemma QuickAdmitted(kv: Pool)
    requires Spare(kv, 4)
    ensures
      var r, a := AllocatePrompt(kv, [5]), Allocate(ArrivedIn(PLAIN, kv, QUICK, SHORT), 0);
      a.ok && a.engine.waiting != [] && StartHead(a.engine) == HalfIn(r.pool, r.table)
  {
    OneBlock(kv, 3, 5);
    hide AllocatePrompt;
    var e := ArrivedIn(PLAIN, kv, QUICK, SHORT);
    var r := AllocatePrompt(kv, [5]);
    assert StartHead(Allocate(e, 0).engine).seqs == HalfIn(r.pool, r.table).seqs;
    assert [] + [0] == [0] && [0, 1][1..] == [1];
    Nothing(NewSequence(QUICK).table);
  }

  lemma ShortAdmitted(kv: Pool, ta: seq<nat>)
    requires Spare(kv, 3)
    ensures
      var r, a := AllocatePrompt(kv, [9]), Allocate(HalfIn(kv, ta), 1);
      && a.ok && a.engine.waiting != []
      && StartHead(a.engine) == BothAdmitted(PLAIN, r.pool, QUICK, SHORT, ta, r.table)
  {
    OneBlock(kv, 2, 9);
    hide AllocatePrompt;
    var e, r := HalfIn(kv, ta), AllocatePrompt(kv, [9]);
    assert StartHead(Allocate(e, 1).engine).seqs == map[0 := Admitted(QUICK, ta), 1 := Admitted(SHORT, r.table)];
    assert [0] + [1] == [0, 1] && [1][1..] == [];
    Nothing(NewSequence(SHORT).table);
  }

  lemma BothScheduled(kv: Pool, kv1: Pool, ta: seq<nat>, kv2: Pool, tb: seq<nat>)
    requires
      var a, b := Allocate(ArrivedIn(PLAIN, kv, QUICK, SHORT), 0), Allocate(HalfIn(kv1, ta), 1);
      && a.ok && a.engine.waiting != [] && StartHead(a.engine) == HalfIn(kv1, ta)
      && b.ok && b.engine.waiting != [] && StartHead(b.engine) == BothAdmitted(PLAIN, kv2, QUICK, SHORT, ta, tb)
    ensures Schedule(ArrivedIn(PLAIN, kv, QUICK, SHORT))
         == Work(BothAdmitted(PLAIN, kv2, QUICK, SHORT, ta, tb), [Chunk(0, 1), Chunk(1, 1)], [])
  {
    hide Allocate, StartHead;
    var e, half := ArrivedIn(PLAIN, kv, QUICK, SHORT), HalfIn(kv1, ta);
    var both := BothAdmitted(PLAIN, kv2, QUICK, SHORT, ta, tb);
    assert [Chunk(0, 1)] + [Chunk(1, 1)] == [Chunk(0, 1), Chunk(1, 1)] && [] + [Chunk(0, 1)] == [Chunk(0, 1)];
    assert AdmitWhole(both, [Chunk(0, 1), Chunk(1, 1)], 6, true) == (both, [Chunk(0, 1), Chunk(1, 1)]);
    assert AdmitWhole(half, [Chunk(0, 1)], 7, true) == (both, [Chunk(0, 1), Chunk(1, 1)]);
    assert AdmitWhole(e, [], 8, false) == AdmitWhole(half, [Chunk(0, 1)], 7, true);
  }

  function Asked(): Engine {
    Submit(InitEngine(PLAIN, Small()), [QUICK, SHORT])
  }

  lemma FirstStep() returns (kv: Pool, ta: seq<nat>, tb: seq<nat>)
    ensures Spare(kv, 2) && |ta| == |tb| == 1
    ensures Step(Asked(), TOOK) == Worked(Both(PLAIN, kv, 1, QUICK, SHORT, ta, tb), [Chunk(0, 1), Chunk(1, 1)], [])
  {
    hide Wake, Schedule, ApplyWork, Submit, Both, AllocatePrompt, Allocate, StartHead, Spare;
    SmallSpare();
    var a := AllocatePrompt(Small(), [5]);
    QuickAdmitted(Small());
    OneBlock(Small(), 3, 5);
    var b := AllocatePrompt(a.pool, [9]);
    ShortAdmitted(a.pool, a.table);
    OneBlock(a.pool, 2, 9);
    kv, ta, tb := b.pool, a.table, b.table;
    BothScheduled(Small(), a.pool, ta, kv, tb);
    ArriveIn(PLAIN, Small(), QUICK, SHORT);
    Prefilled(PLAIN, kv, QUICK, SHORT, ta, tb);
    var e := BothAdmitted(PLAIN, kv, QUICK, SHORT, ta, tb);
    assert GrowAll(e, [], []) == Growth(e, []);
  }

  lemma Decodes(kv: Pool, n: nat, ta: seq<nat>, tb: seq<nat>)
    requires ta != [] && tb != []
    ensures var e := Both(PLAIN, kv, n, QUICK, SHORT, ta, tb);
      Wake(e) == e && Schedule(e) == Work(e, [], [0, 1]) && InFlight(e)
  {
    DecodesAll(Both(PLAIN, kv, n, QUICK, SHORT, ta, tb));
  }

  /** Both take a block, and none is left. */
  lemma SecondStep(kv: Pool, ta: seq<nat>, tb: seq<nat>) returns (kv2: Pool, ta2: seq<nat>, tb2: seq<nat>)
    requires Spare(kv, 2) && |ta| == |tb| == 1
    ensures Spare(kv2, 0) && |ta2| == |tb2| == 2
    ensures Step(Both(PLAIN, kv, 1, QUICK, SHORT, ta, tb), TOOK)
         == Worked(Both(PLAIN, kv2, 2, QUICK, SHORT, ta2, tb2), [], [0, 1])
  {
    hide Wake, Schedule, ApplyWork, GrowAll, Both, AppendToken, Spare;
    Decodes(kv, 1, ta, tb);
    var a := AppendToken(kv, ta, 2);
    Takes(kv, 1, ta, 2);
    var b := AppendToken(a.pool, tb, 2);
    Takes(a.pool, 0, tb, 2);
    kv2, ta2, tb2 := b.pool, a.table, b.table;
    BothGrow(PLAIN, kv, 1, QUICK, SHORT, ta, tb, a, b);
    BothEmit(PLAIN, kv2, 1, QUICK, SHORT, ta2, tb2);
  }

  // ---- the preempted one is grown again

  /** The short one back in the queue, with a table it should not have. */
  function Back(table: seq<nat>): Sequence {
    Restarted(Writing(SHORT, [], 2).(nPreemptions := 1)).(table := table)
  }

  function Regrown(kv: Pool, ta: seq<nat>, tb: seq<nat>): Engine {
    Engine(PLAIN, kv, 2.0, 2, map[0 := Writing(QUICK, ta, 2), 1 := Back(tb)], [], [1], [0], [], [], 1, multiset{})
  }

  /** Making room for the first preempts the second. */
  lemma SecondPreempted(kv: Pool, ta: seq<nat>, tb: seq<nat>, out: Pool)
    requires AppendToken(kv, ta, 3) == OutOfBlocks(out)
    requires AppendToken(Free(out, tb), ta, 3).Grown?
    ensures
      var r := AppendToken(Free(out, tb), ta, 3);
      GrowOne(Both(PLAIN, kv, 2, QUICK, SHORT, ta, tb), 0, []) == Growth(Regrown(r.pool, r.table, []), [0])
  {
    hide AppendToken, Free;
    var e, r := Both(PLAIN, kv, 2, QUICK, SHORT, ta, tb), AppendToken(Free(out, tb), ta, 3);
    assert Victim([0, 1], 0) == Some(1) && Remove([0, 1], 1) == [0] && [1] + [] == [1] && Remove([], 1) == [];
    var e1 := Regrown(Free(out, tb), ta, []);
    assert e.seqs[1 := Back([])] == e1.seqs;
    assert Preempt(e.(kv := out), 1) == e1;
    assert GrowOne(e, 0, []) == GrowOne(e1, 0, []);
    assert e1.seqs[0 := Writing(QUICK, r.table, 2)] == Regrown(r.pool, r.table, []).seqs;
    assert [] + [0] == [0];
  }

  lemma SecondRegrown(kv: Pool, ta: seq<nat>)
    requires AppendToken(kv, [], 1).Grown?
    ensures
      var r := AppendToken(kv, [], 1);
      GrowOne(Regrown(kv, ta, []), 1, [0]) == Growth(Regrown(r.pool, ta, r.table), [0, 1])
  {
    hide AppendToken;
    var e, r := Regrown(kv, ta, []), AppendToken(kv, [], 1);
    assert e.seqs[1 := Back(r.table)] == Regrown(r.pool, ta, r.table).seqs;
    assert [0] + [1] == [0, 1];
  }

  lemma GrowsAgain(kv: Pool, ta: seq<nat>, tb: seq<nat>) returns (kv2: Pool, ta2: seq<nat>, tb2: seq<nat>)
    requires Spare(kv, 0) && |ta| == |tb| == 2
    ensures Spare(kv2, 0) && |ta2| == 3 && |tb2| == 1
    ensures GrowAll(Both(PLAIN, kv, 2, QUICK, SHORT, ta, tb), [0, 1], []) == Growth(Regrown(kv2, ta2, tb2), [0, 1])
  {
    hide AppendToken, Free, Spare, GrowOne, Both, Regrown;
    Fails(kv, ta, 3);
    var out := AppendToken(kv, ta, 3).pool;
    Frees(out, 0, tb);
    var a := AppendToken(Free(out, tb), ta, 3);
    Takes(Free(out, tb), 1, ta, 3);
    SecondPreempted(kv, ta, tb, out);
    var b := AppendToken(a.pool, [], 1);
    Takes(a.pool, 0, [], 1);
    SecondRegrown(a.pool, a.table);
    kv2, ta2, tb2 := b.pool, a.table, b.table;
    var e := Both(PLAIN, kv, 2, QUICK, SHORT, ta, tb);
    assert [0, 1][1..] == [1] && [1][1..] == [];
    assert GrowAll(e, [0, 1], []) == GrowAll(Regrown(a.pool, a.table, []), [1], [0]);
    assert GrowAll(Regrown(a.pool, a.table, []), [1], [0]) == GrowAll(Regrown(kv2, ta2, tb2), [], [0, 1]);
  }

  /** It has a token and waits, without its prompt; the quick one is done. */
  function Waits(kv: Pool, tb: seq<nat>): Engine {
    Engine(PLAIN, kv, 3.0, 3,
           map[0 := Retired(Writing(QUICK, [], 3), 3.0),
               1 := Back(tb).(generated := 1, firstToken := 3.0, tokenTimes := [3.0])],
           [], [1], [], [], [0], 1, multiset{})
  }

  lemma OtherEmits(table: seq<nat>)
    ensures Emitting(1, 3.0)(Back(table)) == Back(table).(generated := 1, firstToken := 3.0, tokenTimes := [3.0])
  {
    assert Repeat(3.0, 1) == [3.0] && [] + [3.0] == [3.0];
  }

  lemma ThirdApplied(kv: Pool, ta: seq<nat>, tb: seq<nat>)
    ensures ApplyWork(Regrown(kv, ta, tb), [], [0, 1], TOOK) == Waits(Free(kv, ta), tb)
  {
    hide Emitting, ForEach, Seconds, Free, Back;
    var e2 := Regrown(kv, ta, tb).(now := 3.0, stepNo := 3);
    WritesOn(QUICK, ta, 2);
    OtherEmits(tb);
    var b := Back(tb).(generated := 1, firstToken := 3.0, tokenTimes := [3.0]);
    EachOfBoth(e2, Emitting(1, 3.0), Writing(QUICK, ta, 3), b);
    var e4 := e2.(seqs := map[0 := Writing(QUICK, ta, 3), 1 := b]);
    assert FinishDone(e4, [0]) == FinishDone(FinishOne(e4, 0), []) by { assert [0][1..] == []; }
    assert Remove([0], 0) == [] && [] + [0] == [0];
    assert e4.seqs[0 := Retired(Writing(QUICK, [], 3), 3.0)] == Waits(Free(kv, ta), tb).seqs;
  }

  lemma ThirdStep(kv: Pool, ta: seq<nat>, tb: seq<nat>) returns (kv2: Pool, tb2: seq<nat>)
    requires Spare(kv, 0) && |ta| == |tb| == 2
    ensures Spare(kv2, 3) && |tb2| == 1
    ensures Step(Both(PLAIN, kv, 2, QUICK, SHORT, ta, tb), TOOK) == Worked(Waits(kv2, tb2), [], [0, 1])
  {
    hide Wake, Schedule, ApplyWork, GrowAll, Both, Regrown, Waits, Spare, Free;
    Decodes(kv, 2, ta, tb);
    var kv1, ta1, tb1 := GrowsAgain(kv, ta, tb);
    ThirdApplied(kv1, ta1, tb1);
    Frees(kv1, 0, ta1);
    kv2, tb2 := Free(kv1, ta1), tb1;
  }

  // ---- its block is lost

  lemma Starts(kv: Pool, tb: seq<nat>)
    requires Spare(kv, 3) && |tb| == 1
    ensures
      var w := Schedule(Waits(kv, tb));
      w.Work? && w.decodes == [] && w.prefills != [] && w.engine.lost == multiset(tb)
  {
    OneBlock(kv, 2, 9);
    hide AllocatePrompt, Retired, Seconds;
    var e := Waits(kv, tb);
    var a := Allocate(e, 1);
    assert a.ok && a.engine.lost == multiset{} + multiset(tb) && a.engine.waiting == [1];
    var e1 := StartHead(a.engine);
    assert e1.waiting == [] by { assert [1][1..] == []; }
    assert AdmitWhole(e, [], 8, false) == AdmitWhole(e1, [] + [Chunk(1, 1)], 7, true);
    assert AdmitWhole(e1, [Chunk(1, 1)], 7, true) == (e1, [Chunk(1, 1)]);
    assert [] + [Chunk(1, 1)] == [Chunk(1, 1)];
  }

  lemma FourthStep(kv: Pool, tb: seq<nat>)
    requires Spare(kv, 3) && |tb| == 1
    ensures var r := Step(Waits(kv, tb), TOOK); r.Worked? && r.engine.lost == multiset(tb) != multiset{}
  {
    Starts(kv, tb);
    var e := Waits(kv, tb);
    assert Wake(e) == e && InFlight(e);
    hide Wake, Schedule, ApplyWork, Waits, Spare;
    var w := Schedule(e);
    assert GrowAll(w.engine, [], []) == Growth(w.engine, []);
    ApplyLoses(w.engine, w.prefills, [], TOOK);
    assert multiset(tb)[tb[0]] >= 1;
  }

  // ---- the run

  /** Two requests of one prompt token in four blocks of one. In the third step the
      second is preempted to make room for the first and comes up again: it is given a
      block and a token, and waits with nothing prefilled. In the fourth it starts, and
      the block is lost. */
  lemma RunLoses() returns (third: Engine, fourth: Engine)
    ensures
      var start := InitEngine(PLAIN, InitPool(4, 1, false, 0.01));
      var steps := [SubmitAll([QUICK, SHORT]), StepOnce(TOOK), StepOnce(TOOK), StepOnce(TOOK)];
      && Execute(start, steps) == Some(third) && Execute(start, steps + [StepOnce(TOOK)]) == Some(fourth)
    ensures
      var s := third.Get(1);
      && s.status == Waiting && s.generated == 1 && s.prefilled == 0 < s.req.promptTokens && |s.table| == 1
      && !Bare(third) && !PromptFirst(third) && third.lost == multiset{}
    ensures fourth.lost != multiset{}
  {
    hide Step, Both, Execute, Submit, Waits, Spare;
    var kv1, ta1, tb1 := FirstStep();
    var kv2, ta2, tb2 := SecondStep(kv1, ta1, tb1);
    var kv3, tb3 := ThirdStep(kv2, ta2, tb2);
    FourthStep(kv3, tb3);
    third, fourth := Waits(kv3, tb3), Step(Waits(kv3, tb3), TOOK).engine;
    WaitsIs(kv3, tb3);
    var steps := [SubmitAll([QUICK, SHORT]), StepOnce(TOOK), StepOnce(TOOK), StepOnce(TOOK)];
    var e1, e2 := Both(PLAIN, kv1, 1, QUICK, SHORT, ta1, tb1), Both(PLAIN, kv2, 2, QUICK, SHORT, ta2, tb2);
    FourRun(InitEngine(PLAIN, Small()), [QUICK, SHORT], e1, e2, third);
    ExecuteOne(InitEngine(PLAIN, Small()), steps, StepOnce(TOOK));
    OneRun(third, fourth);
  }

  lemma WaitsIs(kv: Pool, tb: seq<nat>)
    requires |tb| == 1
    ensures
      var e := Waits(kv, tb);
      var s := e.Get(1);
      && s.status == Waiting && s.generated == 1 && s.prefilled == 0 < s.req.promptTokens && s.table == tb
      && !Bare(e) && !PromptFirst(e) && e.lost == multiset{}
  {
    var e := Waits(kv, tb);
    assert !BareRecord(e.Get(1)) && !PromptRecord(e.Get(1));
  }

  lemma FourRun(e: Engine, reqs: seq<Request>, e1: Engine, e2: Engine, e3: Engine)
    requires !Step(Submit(e, reqs), TOOK).Crashed? && Step(Submit(e, reqs), TOOK).engine == e1
    requires !Step(e1, TOOK).Crashed? && Step(e1, TOOK).engine == e2
    requires !Step(e2, TOOK).Crashed? && Step(e2, TOOK).engine == e3
    ensures Execute(e, [SubmitAll(reqs), StepOnce(TOOK), StepOnce(TOOK), StepOnce(TOOK)]) == Some(e3)
  {
    hide Step, Submit;
    var c := StepOnce(TOOK);
    assert [SubmitAll(reqs), c, c, c][1..] == [c, c, c] && [c, c, c][1..] == [c, c] && [c, c][1..] == [c];
    assert [c][1..] == [];
    assert Execute(e2, [c]) == Execute(e3, []);
    assert Execute(e1, [c, c]) == Execute(e2, [c]);
    assert Execute(Submit(e, reqs), [c, c, c]) == Execute(e1, [c, c]);
  }

  lemma OneRun(e: Engine, e1: Engine)
    requires !Step(e, TOOK).Crashed? && Step(e, TOOK).engine == e1
    ensures Execute(e, [StepOnce(TOOK)]) == Some(e1)
  {
    hide Step;
    assert [StepOnce(TOOK)][1..] == [];
  }
}
