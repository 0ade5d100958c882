/** Runs from a fresh engine in which a running sequence has more tokens than its
    table has slots: a prompt that ends on a block boundary, a prompt that does not
    but decodes speculatively, and one that was swapped out and restored. */
module EngineUncovered {
  import opened Lists
  import opened PagedSpec
  import opened EngineSpec
  import opened EngineAccounting
  import opened EngineRuns
  import opened EngineUnshared
  import opened EngineTables
  import opened EngineCoverage
  import opened EngineWitness

  // ---- unrolling

  lemma FollowSubmit(e: Engine, reqs: seq<Request>, rest: seq<Command>, f: Fill, x: int)
    ensures Execute(e, [SubmitAll(reqs)] + rest) == Execute(Submit(e, reqs), rest)
    ensures FillAfter(e, [SubmitAll(reqs)] + rest, f, x) == FillAfter(Submit(e, reqs), rest, f, x)
  {
    hide Submit;
    assert ([SubmitAll(reqs)] + rest)[1..] == rest;
  }

  /** One step of a run that is followed. */
  lemma Follow(e: Engine, input: StepInput, rest: seq<Command>, f: Fill, x: int, e': Engine, f': Fill)
    requires !Step(e, input).Crashed? && Step(e, input).engine == e' && NextFill(e, input, f, x) == f'
    ensures Execute(e, [StepOnce(input)] + rest) == Execute(e', rest)
    ensures FillAfter(e, [StepOnce(input)] + rest, f, x) == FillAfter(e', rest, f', x)
  {
    hide Step, NextFill;
    assert ([StepOnce(input)] + rest)[1..] == rest;
  }

  // ---- a prompt on a block boundary

  const NOTHING := Fill(0, [], false)

  function AfterTwo(): Engine {
    Both(PLAIN, Full(), 2, LONG, SHORT, [2], [1, 0])
  }

  /** What a step that works does to the fill of `x`. */
  lemma FillIs(e: Engine, input: StepInput, f: Fill, x: int, s: Sequence, r: StepResult)
    requires Wake(e).Get(x) == s && Step(e, input) == r && r.Worked?
    ensures NextFill(e, input, f, x)
         == (if x in r.decodes then Refilled(s, f).(told := Refilled(s, f).told + [s.TotalLen()]) else Refilled(s, f))
  {
    hide Step, Wake, Refilled;
  }

  lemma FirstFilled()
    ensures NextFill(Submitted2(), TOOK, NOTHING, 0) == Fill(2, [], false)
  {
    hide Step, Wake, Submitted2, Both, NextFill;
    StepOne();
    ArrivedFirst();
    FillIs(Submitted2(), TOOK, NOTHING, 0, NewSequence(LONG),
           Worked(Both(PLAIN, Two(), 1, LONG, SHORT, [2], [1]), [Chunk(0, 2), Chunk(1, 1)], []));
  }

  lemma ArrivedFirst()
    ensures Wake(Submitted2()).Get(0) == NewSequence(LONG)
  {
    hide Wake, Submit, Fresh;
    Arrive(PLAIN, LONG, SHORT);
  }

  lemma ThenTold()
    ensures NextFill(Both(PLAIN, Two(), 1, LONG, SHORT, [2], [1]), TOOK, Fill(2, [], false), 0) == Fill(2, [3], false)
  {
    hide Step, Wake, NextFill, Two, Full;
    StepTwo();
    var e := Both(PLAIN, Two(), 1, LONG, SHORT, [2], [1]);
    DecodesAll(e);
    FillIs(e, TOOK, Fill(2, [], false), 0, Writing(LONG, [2], 1), Worked(AfterTwo(), [], [0, 1]));
    assert [] + [3] == [3 as nat];
  }

  /** A prompt of two tokens in blocks of two: grown at length three it still has one
      block. */
  lemma BoundaryUncovered()
    ensures Reached(PLAIN, 3, 2, false, 0.01, Commands(LONG, SHORT), 0, AfterTwo(), Fill(2, [3], false))
    ensures !Covers(AfterTwo().Get(0), 3, 2)
  {
    StepOne();
    StepTwo();
    FirstFilled();
    ThenTold();
    BoundaryCommands();
    hide Step, NextFill, Submit, Execute, FillAfter, CommandOk, Submitted, AtMostOnce, Commands;
    var e1 := Both(PLAIN, Two(), 1, LONG, SHORT, [2], [1]);
    hide Both;
    TwoFollowed(Start(), [LONG, SHORT], e1, AfterTwo(), NOTHING, Fill(2, [], false), Fill(2, [3], false), 0);
    InBoth();
    StartIs();
  }

  lemma StartIs()
    ensures Start() == InitEngine(PLAIN, InitPool(3, 2, false, 0.01))
    ensures Commands(LONG, SHORT) == [SubmitAll([LONG, SHORT]), StepOnce(TOOK), StepOnce(TOOK)]
  {
  }

  lemma InBoth()
    ensures 0 in AfterTwo().running && !Covers(AfterTwo().Get(0), 3, 2)
  {
    hide Full;
  }

  lemma BoundaryCommands()
    ensures forall i :: 0 <= i < |Commands(LONG, SHORT)| ==> CommandOk(Commands(LONG, SHORT)[i])
    ensures AtMostOnce(multiset(Submitted(Commands(LONG, SHORT))))
  {
    CommandsOk(PLAIN, LONG, SHORT);
    SubmittedBoth(LONG, SHORT);
    hide Submitted, Commands;
  }

  /** Submission and two steps. */
  lemma TwoFollowed(e: Engine, reqs: seq<Request>, e1: Engine, e2: Engine, f: Fill, f1: Fill, f2: Fill, x: int)
    requires !Step(Submit(e, reqs), TOOK).Crashed? && Step(Submit(e, reqs), TOOK).engine == e1
    requires !Step(e1, TOOK).Crashed? && Step(e1, TOOK).engine == e2
    requires NextFill(Submit(e, reqs), TOOK, f, x) == f1 && NextFill(e1, TOOK, f1, x) == f2
    ensures Execute(e, [SubmitAll(reqs), StepOnce(TOOK), StepOnce(TOOK)]) == Some(e2)
    ensures FillAfter(e, [SubmitAll(reqs), StepOnce(TOOK), StepOnce(TOOK)], f, x) == f2
  {
    hide Step, NextFill, Submit;
    Follow(e1, TOOK, [], f1, x, e2, f2);
    Follow(Submit(e, reqs), TOOK, [StepOnce(TOOK)] + [], f, x, e1, f1);
    FollowSubmit(e, reqs, [StepOnce(TOOK)] + ([StepOnce(TOOK)] + []), f, x);
    assert [SubmitAll(reqs)] + ([StepOnce(TOOK)] + ([StepOnce(TOOK)] + []))
        == [SubmitAll(reqs), StepOnce(TOOK), StepOnce(TOOK)];
  }

  // ---- a speculative run

  const DRAFTED := StepInput(1.0, 2)
  const SPEC := Config(2, 8, false, 0, false, false, 2)
  const CHATTY := Request(0, 1, 9, 0.0, 0, [9], TokenKeys(None, 0, None, false, 0))

  /** Only sequence 0 is in flight; it decodes, `n` tokens in, with `k` free blocks
      at hand. */
  ghost predicate Alone(e: Engine, n: nat, k: nat) {
    && e.cfg == SPEC && e.running == [0] && e.waiting == [] && e.swapped == [] && e.pending == []
    && e.kv.blockSize == 2 && |e.kv.freeIds| >= k
    && var s := e.Get(0);
       s.status == Running && s.req == CHATTY && s.prefilled == 1 && s.generated == n && s.table != []
  }

  lemma AppendFree(p: Pool, table: seq<nat>, len: nat)
    requires p.freeIds != [] && table != []
    ensures
      var r := AppendToken(p, table, len);
      r.Grown? && r.table != [] && r.pool.blockSize == p.blockSize && |r.pool.freeIds| >= |p.freeIds| - 1
  {
  }

  lemma AloneGrows(e: Engine, n: nat, k: nat)
    requires Alone(e, n, k) && k > 0
    ensures
      var g := GrowAll(e, [0], []);
      g.Growth? && g.survivors == [0] && Alone(g.engine, n, k - 1)
  {
    hide AppendToken;
    AppendFree(e.kv, e.Get(0).table, e.Get(0).TotalLen());
    var g := GrowOne(e, 0, []);
    assert [] + [0] == [0] && [0][1..] == [];
    assert GrowAll(e, [0], []) == GrowAll(g.engine, [], [0]);
  }

  lemma AloneEmits(e: Engine, n: nat, k: nat)
    requires Alone(e, n, k) && n + 3 < 9
    ensures Alone(ApplyWork(e, [], [0], DRAFTED), n + 3, k)
  {
    assert [0][1..] == [];
    var e1 := e.Put(0, CountSpec(e.Get(0), 2, 2));
    assert ForEach(e, [0], CountingSpec(2, 2)) == ForEach(e1, [], CountingSpec(2, 2));
    var e2 := e1.(now := e.now + 1.0, stepNo := e.stepNo + 1);
    var e4 := e2.Put(0, Emitted(e2.Get(0), 3, e2.now));
    assert ForEach(e2, [0], Emitting(3, e2.now)) == ForEach(e4, [], Emitting(3, e2.now));
    assert FinishDone(e4, [0]) == FinishDone(e4, []);
  }

  lemma AloneDecodes(e: Engine, n: nat, k: nat)
    requires Alone(e, n, k)
    ensures Wake(e) == e && Schedule(e) == Work(e, [], [0]) && InFlight(e)
  {
    DecodesAll(e);
  }

  lemma AloneWorks(e: Engine, n: nat, k: nat)
    requires Alone(e, n, k) && k > 0 && n + 3 < 9
    ensures var r := Step(e, DRAFTED); r.Worked? && r.decodes == [0] && Alone(r.engine, n + 3, k - 1)
  {
    AloneDecodes(e, n, k);
    AloneGrows(e, n, k);
    hide Schedule, GrowAll, Wake, ApplyWork, Alone;
    AloneEmits(GrowAll(e, [0], []).engine, n, k - 1);
  }

  lemma AloneStep(e: Engine, n: nat, k: nat, f: Fill)
    requires Alone(e, n, k) && k > 0 && n + 3 < 9
    ensures
      var r := Step(e, DRAFTED);
      && !r.Crashed? && Alone(r.engine, n + 3, k - 1)
      && NextFill(e, DRAFTED, f, 0) == f.(told := f.told + [n + 1])
  {
    AloneDecodes(e, n, k);
    AloneWorks(e, n, k);
    AloneRecord(e, n, k);
    hide Step, Wake, Schedule, Alone, NextFill;
    FillIs(e, DRAFTED, f, 0, e.Get(0), Step(e, DRAFTED));
  }

  lemma AloneRecord(e: Engine, n: nat, k: nat)
    requires Alone(e, n, k)
    ensures e.Get(0).status == Running && e.Get(0).TotalLen() == n + 1 && e.running == [0]
    ensures e.Get(0).req.promptTokens == 1
  {
  }

  /** The only request has arrived. */
  lemma ArriveAlone()
    ensures Wake(Submit(InitEngine(SPEC, Fresh()), [CHATTY]))
         == Engine(SPEC, Fresh(), 0.0, 0, map[0 := NewSequence(CHATTY)], [], [0], [], [], [], 0, multiset{})
  {
    hide Fresh;
    var e := InitEngine(SPEC, Fresh());
    assert [CHATTY][1..] == [] && InsertPending([], CHATTY) == [CHATTY];
    assert Submit(e, [CHATTY]) == Submit(e.(pending := [CHATTY]), []);
    var e1 := e.(pending := [], seqs := map[0 := NewSequence(CHATTY)], waiting := [0]);
    assert e.(pending := [CHATTY]).Put(0, NewSequence(CHATTY)).(pending := [], waiting := [] + [0]) == e1;
    assert AdmitArrivals(e.(pending := [CHATTY])) == AdmitArrivals(e1);
  }

  function AloneStart(): Engine {
    Engine(SPEC, Fresh(), 0.0, 0, map[0 := NewSequence(CHATTY)], [], [0], [], [], [], 0, multiset{})
  }

  lemma AloneAllocated()
    ensures
      var r := AllocatePrompt(Fresh(), [9]);
      r.ok && |r.table| == 1 && r.cached == 0 && |r.pool.freeIds| == 2 && r.pool.blockSize == 2
    ensures Fresh().CanAllocate(1)
  {
    FreshPool();
    assert Chunks([9], 2) == [];
  }

  lemma AloneAdmitted()
    ensures
      var a := Allocate(AloneStart(), 0);
      var e1 := StartHead(a.engine);
      && a.ok && a.engine.waiting == [0]
      && e1.running == [0] && e1.waiting == [] && e1.swapped == [] && e1.pending == []
      && e1.cfg == SPEC && e1.now == 0.0
      && e1.kv.blockSize == 2 && |e1.kv.freeIds| == 2
      && e1.Get(0) == NewSequence(CHATTY).(status := Running, table := e1.Get(0).table) && e1.Get(0).table != []
  {
    AloneAllocated();
    hide AllocatePrompt, Fresh;
  }

  lemma AloneScheduled()
    ensures
      var w := Schedule(AloneStart());
      && w.Work? && w.prefills == [Chunk(0, 1)] && w.decodes == []
      && w.engine == StartHead(Allocate(AloneStart(), 0).engine)
  {
    AloneAdmitted();
    hide Allocate, StartHead, Fresh;
    var e, e1 := AloneStart(), StartHead(Allocate(AloneStart(), 0).engine);
    assert [] + [Chunk(0, 1)] == [Chunk(0, 1)];
    assert AdmitWhole(e, [], 8, false) == AdmitWhole(e1, [Chunk(0, 1)], 7, true);
  }

  lemma AlonePrefilled(e: Engine)
    requires e.running == [0] && e.waiting == [] && e.swapped == [] && e.pending == [] && e.cfg == SPEC
    requires e.kv.blockSize == 2 && |e.kv.freeIds| == 2 && e.now == 0.0
    requires e.Get(0) == NewSequence(CHATTY).(status := Running, table := e.Get(0).table) && e.Get(0).table != []
    ensures Alone(ApplyWork(e, [Chunk(0, 1)], [], TOOK), 1, 2)
  {
    assert [Chunk(0, 1)][1..] == [] && [0][1..] == [];
    var e2 := e.(now := 1.0, stepNo := e.stepNo + 1);
    var e3 := e2.Put(0, AddPrefill(e2.Get(0), 1));
    assert ForChunks(e2, [Chunk(0, 1)], AddPrefill) == ForChunks(e3, [], AddPrefill);
    var e5 := e3.Put(0, FirstEmitted(e3.Get(0), 1.0));
    assert ForChunks(e3, [Chunk(0, 1)], EmittingFirst(1.0)) == ForChunks(e5, [], EmittingFirst(1.0));
    assert FinishDone(e5, [0]) == FinishDone(e5, []);
  }

  lemma AloneFirst()
    ensures
      var e := Submit(InitEngine(SPEC, Fresh()), [CHATTY]);
      var r := Step(e, TOOK);
      !r.Crashed? && Alone(r.engine, 1, 2) && NextFill(e, TOOK, NOTHING, 0) == Fill(1, [], false)
  {
    ArriveAlone();
    AloneScheduled();
    AloneAdmitted();
    hide Wake, Schedule, ApplyWork, Submit, Allocate, StartHead, Fresh, Alone;
    var e1 := StartHead(Allocate(AloneStart(), 0).engine);
    AlonePrefilled(e1);
    assert GrowAll(e1, [], []) == Growth(e1, []);
  }

  function Chatting(): seq<Command> {
    [SubmitAll([CHATTY]), StepOnce(TOOK), StepOnce(DRAFTED), StepOnce(DRAFTED)]
  }

  lemma ChattingRuns() returns (e: Engine)
    ensures Execute(InitEngine(SPEC, Fresh()), Chatting()) == Some(e) && 0 in e.running
    ensures FillAfter(InitEngine(SPEC, Fresh()), Chatting(), NOTHING, 0) == Fill(1, [2, 5], false)
  {
    hide Step, NextFill, Submit, Alone, Fresh;
    var e0, third := Submit(InitEngine(SPEC, Fresh()), [CHATTY]), [StepOnce(DRAFTED)] + [];
    AloneFirst();
    var e1, f1 := Step(e0, TOOK).engine, Fill(1, [], false);
    AloneStep(e1, 1, 2, f1);
    assert [] + [2] == [2 as nat] && [2] + [5] == [2 as nat, 5];
    var e2, f2 := Step(e1, DRAFTED).engine, Fill(1, [2], false);
    AloneStep(e2, 4, 1, f2);
    e := Step(e2, DRAFTED).engine;
    AloneRecord(e, 7, 0);
    Follow(e2, DRAFTED, [], f2, 0, e, Fill(1, [2, 5], false));
    Follow(e1, DRAFTED, third, f1, 0, e2, f2);
    Follow(e0, TOOK, [StepOnce(DRAFTED)] + third, NOTHING, 0, e1, f1);
    FollowSubmit(InitEngine(SPEC, Fresh()), [CHATTY], [StepOnce(TOOK)] + ([StepOnce(DRAFTED)] + third), NOTHING, 0);
    assert Chatting() == [SubmitAll([CHATTY])] + ([StepOnce(TOOK)] + ([StepOnce(DRAFTED)] + third));
  }

  lemma ChattingOk()
    ensures forall i :: 0 <= i < |Chatting()| ==> CommandOk(Chatting()[i])
    ensures AtMostOnce(multiset(Submitted(Chatting())))
  {
    var c := Chatting();
    assert c[1..] == [StepOnce(TOOK), StepOnce(DRAFTED), StepOnce(DRAFTED)];
    StepsSubmit(c[1..]);
    assert [CHATTY][1..] == [] && Ids([CHATTY]) == [0] + [];
    assert Submitted(c) == [0];
  }

  lemma {:induction false} StepsSubmit(commands: seq<Command>)
    requires forall i :: 0 <= i < |commands| ==> commands[i].StepOnce?
    ensures Submitted(commands) == []
    decreases |commands|
  {
    if commands != [] {
      assert commands[0].StepOnce?;
      StepsSubmit(commands[1..]);
    }
  }

  /** A prompt of one token in blocks of two, and three tokens a step: grown at
      lengths two and five it has two blocks. */
  lemma SpeculationUncovered() returns (e: Engine)
    ensures Reached(SPEC, 3, 2, false, 0.01, Chatting(), 0, e, Fill(1, [2, 5], false))
    ensures !Covers(e.Get(0), 5, 2)
  {
    hide Execute, FillAfter, CommandOk, Submitted, AtMostOnce, Chatting, Covers;
    e := ChattingRuns();
    ChattingOk();
    EngineCovers(SPEC, 3, 2, false, 0.01, Chatting(), 0, e, Fill(1, [2, 5], false));
    OneOfTwo();
  }

  lemma OneOfTwo()
    ensures Multiples([2, 5], 2) == 1 && CeilDiv(1, 2) == 1 && CeilDiv(5, 2) == 3
  {
    assert [2, 5][..1] == [2] && [2][..0] == [];
    assert Multiples([2], 2) == 1;
  }

  // ---- a sequence swapped out and restored

  const RESTORING := Config(2, 8, false, 0, true, false, 0)
  const BRIEF := Request(1, 2, 3, 0.0, 0, [7, 8], TokenKeys(None, 0, None, false, 0))

  /** The pool with both prompts in it. */
  function Pair(): Pool {
    AllocatePrompt(SmallOne(), [7, 8]).pool
  }

  lemma PairPrompt()
    ensures AllocatePrompt(SmallOne(), [7, 8]) == Allocation(Pair(), [1], 0, true)
    ensures Pair().blocks == [Block(0, None, 0), Block(1, Some(HashBlock(None, [7, 8])), 2), Block(1, None, 1)]
    ensures Pair().freeIds == [0] && Pair().cache == map[] && Pair().lru == []
    ensures !Pair().caching && Pair().blockSize == 2 && Pair().watermark == 1
  {
    SmallPrompt();
    hide SmallOne;
    assert [7, 8][..2] == [7, 8] && [7, 8][2..] == [];
    assert Chunks([7, 8], 2) == [[7, 8]] + Chunks([], 2);
    assert Chunks([7, 8], 2) == [[7, 8]];
  }

  function PairHalf(): Engine {
    Engine(RESTORING, SmallOne(), 0.0, 0, map[0 := Admitted(FIRST, [2]), 1 := NewSequence(BRIEF)], [], [1], [0], [],
           [], 0, multiset{})
  }

  function PairAdmitted(): Engine {
    BothAdmitted(RESTORING, Pair(), FIRST, BRIEF, [2], [1])
  }

  lemma PairFirst()
    ensures
      var a := Allocate(Arrived(RESTORING, FIRST, BRIEF), 0);
      a.ok && StartHead(a.engine) == PairHalf()
  {
    FreshPool();
    SmallPrompt();
    hide AllocatePrompt, SmallOne;
    var e := Arrived(RESTORING, FIRST, BRIEF);
    assert e.kv.CanAllocate(CeilDiv(1, 2));
    assert StartHead(Allocate(e, 0).engine).seqs == PairHalf().seqs;
    assert [] + [0] == [0] && [0, 1][1..] == [1];
    Nothing(NewSequence(FIRST).table);
  }

  lemma PairSecond()
    ensures
      var a := Allocate(PairHalf(), 1);
      a.ok && StartHead(a.engine) == PairAdmitted()
  {
    SmallPrompt();
    PairPrompt();
    hide AllocatePrompt, SmallOne, Pair;
    assert PairHalf().kv.CanAllocate(CeilDiv(2, 2));
    assert StartHead(Allocate(PairHalf(), 1).engine).seqs == PairAdmitted().seqs;
    assert [0] + [1] == [0, 1] && [1][1..] == [];
    Nothing(NewSequence(BRIEF).table);
  }

  lemma PairScheduled()
    ensures Schedule(Arrived(RESTORING, FIRST, BRIEF)) == Work(PairAdmitted(), [Chunk(0, 1), Chunk(1, 2)], [])
  {
    PairFirst();
    PairSecond();
    hide Allocate, StartHead, SmallOne, Pair, Fresh;
    var e, half, both := Arrived(RESTORING, FIRST, BRIEF), PairHalf(), PairAdmitted();
    assert AdmitWhole(both, [Chunk(0, 1), Chunk(1, 2)], 5, true) == (both, [Chunk(0, 1), Chunk(1, 2)]);
    assert [Chunk(0, 1)] + [Chunk(1, 2)] == [Chunk(0, 1), Chunk(1, 2)];
    assert AdmitWhole(half, [Chunk(0, 1)], 7, true) == (both, [Chunk(0, 1), Chunk(1, 2)]);
    assert [] + [Chunk(0, 1)] == [Chunk(0, 1)];
    assert AdmitWhole(e, [], 8, false) == AdmitWhole(half, [Chunk(0, 1)], 7, true);
  }

  function PairStart(): Engine {
    Submit(InitEngine(RESTORING, Fresh()), [FIRST, BRIEF])
  }

  function PairAt(kv: Pool, n: nat, ta: seq<nat>, tb: seq<nat>): Engine {
    Both(RESTORING, kv, n, FIRST, BRIEF, ta, tb)
  }

  lemma PairArrives()
    ensures Wake(PairStart()) == Arrived(RESTORING, FIRST, BRIEF)
    ensures Arrived(RESTORING, FIRST, BRIEF).Get(0) == NewSequence(FIRST) && InFlight(Arrived(RESTORING, FIRST, BRIEF))
  {
    hide Wake, Submit, Fresh;
    Arrive(RESTORING, FIRST, BRIEF);
  }

  lemma PairStepOne()
    ensures Step(PairStart(), TOOK) == Worked(PairAt(Pair(), 1, [2], [1]), [Chunk(0, 1), Chunk(1, 2)], [])
  {
    hide Wake, Schedule, ApplyWork, PairStart, Pair, Both, Arrived, BothAdmitted;
    PairArrives();
    PairScheduled();
    Prefilled(RESTORING, Pair(), FIRST, BRIEF, [2], [1]);
    assert GrowAll(PairAdmitted(), [], []) == Growth(PairAdmitted(), []);
  }

  lemma PairFilled()
    ensures NextFill(PairStart(), TOOK, NOTHING, 0) == Fill(1, [], false)
  {
    hide Step, Wake, PairStart, Both, NextFill, Pair, Arrived;
    PairArrives();
    PairStepOne();
    FillIs(PairStart(), TOOK, NOTHING, 0, NewSequence(FIRST), Step(PairStart(), TOOK));
  }

  // The first crosses a boundary and takes the last block.

  function Third(): Pool {
    var r := AppendToken(Pair(), [2], 2);
    if r.Grown? then r.pool else Pair()
  }

  function Fourth(): Pool {
    var r := AppendToken(Third(), [1], 3);
    if r.Grown? then r.pool else Third()
  }

  lemma PairFills()
    ensures AppendToken(Pair(), [2], 2) == Grown(Third(), [2, 0], true)
    ensures AppendToken(Third(), [1], 3) == Grown(Fourth(), [1], false)
    ensures Fourth().blocks == [Block(1, None, 1), Block(1, Some(HashBlock(None, [7, 8])), 2), Block(1, None, 1)]
    ensures Fourth().freeIds == [] && Fourth().cache == map[] && Fourth().lru == []
    ensures !Fourth().caching && Fourth().blockSize == 2 && Fourth().watermark == 1
  {
    PairPrompt();
    hide Pair;
    assert [2] + [0] == [2, 0];
  }

  lemma PairIs(kv: Pool, n: nat, ta: seq<nat>, tb: seq<nat>)
    ensures PairAt(kv, n, ta, tb) == Both(RESTORING, kv, n, FIRST, BRIEF, ta, tb)
  {
  }

  lemma PairDecodes(kv: Pool, n: nat, ta: seq<nat>, tb: seq<nat>)
    requires ta != [] && tb != []
    ensures var e := PairAt(kv, n, ta, tb);
      Wake(e) == e && Schedule(e) == Work(e, [], [0, 1]) && InFlight(e) && e.Get(0) == Writing(FIRST, ta, n)
  {
    DecodesAll(PairAt(kv, n, ta, tb));
  }

  lemma PairStepTwo()
    ensures Step(PairAt(Pair(), 1, [2], [1]), TOOK) == Worked(PairAt(Fourth(), 2, [2, 0], [1]), [], [0, 1])
  {
    hide Wake, Schedule, ApplyWork, GrowAll, Pair, Third, Fourth, PairAt, Both, AppendToken;
    PairDecodes(Pair(), 1, [2], [1]);
    PairFills();
    BothGrow(RESTORING, Pair(), 1, FIRST, BRIEF, [2], [1], Grown(Third(), [2, 0], true), Grown(Fourth(), [1], false));
    BothEmit(RESTORING, Fourth(), 1, FIRST, BRIEF, [2, 0], [1]);
    PairIs(Pair(), 1, [2], [1]);
    PairIs(Fourth(), 1, [2, 0], [1]);
    PairIs(Fourth(), 2, [2, 0], [1]);
  }

  lemma PairTold()
    ensures NextFill(PairAt(Pair(), 1, [2], [1]), TOOK, Fill(1, [], false), 0) == Fill(1, [2], false)
  {
    hide Step, Wake, Schedule, Pair, Fourth, PairAt, NextFill;
    var e := PairAt(Pair(), 1, [2], [1]);
    PairDecodes(Pair(), 1, [2], [1]);
    PairStepTwo();
    FillIs(e, TOOK, Fill(1, [], false), 0, Writing(FIRST, [2], 1), Step(e, TOOK));
    assert [] + [2] == [2 as nat];
  }

  // The second needs a block, and the first gives back its two.

  function Fifth(): Pool {
    var r := AppendToken(Fourth(), [2, 0], 3);
    if r.Grown? then r.pool else Fourth()
  }

  function Sixth(): Pool {
    var r := AppendToken(Fifth(), [1], 4);
    if r.OutOfBlocks? then Free(r.pool, [2, 0]) else Fifth()
  }

  function Seventh(): Pool {
    var r := AppendToken(Sixth(), [1], 4);
    if r.Grown? then r.pool else Sixth()
  }

  function Eighth(): Pool {
    Free(Seventh(), [1, 0])
  }

  lemma FreeTwo(p: Pool, a: nat, b: nat)
    ensures Free(p, [a, b]) == Release(Release(p, a), b)
  {
    assert [a, b][1..] == [b] && [b][1..] == [];
    assert Free(Release(p, a), [b]) == Free(Release(Release(p, a), b), []);
  }

  lemma AppendWrites(p: Pool, table: seq<nat>, len: nat)
    requires len % p.blockSize != 0 && table != [] && p.BlockAt(table[|table| - 1]).refCount <= 1
    ensures AppendToken(p, table, len) == Grown(WriteTail(p, table[|table| - 1], len % p.blockSize + 1), table, false)
  {
  }

  lemma TailGrows()
    ensures AppendToken(Fourth(), [2, 0], 3) == Grown(Fifth(), [2, 0], false)
    ensures Fifth().blocks == [Block(1, None, 2), Block(1, Some(HashBlock(None, [7, 8])), 2), Block(1, None, 1)]
    ensures Fifth().freeIds == [] && Fifth().cache == map[] && Fifth().lru == []
    ensures !Fifth().caching && Fifth().blockSize == 2 && Fifth().watermark == 1
  {
    hide Fourth, AppendToken;
    PairFills();
    AppendWrites(Fourth(), [2, 0], 3);
  }

  lemma NoneLeft(p: Pool)
    requires p.freeIds == [] && p.lru == [] && p.blockSize == 2
    ensures var r := AppendToken(p, [1], 4); r.OutOfBlocks? && r.pool == p.(stats := r.pool.stats)
  {
  }

  lemma ReleaseOwn(p: Pool, b: nat, n: nat)
    requires b < |p.blocks| && p.blocks[b] == Block(1, None, n)
    ensures
      var q := Release(p, b);
      && q.blocks == p.blocks[b := Block(0, None, n)] && q.freeIds == p.freeIds + [b] && q.cache == p.cache
      && q.lru == p.lru && q.caching == p.caching && q.blockSize == p.blockSize && q.watermark == p.watermark
  {
  }

  lemma MakesRoom()
    ensures AppendToken(Fifth(), [1], 4).OutOfBlocks? && Free(AppendToken(Fifth(), [1], 4).pool, [2, 0]) == Sixth()
    ensures Sixth().blocks == [Block(0, None, 2), Block(1, Some(HashBlock(None, [7, 8])), 2), Block(0, None, 1)]
    ensures Sixth().freeIds == [2, 0] && Sixth().cache == map[] && Sixth().lru == []
    ensures !Sixth().caching && Sixth().blockSize == 2 && Sixth().watermark == 1
  {
    hide Fifth, AppendToken, Free, Release;
    TailGrows();
    NoneLeft(Fifth());
    var p := AppendToken(Fifth(), [1], 4).pool;
    FreeTwo(p, 2, 0);
    ReleaseOwn(p, 2, 1);
    ReleaseOwn(Release(p, 2), 0, 2);
    assert [] + [2] == [2] && [2] + [0] == [2, 0];
  }

  lemma AppendTakes(p: Pool, table: seq<nat>, len: nat)
    requires len % p.blockSize == 0 && p.freeIds != [] && p.freeIds[|p.freeIds| - 1] < |p.blocks|
    ensures
      var r, bid := AppendToken(p, table, len), p.freeIds[|p.freeIds| - 1];
      && r.Grown? && r.table == table + [bid] && r.added && r.pool.blocks == p.blocks[bid := Block(1, None, 1)]
      && r.pool.freeIds == p.freeIds[..|p.freeIds| - 1] && r.pool.cache == p.cache && r.pool.lru == p.lru
      && r.pool.caching == p.caching && r.pool.blockSize == p.blockSize && r.pool.watermark == p.watermark
  {
  }

  lemma RoomTaken()
    ensures AppendToken(Sixth(), [1], 4) == Grown(Seventh(), [1, 0], true)
    ensures Seventh().blocks == [Block(1, None, 1), Block(1, Some(HashBlock(None, [7, 8])), 2), Block(0, None, 1)]
    ensures Seventh().freeIds == [2] && Seventh().cache == map[] && Seventh().lru == []
    ensures !Seventh().caching && Seventh().blockSize == 2 && Seventh().watermark == 1
  {
    hide Sixth, AppendToken;
    MakesRoom();
    AppendTakes(Sixth(), [1], 4);
    assert [1] + [0] == [1, 0] && [2, 0][..1] == [2];
  }

  lemma AllFree()
    ensures |Eighth().freeIds| == 3 && Eighth().cache == map[]
    ensures !Eighth().caching && Eighth().blockSize == 2 && Eighth().watermark == 1
  {
    RoomTaken();
    hide Seventh;
    FreeTwo(Seventh(), 1, 0);
  }

  /** The first is swapped out, and the second is grown. */
  function PairSwapped(): Engine {
    Engine(RESTORING, Seventh(), 2.0, 2, map[0 := Out(), 1 := Writing(BRIEF, [1, 0], 2)], [], [], [1], [0], [], 1,
           multiset{})
  }

  function Out(): Sequence {
    Writing(FIRST, [], 2).(status := Swapped, nPreemptions := 1)
  }

  lemma PairSwaps()
    ensures GrowAll(PairAt(Fourth(), 2, [2, 0], [1]), [0, 1], []) == Growth(PairSwapped(), [1])
  {
    TailGrows();
    MakesRoom();
    RoomTaken();
    hide AppendToken, Free, Fourth, Fifth, Sixth, Seventh;
    var e, e1 := PairAt(Fourth(), 2, [2, 0], [1]), PairAt(Fifth(), 2, [2, 0], [1]);
    assert e.seqs[0 := Writing(FIRST, [2, 0], 2)] == e1.seqs;
    assert GrowOne(e, 0, []) == Growth(e1, [0]) by { assert [] + [0] == [0]; }
    var e2 := PairSwapped().(kv := Sixth(), seqs := map[0 := Out(), 1 := Writing(BRIEF, [1], 2)]);
    SwapFirst();
    assert GrowOne(e1, 1, [0]) == GrowOne(e2, 1, []);
    assert e2.seqs[1 := Writing(BRIEF, [1, 0], 2)] == PairSwapped().seqs;
    assert GrowOne(e2, 1, []) == Growth(PairSwapped(), [1]) by { assert [] + [1] == [1]; }
    assert [0, 1][1..] == [1] && [1][1..] == [];
    assert GrowAll(e1, [1], [0]) == Growth(PairSwapped(), [1]);
  }

  lemma SwapFirst()
    ensures
      var e1 := PairAt(Fifth(), 2, [2, 0], [1]);
      var e2 := PairSwapped().(kv := Sixth(), seqs := map[0 := Out(), 1 := Writing(BRIEF, [1], 2)]);
      && Victim([0, 1], 1) == Some(0) && Remove([0], 0) == []
      && Preempt(e1.(kv := AppendToken(Fifth(), [1], 4).pool), 0) == e2
  {
    MakesRoom();
    hide AppendToken, Free, Fifth, Sixth, Seventh;
    var e1 := PairAt(Fifth(), 2, [2, 0], [1]);
    assert e1.seqs[0 := Out()] == map[0 := Out(), 1 := Writing(BRIEF, [1], 2)];
    assert Remove([0, 1], 0) == [1] && [] + [0] == [0];
    assert Victim([0], 1) == Some(0) && [0, 1][..1] == [0];
  }

  /** Only sequence 0 is left, swapped out, and all blocks are free. */
  ghost predicate Parked(e: Engine) {
    && e.cfg == RESTORING && e.running == [] && e.waiting == [] && e.pending == [] && e.swapped == [0]
    && e.Get(0) == Out() && |e.kv.freeIds| == 3 && e.kv.cache == map[]
    && !e.kv.caching && e.kv.blockSize == 2 && e.kv.watermark == 1
  }

  lemma PairEnds()
    ensures Parked(ApplyWork(PairSwapped(), [], [1], TOOK))
  {
    AllFree();
    hide Seventh, Free;
    var e2 := PairSwapped().(now := 3.0, stepNo := 3);
    assert [1][1..] == [];
    var e4 := e2.Put(1, Emitted(Writing(BRIEF, [1, 0], 2), 1, 3.0));
    assert ForEach(e2, [1], Emitting(1, 3.0)) == ForEach(e4, [], Emitting(1, 3.0));
    assert e4.Get(1).Done() && e4.Get(1).table == [1, 0];
    assert FinishDone(e4, [1]) == FinishDone(FinishOne(e4, 1), []);
    assert Remove([1], 1) == [];
  }

  lemma PairWorks()
    ensures
      var r := Step(PairAt(Fourth(), 2, [2, 0], [1]), TOOK);
      r == Worked(ApplyWork(PairSwapped(), [], [1], TOOK), [], [1])
  {
    hide Wake, Schedule, ApplyWork, GrowAll, Fourth, PairAt, PairSwapped;
    PairDecodes(Fourth(), 2, [2, 0], [1]);
    PairSwaps();
  }

  lemma PairStepThree()
    ensures
      var e := PairAt(Fourth(), 2, [2, 0], [1]);
      var r := Step(e, TOOK);
      r.Worked? && Parked(r.engine) && NextFill(e, TOOK, Fill(1, [2], false), 0) == Fill(1, [2], false)
  {
    hide Step, Wake, Schedule, ApplyWork, Fourth, PairAt, Parked, PairSwapped, NextFill;
    PairDecodes(Fourth(), 2, [2, 0], [1]);
    PairWorks();
    PairEnds();
    var e := PairAt(Fourth(), 2, [2, 0], [1]);
    FillIs(e, TOOK, Fill(1, [2], false), 0, Writing(FIRST, [2, 0], 2), Step(e, TOOK));
  }

  // The first comes back with the blocks of its prompt.

  lemma PromptOfOne(p: Pool)
    requires |p.freeIds| == 3 && p.cache == map[] && !p.caching && p.blockSize == 2 && p.watermark == 1
    ensures p.CanAllocate(2)
    ensures
      var r := AllocatePrompt(p, [5]);
      r.ok && |r.table| == 1 && |r.pool.freeIds| == 2 && r.pool.blockSize == 2
  {
    assert Chunks([5], 2) == [];
  }

  /** Sequence 0 runs alone, two tokens into its output. */
  ghost predicate Back(e: Engine) {
    && e.cfg == RESTORING && e.running == [0] && e.waiting == [] && e.pending == [] && e.swapped == []
    && e.kv.blockSize == 2
    && e.Get(0) == Out().(status := Running, table := e.Get(0).table) && e.Get(0).table != []
  }

  lemma Restores(e: Engine)
    requires Parked(e)
    ensures var r := RestoreSwapped(e); r.Some? && Back(r.value) && r.value.kv.freeIds != []
  {
    PromptOfOne(e.kv);
    hide AllocatePrompt;
    assert [5][..1] == [5] && [0][1..] == [] && [] + [0] == [0];
    var r := AllocatePrompt(e.kv, [5]);
    var e1 := e.Put(0, Out().(table := r.table, status := Running)).(
      swapped := [], running := [0], kv := r.pool, lost := e.lost + multiset(e.Get(0).table));
    assert RestoreSwapped(e) == RestoreSwapped(e1);
  }

  lemma ParkedDecodes(e: Engine)
    requires Parked(e) && RestoreSwapped(e).Some?
    ensures Wake(e) == e && InFlight(e) && Schedule(e) == Work(RestoreSwapped(e).value, [], [0])
  {
    hide RestoreSwapped;
    Restores(e);
    var e2 := RestoreSwapped(e).value;
    assert [0][1..] == [] && [0] + [] == [0];
    assert FilterDone(e2, [0], true) == [0] + FilterDone(e2, [], true);
    assert AdmitWhole(e, [], 8, false) == (e, []);
    assert SchedulePriority(e) == Work(e2, [], [0]);
  }

  lemma BackGrows(e: Engine)
    requires Back(e) && e.kv.freeIds != []
    ensures var g := GrowAll(e, [0], []); g.Growth? && g.survivors == [0] && Back(g.engine)
  {
    hide AppendToken;
    AppendFree(e.kv, e.Get(0).table, 3);
    var g := GrowOne(e, 0, []);
    assert [] + [0] == [0] && [0][1..] == [];
    assert GrowAll(e, [0], []) == GrowAll(g.engine, [], [0]);
  }

  lemma BackEmits(e: Engine)
    requires Back(e)
    ensures 0 in ApplyWork(e, [], [0], TOOK).running
  {
    assert [0][1..] == [];
    var e2 := e.(now := e.now + 1.0, stepNo := e.stepNo + 1);
    var e4 := e2.Put(0, Emitted(e2.Get(0), 1, e2.now));
    assert ForEach(e2, [0], Emitting(1, e2.now)) == ForEach(e4, [], Emitting(1, e2.now));
    assert FinishDone(e4, [0]) == FinishDone(e4, []);
  }

  lemma PairStepFour(e: Engine)
    requires Parked(e)
    ensures var r := Step(e, TOOK); r.Worked? && r.decodes == [0] && 0 in r.engine.running
    ensures Wake(e) == e
  {
    hide Wake, Schedule, GrowAll, RestoreSwapped, ApplyWork, Back, Parked;
    Restores(e);
    ParkedDecodes(e);
    var e1 := RestoreSwapped(e).value;
    BackGrows(e1);
    BackEmits(GrowAll(e1, [0], []).engine);
  }

  lemma PairRefilled(e: Engine)
    requires Parked(e)
    ensures NextFill(e, TOOK, Fill(1, [2], false), 0) == Fill(1, [3], true)
  {
    hide Step, Wake, NextFill;
    PairStepFour(e);
    FillIs(e, TOOK, Fill(1, [2], false), 0, Out(), Step(e, TOOK));
    assert [5][..1] == [5] && [] + [3] == [3 as nat];
  }

  function Restoring(): seq<Command> {
    [SubmitAll([FIRST, BRIEF]), StepOnce(TOOK), StepOnce(TOOK), StepOnce(TOOK), StepOnce(TOOK)]
  }

  lemma RestoringRuns() returns (e: Engine)
    ensures Execute(InitEngine(RESTORING, Fresh()), Restoring()) == Some(e) && 0 in e.running
    ensures FillAfter(InitEngine(RESTORING, Fresh()), Restoring(), NOTHING, 0) == Fill(1, [3], true)
  {
    hide Step, NextFill, Submit, Fresh, PairAt, Pair, Fourth, Parked;
    var e0, e1, e2 := PairStart(), PairAt(Pair(), 1, [2], [1]), PairAt(Fourth(), 2, [2, 0], [1]);
    PairStepOne();
    PairFilled();
    PairStepTwo();
    PairTold();
    PairStepThree();
    var e3 := Step(e2, TOOK).engine;
    PairStepFour(e3);
    PairRefilled(e3);
    e := Step(e3, TOOK).engine;
    var third := [StepOnce(TOOK)] + ([StepOnce(TOOK)] + []);
    Follow(e3, TOOK, [], Fill(1, [2], false), 0, e, Fill(1, [3], true));
    Follow(e2, TOOK, [StepOnce(TOOK)] + [], Fill(1, [2], false), 0, e3, Fill(1, [2], false));
    Follow(e1, TOOK, third, Fill(1, [], false), 0, e2, Fill(1, [2], false));
    Follow(e0, TOOK, [StepOnce(TOOK)] + third, NOTHING, 0, e1, Fill(1, [], false));
    FollowSubmit(InitEngine(RESTORING, Fresh()), [FIRST, BRIEF], [StepOnce(TOOK)] + ([StepOnce(TOOK)] + third),
                 NOTHING, 0);
    assert Restoring() == [SubmitAll([FIRST, BRIEF])] + ([StepOnce(TOOK)] + ([StepOnce(TOOK)] + third));
  }

  lemma RestoringOk()
    ensures forall i :: 0 <= i < |Restoring()| ==> CommandOk(Restoring()[i])
    ensures AtMostOnce(multiset(Submitted(Restoring())))
  {
    var c := Restoring();
    assert c[1..] == [StepOnce(TOOK), StepOnce(TOOK), StepOnce(TOOK), StepOnce(TOOK)];
    StepsSubmit(c[1..]);
    IdsBoth(FIRST, BRIEF);
    assert Submitted(c) == [0, 1];
  }

  /** Swapped out two tokens into its output and restored, a prompt of one token in
      blocks of two has the one block of its prompt. */
  lemma RestoredUncovered() returns (e: Engine)
    ensures Reached(RESTORING, 3, 2, false, 0.01, Restoring(), 0, e, Fill(1, [3], true))
    ensures !Covers(e.Get(0), 3, 2)
  {
    hide Execute, FillAfter, CommandOk, Submitted, AtMostOnce, Restoring, Covers;
    e := RestoringRuns();
    RestoringOk();
    EngineCovers(RESTORING, 3, 2, false, 0.01, Restoring(), 0, e, Fill(1, [3], true));
    OneOfOne();
  }

  lemma OneOfOne()
    ensures Multiples([3], 2) == 0 && CeilDiv(1, 2) == 1 && CeilDiv(3, 2) == 2
  {
    assert [3][..0] == [];
    assert Multiples([], 2) == 0;
  }
}
