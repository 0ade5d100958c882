/** Two short runs from a fresh engine: one that raises, and one that swaps a
    sequence out for good. */
module EngineWitness {
  import opened Lists
  import opened PagedSpec
  import opened PagedInvariant
  import opened EngineSpec
  import opened EngineAccounting
  import opened EngineRuns
  import opened EngineMemory
  import opened EngineGrowth
  import opened EngineUnshared
  import opened EngineStuck
  import opened EngineTotal

  function Ask(id: int, tokens: seq<Token>): Request {
    Request(id, |tokens|, 5, 0.0, 0, tokens, TokenKeys(None, 0, None, false, 0))
  }

  const LONG := Ask(0, [7, 8])
  const SHORT := Ask(1, [9])
  const TOOK := StepInput(1.0, 0)

  // ---- the run that raises

  const PLAIN := Config(2, 8, false, 0, false, false, 0)

  function Fresh(): Pool {
    InitPool(3, 2, false, 0.01)
  }

  lemma FreshPool()
    ensures Fresh() == Pool(2, false, 1, [Block(0, None, 0), Block(0, None, 0), Block(0, None, 0)], [0, 1, 2],
                            map[], [], Stats(0, 0, 0, 0, 0, 0, 0))
  {
    assert 3 as real * 0.01 == 0.03;
  }

  /** The pool with the long prompt in it, then with both. */
  function One(): Pool {
    AllocatePrompt(Fresh(), [7, 8]).pool
  }

  function Two(): Pool {
    AllocatePrompt(One(), [9]).pool
  }

  lemma LongPrompt()
    ensures AllocatePrompt(Fresh(), [7, 8]) == Allocation(One(), [2], 0, true)
    ensures One().blocks == [Block(0, None, 0), Block(0, None, 0), Block(1, Some(HashBlock(None, [7, 8])), 2)]
    ensures One().freeIds == [0, 1] && One().cache == map[] && One().lru == []
    ensures !One().caching && One().blockSize == 2 && One().watermark == 1
  {
    FreshPool();
    assert [7, 8][..2] == [7, 8] && [7, 8][2..] == [];
    assert Chunks([7, 8], 2) == [[7, 8]] + Chunks([], 2);
    assert Chunks([7, 8], 2) == [[7, 8]];
  }

  lemma ShortPrompt()
    ensures AllocatePrompt(One(), [9]) == Allocation(Two(), [1], 0, true)
    ensures Two().blocks == [Block(0, None, 0), Block(1, None, 1), Block(1, Some(HashBlock(None, [7, 8])), 2)]
    ensures Two().freeIds == [0] && Two().cache == map[] && Two().lru == []
    ensures !Two().caching && Two().blockSize == 2 && Two().watermark == 1
  {
    LongPrompt();
    hide One;
    assert Chunks([9], 2) == [];
  }

  /** Both requests have arrived. */
  function ArrivedIn(cfg: Config, kv: Pool, a: Request, b: Request): Engine {
    Engine(cfg, kv, 0.0, 0, map[0 := NewSequence(a), 1 := NewSequence(b)], [], [0, 1], [], [], [], 0, multiset{})
  }

  function Arrived(cfg: Config, a: Request, b: Request): Engine {
    ArrivedIn(cfg, Fresh(), a, b)
  }

  lemma ArriveIn(cfg: Config, kv: Pool, a: Request, b: Request)
    requires a.id == 0 && b.id == 1 && a.arrival == b.arrival == 0.0 && a.tokenIds != [] && b.tokenIds != []
    ensures Wake(Submit(InitEngine(cfg, kv), [a, b])) == ArrivedIn(cfg, kv, a, b)
  {
    var e := InitEngine(cfg, kv);
    assert [a, b][1..] == [b] && [b][1..] == [];
    assert InsertPending([], a) == [a] && InsertPending([a], b) == [a, b];
    assert Submit(e, [a, b]) == Submit(e.(pending := [a]), [b]);
    assert Submit(e.(pending := [a]), [b]) == Submit(e.(pending := [a, b]), []);
    var e1 := e.(pending := [b], seqs := map[0 := NewSequence(a)], waiting := [0]);
    assert e.(pending := [a, b]).Put(0, NewSequence(a)).(pending := [b], waiting := [] + [0]) == e1;
    assert AdmitArrivals(e.(pending := [a, b])) == AdmitArrivals(e1);
    assert e1.Put(1, NewSequence(b)).(pending := [], waiting := [0] + [1]) == ArrivedIn(cfg, kv, a, b);
    assert AdmitArrivals(e1) == ArrivedIn(cfg, kv, a, b);
  }

  lemma Arrive(cfg: Config, a: Request, b: Request)
    requires a.id == 0 && b.id == 1 && a.arrival == b.arrival == 0.0 && a.tokenIds != [] && b.tokenIds != []
    ensures Wake(Submit(InitEngine(cfg, Fresh()), [a, b])) == Arrived(cfg, a, b)
  {
    hide Wake, Submit, Fresh, ArrivedIn;
    ArriveIn(cfg, Fresh(), a, b);
  }

  // ---- prefill

  /** The head of the waiting list is running, its prompt in the pool. */
  function HalfAdmitted(): Engine {
    Engine(PLAIN, One(), 0.0, 0, map[0 := Admitted(LONG, [2]), 1 := NewSequence(SHORT)], [], [1], [0], [], [], 0,
           multiset{})
  }

  function Admitted(r: Request, table: seq<nat>): Sequence {
    NewSequence(r).(table := table, status := Running)
  }

  function BothAdmitted(cfg: Config, kv: Pool, a: Request, b: Request, ta: seq<nat>, tb: seq<nat>): Engine {
    Engine(cfg, kv, 0.0, 0, map[0 := Admitted(a, ta), 1 := Admitted(b, tb)], [], [], [0, 1], [], [], 0, multiset{})
  }

  lemma FirstAdmitted()
    ensures
      var e := Arrived(PLAIN, LONG, SHORT);
      var a := Allocate(e, 0);
      a.ok && StartHead(a.engine) == HalfAdmitted()
  {
    FreshPool();
    LongPrompt();
    hide AllocatePrompt, One;
    var e := Arrived(PLAIN, LONG, SHORT);
    assert e.kv.CanAllocate(CeilDiv(2, 2));
    assert StartHead(Allocate(e, 0).engine).seqs == HalfAdmitted().seqs;
    assert [] + [0] == [0] && [0, 1][1..] == [1];
    Nothing(NewSequence(LONG).table);
  }

  lemma Nothing(table: seq<nat>)
    requires table == []
    ensures multiset{} + multiset(table) == multiset{}
  {
  }

  lemma SecondAdmitted()
    ensures
      var a := Allocate(HalfAdmitted(), 1);
      a.ok && StartHead(a.engine) == BothAdmitted(PLAIN, Two(), LONG, SHORT, [2], [1])
  {
    LongPrompt();
    ShortPrompt();
    hide AllocatePrompt, One, Two;
    var e := HalfAdmitted();
    assert e.kv.CanAllocate(CeilDiv(1, 2));
    assert StartHead(Allocate(e, 1).engine).seqs == map[0 := Admitted(LONG, [2]), 1 := Admitted(SHORT, [1])];
    assert [0] + [1] == [0, 1] && [1][1..] == [];
    Nothing(NewSequence(SHORT).table);
  }

  /** Both prompts are admitted in the first step. */
  lemma Scheduled()
    ensures Schedule(Arrived(PLAIN, LONG, SHORT))
         == Work(BothAdmitted(PLAIN, Two(), LONG, SHORT, [2], [1]), [Chunk(0, 2), Chunk(1, 1)], [])
  {
    FirstAdmitted();
    SecondAdmitted();
    hide Allocate, StartHead, One, Two, Fresh;
    var e, half, both := Arrived(PLAIN, LONG, SHORT), HalfAdmitted(), BothAdmitted(PLAIN, Two(), LONG, SHORT, [2], [1]);
    assert AdmitWhole(both, [Chunk(0, 2), Chunk(1, 1)], 5, true) == (both, [Chunk(0, 2), Chunk(1, 1)]);
    assert [Chunk(0, 2)] + [Chunk(1, 1)] == [Chunk(0, 2), Chunk(1, 1)];
    assert AdmitWhole(half, [Chunk(0, 2)], 6, true) == (both, [Chunk(0, 2), Chunk(1, 1)]);
    assert [] + [Chunk(0, 2)] == [Chunk(0, 2)];
    assert AdmitWhole(e, [], 8, false) == AdmitWhole(half, [Chunk(0, 2)], 6, true);
  }

  // ---- both decode

  /** A running sequence `n` tokens into its output, one token a second. */
  function Writing(r: Request, table: seq<nat>, n: nat): Sequence {
    Sequence(r, Running, table, r.promptTokens, n, 0, 1.0, -1.0, Seconds(n), 0, 0, 0)
  }

  function Seconds(n: nat): seq<real> {
    if n == 0 then [] else Seconds(n - 1) + [n as real]
  }

  function Both(cfg: Config, kv: Pool, n: nat, a: Request, b: Request, ta: seq<nat>, tb: seq<nat>): Engine {
    Engine(cfg, kv, n as real, n, map[0 := Writing(a, ta, n), 1 := Writing(b, tb, n)], [], [], [0, 1], [], [], 0,
           multiset{})
  }

  /** Both records after the same change. */
  lemma ForBoth(e: Engine, m: nat, n: nat, f: (Sequence, nat) -> Sequence, a: Sequence, b: Sequence)
    requires e.seqs.Keys == {0, 1} && f(e.seqs[0], m) == a && f(e.seqs[1], n) == b
    ensures ForChunks(e, [Chunk(0, m), Chunk(1, n)], f) == e.(seqs := map[0 := a, 1 := b])
  {
    var chunks := [Chunk(0, m), Chunk(1, n)];
    assert chunks[1..] == [Chunk(1, n)] && chunks[1..][1..] == [];
    assert e.Put(0, a).Put(1, b).seqs == map[0 := a, 1 := b];
    assert ForChunks(e, chunks, f) == ForChunks(e.Put(0, a), chunks[1..], f);
    assert ForChunks(e.Put(0, a), chunks[1..], f) == ForChunks(e.Put(0, a).Put(1, b), [], f);
  }

  lemma NobodyDone(e: Engine)
    requires !e.Get(0).Done() && !e.Get(1).Done()
    ensures FinishDone(e, [0, 1]) == e
  {
    assert [0, 1][1..] == [1] && [1][1..] == [];
  }

  /** Prefilling both whole prompts emits both first tokens. */
  lemma Prefilled(cfg: Config, kv: Pool, a: Request, b: Request, ta: seq<nat>, tb: seq<nat>)
    requires cfg.draftTokens == 0 && a.outputTokens > 1 && b.outputTokens > 1
    ensures ApplyWork(BothAdmitted(cfg, kv, a, b, ta, tb),
                      [Chunk(0, a.promptTokens), Chunk(1, b.promptTokens)], [], TOOK)
         == Both(cfg, kv, 1, a, b, ta, tb)
  {
    hide ForChunks, FinishDone;
    var e2 := BothAdmitted(cfg, kv, a, b, ta, tb).(now := 1.0, stepNo := 1);
    var a3, b3 := AddPrefill(Admitted(a, ta), a.promptTokens), AddPrefill(Admitted(b, tb), b.promptTokens);
    ForBoth(e2, a.promptTokens, b.promptTokens, AddPrefill, a3, b3);
    var e3 := e2.(seqs := map[0 := a3, 1 := b3]);
    assert Seconds(0) == [] && Seconds(1) == [1.0];
    ForBoth(e3, a.promptTokens, b.promptTokens, EmittingFirst(1.0), Writing(a, ta, 1), Writing(b, tb, 1));
    NobodyDone(e3.(seqs := map[0 := Writing(a, ta, 1), 1 := Writing(b, tb, 1)]));
  }

  /** Both are grown, without anybody being preempted. */
  lemma BothGrow(cfg: Config, kv: Pool, n: nat, a: Request, b: Request, ta: seq<nat>, tb: seq<nat>,
                 ra: Appended, rb: Appended)
    requires AppendToken(kv, ta, a.promptTokens + n) == ra && ra.Grown?
    requires AppendToken(ra.pool, tb, b.promptTokens + n) == rb && rb.Grown?
    ensures GrowAll(Both(cfg, kv, n, a, b, ta, tb), [0, 1], [])
         == Growth(Both(cfg, rb.pool, n, a, b, ra.table, rb.table), [0, 1])
  {
    hide AppendToken;
    var e := Both(cfg, kv, n, a, b, ta, tb);
    var e1, e2 := Both(cfg, ra.pool, n, a, b, ra.table, tb), Both(cfg, rb.pool, n, a, b, ra.table, rb.table);
    assert e.seqs[0 := Writing(a, ta, n).(table := ra.table)] == e1.seqs;
    assert GrowOne(e, 0, []) == Growth(e1, [0]) by { assert [] + [0] == [0]; }
    assert e1.seqs[1 := Writing(b, tb, n).(table := rb.table)] == e2.seqs;
    assert GrowOne(e1, 1, [0]) == Growth(e2, [0, 1]) by { assert [0] + [1] == [0, 1]; }
    assert [0, 1][1..] == [1] && [1][1..] == [];
    assert GrowAll(e1, [1], [0]) == Growth(e2, [0, 1]);
  }

  lemma WritesOn(r: Request, table: seq<nat>, n: nat)
    requires n < r.outputTokens
    ensures Emitting(1, (n + 1) as real)(Writing(r, table, n)) == Writing(r, table, n + 1)
  {
    var now := (n + 1) as real;
    assert Seconds(n + 1) == Seconds(n) + [now] && Repeat(now, 1) == [now];
  }

  lemma EachOfBoth(e: Engine, f: Sequence -> Sequence, a: Sequence, b: Sequence)
    requires e.seqs.Keys == {0, 1} && f(e.seqs[0]) == a && f(e.seqs[1]) == b
    ensures ForEach(e, [0, 1], f) == e.(seqs := map[0 := a, 1 := b])
  {
    assert e.Put(0, a).Put(1, b).seqs == map[0 := a, 1 := b];
    assert [0, 1][1..] == [1] && [1][1..] == [];
    assert ForEach(e, [0, 1], f) == ForEach(e.Put(0, a), [1], f);
    assert ForEach(e.Put(0, a), [1], f) == ForEach(e.Put(0, a).Put(1, b), [], f);
  }

  /** Decoding emits one token each. */
  lemma BothEmit(cfg: Config, kv: Pool, n: nat, a: Request, b: Request, ta: seq<nat>, tb: seq<nat>)
    requires cfg.draftTokens == 0 && n + 1 < a.outputTokens && n + 1 < b.outputTokens
    ensures ApplyWork(Both(cfg, kv, n, a, b, ta, tb), [], [0, 1], TOOK) == Both(cfg, kv, n + 1, a, b, ta, tb)
  {
    hide Emitting, ForEach, FinishDone, Seconds;
    var now := (n + 1) as real;
    var e2 := Both(cfg, kv, n, a, b, ta, tb).(now := now, stepNo := n + 1);
    WritesOn(a, ta, n);
    WritesOn(b, tb, n);
    EachOfBoth(e2, Emitting(1, now), Writing(a, ta, n + 1), Writing(b, tb, n + 1));
    NobodyDone(Both(cfg, kv, n + 1, a, b, ta, tb));
  }

  /** The pool with a second token behind either prompt. */
  function Three(): Pool {
    var r := AppendToken(Two(), [2], 3);
    if r.Grown? then r.pool else Two()
  }

  function Full(): Pool {
    var r := AppendToken(Three(), [1], 2);
    if r.Grown? then r.pool else Three()
  }

  lemma Fills()
    ensures AppendToken(Two(), [2], 3) == Grown(Three(), [2], false)
    ensures AppendToken(Three(), [1], 2) == Grown(Full(), [1, 0], true)
    ensures Full().freeIds == [] && Full().blockSize == 2
  {
    ShortPrompt();
    hide Two;
    assert [1] + [0] == [1, 0];
  }

  /** Growing both takes the last free block. */
  lemma GrowsBoth()
    ensures GrowAll(Both(PLAIN, Two(), 1, LONG, SHORT, [2], [1]), [0, 1], [])
         == Growth(GrownBoth(), [0, 1])
  {
    Fills();
    hide Two, Three, Full, AppendToken, Both, GrowAll;
    BothGrow(PLAIN, Two(), 1, LONG, SHORT, [2], [1], Grown(Three(), [2], false), Grown(Full(), [1, 0], true));
  }

  function GrownBoth(): Engine {
    Both(PLAIN, Full(), 1, LONG, SHORT, [2], [1, 0])
  }

  // ---- the run that raises

  function Start(): Engine {
    InitEngine(PLAIN, Fresh())
  }

  function Submitted2(): Engine {
    Submit(Start(), [LONG, SHORT])
  }

  lemma StepOne()
    ensures Step(Submitted2(), TOOK)
         == Worked(Both(PLAIN, Two(), 1, LONG, SHORT, [2], [1]), [Chunk(0, 2), Chunk(1, 1)], [])
  {
    Arrive(PLAIN, LONG, SHORT);
    Scheduled();
    Prefilled(PLAIN, Two(), LONG, SHORT, [2], [1]);
    hide Wake, Schedule, ApplyWork, Submit, Two, Both;
    var e := Arrived(PLAIN, LONG, SHORT);
    assert GrowAll(BothAdmitted(PLAIN, Two(), LONG, SHORT, [2], [1]), [], []).Growth?;
  }

  lemma StepTwo()
    ensures Step(Both(PLAIN, Two(), 1, LONG, SHORT, [2], [1]), TOOK)
         == Worked(Both(PLAIN, Full(), 2, LONG, SHORT, [2], [1, 0]), [], [0, 1])
  {
    var e := Both(PLAIN, Two(), 1, LONG, SHORT, [2], [1]);
    DecodesAll(e);
    GrowsBoth();
    BothEmit(PLAIN, Full(), 1, LONG, SHORT, [2], [1, 0]);
    hide Wake, Schedule, ApplyWork, GrowAll, Two, Full;
  }

  lemma TwoSteps()
    ensures Execute(Start(), [SubmitAll([LONG, SHORT]), StepOnce(TOOK), StepOnce(TOOK)])
         == Some(Both(PLAIN, Full(), 2, LONG, SHORT, [2], [1, 0]))
  {
    StepOne();
    StepTwo();
    hide Step, Both, Submit;
    var steps := [StepOnce(TOOK), StepOnce(TOOK)];
    assert [SubmitAll([LONG, SHORT]), StepOnce(TOOK), StepOnce(TOOK)][1..] == steps;
    assert steps[1..] == [StepOnce(TOOK)] && steps[1..][1..] == [];
    assert Execute(Submitted2(), steps) == Execute(Both(PLAIN, Two(), 1, LONG, SHORT, [2], [1]), steps[1..]);
  }

  function Commands(a: Request, b: Request): seq<Command> {
    [SubmitAll([a, b]), StepOnce(TOOK), StepOnce(TOOK)]
  }

  lemma CommandsOk(cfg: Config, a: Request, b: Request)
    requires a.id == 0 && b.id == 1 && RequestOk(a) && RequestOk(b)
    ensures forall i :: 0 <= i < |Commands(a, b)| ==> CommandOk(Commands(a, b)[i])
    ensures AtMostOnce(Members(InitEngine(cfg, Fresh())) + multiset(Submitted(Commands(a, b))))
  {
    hide Fresh, Submitted;
    SubmittedBoth(a, b);
    assert Members(InitEngine(cfg, Fresh())) == multiset{} by { InitAccounted(cfg, Fresh()); }
  }

  lemma SubmittedBoth(a: Request, b: Request)
    requires a.id == 0 && b.id == 1
    ensures Submitted(Commands(a, b)) == [0, 1]
  {
    var c := Commands(a, b);
    assert c[1..] == [StepOnce(TOOK), StepOnce(TOOK)];
    assert c[1..][1..] == [StepOnce(TOOK)] && [StepOnce(TOOK)][1..] == [];
    assert Submitted([StepOnce(TOOK)]) == [] && Submitted(c[1..]) == [];
    IdsBoth(a, b);
  }

  lemma IdsBoth(a: Request, b: Request)
    requires a.id == 0 && b.id == 1
    ensures Ids([a, b]) == [0, 1]
  {
    assert [a, b][1..] == [b] && [b][1..] == [];
    assert Ids([b]) == [1] && Ids([a, b]) == [0] + Ids([b]);
  }

  /** The engine after two steps keeps every invariant a run keeps. */
  lemma AfterTwoSteps()
    ensures
      var e := Both(PLAIN, Full(), 2, LONG, SHORT, [2], [1, 0]);
      Accounted(e) && MemoryOk(e) && Unshared(e.kv)
  {
    hide Execute, Accounted, MemoryOk, Unshared, Members, Both, Fresh, Submitted, AtMostOnce, Commands, Full;
    CommandsOk(PLAIN, LONG, SHORT);
    TwoStepsAgain();
    InitInv(3, 2, false, 0.01);
    InitAccounted(PLAIN, Fresh());
    StartMemory();
    StartUnshared();
    ExecuteAccounted(Start(), Commands(LONG, SHORT));
    ExecuteMemory(Start(), Commands(LONG, SHORT));
    ExecuteUnshared(Start(), Commands(LONG, SHORT));
  }

  lemma TwoStepsAgain()
    ensures Execute(Start(), Commands(LONG, SHORT)) == Some(Both(PLAIN, Full(), 2, LONG, SHORT, [2], [1, 0]))
  {
    TwoSteps();
    hide Execute, Both;
  }

  lemma StartUnshared()
    ensures Unshared(Start().kv)
  {
    InitUnshared(3, 2, 0.01);
  }

  lemma StartMemory()
    ensures MemoryOk(Start())
  {
    InitInv(3, 2, false, 0.01);
    hide Inv;
  }

  lemma StepThree()
    ensures Step(Both(PLAIN, Full(), 2, LONG, SHORT, [2], [1, 0]), TOOK).Crashed?
  {
    hide Step, Accounted, MemoryOk, Unshared, Full, Both, OnlyDecoding, Crossers;
    AfterTwoSteps();
    FirstCrosses();
    StepRaisesExactly(Both(PLAIN, Full(), 2, LONG, SHORT, [2], [1, 0]), TOOK);
  }

  /** The first of the two is on a block boundary, and no block is free. */
  lemma FirstCrosses()
    ensures
      var e := Both(PLAIN, Full(), 2, LONG, SHORT, [2], [1, 0]);
      && OnlyDecoding(e) && e.running == [0, 1] && WaitingLen(e, 1) % e.kv.blockSize != 0
      && Crossers(e, e.running[..|e.running| - 1]) > |e.kv.freeIds|
  {
    hide Full, AppendToken, Two, Three;
    Fills();
    var kv := Full();
    BothDecode(kv);
    BothCross(kv);
  }

  lemma BothDecode(kv: Pool)
    ensures OnlyDecoding(Both(PLAIN, kv, 2, LONG, SHORT, [2], [1, 0]))
  {
  }

  lemma BothCross(kv: Pool)
    requires kv.blockSize == 2
    ensures
      var e := Both(PLAIN, kv, 2, LONG, SHORT, [2], [1, 0]);
      e.running == [0, 1] && WaitingLen(e, 1) % 2 != 0 && Crossers(e, e.running[..1]) == 1
  {
    var e := Both(PLAIN, kv, 2, LONG, SHORT, [2], [1, 0]);
    assert e.running[..1] == [0] && [0][1..] == [];
    assert e.Get(0).TotalLen() == 4;
  }

  /** Two requests for a pool of three blocks. Both are admitted and the second
      takes the last block; the first then needs one, the second is preempted to
      make room, and the loop comes to it without a table. */
  lemma RunRaises()
    ensures Execute(InitEngine(PLAIN, InitPool(3, 2, false, 0.01)),
                    [SubmitAll([LONG, SHORT]), StepOnce(TOOK), StepOnce(TOOK), StepOnce(TOOK)]) == None
  {
    FourCommands();
    hide Execute, Both, Start, Commands;
    TwoStepsAgain();
    ExecuteOne(Start(), Commands(LONG, SHORT), StepOnce(TOOK));
    CrashOnce();
  }

  lemma FourCommands()
    ensures Start() == InitEngine(PLAIN, InitPool(3, 2, false, 0.01))
    ensures Commands(LONG, SHORT) + [StepOnce(TOOK)]
         == [SubmitAll([LONG, SHORT]), StepOnce(TOOK), StepOnce(TOOK), StepOnce(TOOK)]
  {
  }

  lemma CrashOnce()
    ensures Execute(Both(PLAIN, Full(), 2, LONG, SHORT, [2], [1, 0]), [StepOnce(TOOK)]) == None
  {
    hide Step, Both;
    StepThree();
  }

  /** One command more. */
  lemma {:induction false} ExecuteOne(e: Engine, commands: seq<Command>, c: Command)
    ensures Execute(e, commands + [c])
         == (match Execute(e, commands) case None => None case Some(e1) => Execute(e1, [c]))
    decreases |commands|
  {
    hide Step, Submit;
    if commands == [] {
      assert [] + [c] == [c];
    } else {
      assert (commands + [c])[1..] == commands[1..] + [c];
      match commands[0] {
        case SubmitAll(reqs) => ExecuteOne(Submit(e, reqs), commands[1..], c);
        case StepOnce(input) =>
          var r := Step(e, input);
          if !r.Crashed? {
            ExecuteOne(r.engine, commands[1..], c);
          }
      }
    }
  }

  // ---- the run that swaps for good

  const SWAPPING := Config(4, 8, true, 0, true, false, 0)
  const FIRST := Ask(0, [5])

  function SmallOne(): Pool {
    AllocatePrompt(Fresh(), [5]).pool
  }

  function SmallTwo(): Pool {
    AllocatePrompt(SmallOne(), [9]).pool
  }

  lemma SmallPrompt()
    ensures AllocatePrompt(Fresh(), [5]) == Allocation(SmallOne(), [2], 0, true)
    ensures SmallOne().blocks == [Block(0, None, 0), Block(0, None, 0), Block(1, None, 1)]
    ensures SmallOne().freeIds == [0, 1] && SmallOne().cache == map[] && SmallOne().lru == []
    ensures !SmallOne().caching && SmallOne().blockSize == 2 && SmallOne().watermark == 1
  {
    FreshPool();
    assert Chunks([5], 2) == [];
  }

  lemma SmallPrompts()
    ensures AllocatePrompt(SmallOne(), [9]) == Allocation(SmallTwo(), [1], 0, true)
    ensures SmallTwo().blocks == [Block(0, None, 0), Block(1, None, 1), Block(1, None, 1)]
    ensures SmallTwo().freeIds == [0] && SmallTwo().cache == map[] && SmallTwo().lru == []
    ensures !SmallTwo().caching && SmallTwo().blockSize == 2 && SmallTwo().watermark == 1
  {
    SmallPrompt();
    hide SmallOne;
    assert Chunks([9], 2) == [];
  }

  function SmallHalf(): Engine {
    Engine(SWAPPING, SmallOne(), 0.0, 0, map[0 := Admitted(FIRST, [2]), 1 := NewSequence(SHORT)], [], [1], [0], [],
           [], 0, multiset{})
  }

  lemma SmallAdmitted()
    ensures
      var e := Arrived(SWAPPING, FIRST, SHORT);
      var a, b := Allocate(e, 0), Allocate(SmallHalf(), 1);
      && a.ok && StartHead(a.engine) == SmallHalf()
      && b.ok && StartHead(b.engine) == BothAdmitted(SWAPPING, SmallTwo(), FIRST, SHORT, [2], [1])
  {
    FreshPool();
    SmallPrompt();
    SmallPrompts();
    hide AllocatePrompt, SmallOne, SmallTwo;
    var e := Arrived(SWAPPING, FIRST, SHORT);
    assert e.kv.CanAllocate(CeilDiv(1, 2)) && SmallHalf().kv.CanAllocate(CeilDiv(1, 2));
    assert StartHead(Allocate(e, 0).engine).seqs == SmallHalf().seqs;
    assert [] + [0] == [0] && [0, 1][1..] == [1] && [0] + [1] == [0, 1] && [1][1..] == [];
    assert StartHead(Allocate(SmallHalf(), 1).engine).seqs == map[0 := Admitted(FIRST, [2]), 1 := Admitted(SHORT, [1])];
    Nothing(NewSequence(FIRST).table);
    Nothing(NewSequence(SHORT).table);
  }

  lemma SmallScheduled()
    ensures Schedule(Arrived(SWAPPING, FIRST, SHORT))
         == Work(BothAdmitted(SWAPPING, SmallTwo(), FIRST, SHORT, [2], [1]), [Chunk(0, 1), Chunk(1, 1)], [])
  {
    SmallAdmitted();
    hide Allocate, StartHead, SmallOne, SmallTwo, Fresh;
    var e, half := Arrived(SWAPPING, FIRST, SHORT), SmallHalf();
    var both := BothAdmitted(SWAPPING, SmallTwo(), FIRST, SHORT, [2], [1]);
    assert [Chunk(0, 1)] + [Chunk(1, 1)] == [Chunk(0, 1), Chunk(1, 1)];
    assert AdmitChunked(both, [Chunk(0, 1), Chunk(1, 1)], 6) == (both, [Chunk(0, 1), Chunk(1, 1)]);
    assert AdmitChunked(half, [Chunk(0, 1)], 7) == (both, [Chunk(0, 1), Chunk(1, 1)]);
    assert [] + [Chunk(0, 1)] == [Chunk(0, 1)];
    assert AdmitChunked(e, [], 8) == AdmitChunked(half, [Chunk(0, 1)], 7);
  }

  lemma SmallStepOne()
    ensures Step(Submit(InitEngine(SWAPPING, Fresh()), [FIRST, SHORT]), TOOK)
         == Worked(Both(SWAPPING, SmallTwo(), 1, FIRST, SHORT, [2], [1]), [Chunk(0, 1), Chunk(1, 1)], [])
  {
    Arrive(SWAPPING, FIRST, SHORT);
    SmallScheduled();
    Prefilled(SWAPPING, SmallTwo(), FIRST, SHORT, [2], [1]);
    hide Wake, Schedule, ApplyWork, Submit, SmallTwo, Both;
    assert GrowAll(BothAdmitted(SWAPPING, SmallTwo(), FIRST, SHORT, [2], [1]), [], []).Growth?;
  }

  /** The first takes the last block. */
  function Crossed(): Pool {
    var r := AppendToken(SmallTwo(), [2], 2);
    if r.Grown? then r.pool else SmallTwo()
  }

  /** ... and gives both its blocks back. */
  function GivenBack(): Pool {
    var r := AppendToken(Crossed(), [1], 2);
    if r.OutOfBlocks? then Free(r.pool, [2, 0]) else Crossed()
  }

  lemma SmallCrosses()
    ensures AppendToken(SmallTwo(), [2], 2) == Grown(Crossed(), [2, 0], true)
    ensures Crossed().blocks == [Block(1, None, 1), Block(1, None, 1), Block(1, None, 1)]
    ensures Crossed().freeIds == [] && Crossed().cache == map[] && Crossed().lru == []
    ensures !Crossed().caching && Crossed().blockSize == 2
  {
    SmallPrompts();
    hide SmallTwo;
    assert [2] + [0] == [2, 0];
  }

  lemma SmallFills()
    ensures AppendToken(Crossed(), [1], 2).OutOfBlocks?
    ensures AppendToken(GivenBack(), [1], 2).Grown?
  {
    SmallCrosses();
    hide Crossed;
    assert [2, 0][1..] == [0] && [0][1..] == [];
    var r := AppendToken(Crossed(), [1], 2);
    assert r.OutOfBlocks? && r.pool == Crossed().(stats := r.pool.stats);
    var q := Release(r.pool, 2);
    assert q.freeIds == [2] && q.blocks == [Block(1, None, 1), Block(1, None, 1), Block(0, None, 1)];
    hide AppendToken;
    assert Release(q, 0).freeIds == [2] + [0];
    assert Free(q, [0]) == Free(Release(q, 0), []);
    assert Free(r.pool, [2, 0]) == Release(q, 0);
    GrowsFree(GivenBack());
  }

  lemma GrowsFree(p: Pool)
    requires p.freeIds != [] && p.blockSize == 2
    ensures AppendToken(p, [1], 2).Grown?
  {
  }

  /** To grow the second, the first is swapped out again. */
  lemma SmallGrows()
    ensures
      var g := GrowAll(Both(SWAPPING, SmallTwo(), 1, FIRST, SHORT, [2], [1]), [0, 1], []);
      g.Growth? && g.survivors == [1] && g.engine.swapped == [0]
  {
    SmallCrosses();
    SmallFills();
    hide SmallTwo, Crossed, AppendToken, Free;
    var e := Both(SWAPPING, SmallTwo(), 1, FIRST, SHORT, [2], [1]);
    var e1 := e.Put(0, Writing(FIRST, [2], 1).(table := [2, 0])).(kv := Crossed());
    assert GrowOne(e, 0, []) == Growth(e1, [0]) by { assert [] + [0] == [0]; }
    var e2 := Preempt(e1.(kv := AppendToken(Crossed(), [1], 2).pool), 0);
    assert Victim([0, 1], 1) == Some(0);
    assert Remove([0], 0) == [] && [] + [0] == [0];
    assert e2.Get(1) == Writing(SHORT, [1], 1) && e2.kv == GivenBack() && e2.swapped == [0];
    assert GrowOne(e1, 1, [0]) == GrowOne(e2, 1, []);
    assert [] + [1] == [1];
    assert [0, 1][1..] == [1] && [1][1..] == [];
    assert GrowAll(e, [0, 1], []) == GrowAll(e1, [1], [0]);
  }

  lemma SmallSchedules(e: Engine)
    requires e == Both(SWAPPING, SmallTwo(), 1, FIRST, SHORT, [2], [1])
    ensures Wake(e) == e && InFlight(e) && Schedule(e) == Work(e, [], [0, 1])
  {
    hide SmallTwo;
    AllDone(e, [0, 1]);
    assert FilterDone(e, [0, 1], false) == [] by { assert [0, 1][1..] == [1] && [1][1..] == []; }
  }

  lemma SmallStepTwo()
    ensures
      var r := Step(Both(SWAPPING, SmallTwo(), 1, FIRST, SHORT, [2], [1]), TOOK);
      r.Worked? && [0] <= r.engine.swapped && r.engine.cfg == SWAPPING
  {
    hide Wake, Schedule, ApplyWork, GrowAll, SmallTwo, Both, InFlight;
    var e := Both(SWAPPING, SmallTwo(), 1, FIRST, SHORT, [2], [1]);
    SmallSchedules(e);
    SmallGrows();
    GrowAllSwapped(e, [0, 1], []);
    var g := GrowAll(e, [0, 1], []);
    ApplySwapped(g.engine, [], g.survivors, TOOK);
    SmallConfig();
  }

  lemma SmallConfig()
    ensures Both(SWAPPING, SmallTwo(), 1, FIRST, SHORT, [2], [1]).cfg == SWAPPING
  {
  }

  /** With chunked prefill and swapping, a run swaps out its first request; however
      it goes on, that request never runs again and never finishes. */
  lemma SwappedForGood(env: nat -> StepInput, steps: nat, maxMs: real)
    requires Durations(env)
    ensures
      var e := Execute(InitEngine(SWAPPING, InitPool(3, 2, false, 0.01)),
                       [SubmitAll([FIRST, SHORT]), StepOnce(TOOK), StepOnce(TOOK)]);
      && e.Some? && 0 in e.value.swapped
      && var r := Run(e.value, env, steps, maxMs);
         r.Some? ==> 0 in r.value.swapped && 0 !in r.value.finished
  {
    SmallRun();
    hide Step, Run, Execute, Accounted, Members, AtMostOnce, Commands, Fresh, Submitted;
    FreshIs();
    CommandsOk(SWAPPING, FIRST, SHORT);
    InitAccounted(SWAPPING, Fresh());
    ExecuteAccounted(InitEngine(SWAPPING, Fresh()), Commands(FIRST, SHORT));
    NeverRestored(Execute(InitEngine(SWAPPING, Fresh()), Commands(FIRST, SHORT)).value, env, steps, maxMs);
  }

  lemma FreshIs()
    ensures Fresh() == InitPool(3, 2, false, 0.01)
    ensures Commands(FIRST, SHORT) == [SubmitAll([FIRST, SHORT]), StepOnce(TOOK), StepOnce(TOOK)]
  {
  }

  lemma SmallRun()
    ensures
      var e := Execute(InitEngine(SWAPPING, Fresh()), Commands(FIRST, SHORT));
      e.Some? && 0 in e.value.swapped && e.value.cfg == SWAPPING
  {
    SmallStepOne();
    SmallStepTwo();
    hide Step, Both, Submit, Fresh, SmallTwo;
    var steps := [StepOnce(TOOK), StepOnce(TOOK)];
    assert Commands(FIRST, SHORT)[1..] == steps && steps[1..] == [StepOnce(TOOK)] && steps[1..][1..] == [];
    var e := Submit(InitEngine(SWAPPING, Fresh()), [FIRST, SHORT]);
    var e1 := Both(SWAPPING, SmallTwo(), 1, FIRST, SHORT, [2], [1]);
    assert Execute(e, steps) == Execute(e1, [StepOnce(TOOK)]);
    assert Execute(e1, [StepOnce(TOOK)]) == Execute(Step(e1, TOOK).engine, []);
    assert [0] <= Step(e1, TOOK).engine.swapped;
    assert 0 == Step(e1, TOOK).engine.swapped[0];
  }
}
