/** When a running sequence's table has a slot for every token it was last grown for. */
module EngineCoverage {
  import opened Lists
  import opened PagedSpec
  import opened PagedInvariant
  import opened PagedLengths
  import opened EngineSpec
  import opened EngineAccounting
  import opened EngineRuns
  import opened EngineFit
  import opened EngineTables

  /** The last length the growth of this table was told. */
  function LastTold(f: Fill): nat
    requires f.told != []
  {
    f.told[|f.told| - 1]
  }

  predicate Covers(s: Sequence, len: nat, size: pos) {
    |s.table| * size >= len
  }

  /** With speculation or without: covered exactly when the boundaries told make up
      for the blocks the prompt does not have. */
  lemma CoversExactly(s: Sequence, f: Fill, size: pos)
    requires s.status == Running && RecordFilled(s, f, size) && f.told != []
    ensures Covers(s, LastTold(f), size)
       <==> CeilDiv(f.base, size) + Multiples(f.told, size) >= CeilDiv(LastTold(f), size)
  {
    CeilTimes(LastTold(f), size, |s.table|);
    CeilDivIs(LastTold(f), size);
    hide Multiples;
  }

  /** Consecutive lengths hit each boundary once. */
  lemma {:induction false} PlainMultiples(told: seq<nat>, size: pos)
    requires told != [] && Rising(told, true)
    ensures Multiples(told, size) == told[|told| - 1] / size - (told[0] - 1) / size
    ensures told[0] <= told[|told| - 1]
  {
    var n := |told| - 1;
    Quotients(told[n], size);
    if n > 0 {
      PlainMultiples(told[..n], size);
      assert Past(told[n], told[n - 1], true);
    } else {
      assert told[..0] == [];
    }
  }

  /** Division counts the boundaries up to a length. */
  lemma Quotients(n: nat, d: pos)
    ensures n / d == (n - 1) / d + if n % d == 0 then 1 else 0
  {
    if n > 0 {
      NextQuotient(n, d);
    } else {
      DivModUnique(0, d, 0, 0);
      assert -1 == (-1) * d + (d as int - 1);
      MinusOne(d);
    }
  }

  lemma MinusOne(d: pos)
    ensures (-1) / (d as int) == -1
  {
    var q, r := (-1) / (d as int), (-1) % (d as int);
    var k := -q - 1;
    assert -1 == q * d + r && k * d == -(q * d) - d;
    assert q >= 0 ==> q * d >= 0;
    assert k >= 1 ==> k * d >= d;
  }

  /** Without speculation: covered exactly when the blocks the table was filled with,
      and one more if the length is on a boundary, reach the first length told. */
  lemma PlainCovers(s: Sequence, f: Fill, size: pos)
    requires s.status == Running && Followed(s, f, size, true) && f.told != []
    ensures |s.table| == CeilDiv(f.base, size) + LastTold(f) / size - (f.told[0] - 1) / size
    ensures Covers(s, LastTold(f), size)
       <==> (CeilDiv(f.base, size) + if LastTold(f) % size == 0 then 1 else 0) * size >= f.told[0]
  {
    var last, blocks := LastTold(f), CeilDiv(f.base, size) + if LastTold(f) % size == 0 then 1 else 0;
    PlainMultiples(f.told, size);
    CoversExactly(s, f, size);
    CeilDivIs(last, size);
    CeilTimes(f.told[0], size, blocks);
    Quotients(f.told[0], size);
    hide Multiples, CeilDiv;
  }

  /** ... so for a sequence that was not restored: when its prompt does not end on a
      block boundary, or the length does, or the prompt was all cached. */
  lemma PromptCovers(s: Sequence, f: Fill, size: pos)
    requires s.status == Running && Followed(s, f, size, true) && f.told != [] && !f.restored
    ensures
      var prompt, last := s.req.promptTokens, LastTold(f);
      && (f.told[0] == prompt + 1 || (f.told[0] == prompt && s.cached >= prompt))
      && (f.told[0] == prompt + 1 ==> |s.table| == CeilDiv(prompt, size) + last / size - prompt / size)
      && (Covers(s, last, size) <==> prompt % size != 0 || last % size == 0 || f.told[0] == prompt)
  {
    PlainCovers(s, f, size);
    var prompt := s.req.promptTokens;
    var blocks := CeilDiv(prompt, size) + if LastTold(f) % size == 0 then 1 else 0;
    CeilTimes(f.told[0], size, blocks);
    CeilDivIs(prompt, size);
    Quotients(f.told[0], size);
    Quotients(prompt, size);
    hide CeilDiv;
  }

  // ---- in every run

  /** The engine after some commands, and the fill of `x` in it. */
  ghost predicate Reached(cfg: Config, numBlocks: nat, size: pos, caching: bool, watermark: real,
                          commands: seq<Command>, x: int, e: Engine, f: Fill) {
    var start := InitEngine(cfg, InitPool(numBlocks, size, caching, watermark));
    && (forall i :: 0 <= i < |commands| ==> CommandOk(commands[i]))
    && AtMostOnce(multiset(Submitted(commands)))
    && Execute(start, commands) == Some(e) && x in e.running
    && f == FillAfter(start, commands, Fill(0, [], false), x)
  }

  lemma ReachedFollowed(cfg: Config, numBlocks: nat, size: pos, caching: bool, watermark: real,
                       commands: seq<Command>, x: int, e: Engine, f: Fill)
    requires Reached(cfg, numBlocks, size, caching, watermark, commands, x, e, f)
    ensures e.Get(x).status == Running && Followed(e.Get(x), f, size, cfg.draftTokens == 0)
  {
    var start := InitEngine(cfg, InitPool(numBlocks, size, caching, watermark));
    InitAccounted(cfg, start.kv);
    assert Members(start) + multiset(Submitted(commands)) == multiset(Submitted(commands));
    StartFollowed(cfg, start.kv, x);
    hide Accounted, Members, Execute, FillAfter, Followed;
    ExecuteTables(start, commands, Fill(0, [], false), x);
    ExecuteAccounted(start, commands);
    RunsInBatch(e, x);
  }

  lemma RunsInBatch(e: Engine, x: int)
    requires Accounted(e) && x in e.running
    ensures e.Get(x).status == Running
  {
  }

  lemma StartFollowed(cfg: Config, kv: Pool, x: int)
    ensures Followed(InitEngine(cfg, kv).Get(x), Fill(0, [], false), kv.blockSize, cfg.draftTokens == 0)
  {
  }

  /** COVERAGE, in every run of the engine: what a running sequence's table covers is
      decided by what it was filled with and the lengths its growth was told. */
  lemma EngineCovers(cfg: Config, numBlocks: nat, size: pos, caching: bool, watermark: real,
                     commands: seq<Command>, x: int, e: Engine, f: Fill)
    requires Reached(cfg, numBlocks, size, caching, watermark, commands, x, e, f)
    ensures
      var s := e.Get(x);
      && |s.table| == CeilDiv(f.base, size) + Multiples(f.told, size)
      && (f.base == s.req.promptTokens || (f.restored && s.req.promptTokens == 0))
      && (f.told != [] ==>
            && (Covers(s, LastTold(f), size)
                <==> CeilDiv(f.base, size) + Multiples(f.told, size) >= CeilDiv(LastTold(f), size))
            && (cfg.draftTokens == 0 ==>
                  (Covers(s, LastTold(f), size)
                   <==> (CeilDiv(f.base, size) + if LastTold(f) % size == 0 then 1 else 0) * size >= f.told[0]))
            && (cfg.draftTokens == 0 && !f.restored ==>
                  (Covers(s, LastTold(f), size)
                   <==> s.req.promptTokens % size != 0 || LastTold(f) % size == 0 || f.told[0] == s.req.promptTokens)))
  {
    ReachedFollowed(cfg, numBlocks, size, caching, watermark, commands, x, e, f);
    hide Reached, Multiples, CeilDiv, RecordTold, Covers;
    var s := e.Get(x);
    if f.told != [] {
      CoversExactly(s, f, size);
      if cfg.draftTokens == 0 {
        PlainCovers(s, f, size);
        if !f.restored {
          PromptCovers(s, f, size);
        }
      }
    }
  }
}
