/** A state every cache comes to within a few calls, where the guard says yes and the
    allocation raises OutOfBlocks all the same. */
module PagedWitness {
  import opened Lists
  import opened PagedSpec
  import opened PagedInvariant
  import opened PagedSharing
  import opened PagedAdmission
  import opened PagedExact
  import opened PagedRuns

  /** The digest of block j of the prompt 0, 1, 2, 3 in blocks of one token. */
  function D(j: nat): Digest {
    Digest(if j == 0 then None else Some(D(j - 1)), [j])
  }

  lemma DigestsDiffer()
    ensures D(0) != D(1) && D(0) != D(2) && D(1) != D(2)
    ensures forall j: nat | j < 3 :: D(j) != D(3)
  {
    assert D(0).tokens == [0] && D(1).tokens == [1] && D(2).tokens == [2] && D(3).tokens == [3];
    assert [0][0] != [1][0];
    assert [0] != [1] && [0] != [2] && [1] != [2] && [0] != [3] && [1] != [3] && [2] != [3];
  }

  /** Five blocks of one token: three free, and blocks 1 and 2 of the prompt
      0, 1, 2 idle in the cache while its first block has been evicted. */
  function HeadEvicted(): Pool {
    Pool(1, true, 1,
         [Block(0, None, 1), Block(0, None, 1), Block(0, Some(D(2)), 1), Block(0, Some(D(1)), 1), Block(0, None, 1)],
         [1, 0, 4], map[D(1) := 3, D(2) := 2], [D(1), D(2)],
         Stats(6, 3, 0, 3, 1, 0, 0))
  }

  lemma HeadEvictedInv()
    ensures Inv(HeadEvicted(), multiset{})
  {
    DigestsDiffer();
  }

  lemma OneChunk(token: Token, rest: seq<Token>)
    ensures Chunks([token] + rest, 1) == [[token]] + Chunks(rest, 1)
  {
    assert ([token] + rest)[..1] == [token] && ([token] + rest)[1..] == rest;
  }

  lemma FourChunks()
    ensures Chunks([0, 1, 2], 1) == [[0], [1], [2]] && Chunks([0, 1, 2, 3], 1) == [[0], [1], [2], [3]]
  {
    OneChunk(3, []);
    OneChunk(2, [3]);
    OneChunk(1, [2, 3]);
    OneChunk(0, [1, 2, 3]);
    assert [0] + [1, 2, 3] == [0, 1, 2, 3] && [1] + [2, 3] == [1, 2, 3] && [2] + [3] == [2, 3] && [3] + [] == [3];
    OneChunk(2, []);
    OneChunk(1, [2]);
    OneChunk(0, [1, 2]);
    assert [0] + [1, 2] == [0, 1, 2] && [1] + [2] == [1, 2] && [2] + [] == [2];
  }

  // ---- the allocation fails

  lemma HeadStock()
    ensures StockOf(HeadEvicted()) == Stock(3, [D(1), D(2)])
  {
    DigestsDiffer();
    var p := HeadEvicted();
    assert p.Idle(D(1)) && p.Idle(D(2));
    assert [D(1), D(2)][1..] == [D(2)] && [D(2)][1..] == [];
    assert IdleIn(p, [D(2)]) == [D(2)];
  }

  /** The misses on blocks 1 and 2 put both idle blocks out of reach, so the fourth
      finds nothing. */
  lemma NothingForTheFourth()
    ensures Draw(Stock(3, [D(1), D(2)]), {D(1), D(2)}, [0, 1, 2, 3], 1, true) == None
  {
    DigestsDiffer();
    FourChunks();
    var chunks, cached := [[0], [1], [2], [3]], {D(1), D(2)};
    assert Chain(chunks, 0) == D(0) && Chain(chunks, 1) == D(1);
    assert Chain(chunks, 2) == D(2) && Chain(chunks, 3) == D(3);
    hide Chain, D;
    assert [D(1), D(2)][1..] == [D(2)];
    assert TakeOne(Stock(3, [D(1), D(2)]), Some(D(0))) == Some(Stock(2, [D(1), D(2)]));
    assert TakeOne(Stock(2, [D(1), D(2)]), Some(D(1))) == Some(Stock(1, [D(2)]));
    assert TakeOne(Stock(1, [D(2)]), Some(D(2))) == Some(Stock(0, []));
    assert DrawFull(Stock(0, []), cached, chunks, 3, false) == None;
    assert DrawFull(Stock(1, [D(2)]), cached, chunks, 2, false) == None;
    assert DrawFull(Stock(2, [D(1), D(2)]), cached, chunks, 1, false) == None;
  }

  lemma HeadCached()
    ensures HeadEvicted().cache.Keys == {D(1), D(2)}
    ensures HeadEvicted().CanAllocate(4)
  {
    DigestsDiffer();
    var p := HeadEvicted();
    assert IdleEntries(p) == {D(1), D(2)};
    assert p.NumEvictable() == 2;
  }

  // ---- the calls that lead there

  function Empty(): Pool {
    InitPool(5, 1, true, 0.01)
  }

  /** The first k blocks of the prompt are in use. */
  function InUse(k: nat): Pool {
    var none := Block(0, None, 0);
    var b0, b1, b2 := Block(1, Some(D(0)), 1), Block(1, Some(D(1)), 1), Block(1, Some(D(2)), 1);
    if k == 0 then
      Pool(1, true, 1, [none, none, none, none, none], [0, 1, 2, 3, 4], map[], [], Stats(0, 0, 0, 0, 0, 0, 0))
    else if k == 1 then
      Pool(1, true, 1, [none, none, none, none, b0], [0, 1, 2, 3], map[D(0) := 4], [D(0)], Stats(1, 0, 0, 1, 0, 0, 0))
    else if k == 2 then
      Pool(1, true, 1, [none, none, none, b1, b0], [0, 1, 2], map[D(0) := 4, D(1) := 3], [D(0), D(1)],
           Stats(2, 0, 0, 2, 0, 0, 0))
    else
      Pool(1, true, 1, [none, none, b2, b1, b0], [0, 1], map[D(0) := 4, D(1) := 3, D(2) := 2], [D(0), D(1), D(2)],
           Stats(3, 0, 0, 3, 0, 0, 0))
  }

  lemma EmptyIs()
    ensures Empty() == InUse(0)
  {
    assert 5 as real * 0.01 == 0.05;
  }

  lemma Place(k: nat)
    requires k < 3
    ensures PlaceFull(InUse(k), D(k), k == 0) == Placed(InUse(k + 1), Some(4 - k), false)
  {
    DigestsDiffer();
    if k == 0 {
      PlaceAt(InUse(0), D(0), true, InUse(1));
    } else if k == 1 {
      PlaceAt(InUse(1), D(1), false, InUse(2));
    } else {
      PlaceAt(InUse(2), D(2), false, InUse(3));
    }
  }

  /** A miss takes the last free block and registers it. */
  lemma PlaceAt(p: Pool, h: Digest, matching: bool, q: Pool)
    requires p.freeIds != [] && h !in p.cache && p.caching
    requires
      var b := p.freeIds[|p.freeIds| - 1];
      && b < |p.blocks| && q.blocks == p.blocks[b := Block(1, Some(h), p.blockSize)]
      && q.freeIds == p.freeIds[..|p.freeIds| - 1] && q.cache == p.cache[h := b] && q.lru == p.lru + [h]
      && q == p.(blocks := q.blocks, freeIds := q.freeIds, cache := q.cache, lru := q.lru,
                 stats := p.stats.(taken := p.stats.taken + 1, cacheMisses := p.stats.cacheMisses + 1))
    ensures PlaceFull(p, h, matching) == Placed(q, Some(p.freeIds[|p.freeIds| - 1]), false)
  {
  }

  lemma Fills()
    ensures AllocatePrompt(Empty(), [0, 1, 2]) == Allocation(InUse(3), [4, 3, 2], 0, true)
  {
    EmptyIs();
    FourChunks();
    Place(0);
    Place(1);
    Place(2);
    var chunks := [[0], [1], [2]];
    assert HashBlock(None, chunks[0]) == D(0) && HashBlock(Some(D(0)), chunks[1]) == D(1);
    assert HashBlock(Some(D(1)), chunks[2]) == D(2);
    assert InUse(0).blockSize == 1 && InUse(0).caching;
    hide PlaceFull, InUse, D;
    var full := Allocation(InUse(3), [4, 3, 2], 0, true);
    assert AllocateFull(InUse(3), chunks, 3, Some(D(2)), false, [4, 3, 2], 0) == full;
    assert [4, 3] + [2] == [4, 3, 2];
    assert AllocateFull(InUse(2), chunks, 2, Some(D(1)), false, [4, 3], 0) == full;
    assert [4] + [3] == [4, 3];
    assert AllocateFull(InUse(1), chunks, 1, Some(D(0)), false, [4], 0) == full;
    assert [] + [4] == [4];
  }

  /** The prompt was returned, and k tokens are in blocks of their own. */
  function Appended(k: nat): Pool {
    var none, own := Block(0, None, 0), Block(1, None, 1);
    var b0, b1, b2 := Block(0, Some(D(0)), 1), Block(0, Some(D(1)), 1), Block(0, Some(D(2)), 1);
    var all, order := map[D(0) := 4, D(1) := 3, D(2) := 2], [D(0), D(1), D(2)];
    if k == 0 then Pool(1, true, 1, [none, none, b2, b1, b0], [0, 1], all, order, Stats(3, 0, 0, 3, 0, 0, 0))
    else if k == 1 then Pool(1, true, 1, [none, own, b2, b1, b0], [0], all, order, Stats(4, 0, 0, 3, 0, 0, 0))
    else if k == 2 then Pool(1, true, 1, [own, own, b2, b1, b0], [], all, order, Stats(5, 0, 0, 3, 0, 0, 0))
    else
      Pool(1, true, 1, [own, own, b2, b1, own], [], map[D(1) := 3, D(2) := 2], [D(1), D(2)], Stats(6, 0, 0, 3, 1, 0, 0))
  }

  lemma FreeThree(p: Pool, a: nat, b: nat, c: nat)
    ensures Free(p, [a, b, c]) == Release(Release(Release(p, a), b), c)
  {
    assert [a, b, c][1..] == [b, c] && [b, c][1..] == [c] && [c][1..] == [];
    assert Free(Release(Release(p, a), b), [c]) == Free(Release(Release(Release(p, a), b), c), []);
  }

  lemma PromptReturned()
    ensures Free(InUse(3), [4, 3, 2]) == Appended(0)
  {
    FreeThree(InUse(3), 4, 3, 2);
    hide D;
  }

  lemma TokensReturned()
    ensures Free(Appended(3), [1, 0, 4]) == HeadEvicted()
  {
    FreeThree(Appended(3), 1, 0, 4);
    hide D;
    assert [] + [1] == [1] && [1] + [0] == [1, 0] && [1, 0] + [4] == [1, 0, 4];
  }

  /** The third token evicts the prompt's first block. */
  lemma Appends(k: nat, table: seq<nat>, len: nat)
    requires k < 3
    ensures AppendToken(Appended(k), table, len)
         == Grown(Appended(k + 1), table + [if k == 0 then 1 else if k == 1 then 0 else 4], true)
  {
    DigestsDiffer();
    var p, q := Appended(k), Appended(k + 1);
    hide D;
    if k == 2 {
      assert FirstIdle(p, 0) == 0;
      assert RemoveAt(p.lru, 0) == [D(1), D(2)];
      assert p.cache - {D(0)} == q.cache;
    }
    var r := AddBlock(p, None, 1);
    assert r.pool.freeIds == q.freeIds && r.pool.blocks == q.blocks;
  }

  lemma AppendStep(k: nat, c: Client, token: Token)
    requires k < 3 && c.tail == []
    ensures
      var table := c.table + [if k == 0 then 1 else if k == 1 then 0 else 4];
      Apply(World(Appended(k), [c], [true]), Append(0, token))
      == World(Appended(k + 1), [Client(table, c.chunks + [[token]], [])], [true])
  {
    Appends(k, c.table, |Content(c)|);
    assert Appended(k).blockSize == 1;
    assert [] + [token] == [token];
    hide Appended, AppendToken;
    var table := c.table + [if k == 0 then 1 else if k == 1 then 0 else 4];
    assert [c][0 := Client(table, c.chunks + [[token]], [])] == [Client(table, c.chunks + [[token]], [])];
  }

  lemma ReturnStep(p: Pool, c: Client)
    ensures Apply(World(p, [c], [true]), Return(0)) == World(Free(p, c.table), [], [])
  {
    assert RemoveAt([c], 0) == [] && RemoveAt([true], 0) == [];
  }

  lemma AllocateStep(p: Pool, tokens: seq<Token>)
    requires AllocatePrompt(p, tokens).ok
    ensures
      var r := AllocatePrompt(p, tokens);
      Apply(World(p, [], []), Allocate(tokens)) == World(r.pool, [Built(r, tokens, p.blockSize)], [true])
  {
    hide AllocatePrompt;
  }

  lemma NothingAllocated(p: Pool)
    ensures AllocatePrompt(p, []) == Allocation(p, [], 0, true)
    ensures Built(Allocation(p, [], 0, true), [], p.blockSize) == Client([], [], [])
  {
    assert Chunks([], p.blockSize) == [];
    DivModUnique(0, p.blockSize, 0, 0);
  }

  lemma PromptPhase()
    ensures Apply(Apply(World(Empty(), [], []), Allocate([0, 1, 2])), Return(0)) == World(Appended(0), [], [])
  {
    Fills();
    PromptReturned();
    AllocateStep(Empty(), [0, 1, 2]);
    hide AllocatePrompt, InUse, Empty, Appended, Apply, Free;
    assert Empty().blockSize == 1 by { EmptyIs(); EmptySize(); }
    var c := Built(AllocatePrompt(Empty(), [0, 1, 2]), [0, 1, 2], 1);
    ReturnStep(InUse(3), c);
  }

  lemma EmptySize()
    ensures InUse(0).blockSize == 1
  {
  }

  /** An empty table with three tokens appended. */
  function Table(k: nat): Client {
    if k == 0 then Client([], [], [])
    else if k == 1 then Client([1], [[7]], [])
    else if k == 2 then Client([1, 0], [[7], [8]], [])
    else Client([1, 0, 4], [[7], [8], [9]], [])
  }

  function Holding(k: nat): World {
    World(Appended(k), [Table(k)], [true])
  }

  lemma TokenPhase()
    ensures Apply(World(Appended(0), [], []), Allocate([])) == Holding(0)
    ensures Apply(Holding(0), Append(0, 7)) == Holding(1)
    ensures Apply(Holding(1), Append(0, 8)) == Holding(2)
    ensures Apply(Holding(2), Append(0, 9)) == Holding(3)
    ensures Apply(Holding(3), Return(0)) == World(HeadEvicted(), [], [])
  {
    hide Apply, Appended, AllocatePrompt, Built, Free, HeadEvicted;
    NothingAllocated(Appended(0));
    AllocateStep(Appended(0), []);
    AppendStep(0, Table(0), 7);
    assert [] + [1] == [1] && [] + [[7]] == [[7]];
    AppendStep(1, Table(1), 8);
    assert [1] + [0] == [1, 0] && [[7]] + [[8]] == [[7], [8]];
    AppendStep(2, Table(2), 9);
    assert [1, 0] + [4] == [1, 0, 4] && [[7], [8]] + [[9]] == [[7], [8], [9]];
    ReturnStep(Appended(3), Table(3));
    TokensReturned();
  }

  lemma RunCons(w: World, call: Call, rest: seq<Call>)
    ensures Run(w, [call] + rest) == Run(Apply(w, call), rest)
  {
    assert ([call] + rest)[1..] == rest;
  }

  /** Seven calls on a fresh cache of five one-token blocks: a prompt is built and
      returned, then three tokens are appended to an empty table and returned too. */
  lemma Reaches()
    ensures Run(World(InitPool(5, 1, true, 0.01), [], []),
                [Allocate([0, 1, 2]), Return(0), Allocate([]), Append(0, 7), Append(0, 8), Append(0, 9), Return(0)])
         == World(HeadEvicted(), [], [])
  {
    PromptPhase();
    TokenPhase();
    hide Apply, Run, Holding, HeadEvicted, Appended;
    var tokens := [Append(0, 7), Append(0, 8), Append(0, 9), Return(0)];
    TokensRun(Holding(0));
    RunCons(World(Appended(0), [], []), Allocate([]), tokens);
    RunCons(Apply(World(Empty(), [], []), Allocate([0, 1, 2])), Return(0), [Allocate([])] + tokens);
    RunCons(World(Empty(), [], []), Allocate([0, 1, 2]), [Return(0)] + ([Allocate([])] + tokens));
    assert [Allocate([0, 1, 2])] + ([Return(0)] + ([Allocate([])] + tokens))
        == [Allocate([0, 1, 2]), Return(0), Allocate([]), Append(0, 7), Append(0, 8), Append(0, 9), Return(0)];
  }

  lemma TokensRun(w: World)
    ensures Run(w, [Append(0, 7), Append(0, 8), Append(0, 9), Return(0)])
         == Apply(Apply(Apply(Apply(w, Append(0, 7)), Append(0, 8)), Append(0, 9)), Return(0))
  {
    hide Apply;
    var tail := [Append(0, 8), Append(0, 9), Return(0)];
    RunCons(w, Append(0, 7), tail);
    assert [Append(0, 7)] + tail == [Append(0, 7), Append(0, 8), Append(0, 9), Return(0)];
    assert tail[1..] == [Append(0, 9), Return(0)] && tail[1..][1..] == [Return(0)] && tail[1..][1..][1..] == [];
  }

  /** In that state the guard says yes to a prompt, and the allocation raises. */
  lemma GuardCanFail()
    ensures
      var p := Run(World(InitPool(5, 1, true, 0.01), [], []),
                   [Allocate([0, 1, 2]), Return(0),
                    Allocate([]), Append(0, 7), Append(0, 8), Append(0, 9), Return(0)]).pool;
      && Inv(p, multiset{}) && p.CanAllocate(BlocksFor(4, p.blockSize))
      && !AllocatePrompt(p, [0, 1, 2, 3]).ok && !NothingIdleLater(p, [0, 1, 2, 3])
  {
    Reaches();
    HeadStock();
    HeadCached();
    NothingForTheFourth();
    HeadEvictedInv();
    AllocationExact(HeadEvicted(), multiset{}, [0, 1, 2, 3]);
    HeadIs();
    hide HeadEvicted, AllocatePrompt, Draw, Run, Inv, NothingIdleLater;
    assert BlocksFor(4, 1) == 4;
    if NothingIdleLater(HeadEvicted(), [0, 1, 2, 3]) {
      GuardSuffices(HeadEvicted(), multiset{}, [0, 1, 2, 3]);
      assert false;
    }
  }

  lemma HeadIs()
    ensures HeadEvicted().blockSize == 1 && HeadEvicted().caching
  {
  }
}
