/** Which blocks a whole prompt allocation strands, exactly, and a run that strands
    one for good. */
module PagedStranding {
  import opened Lists
  import opened PagedSpec
  import opened PagedInvariant
  import opened PagedSharing
  import opened PagedClasses
  import opened PagedExact
  import opened PagedRuns
  import opened PagedWitness

  // ---- exactly the blocks a prompt strands

  /** The idle entries that are left when the next block has been taken. */
  function LeftIdle(s: Stock): seq<Digest> {
    if s.free > 0 || s.idle == [] then s.idle else s.idle[1..]
  }

  /** The idle entries a prompt overwrites from block i on: those of its own later
      blocks, once one block has missed, that have not been evicted by then. */
  function Overwrites(s: Stock, cached: set<Digest>, chunks: seq<seq<Token>>, i: nat, matching: bool): set<Digest>
    requires i <= |chunks|
    decreases |chunks| - i
  {
    if i == |chunks| then {}
    else
      var h := Chain(chunks, i);
      if matching && h in cached then Overwrites(s.(idle := Remove(s.idle, h)), cached, chunks, i + 1, true)
      else match TakeOne(s, Some(h))
        case None => {}
        case Some(s1) => (if h in LeftIdle(s) then {h} else {}) + Overwrites(s1, cached, chunks, i + 1, false)
  }

  /** One of the entries leads to block b. */
  ghost predicate Leads(p: Pool, entries: set<Digest>, b: nat) {
    exists h :: h in entries && h in p.cache && p.cache[h] == b
  }

  lemma {:induction false} RemoveWithin<T>(s: seq<T>, x: T)
    ensures forall y :: y in Remove(s, x) ==> y in s
  {
    if s != [] && s[0] != x {
      RemoveWithin(s[1..], x);
    }
  }

  lemma TakenIdle(s: Stock, h: Digest)
    requires TakeOne(s, Some(h)).Some?
    ensures forall x :: x in TakeOne(s, Some(h)).value.idle ==> x in s.idle
    ensures forall x :: x in LeftIdle(s) ==> x in s.idle
  {
    RemoveWithin(LeftIdle(s), h);
  }

  lemma {:induction false} OverwritesIdle(s: Stock, cached: set<Digest>, chunks: seq<seq<Token>>, i: nat,
                                          matching: bool)
    requires i <= |chunks|
    ensures forall h :: h in Overwrites(s, cached, chunks, i, matching) ==> h in s.idle
    decreases |chunks| - i
  {
    hide TakeOne, LeftIdle, Remove;
    if i < |chunks| {
      var h := Chain(chunks, i);
      if matching && h in cached {
        RemoveWithin(s.idle, h);
        OverwritesIdle(s.(idle := Remove(s.idle, h)), cached, chunks, i + 1, true);
      } else if TakeOne(s, Some(h)).Some? {
        TakenIdle(s, h);
        OverwritesIdle(TakeOne(s, Some(h)).value, cached, chunks, i + 1, false);
      }
    }
  }

  /** After a miss it no longer matters what is cached. */
  lemma {:induction false} OverwritesAnyway(s: Stock, a: set<Digest>, b: set<Digest>, chunks: seq<seq<Token>>, i: nat)
    requires i <= |chunks|
    ensures Overwrites(s, a, chunks, i, false) == Overwrites(s, b, chunks, i, false)
    decreases |chunks| - i
  {
    hide TakeOne;
    if i < |chunks| && TakeOne(s, Some(Chain(chunks, i))).Some? {
      OverwritesAnyway(TakeOne(s, Some(Chain(chunks, i))).value, a, b, chunks, i + 1);
    }
  }

  lemma FirstIdleIs(p: Pool)
    ensures var i := FirstIdle(p, 0); StockOf(p).idle == [] <==> i == |p.lru|
    ensures var i := FirstIdle(p, 0); i < |p.lru| ==> StockOf(p).idle[0] == p.lru[i]
  {
    IdleSplit(p, FirstIdle(p, 0));
  }

  lemma {:induction false} IdleNoDup(p: Pool, lru: seq<Digest>)
    requires NoDup(lru)
    ensures NoDup(IdleIn(p, lru))
  {
    if lru != [] {
      assert forall x :: x in lru[1..] ==> x != lru[0];
      IdleNoDup(p, lru[1..]);
      IdleMember(p, lru[1..], lru[0]);
    }
  }

  /** A miss overtakes the block of the entry it overwrites. */
  lemma OvertakenIs(p: Pool, refs: multiset<nat>, h: Digest, b: nat)
    requires Inv(p, refs)
    ensures Overtaken(p, Some(h), b) <==> h in LeftIdle(StockOf(p)) && Leads(p, {h}, b)
  {
    InLru(p, refs, h);
    FirstIdleIs(p);
    IdleMember(p, p.lru, h);
    IdleNoDup(p, p.lru);
    hide Inv, FirstIdle, IdleIn;
    var idle := StockOf(p).idle;
    if idle != [] {
      assert idle == [idle[0]] + idle[1..];
    }
  }

  lemma InLru(p: Pool, refs: multiset<nat>, h: Digest)
    requires Inv(p, refs)
    ensures NoDup(p.lru) && (h in p.lru <==> h in p.cache) && (p.Idle(h) ==> p.caching)
  {
  }

  /** An entry that is idle after a block was taken was there before. */
  lemma IdleStays(p: Pool, refs: multiset<nat>, hash: Option<Digest>, nTokens: nat)
    requires Inv(p, refs)
    ensures
      var q := AddBlock(p, hash, nTokens).pool;
      forall x :: q.Idle(x) ==> x in p.cache && q.cache[x] == p.cache[x]
  {
    if p.freeIds == [] {
      AddAfterEvict(p, hash, nTokens);
      if EvictOne(p).Some? {
        EvictInv(p, refs);
        EvictStrands(p, refs);
        hide Inv, EvictOne, AddBlock;
        IdleStaysTaken(EvictOne(p).value, refs, hash, nTokens);
      }
    } else {
      hide Inv, AddBlock;
      IdleStaysTaken(p, refs, hash, nTokens);
    }
  }

  lemma IdleStaysTaken(p: Pool, refs: multiset<nat>, hash: Option<Digest>, nTokens: nat)
    requires Inv(p, refs) && p.freeIds != []
    ensures
      var q := AddBlock(p, hash, nTokens).pool;
      forall x :: q.Idle(x) ==> x in p.cache && q.cache[x] == p.cache[x]
  {
  }

  /** An idle entry of the later pool leads where it led before. */
  ghost predicate LeadsOn(p: Pool, q: Pool) {
    forall x :: q.Idle(x) ==> x in p.cache && q.cache[x] == p.cache[x]
  }

  lemma LeadsSame(p: Pool, q: Pool, entries: set<Digest>)
    requires LeadsOn(p, q) && forall x :: x in entries ==> x in StockOf(q).idle
    ensures forall b: nat :: Leads(p, entries, b) <==> Leads(q, entries, b)
  {
    forall x | x in entries ensures q.Idle(x) {
      IdleMember(q, q.lru, x);
    }
  }

  lemma LeadsEither(p: Pool, a: set<Digest>, b: set<Digest>)
    ensures forall x: nat :: Leads(p, a + b, x) <==> Leads(p, a, x) || Leads(p, b, x)
    ensures forall x: nat :: !Leads(p, {}, x)
  {
    forall x: nat | Leads(p, a, x) || Leads(p, b, x) ensures Leads(p, a + b, x) {
      var h :| (h in a || h in b) && h in p.cache && p.cache[h] == x;
      assert h in a + b;
    }
  }

  /** A block of a prompt strands at most the block of the entry it overwrites. */
  lemma PlaceStrands(p: Pool, refs: multiset<nat>, h: Digest, matching: bool)
    requires Inv(p, refs)
    ensures
      var r := PlaceFull(p, h, matching);
      && LeadsOn(p, r.pool)
      && forall b: nat ::
           IsStranded(r.pool, b)
           <==> IsStranded(p, b) || (r.bid.Some? && !r.hit && h in LeftIdle(StockOf(p)) && Leads(p, {h}, b))
  {
    if matching && h in p.cache {
      HitStrands(p, refs, h);
      HitLeads(p, h);
    } else {
      var p0 := CountMiss(p);
      CountedStock(p, refs);
      AddBlockStrands(p0, refs, Some(h), p.blockSize);
      IdleStays(p0, refs, Some(h), p.blockSize);
      forall b: nat ensures Overtaken(p0, Some(h), b) <==> h in LeftIdle(StockOf(p)) && Leads(p, {h}, b) {
        OvertakenIs(p0, refs, h, b);
      }
      hide Inv, AddBlock, StockOf;
    }
  }

  lemma HitLeads(p: Pool, h: Digest)
    requires h in p.cache
    ensures LeadsOn(p, HitBlock(p, h))
  {
  }

  lemma {:induction false} FullStrands(
    p: Pool, refs: multiset<nat>, chunks: seq<seq<Token>>, i: nat, prev: Option<Digest>, matching: bool,
    table: seq<nat>, cached: nat)
    requires Inv(p, refs) && i <= |chunks|
    requires prev == if i == 0 then None else Some(Chain(chunks, i - 1))
    ensures forall b: nat ::
      IsStranded(AllocateFull(p, chunks, i, prev, matching, table, cached).pool, b)
      <==> IsStranded(p, b) || Leads(p, Overwrites(StockOf(p), p.cache.Keys, chunks, i, matching), b)
    decreases |chunks| - i
  {
    hide Inv, StockOf, TakeOne, PlaceFull, IsStranded, Leads, LeadsOn, LeftIdle;
    LeadsEither(p, {}, {});
    if i < |chunks| {
      var h := Chain(chunks, i);
      assert h == HashBlock(prev, chunks[i]);
      var r := PlaceFull(p, h, matching);
      PlaceFullInv(p, h, matching, refs);
      PlaceStrands(p, refs, h, matching);
      PlaceStock(p, refs, chunks, i, matching);
      if r.bid.Some? {
        FullStrands(r.pool, refs + multiset{r.bid.value}, chunks, i + 1, Some(h), r.hit,
                    table + [r.bid.value], if r.hit then cached + p.blockSize else cached);
        var later := Overwrites(StockOf(r.pool), r.pool.cache.Keys, chunks, i + 1, r.hit);
        OverwritesIdle(StockOf(r.pool), r.pool.cache.Keys, chunks, i + 1, r.hit);
        LeadsSame(p, r.pool, later);
        LeadsEither(p, {h}, later);
        LeadsEither(p, {}, later);
      }
    }
  }

  /** What is overwritten from block i on is what block i overwrites and what is
      overwritten after it. */
  lemma PlaceStock(p: Pool, refs: multiset<nat>, chunks: seq<seq<Token>>, i: nat, matching: bool)
    requires Inv(p, refs) && i < |chunks|
    ensures
      var h := Chain(chunks, i);
      var r := PlaceFull(p, h, matching);
      Overwrites(StockOf(p), p.cache.Keys, chunks, i, matching)
      == if r.bid.None? then {}
         else (if !r.hit && h in LeftIdle(StockOf(p)) then {h} else {})
              + Overwrites(StockOf(r.pool), r.pool.cache.Keys, chunks, i + 1, r.hit)
  {
    hide Inv, StockOf, TakeOne, AddBlock, HitBlock, LeftIdle;
    var h := Chain(chunks, i);
    if matching && h in p.cache {
      HitStock(p, refs, h);
      StockIs(p);
    } else {
      CountedStock(p, refs);
      var t := AddBlock(CountMiss(p), Some(h), p.blockSize);
      AddStock(CountMiss(p), refs, Some(h), p.blockSize);
      if t.bid.Some? {
        OverwritesAnyway(StockOf(t.pool), p.cache.Keys, t.pool.cache.Keys, chunks, i + 1);
      }
    }
  }

  /** A prompt allocation, failing ones included, strands exactly the idle blocks whose
      entries it overwrites: a block's content came back after an earlier block of the
      prompt had missed, and before the old copy was evicted. */
  lemma AllocationStrandsExactly(p: Pool, refs: multiset<nat>, tokens: seq<Token>)
    requires Inv(p, refs)
    ensures forall b: nat ::
      IsStranded(AllocatePrompt(p, tokens).pool, b)
      <==> IsStranded(p, b)
           || Leads(p, Overwrites(StockOf(p), p.cache.Keys, Chunks(tokens, p.blockSize), 0, p.caching), b)
  {
    hide Inv, StockOf, AddBlock, AllocateFull, IsStranded, Leads, Overwrites;
    var chunks := Chunks(tokens, p.blockSize);
    var full := AllocateFull(p, chunks, 0, None, p.caching, [], 0);
    FullStrands(p, refs, chunks, 0, None, p.caching, [], 0);
    AllocateFullInv(p, chunks, 0, None, p.caching, [], 0, refs) by {
      assert refs + multiset([]) == refs;
    }
    AddBlockStrands(full.pool, refs + multiset(full.table), None, |tokens| % p.blockSize);
  }

  // ---- a run that strands a block

  /** The prompt 0, 1 with block 0 evicted overwrites the idle entry of block 1. */
  lemma HeadOverwrites()
    ensures Overwrites(Stock(3, [D(1), D(2)]), {D(1), D(2)}, Chunks([0, 1], 1), 0, true) == {D(1)}
    ensures Draw(Stock(3, [D(1), D(2)]), {D(1), D(2)}, [0, 1], 1, true).Some?
  {
    DigestsDiffer();
    OneChunk(1, []);
    OneChunk(0, [1]);
    assert [0] + [1] == [0, 1] && [1] + [] == [1] && Chunks([], 1) == [];
    var chunks, cached := [[0], [1]], {D(1), D(2)};
    assert Chunks([0, 1], 1) == chunks;
    assert Chain(chunks, 0) == D(0) && Chain(chunks, 1) == D(1);
    hide Chain, D;
    assert TakeOne(Stock(3, [D(1), D(2)]), Some(D(0))) == Some(Stock(2, [D(1), D(2)]));
    assert TakeOne(Stock(2, [D(1), D(2)]), Some(D(1))).Some?;
    var s2 := TakeOne(Stock(2, [D(1), D(2)]), Some(D(1))).value;
    assert Overwrites(s2, cached, chunks, 2, false) == {} && DrawFull(s2, cached, chunks, 2, false) == Some(s2);
    assert DrawFull(Stock(2, [D(1), D(2)]), cached, chunks, 1, false) == Some(s2);
    assert Overwrites(Stock(2, [D(1), D(2)]), cached, chunks, 1, false) == {D(1)};
  }

  lemma HeadStrands()
    ensures var r := AllocatePrompt(HeadEvicted(), [0, 1]); r.ok && IsStranded(r.pool, 3)
  {
    HeadEvictedInv();
    HeadStock();
    HeadCached();
    HeadIs();
    HeadOverwrites();
    AllocationExact(HeadEvicted(), multiset{}, [0, 1]);
    AllocationStrandsExactly(HeadEvicted(), multiset{}, [0, 1]);
    assert D(1) in HeadEvicted().cache && HeadEvicted().cache[D(1)] == 3;
    assert Leads(HeadEvicted(), {D(1)}, 3);
    hide AllocatePrompt, Leads, Overwrites, StockOf, D, Inv;
  }

  lemma HeadIdle()
    ensures IsEvictable(HeadEvicted(), 3)
  {
    assert D(1) in HeadEvicted().cache && HeadEvicted().cache[D(1)] == 3;
    hide D;
  }

  lemma {:induction false} RunOn(w: World, a: seq<Call>, b: seq<Call>)
    ensures Run(w, a + b) == Run(Run(w, a), b)
    decreases |a|
  {
    hide Apply;
    if a == [] {
      assert [] + b == b;
    } else {
      assert (a + b)[1..] == a[1..] + b;
      RunOn(Apply(w, a[0]), a[1..], b);
    }
  }

  lemma AllocatedPool(p: Pool, tokens: seq<Token>)
    requires AllocatePrompt(p, tokens).ok
    ensures Run(World(p, [], []), [Allocate(tokens)]).pool == AllocatePrompt(p, tokens).pool
  {
    hide AllocatePrompt, Apply;
    AllocateStep(p, tokens);
    RunCons(World(p, [], []), Allocate(tokens), []);
    assert [Allocate(tokens)] + [] == [Allocate(tokens)];
  }

  /** From a fresh pool of five blocks of one token, eight calls strand block 3, which
      was idle in the cache before the last of them; and whatever is called next, it
      stays stranded. */
  lemma RunStrands(more: seq<Call>)
    ensures
      var start := World(InitPool(5, 1, true, 0.01), [], []);
      var calls := [Allocate([0, 1, 2]), Return(0),
                    Allocate([]), Append(0, 7), Append(0, 8), Append(0, 9), Return(0)];
      && IsEvictable(Run(start, calls).pool, 3)
      && IsStranded(Run(start, calls + [Allocate([0, 1])]).pool, 3)
      && IsStranded(Run(start, calls + [Allocate([0, 1])] + more).pool, 3)
  {
    var start := World(InitPool(5, 1, true, 0.01), [], []);
    var calls := [Allocate([0, 1, 2]), Return(0),
                  Allocate([]), Append(0, 7), Append(0, 8), Append(0, 9), Return(0)];
    hide Run, HeadEvicted, AllocatePrompt, WorldOk, IsStranded, IsEvictable, InitPool;
    Reaches();
    HeadStrands();
    HeadIdle();
    RunOn(start, calls, [Allocate([0, 1])]);
    AllocatedPool(HeadEvicted(), [0, 1]);
    RunOn(start, calls + [Allocate([0, 1])], more);
    EveryRunIsSound(5, 1, true, 0.01, calls + [Allocate([0, 1])]);
    StrandedOn(Run(start, calls + [Allocate([0, 1])]), more, 3);
  }

  lemma StrandedOn(w: World, more: seq<Call>, b: nat)
    requires WorldOk(w) && IsStranded(w.pool, b)
    ensures IsStranded(Run(w, more).pool, b)
  {
    hide Run, WorldOk, IsStranded;
    NeverRecovered(w, more);
  }
}
