/** What every run of the pool keeps: the blocks, the free list, the cache and the
    references held by callers always agree. `refs` counts, per block, the
    occurrences in all tables handed out and not yet returned. */
module PagedInvariant {
  import opened Lists
  import opened PagedSpec

  ghost predicate FreeListOk(p: Pool) {
    && NoDup(p.freeIds)
    && (forall b :: b in p.freeIds ==>
          b < |p.blocks| && p.blocks[b].refCount == 0 && p.blocks[b].contentHash == None)
  }

  /** The recency list enumerates the cache, and each entry leads to a block
      that carries the entry's hash; so no block has two entries. */
  ghost predicate CacheOk(p: Pool) {
    && NoDup(p.lru)
    && (forall h :: h in p.lru <==> h in p.cache)
    && (forall h :: h in p.cache ==>
          p.cache[h] < |p.blocks| && p.blocks[p.cache[h]].contentHash == Some(h))
    && (!p.caching ==> p.cache == map[])
  }

  ghost predicate BlocksOk(p: Pool) {
    forall b | 0 <= b < |p.blocks| ::
      p.blocks[b].refCount == 0 && (p.blocks[b].contentHash.None? || !p.caching) ==> b in p.freeIds
  }

  ghost predicate RefsOk(p: Pool, refs: multiset<nat>) {
    && (forall b :: b in refs ==> b < |p.blocks|)
    && (forall b :: 0 <= b < |p.blocks| ==> p.blocks[b].refCount == refs[b])
  }

  ghost predicate StatsOk(p: Pool) {
    |p.freeIds| + p.stats.taken == |p.blocks| + p.stats.freed + p.stats.evictions
  }

  ghost predicate Inv(p: Pool, refs: multiset<nat>) {
    FreeListOk(p) && CacheOk(p) && BlocksOk(p) && RefsOk(p, refs) && StatsOk(p)
  }

  lemma InitInv(numBlocks: nat, blockSize: pos, caching: bool, watermarkFraction: real)
    ensures Inv(InitPool(numBlocks, blockSize, caching, watermarkFraction), multiset{})
  {
    var p := InitPool(numBlocks, blockSize, caching, watermarkFraction);
    forall b | 0 <= b < numBlocks ensures b in p.freeIds {
      assert p.freeIds[b] == b;
    }
  }

  lemma RefCountIs(p: Pool, refs: multiset<nat>, b: nat)
    requires Inv(p, refs) && b in refs
    ensures b < |p.blocks| && p.blocks[b].refCount == refs[b]
  {
  }

  lemma FreeInRange(p: Pool, refs: multiset<nat>)
    requires Inv(p, refs)
    ensures p.freeIds != [] ==> p.freeIds[|p.freeIds| - 1] < |p.blocks|
  {
    assert p.freeIds != [] ==> p.freeIds[|p.freeIds| - 1] in p.freeIds;
  }

  lemma CachedInRange(p: Pool, refs: multiset<nat>, h: Digest)
    requires Inv(p, refs)
    ensures h in p.lru <==> h in p.cache
    ensures h in p.cache ==> p.cache[h] < |p.blocks| && p.cache[h] !in p.freeIds
  {
  }

  /** Same pool for every block but `b`. */
  ghost predicate SameElsewhere(p: Pool, q: Pool, b: nat) {
    && |p.blocks| == |q.blocks|
    && forall x :: 0 <= x < |p.blocks| && x != b ==> p.blocks[x] == q.blocks[x]
  }

  ghost predicate SameConfig(p: Pool, q: Pool) {
    p.blockSize == q.blockSize && p.caching == q.caching && p.watermark == q.watermark
    && |p.blocks| == |q.blocks|
  }

  /** Evicting turns one unreferenced cached block into a free one. */
  lemma EvictInv(p: Pool, refs: multiset<nat>)
    requires Inv(p, refs)
    ensures EvictOne(p).Some? ==> var q := EvictOne(p).value;
      && Inv(q, refs) && SameConfig(p, q) && |q.freeIds| == |p.freeIds| + 1
      && var b := q.freeIds[|q.freeIds| - 1];
      && SameElsewhere(p, q, b) && refs[b] == 0
      && p.freeIds == q.freeIds[..|q.freeIds| - 1]
      && exists h :: h in p.cache && p.cache[h] == b && q.cache == p.cache - {h}
  {
    var i := FirstIdle(p, 0);
    if i < |p.lru| {
      var h := p.lru[i];
      var q := EvictOne(p).value;
      RemoveAtNoDup(p.lru, i);
      SnocNoDup(p.freeIds, p.cache[h]);
      assert q.freeIds[|q.freeIds| - 1] == p.cache[h];
    }
  }

  /** Taking and filling in a block: the new holder gets a block that no table
      held, and nothing else about the pool's tables changes. */
  lemma AddBlockInv(p: Pool, refs: multiset<nat>, hash: Option<Digest>, nTokens: nat)
    requires Inv(p, refs)
    ensures var t := AddBlock(p, hash, nTokens);
      && SameConfig(p, t.pool)
      && match t.bid
         case None => Inv(t.pool, refs) && t.pool == p.(stats := t.pool.stats)
         case Some(b) =>
           && Inv(t.pool, refs + multiset{b})
           && b < |p.blocks| && refs[b] == 0
           && t.pool.blocks[b] == Block(1, hash, nTokens)
           && SameElsewhere(p, t.pool, b)
  {
    if p.freeIds == [] {
      EvictInv(p, refs);
      AddAfterEvict(p, hash, nTokens);
      if EvictOne(p).Some? {
        hide AddBlock, EvictOne;
        TakeInv(EvictOne(p).value, refs, hash, nTokens);
      }
    } else {
      hide AddBlock;
      TakeInv(p, refs, hash, nTokens);
    }
  }

  lemma AddAfterEvict(p: Pool, hash: Option<Digest>, nTokens: nat)
    requires p.freeIds == []
    ensures match EvictOne(p)
      case None => AddBlock(p, hash, nTokens).bid.None?
      case Some(q) => q.freeIds != [] && AddBlock(p, hash, nTokens) == AddBlock(q, hash, nTokens)
  {
  }


  lemma TakeInv(q: Pool, refs: multiset<nat>, hash: Option<Digest>, nTokens: nat)
    requires Inv(q, refs)
    requires q.freeIds != []
    ensures var t := AddBlock(q, hash, nTokens);
      && t.bid == Some(q.freeIds[|q.freeIds| - 1])
      && var b := t.bid.value;
      && Inv(t.pool, refs + multiset{b})
      && b < |q.blocks| && refs[b] == 0
      && t.pool.blocks[b] == Block(1, hash, nTokens)
      && SameElsewhere(q, t.pool, b)
      && SameConfig(q, t.pool)
  {
    var b := q.freeIds[|q.freeIds| - 1];
    assert b in q.freeIds;
    TakeFree(q, hash, nTokens);
    TakeCache(q, hash, nTokens);
  }

  lemma TakeFree(q: Pool, hash: Option<Digest>, nTokens: nat)
    requires FreeListOk(q) && BlocksOk(q)
    requires q.freeIds != []
    ensures FreeListOk(AddBlock(q, hash, nTokens).pool) && BlocksOk(AddBlock(q, hash, nTokens).pool)
  {
    var b := q.freeIds[|q.freeIds| - 1];
    var f := q.freeIds[..|q.freeIds| - 1];
    assert q.freeIds == f + [b];
    assert b in q.freeIds && b !in f;
    assert forall x :: x in q.freeIds <==> x in f || x == b;
  }

  lemma TakeCache(q: Pool, hash: Option<Digest>, nTokens: nat)
    requires FreeListOk(q) && CacheOk(q)
    requires q.freeIds != []
    ensures CacheOk(AddBlock(q, hash, nTokens).pool)
  {
    var b := q.freeIds[|q.freeIds| - 1];
    assert b in q.freeIds;
    assert forall h :: h in q.cache ==> q.cache[h] != b;
    if hash.Some? && hash.value !in q.cache {
      SnocNoDup(q.lru, hash.value);
    }
  }

  lemma HitInv(p: Pool, refs: multiset<nat>, h: Digest)
    requires Inv(p, refs)
    requires h in p.cache
    ensures var q := HitBlock(p, h);
      && Inv(q, refs + multiset{p.cache[h]})
      && q == p.(blocks := q.blocks, lru := q.lru, stats := q.stats)
      && SameElsewhere(p, q, p.cache[h])
      && q.blocks[p.cache[h]] == p.blocks[p.cache[h]].(refCount := refs[p.cache[h]] + 1)
  {
    HitFree(p, h);
    HitCache(p, h);
  }

  lemma HitFree(p: Pool, h: Digest)
    requires FreeListOk(p) && CacheOk(p) && BlocksOk(p)
    requires h in p.cache
    ensures HitBlock(p, h).freeIds == p.freeIds
    ensures FreeListOk(HitBlock(p, h)) && BlocksOk(HitBlock(p, h))
  {
    assert p.cache[h] !in p.freeIds;
  }

  lemma HitCache(p: Pool, h: Digest)
    requires CacheOk(p)
    requires h in p.cache
    ensures CacheOk(HitBlock(p, h))
  {
    RemoveNoDup(p.lru, h);
    SnocNoDup(Remove(p.lru, h), h);
  }

  /** Returning one reference. Only the last holder gives the block back, and a
      block whose content is cached stays resident. */
  lemma ReleaseInv(p: Pool, refs: multiset<nat>, b: nat)
    requires Inv(p, refs)
    requires b in refs
    ensures var q := Release(p, b);
      && Inv(q, refs - multiset{b})
      && SameElsewhere(p, q, b)
      && SameConfig(p, q)
      && q.cache == p.cache
      && q.blocks[b].nTokens == p.blocks[b].nTokens
      && (refs[b] > 1 ==> q.blocks[b] == p.blocks[b].(refCount := refs[b] - 1))
  {
    ReleaseCache(p, b);
    ReleaseFree(p, b);
  }

  lemma ReleaseCache(p: Pool, b: nat)
    requires CacheOk(p) && b < |p.blocks|
    ensures CacheOk(Release(p, b)) && Release(p, b).cache == p.cache
  {
    var q := Release(p, b);
    if !p.caching && p.blocks[b].contentHash.Some? {
      var h := p.blocks[b].contentHash.value;
      assert h !in p.lru;
      assert p.cache - {h} == p.cache;
      assert q.cache == p.cache && q.lru == p.lru;
    }
  }

  lemma ReleaseFree(p: Pool, b: nat)
    requires FreeListOk(p) && BlocksOk(p) && b < |p.blocks| && p.blocks[b].refCount > 0
    ensures FreeListOk(Release(p, b)) && BlocksOk(Release(p, b))
  {
    SnocNoDup(p.freeIds, b);
  }

  lemma FreeInv(p: Pool, refs: multiset<nat>, table: seq<nat>)
    requires Inv(p, refs)
    requires multiset(table) <= refs
    ensures Inv(Free(p, table), refs - multiset(table))
    ensures SameConfig(p, Free(p, table))
    decreases |table|
  {
    if table != [] {
      assert table == [table[0]] + table[1..];
      assert multiset(table) == multiset{table[0]} + multiset(table[1..]);
      assert table[0] in refs by { assert multiset(table)[table[0]] >= 1; }
      ReleaseInv(p, refs, table[0]);
      FreeInv(Release(p, table[0]), refs - multiset{table[0]}, table[1..]);
      assert refs - multiset{table[0]} - multiset(table[1..]) == refs - multiset(table);
    }
  }

  lemma PlaceFullInv(p: Pool, h: Digest, matching: bool, refs: multiset<nat>)
    requires Inv(p, refs)
    ensures var r := PlaceFull(p, h, matching);
      && SameConfig(p, r.pool)
      && match r.bid
         case None => Inv(r.pool, refs)
         case Some(b) => Inv(r.pool, refs + multiset{b})
  {
    if matching && h in p.cache {
      HitInv(p, refs, h);
    } else {
      CountMissInv(p, refs);
      AddBlockInv(CountMiss(p), refs, Some(h), p.blockSize);
    }
  }

  lemma CountMissInv(p: Pool, refs: multiset<nat>)
    requires Inv(p, refs)
    ensures Inv(CountMiss(p), refs)
  {
  }

  lemma MultisetSnoc(refs: multiset<nat>, table: seq<nat>, b: nat)
    ensures refs + multiset(table) + multiset{b} == refs + multiset(table + [b])
  {
  }

  lemma {:induction false} AllocateFullInv(
    p: Pool, chunks: seq<seq<Token>>, i: nat, prev: Option<Digest>, matching: bool,
    table: seq<nat>, cached: nat, refs: multiset<nat>)
    requires i <= |chunks|
    requires Inv(p, refs + multiset(table))
    ensures var r := AllocateFull(p, chunks, i, prev, matching, table, cached);
      Inv(r.pool, refs + multiset(r.table)) && SameConfig(p, r.pool)
    decreases |chunks| - i
  {
    hide Inv, PlaceFull;
    if i < |chunks| {
      var h := HashBlock(prev, chunks[i]);
      var r := PlaceFull(p, h, matching);
      PlaceFullInv(p, h, matching, refs + multiset(table));
      if r.bid.Some? {
        MultisetSnoc(refs, table, r.bid.value);
        AllocateFullInv(r.pool, chunks, i + 1, Some(h), r.hit, table + [r.bid.value],
                        if r.hit then cached + p.blockSize else cached, refs);
      }
    }
  }

  /** A prompt allocation keeps the invariant whether it returns or raises: the
      references it took are exactly the entries of its (possibly dropped) table. */
  lemma AllocatePromptInv(p: Pool, tokens: seq<Token>, refs: multiset<nat>)
    requires Inv(p, refs)
    ensures var r := AllocatePrompt(p, tokens);
      Inv(r.pool, refs + multiset(r.table)) && SameConfig(p, r.pool)
  {
    hide Inv, AddBlock, AllocateFull;
    assert refs + multiset([]) == refs;
    var chunks := Chunks(tokens, p.blockSize);
    AllocateFullInv(p, chunks, 0, None, p.caching, [], 0, refs);
    var full := AllocateFull(p, chunks, 0, None, p.caching, [], 0);
    AddBlockInv(full.pool, refs + multiset(full.table), None, |tokens| % p.blockSize);
    var t := AddBlock(full.pool, None, |tokens| % p.blockSize);
    if t.bid.Some? {
      MultisetSnoc(refs, full.table, t.bid.value);
    }
  }

  /** Appending keeps the invariant, with the caller's table exchanged for the
      grown one; a failing append changes nothing but the failure counter. */
  lemma AppendInv(p: Pool, table: seq<nat>, seqLen: nat, refs: multiset<nat>)
    requires Inv(p, refs)
    requires multiset(table) <= refs
    ensures match AppendToken(p, table, seqLen)
      case IndexError => table == [] && seqLen % p.blockSize != 0
      case OutOfBlocks(q) => Inv(q, refs) && SameConfig(p, q) && q == p.(stats := q.stats)
      case Grown(q, table', added) =>
        && Inv(q, refs - multiset(table) + multiset(table')) && SameConfig(p, q)
        && |table'| == |table| + (if added then 1 else 0)
        && (added <==> seqLen % p.blockSize == 0)
  {
    var offset := seqLen % p.blockSize;
    if offset == 0 {
      AddBlockInv(p, refs, None, 1);
      var t := AddBlock(p, None, 1);
      if t.bid.Some? {
        assert multiset(table + [t.bid.value]) == multiset(table) + multiset{t.bid.value};
        assert refs - multiset(table) + multiset(table + [t.bid.value]) == refs + multiset{t.bid.value};
      }
    } else if table != [] {
      AppendInTailInv(p, table, seqLen, refs);
    }
  }

  lemma AppendInTailInv(p: Pool, table: seq<nat>, seqLen: nat, refs: multiset<nat>)
    requires Inv(p, refs)
    requires multiset(table) <= refs && table != []
    requires seqLen % p.blockSize != 0
    ensures match AppendToken(p, table, seqLen)
      case IndexError => false
      case OutOfBlocks(q) => Inv(q, refs) && SameConfig(p, q) && q == p.(stats := q.stats)
      case Grown(q, table', added) =>
        && Inv(q, refs - multiset(table) + multiset(table')) && SameConfig(p, q)
        && |table'| == |table| && !added
  {
    hide Inv, AddBlock, Release, WriteTail, CountCow;
    var n := seqLen % p.blockSize + 1;
    var last := |table| - 1;
    var b := table[last];
    assert b in refs by { assert multiset(table)[b] >= 1; }
    if p.BlockAt(b).refCount > 1 {
      var t := AddBlock(p, None, p.BlockAt(b).nTokens);
      AddBlockInv(p, refs, None, p.BlockAt(b).nTokens);
      if t.bid.Some? {
        var c := t.bid.value;
        ReleaseInv(t.pool, refs + multiset{c}, b);
        WriteTailInv(Release(t.pool, b), refs + multiset{c} - multiset{b}, c, n);
        ExchangeLast(refs, table, c);
      }
    } else {
      WriteTailInv(p, refs, b, n);
      assert refs - multiset(table) + multiset(table) == refs;
    }
  }

  lemma WriteTailInv(p: Pool, refs: multiset<nat>, b: nat, nTokens: nat)
    requires Inv(p, refs)
    ensures Inv(WriteTail(p, b, nTokens), refs) && SameConfig(p, WriteTail(p, b, nTokens))
    ensures Inv(WriteTail(CountCow(p), b, nTokens), refs) && SameConfig(p, WriteTail(CountCow(p), b, nTokens))
  {
  }

  lemma ExchangeLast(refs: multiset<nat>, table: seq<nat>, c: nat)
    requires multiset(table) <= refs && table != []
    ensures var last := |table| - 1;
      refs + multiset{c} - multiset{table[last]} == refs - multiset(table) + multiset(table[last := c])
  {
    var last := |table| - 1;
    assert table == table[..last] + [table[last]];
    assert table[last := c] == table[..last] + [c];
  }

  /** The idle entries from position i of the recency order on. */
  ghost function CountIdle(p: Pool, i: nat): nat
    requires i <= |p.lru|
    decreases |p.lru| - i
  {
    if i == |p.lru| then 0 else (if p.Idle(p.lru[i]) then 1 else 0) + CountIdle(p, i + 1)
  }

  lemma {:induction false} CountIdleIs(p: Pool, i: nat, entries: set<Digest>)
    requires i <= |p.lru| && NoDup(p.lru)
    requires forall h :: h in entries <==> h in p.lru[i..] && p.Idle(h)
    ensures CountIdle(p, i) == |entries|
    decreases |p.lru| - i
  {
    if i == |p.lru| {
      assert entries == {};
    } else {
      var h := p.lru[i];
      assert p.lru[i..] == [h] + p.lru[i + 1..];
      assert h !in p.lru[i + 1..];
      CountIdleIs(p, i + 1, entries - {h});
    }
  }

  lemma CountIdleAll(p: Pool)
    requires CacheOk(p)
    ensures CountIdle(p, 0) == p.NumEvictable()
  {
    assert p.lru[0..] == p.lru;
    CountIdleIs(p, 0, set h | h in p.cache && p.Idle(h));
  }
}
