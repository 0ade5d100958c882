/** What the counters of the pool say, and which block is taken next. */
module PagedCounts {
  import opened Lists
  import opened PagedSpec
  import opened PagedInvariant
  import opened PagedSharing
  import opened PagedHits

  // ---- the free list is a stack

  /** A block is taken from the end of the free list, where the last one given back
      stands; only when it is empty is one evicted, and that one is taken. */
  lemma TakesLast(p: Pool, refs: multiset<nat>, hash: Option<Digest>, nTokens: nat)
    requires Inv(p, refs)
    ensures
      var t, n := AddBlock(p, hash, nTokens), |p.freeIds|;
      if n > 0 then
        t.bid == Some(p.freeIds[n - 1]) && t.pool.freeIds == p.freeIds[..n - 1]
        && t.pool.stats == p.stats.(taken := p.stats.taken + 1)
      else if EvictOne(p).Some? then
        t.bid.Some? && t.bid.value in p.cache.Values && t.pool.freeIds == []
        && t.pool.stats == p.stats.(taken := p.stats.taken + 1, evictions := p.stats.evictions + 1)
      else t == Taken(p.(stats := p.stats.(oomEvents := p.stats.oomEvents + 1)), None)
  {
    hide Inv, AddBlock, EvictOne;
    if p.freeIds != [] {
      TakesFree(p, hash, nTokens);
    } else if EvictOne(p).None? {
      TakesNone(p, hash, nTokens);
    } else {
      var q := EvictOne(p).value;
      EvictInv(p, refs);
      EvictStats(p);
      AddAfterEvict(p, hash, nTokens);
      TakesFree(q, hash, nTokens);
      var b := q.freeIds[|q.freeIds| - 1];
      var h :| h in p.cache && p.cache[h] == b;
      assert b in p.cache.Values;
    }
  }

  lemma TakesFree(p: Pool, hash: Option<Digest>, nTokens: nat)
    requires p.freeIds != []
    ensures
      var t, n := AddBlock(p, hash, nTokens), |p.freeIds|;
      && t.bid == Some(p.freeIds[n - 1]) && t.pool.freeIds == p.freeIds[..n - 1]
      && t.pool.stats == p.stats.(taken := p.stats.taken + 1)
  {
  }

  lemma TakesNone(p: Pool, hash: Option<Digest>, nTokens: nat)
    requires p.freeIds == [] && EvictOne(p).None?
    ensures AddBlock(p, hash, nTokens) == Taken(p.(stats := p.stats.(oomEvents := p.stats.oomEvents + 1)), None)
  {
  }

  lemma EvictStats(p: Pool)
    requires EvictOne(p).Some?
    ensures EvictOne(p).value.stats == p.stats.(evictions := p.stats.evictions + 1)
  {
  }

  /** The last reference to a block that is not kept for its content puts it at the end
      of the free list; any other leaves the list as it is. */
  lemma ReleasesLast(p: Pool, refs: multiset<nat>, b: nat)
    requires Inv(p, refs) && b in refs
    ensures
      var q, back := Release(p, b), refs[b] == 1 && !(p.caching && p.blocks[b].contentHash.Some?);
      && q.freeIds == (if back then p.freeIds + [b] else p.freeIds)
      && q.stats == p.stats.(freed := p.stats.freed + if back then 1 else 0)
  {
  }

  // ---- a prompt's allocation, counted

  lemma PlacedCounts(p: Pool, refs: multiset<nat>, h: Digest, matching: bool)
    requires Inv(p, refs)
    ensures
      var r := PlaceFull(p, h, matching);
      && (r.hit <==> matching && h in p.cache) && (r.hit ==> r.bid.Some?)
      && r.pool.stats.freed == p.stats.freed && r.pool.stats.cowCopies == p.stats.cowCopies
      && r.pool.stats.cacheHits == p.stats.cacheHits + (if r.hit then 1 else 0)
      && r.pool.stats.cacheMisses == p.stats.cacheMisses + (if r.hit then 0 else 1)
      && r.pool.stats.taken == p.stats.taken + (if r.bid.Some? && !r.hit then 1 else 0)
      && r.pool.stats.oomEvents == p.stats.oomEvents + (if r.bid.None? then 1 else 0)
  {
    if matching && h in p.cache {
    } else {
      CountMissInv(p, refs);
      TakesLast(CountMiss(p), refs, Some(h), p.blockSize);
      hide AddBlock, Inv;
    }
  }

  /** Hits are counted by the tokens they save, misses by the blocks tried besides, and
      every block taken ends up in the table. */
  ghost predicate Counted(before: Stats, after: Stats, hits: nat, tried: nat, placed: nat, ok: bool) {
    && after.cacheHits == before.cacheHits + hits
    && after.cacheMisses + hits == before.cacheMisses + tried
    && after.taken + hits == before.taken + placed
    && after.oomEvents == before.oomEvents + (if ok then 0 else 1)
    && after.freed == before.freed && after.cowCopies == before.cowCopies
  }

  lemma CountedPlus(a: Stats, b: Stats, c: Stats, hits: nat, tried: nat, placed: nat, m: nat, k: nat, l: nat, ok: bool)
    requires Counted(a, b, hits, tried, placed, true) && Counted(b, c, m, k, l, ok)
    ensures Counted(a, c, hits + m, tried + k, placed + l, ok)
  {
  }

  /** The hits among the blocks from `i` on, and how many are tried. */
  lemma {:induction false} FullCounts(p: Pool, refs: multiset<nat>, chunks: seq<seq<Token>>, i: nat,
                                      prev: Option<Digest>, matching: bool, table: seq<nat>, cached: nat)
    returns (hits: nat)
    requires Inv(p, refs) && i <= |chunks| && |table| == i
    ensures
      var r := AllocateFull(p, chunks, i, prev, matching, table, cached);
      && i <= |r.table| <= |chunks| && r.cached == cached + hits * p.blockSize
      && Counted(p.stats, r.pool.stats, hits, if r.ok then |chunks| - i else |r.table| - i + 1, |r.table| - i, r.ok)
      && (r.ok <==> |r.table| == |chunks|)
    decreases |chunks| - i
  {
    hide Inv, PlaceFull;
    hits := 0;
    if i < |chunks| {
      var h := HashBlock(prev, chunks[i]);
      var r := PlaceFull(p, h, matching);
      PlacedCounts(p, refs, h, matching);
      PlaceFullInv(p, h, matching, refs);
      assert Counted(p.stats, r.pool.stats, if r.hit then 1 else 0, 1, if r.bid.Some? then 1 else 0, r.bid.Some?);
      hide Counted;
      if r.bid.Some? {
        var more := FullCounts(r.pool, refs + multiset{r.bid.value}, chunks, i + 1, Some(h), r.hit,
                               table + [r.bid.value], if r.hit then cached + p.blockSize else cached);
        hits := (if r.hit then 1 else 0) + more;
        OneMore(more, p.blockSize);
        var all := AllocateFull(p, chunks, i, prev, matching, table, cached);
        var placed := |all.table| - i - 1;
        CountedPlus(p.stats, r.pool.stats, all.pool.stats, if r.hit then 1 else 0, 1, 1, more,
                    if all.ok then |chunks| - i - 1 else placed + 1, placed, all.ok);
      }
    }
  }

  /** What an allocation adds to the counters: `cached` tokens are whole blocks that
      were hit, the other full blocks tried were missed, and only a failure counts as
      an out-of-memory event. */
  lemma AllocationCounts(p: Pool, refs: multiset<nat>, tokens: seq<Token>) returns (hits: nat)
    requires Inv(p, refs)
    ensures
      var r, full := AllocatePrompt(p, tokens), |tokens| / p.blockSize;
      && r.cached == hits * p.blockSize
      && Counted(p.stats, r.pool.stats, hits, if r.ok || |r.table| == full then full else |r.table| + 1, |r.table|,
                 r.ok)
  {
    hide Inv, AddBlock, AllocateFull;
    var chunks := Chunks(tokens, p.blockSize);
    hits := FullCounts(p, refs, chunks, 0, None, p.caching, [], 0);
    var full := AllocateFull(p, chunks, 0, None, p.caching, [], 0);
    AllocateFullInv(p, chunks, 0, None, p.caching, [], 0, refs) by {
      assert refs + multiset([]) == refs;
    }
    if full.ok && |tokens| % p.blockSize != 0 {
      TakesLast(full.pool, refs + multiset(full.table), None, |tokens| % p.blockSize);
      var r := AllocatePrompt(p, tokens);
      assert Counted(full.pool.stats, r.pool.stats.(evictions := full.pool.stats.evictions), 0, 0,
                     if r.ok then 1 else 0, r.ok);
    }
  }

  /** An append counts the block it takes, if it takes one, and a copy if it copies. */
  lemma AppendCounts(p: Pool, refs: multiset<nat>, table: seq<nat>, seqLen: nat)
    requires Inv(p, refs) && multiset(table) <= refs
    ensures
      var r, shared := AppendToken(p, table, seqLen), table != [] && refs[table[|table| - 1]] > 1;
      var takes, copies := seqLen % p.blockSize == 0 || shared, seqLen % p.blockSize != 0 && shared;
      && (r.Grown? ==> Counted(p.stats, r.pool.stats.(freed := p.stats.freed, cowCopies := p.stats.cowCopies),
                               0, 0, if takes then 1 else 0, true)
                       && r.pool.stats.cowCopies == p.stats.cowCopies + (if copies then 1 else 0)
                       && r.pool.stats.freed == p.stats.freed)
      && (r.OutOfBlocks? ==> takes && r.pool == p.(stats := p.stats.(oomEvents := p.stats.oomEvents + 1)))
  {
    hide Inv, AddBlock, Release, EvictOne;
    TakesLast(p, refs, None, 1);
    if table != [] {
      var last := table[|table| - 1];
      assert multiset(table)[last] >= 1;
      RefCountIs(p, refs, last);
      var n := p.BlockAt(last).nTokens;
      TakesLast(p, refs, None, n);
      AddBlockInv(p, refs, None, n);
      var t := AddBlock(p, None, n);
      if t.bid.Some? {
        AddedRef(refs, t.bid.value, last);
        ReleasesLast(t.pool, refs + multiset{t.bid.value}, last);
      }
    }
  }

  lemma AddedRef(refs: multiset<nat>, b: nat, last: nat)
    requires last in refs
    ensures last in refs + multiset{b} && (refs[b] == 0 ==> (refs + multiset{b})[last] == refs[last])
  {
  }

  /** A table is given back block by block, in order. */
  lemma {:induction false} FreeInOrder(p: Pool, a: seq<nat>, b: seq<nat>)
    ensures Free(p, a + b) == Free(Free(p, a), b)
    ensures |a| == 1 ==> Free(p, a) == Release(p, a[0])
    decreases |a|
  {
    hide Release;
    if a == [] {
      assert a + b == b;
    } else {
      assert (a + b)[1..] == a[1..] + b;
      FreeInOrder(Release(p, a[0]), a[1..], b);
      assert |a| == 1 ==> a[1..] == [];
    }
  }

  /** Blocks other than those are as they were. */
  ghost predicate Spared(p: Pool, q: Pool, some: set<nat>) {
    |q.blocks| == |p.blocks| && forall x: nat :: x < |p.blocks| && x !in some ==> q.blocks[x] == p.blocks[x]
  }

  /** What an append writes: the tail, which is a new block at a block boundary, a private
      copy of a shared tail, or the tail that was; and nothing else but the reference the
      copy takes off the tail it replaces. */
  lemma AppendWrites(p: Pool, refs: multiset<nat>, table: seq<nat>, seqLen: nat)
    requires Inv(p, refs) && multiset(table) <= refs && AppendToken(p, table, seqLen).Grown?
    ensures
      var r, offset, n := AppendToken(p, table, seqLen), seqLen % p.blockSize, |table|;
      && r.table != []
      && var b, last := r.table[|r.table| - 1], if n > 0 then table[n - 1] else 0;
      && (offset == 0 ==>
            && r.table == table + [b] && refs[b] == 0
            && r.pool.BlockAt(b) == Block(1, None, 1) && Spared(p, r.pool, {b}))
      && (offset != 0 && refs[last] > 1 ==>
            && n > 0 && r.table == table[n - 1 := b] && refs[b] == 0
            && r.pool.BlockAt(b) == Block(1, None, offset + 1)
            && r.pool.BlockAt(last) == p.BlockAt(last).(refCount := refs[last] - 1) && Spared(p, r.pool, {b, last}))
      && (offset != 0 && refs[last] <= 1 ==>
            && n > 0 && r.table == table
            && r.pool.BlockAt(b) == p.BlockAt(b).(nTokens := offset + 1) && Spared(p, r.pool, {b}))
  {
    hide Inv, AddBlock, Release, Spared;
    if seqLen % p.blockSize == 0 {
      AppendsBlock(p, refs, table, seqLen);
    } else {
      var last := table[|table| - 1];
      assert multiset(table)[last] >= 1;
      RefCountIs(p, refs, last);
      if refs[last] > 1 {
        AppendsCopy(p, refs, table, seqLen);
      } else {
        AppendsTail(p, refs, table, seqLen);
      }
    }
  }

  lemma AppendsBlock(p: Pool, refs: multiset<nat>, table: seq<nat>, seqLen: nat)
    requires Inv(p, refs) && AppendToken(p, table, seqLen).Grown? && seqLen % p.blockSize == 0
    ensures
      var r := AppendToken(p, table, seqLen);
      && r.table != []
      && var b := r.table[|r.table| - 1];
         r.table == table + [b] && refs[b] == 0 && r.pool.BlockAt(b) == Block(1, None, 1) && Spared(p, r.pool, {b})
  {
    hide Inv, AddBlock;
    AddBlockInv(p, refs, None, 1);
  }

  lemma AppendsCopy(p: Pool, refs: multiset<nat>, table: seq<nat>, seqLen: nat)
    requires Inv(p, refs) && AppendToken(p, table, seqLen).Grown? && seqLen % p.blockSize != 0 && table != []
    requires var last := table[|table| - 1]; last in refs && refs[last] > 1
    ensures
      var r, offset, n := AppendToken(p, table, seqLen), seqLen % p.blockSize, |table|;
      && r.table != []
      && var b, last := r.table[|r.table| - 1], table[n - 1];
      && r.table == table[n - 1 := b] && refs[b] == 0 && r.pool.BlockAt(b) == Block(1, None, offset + 1)
      && r.pool.BlockAt(last) == p.BlockAt(last).(refCount := refs[last] - 1) && Spared(p, r.pool, {b, last})
  {
    hide Inv, AddBlock, Release;
    var last := table[|table| - 1];
    RefCountIs(p, refs, last);
    var n := p.BlockAt(last).nTokens;
    AddBlockInv(p, refs, None, n);
    var t := AddBlock(p, None, n);
    if t.bid.Some? {
      AddedRef(refs, t.bid.value, last);
      ReleaseInv(t.pool, refs + multiset{t.bid.value}, last);
    }
  }

  lemma AppendsTail(p: Pool, refs: multiset<nat>, table: seq<nat>, seqLen: nat)
    requires AppendToken(p, table, seqLen).Grown? && seqLen % p.blockSize != 0 && table != []
    requires var last := table[|table| - 1]; last < |p.blocks| && p.blocks[last].refCount <= 1
    ensures
      var r, b := AppendToken(p, table, seqLen), table[|table| - 1];
      && r.table == table && Spared(p, r.pool, {b})
      && r.pool.BlockAt(b) == p.BlockAt(b).(nTokens := seqLen % p.blockSize + 1)
  {
  }
}
