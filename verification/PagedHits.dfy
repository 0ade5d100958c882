/** What a prompt gets from the prefix cache. */
module PagedHits {
  import opened Lists
  import opened PagedSpec
  import opened PagedInvariant
  import opened PagedSharing

  /** How many blocks from block i on are in the cache without a gap. */
  function LeadingHits(p: Pool, chunks: seq<seq<Token>>, i: nat): (n: nat)
    requires i <= |chunks|
    ensures i + n <= |chunks|
    ensures forall k :: i <= k < i + n ==> Chain(chunks, k) in p.cache
    ensures i + n < |chunks| ==> Chain(chunks, i + n) !in p.cache
    decreases |chunks| - i
  {
    if i == |chunks| || Chain(chunks, i) !in p.cache then 0 else 1 + LeadingHits(p, chunks, i + 1)
  }

  lemma {:induction false} LeadingHitsFrame(p: Pool, q: Pool, chunks: seq<seq<Token>>, i: nat)
    requires i <= |chunks| && q.cache == p.cache
    ensures LeadingHits(q, chunks, i) == LeadingHits(p, chunks, i)
    decreases |chunks| - i
  {
    if i < |chunks| && Chain(chunks, i) in p.cache {
      LeadingHitsFrame(p, q, chunks, i + 1);
    }
  }

  /** The table grows by one entry per full block. */
  lemma {:induction false} TableGrows(
    p: Pool, chunks: seq<seq<Token>>, i: nat, prev: Option<Digest>, matching: bool, table: seq<nat>, cached: nat)
    requires i <= |chunks| && |table| == i
    ensures var r := AllocateFull(p, chunks, i, prev, matching, table, cached);
      table <= r.table && |r.table| <= |chunks| && (r.ok ==> |r.table| == |chunks|)
    decreases |chunks| - i
  {
    hide PlaceFull;
    if i < |chunks| {
      var h := HashBlock(prev, chunks[i]);
      var r := PlaceFull(p, h, matching);
      if r.bid.Some? {
        TableGrows(r.pool, chunks, i + 1, Some(h), r.hit, table + [r.bid.value],
                   if r.hit then cached + p.blockSize else cached);
      }
    }
  }

  lemma {:induction false} NoHitsAfterMiss(
    p: Pool, chunks: seq<seq<Token>>, i: nat, prev: Option<Digest>, table: seq<nat>, cached: nat)
    requires i <= |chunks|
    ensures AllocateFull(p, chunks, i, prev, false, table, cached).cached == cached
    decreases |chunks| - i
  {
    if i < |chunks| {
      var h := HashBlock(prev, chunks[i]);
      var r := PlaceFull(p, h, false);
      assert !r.hit;
      hide PlaceFull;
      if r.bid.Some? {
        NoHitsAfterMiss(r.pool, chunks, i + 1, Some(h), table + [r.bid.value], cached);
      }
    }
  }

  lemma PlaceFullHit(p: Pool, h: Digest)
    ensures var r := PlaceFull(p, h, true);
      && (r.hit <==> h in p.cache)
      && (h in p.cache ==> r.bid == Some(p.cache[h]) && r.pool.cache == p.cache && r.pool.blockSize == p.blockSize)
  {
    hide AddBlock;
  }

  lemma OneMore(n: nat, size: nat)
    ensures (1 + n) * size == size + n * size
  {
  }

  lemma {:induction false} FullHits(
    p: Pool, chunks: seq<seq<Token>>, i: nat, prev: Option<Digest>, table: seq<nat>, cached: nat)
    requires i <= |chunks| && |table| == i
    requires prev == if i == 0 then None else Some(Chain(chunks, i - 1))
    ensures AllocateFull(p, chunks, i, prev, true, table, cached).cached
            == cached + LeadingHits(p, chunks, i) * p.blockSize
    decreases |chunks| - i
  {
    hide PlaceFull;
    if i < |chunks| {
      var h := Chain(chunks, i);
      assert h == HashBlock(prev, chunks[i]);
      var r := PlaceFull(p, h, true);
      PlaceFullHit(p, h);
      if h in p.cache {
        LeadingHitsFrame(p, r.pool, chunks, i + 1);
        FullHits(r.pool, chunks, i + 1, Some(h), table + [r.bid.value], cached + p.blockSize);
        OneMore(LeadingHits(p, chunks, i + 1), p.blockSize);
      } else if r.bid.Some? {
        NoHitsAfterMiss(r.pool, chunks, i + 1, Some(h), table + [r.bid.value], cached);
      }
    }
  }

  /** The table holds, at the leading hits, the cached blocks themselves. */
  lemma {:induction false} HitEntry(
    p: Pool, chunks: seq<seq<Token>>, i: nat, prev: Option<Digest>, table: seq<nat>, cached: nat, k: nat)
    requires i <= |chunks| && |table| == i && i <= k < i + LeadingHits(p, chunks, i)
    requires prev == if i == 0 then None else Some(Chain(chunks, i - 1))
    ensures var r := AllocateFull(p, chunks, i, prev, true, table, cached);
      k < |r.table| && r.table[k] == p.cache[Chain(chunks, k)]
    decreases |chunks| - i
  {
    hide PlaceFull;
    var h := Chain(chunks, i);
    assert h == HashBlock(prev, chunks[i]);
    var r := PlaceFull(p, h, true);
    PlaceFullHit(p, h);
    var table' := table + [p.cache[h]];
    if i < k {
      LeadingHitsFrame(p, r.pool, chunks, i + 1);
      HitEntry(r.pool, chunks, i + 1, Some(h), table', cached + p.blockSize, k);
    } else {
      TableGrows(r.pool, chunks, i + 1, Some(h), true, table', cached + p.blockSize);
      assert table'[i] == p.cache[h];
    }
  }

  /** The cached tokens of a prompt are exactly its longest leading run of cached
      full blocks, and its table starts with the cached blocks themselves. */
  lemma CachedIsLongestRun(p: Pool, refs: multiset<nat>, tokens: seq<Token>)
    requires Inv(p, refs)
    ensures var r, chunks := AllocatePrompt(p, tokens), Chunks(tokens, p.blockSize);
      var n := LeadingHits(p, chunks, 0);
      && r.cached == n * p.blockSize && n <= |r.table|
      && forall k :: 0 <= k < n ==> r.table[k] == p.cache[Chain(chunks, k)]
  {
    hide AddBlock, AllocateFull, AllocateTail, Inv;
    var chunks := Chunks(tokens, p.blockSize);
    TailKeeps(AllocateFull(p, chunks, 0, None, p.caching, [], 0), |tokens| % p.blockSize);
    if p.caching {
      FullHits(p, chunks, 0, None, [], 0);
      var n := LeadingHits(p, chunks, 0);
      forall k | 0 <= k < n
        ensures k < |AllocatePrompt(p, tokens).table| && AllocatePrompt(p, tokens).table[k] == p.cache[Chain(chunks, k)]
      {
        HitEntry(p, chunks, 0, None, [], 0, k);
      }
      if n > 0 {
        HitEntry(p, chunks, 0, None, [], 0, n - 1);
      }
    } else {
      NoHitsAfterMiss(p, chunks, 0, None, [], 0);
      NothingCached(p, refs);
    }
  }

  lemma NothingCached(p: Pool, refs: multiset<nat>)
    requires Inv(p, refs) && !p.caching
    ensures p.cache == map[]
  {
  }

  lemma TailKeeps(full: Allocation, rem: nat)
    ensures AllocateTail(full, rem).cached == full.cached && full.table <= AllocateTail(full, rem).table
  {
    hide AddBlock;
  }

  /** In any state the cached tokens are a part of the prompt, and a returned
      table has one entry per block of the prompt. */
  lemma PromptShape(p: Pool, tokens: seq<Token>)
    ensures var r := AllocatePrompt(p, tokens);
      && r.cached <= |tokens|
      && (!p.caching ==> r.cached == 0)
      && (r.ok ==> |r.table| == |tokens| / p.blockSize + if |tokens| % p.blockSize == 0 then 0 else 1)
  {
    hide AddBlock, AllocateFull;
    var chunks := Chunks(tokens, p.blockSize);
    TableGrows(p, chunks, 0, None, p.caching, [], 0);
    if p.caching {
      FullHits(p, chunks, 0, None, [], 0);
      WholeChunksFit(tokens, p.blockSize, LeadingHits(p, chunks, 0));
    } else {
      NoHitsAfterMiss(p, chunks, 0, None, [], 0);
    }
  }

  lemma WholeChunksFit(tokens: seq<Token>, size: pos, n: nat)
    requires n <= |Chunks(tokens, size)|
    ensures n * size <= |tokens|
  {
    var q := |tokens| / size;
    assert q * size <= |tokens|;
    MulLeq(n, q, size);
  }

  lemma MulLeq(a: nat, b: nat, c: nat)
    requires a <= b
    ensures a * c <= b * c
  {
  }
}
