/** The block pool as the object it is: lists, dictionary and counters updated in
    place, call by call, and proved to follow PagedSpec. */
module PagedKVCacheModule {
  import opened Lists
  import opened PagedSpec
  import opened PagedInvariant

  class PagedKVCache {
    const blockSize: pos
    const caching: bool
    const watermark: nat
    var blocks: seq<Block>
    var freeIds: seq<nat>
    var cache: map<Digest, nat>
    var lru: seq<Digest>
    var stats: Stats

    /** The references in all tables handed out and not yet returned. */
    ghost var refs: multiset<nat>

    function State(): Pool
      reads this
    {
      Pool(blockSize, caching, watermark, blocks, freeIds, cache, lru, stats)
    }

    ghost predicate Valid()
      reads this
    {
      Inv(State(), refs)
    }

    constructor (numBlocks: nat, blockSize: pos, caching: bool, watermarkFraction: real)
      ensures State() == InitPool(numBlocks, blockSize, caching, watermarkFraction)
      ensures Valid() && refs == multiset{}
    {
      this.blockSize := blockSize;
      this.caching := caching;
      var scaled := (numBlocks as real * watermarkFraction).Floor;
      watermark := if scaled < 1 then 1 else scaled;
      blocks := seq(numBlocks, i => Block(0, None, 0));
      freeIds := seq(numBlocks, i => i);
      cache := map[];
      lru := [];
      stats := Stats(0, 0, 0, 0, 0, 0, 0);
      refs := multiset{};
      new;
      InitInv(numBlocks, blockSize, caching, watermarkFraction);
    }

    method NumEvictable() returns (n: nat)
      requires Valid()
      ensures n == State().NumEvictable()
    {
      CountIdleAll(State());
      n := 0;
      for i := 0 to |lru|
        invariant n + CountIdle(State(), i) == CountIdle(State(), 0)
      {
        if blocks[cache[lru[i]]].refCount == 0 {
          n := n + 1;
        }
      }
    }

    method CanAllocate(n: nat) returns (yes: bool)
      requires Valid()
      ensures yes <==> State().CanAllocate(n)
      ensures yes <==> |freeIds| + |set h | h in cache && State().BlockAt(cache[h]).refCount == 0| >= n + watermark
    {
      IdleIs(State());
      var evictable := NumEvictable();
      yes := |freeIds| + evictable >= n + watermark;
    }

    /** Evicts the first idle entry in recency order, if there is one. */
    method EvictOneBlock() returns (evicted: bool)
      requires Valid()
      modifies this
      ensures refs == old(refs) && Valid()
      ensures match EvictOne(old(State()))
        case None => !evicted && State() == old(State())
        case Some(p) => evicted && State() == p
      ensures evicted ==> freeIds != []
    {
      hide Inv;
      EvictInv(State(), refs);
      var i := 0;
      while i < |lru|
        invariant 0 <= i <= |lru| && State() == old(State()) && refs == old(refs)
        invariant FirstIdle(State(), 0) == FirstIdle(State(), i)
      {
        var h := lru[i];
        CachedInRange(State(), refs, h);
        var bid := cache[h];
        if blocks[bid].refCount == 0 {
          lru := RemoveAt(lru, i);
          cache := cache - {h};
          blocks := blocks[bid := blocks[bid].(contentHash := None)];
          freeIds := freeIds + [bid];
          stats := stats.(evictions := stats.evictions + 1);
          return true;
        }
        i := i + 1;
      }
      return false;
    }

    /** A free block, after evicting one if need be; None is OutOfBlocks. The
        block is not on the free list and not yet in use. */
    method TakeBlock() returns (bid: Option<nat>)
      requires Valid()
      modifies this
      ensures Taken(State(), bid) == TakeFreeBlock(old(State()))
      ensures refs == old(refs)
      ensures bid.Some? ==> bid.value < |blocks|
    {
      hide Inv, EvictOne;
      if freeIds == [] {
        var evicted := EvictOneBlock();
        if !evicted {
          stats := stats.(oomEvents := stats.oomEvents + 1);
          return None;
        }
      }
      FreeInRange(State(), refs);
      var b := freeIds[|freeIds| - 1];
      freeIds := freeIds[..|freeIds| - 1];
      blocks := blocks[b := Block(0, None, 0)];
      stats := stats.(taken := stats.taken + 1);
      return Some(b);
    }

    /** A taken block filled in and put to use; the digest of a full prompt block
        enters the cache. */
    method Take(full: Option<Digest>, nTokens: nat) returns (bid: Option<nat>)
      requires Valid()
      modifies this
      ensures Taken(State(), bid) == AddBlock(old(State()), full, nTokens)
      ensures Valid()
      ensures refs == if bid.Some? then old(refs) + multiset{bid.value} else old(refs)
    {
      hide Inv, TakeFreeBlock;
      AddBlockInv(State(), refs, full, nTokens);
      bid := TakeBlock();
      if bid.Some? {
        var b := bid.value;
        blocks := blocks[b := Block(1, full, nTokens)];
        if full.Some? && caching {
          lru := if full.value in cache then lru else lru + [full.value];
          cache := cache[full.value := b];
        }
        refs := refs + multiset{b};
      }
    }

    /** Takes a cached block by reference. */
    method Hit(h: Digest) returns (bid: nat)
      requires Valid() && h in cache
      modifies this
      ensures State() == HitBlock(old(State()), h) && bid == old(cache)[h]
      ensures Valid() && refs == old(refs) + multiset{bid}
      ensures exists i :: 0 <= i < |old(lru)| && old(lru)[i] == h
                          && lru == old(lru)[..i] + old(lru)[i + 1..] + [h]
    {
      hide Inv;
      HitInv(State(), refs, h);
      CachedInRange(State(), refs, h);
      ghost var i := RemoveIs(lru, h);
      bid := cache[h];
      var blk := blocks[bid];
      freeIds := if blk.refCount == 0 then Remove(freeIds, bid) else freeIds;
      blocks := blocks[bid := blk.(refCount := blk.refCount + 1)];
      lru := MoveToEnd(lru, h);
      stats := stats.(cacheHits := stats.cacheHits + 1);
      refs := refs + multiset{bid};
    }

    method ReleaseBlock(bid: nat)
      requires Valid() && bid in refs
      modifies this
      ensures State() == Release(old(State()), bid)
      ensures Valid() && refs == old(refs) - multiset{bid}
    {
      hide Inv;
      ReleaseInv(State(), refs, bid);
      RefCountIs(State(), refs, bid);
      var blk := blocks[bid];
      blk := blk.(refCount := blk.refCount - 1);
      if blk.refCount == 0 && !(caching && blk.contentHash.Some?) {
        if blk.contentHash.Some? {
          cache := cache - {blk.contentHash.value};
          lru := Remove(lru, blk.contentHash.value);
          blk := blk.(contentHash := None);
        }
        freeIds := freeIds + [bid];
        stats := stats.(freed := stats.freed + 1);
      }
      blocks := blocks[bid := blk];
      refs := refs - multiset{bid};
    }

    /** One full prompt block: from the cache while the prefix matches, else new. */
    method PlaceChunk(h: Digest, matching: bool) returns (bid: Option<nat>, hit: bool)
      requires Valid()
      modifies this
      ensures Placed(State(), bid, hit) == PlaceFull(old(State()), h, matching)
      ensures Valid()
      ensures refs == if bid.Some? then old(refs) + multiset{bid.value} else old(refs)
    {
      hide Inv, HitBlock, AddBlock;
      if matching && h in cache {
        var b := Hit(h);
        return Some(b), true;
      }
      CountMissInv(State(), refs);
      stats := stats.(cacheMisses := stats.cacheMisses + 1);
      bid := Take(Some(h), blockSize);
      return bid, false;
    }

    /** The table and cached tokens of a prompt. On OutOfBlocks `ok` is false and
        `table` is the partly built table, which the caller never gets to hold. */
    method PromptTable(tokens: seq<Token>) returns (table: seq<nat>, cached: nat, ok: bool)
      requires Valid()
      modifies this
      ensures Allocation(State(), table, cached, ok) == AllocatePrompt(old(State()), tokens)
      ensures Valid() && refs == old(refs) + multiset(table)
    {
      hide Inv, PlaceFull, AddBlock;
      ghost var start := State();
      ghost var chunks := Chunks(tokens, blockSize);
      var nFull := |tokens| / blockSize;
      var prev: Option<Digest> := None;
      var matching := caching;
      table, cached := [], 0;
      for i := 0 to nFull
        invariant Valid() && refs == old(refs) + multiset(table)
        invariant AllocateFull(State(), chunks, i, prev, matching, table, cached)
                  == AllocateFull(start, chunks, 0, None, start.caching, [], 0)
      {
        ChunkAt(tokens, blockSize, i);
        var h := HashBlock(prev, tokens[i * blockSize..(i + 1) * blockSize]);
        prev := Some(h);
        var bid, hit := PlaceChunk(h, matching);
        if bid.None? {
          TailAfterFailure(Allocation(State(), table, cached, false), |tokens| % blockSize);
          return table, cached, false;
        }
        MultisetSnoc(old(refs), table, bid.value);
        table := table + [bid.value];
        cached := if hit then cached + blockSize else cached;
        matching := hit;
      }
      ok := true;
      var rem := |tokens| % blockSize;
      if rem != 0 {
        var bid := Take(None, rem);
        if bid.None? {
          return table, cached, false;
        }
        MultisetSnoc(old(refs), table, bid.value);
        table := table + [bid.value];
      }
    }

    lemma TailAfterFailure(full: Allocation, rem: nat)
      requires !full.ok
      ensures AllocateTail(full, rem) == full
    {
    }

    /** Grows a table by one token. The outcome says whether a block was added, or
        that no block was left, or that there was no tail to write to. */
    method GrowTable(table: seq<nat>, seqLen: nat) returns (outcome: GrowOutcome)
      requires Valid() && multiset(table) <= refs
      modifies this
      ensures outcome == OutcomeOf(AppendToken(old(State()), table, seqLen))
      ensures State() == PoolAfter(old(State()), AppendToken(old(State()), table, seqLen))
      ensures Valid()
      ensures refs == if outcome.Done? then old(refs) - multiset(table) + multiset(outcome.table) else old(refs)
    {
      hide Inv, AddBlock;
      var offset := seqLen % blockSize;
      if offset == 0 {
        var bid := Take(None, 1);
        if bid.None? { return NoBlocks; }
        AppendRefs(old(refs), table, bid.value);
        return Done(table + [bid.value], true);
      }
      if table == [] { return NoTail; }
      outcome := GrowTail(table, seqLen);
    }

    /** The next token goes into the tail block, or into a private copy of it. */
    method GrowTail(table: seq<nat>, seqLen: nat) returns (outcome: GrowOutcome)
      requires Valid() && multiset(table) <= refs && table != []
      requires seqLen % blockSize != 0
      modifies this
      ensures outcome == OutcomeOf(AppendToken(old(State()), table, seqLen))
      ensures State() == PoolAfter(old(State()), AppendToken(old(State()), table, seqLen))
      ensures Valid()
      ensures refs == if outcome.Done? then old(refs) - multiset(table) + multiset(outcome.table) else old(refs)
    {
      hide Inv, AddBlock, Release;
      var last := |table| - 1;
      var b := table[last];
      assert multiset(table)[b] >= 1;
      RefCountIs(State(), refs, b);
      if blocks[b].refCount > 1 {
        var bid := CopyTail(b, seqLen % blockSize + 1);
        if bid.None? { return NoBlocks; }
        ExchangeLast(old(refs), table, bid.value);
        return Done(table[last := bid.value], false);
      }
      WriteTailInv(State(), refs, b, seqLen % blockSize + 1);
      blocks := blocks[b := blocks[b].(nTokens := seqLen % blockSize + 1)];
      assert refs - multiset(table) + multiset(table) == refs;
      return Done(table, false);
    }

    /** Copy-on-write: a private block takes the place of the shared tail b. */
    method CopyTail(b: nat, nTokens: nat) returns (bid: Option<nat>)
      requires Valid() && b in refs
      modifies this
      ensures var t := AddBlock(old(State()), None, old(State()).BlockAt(b).nTokens);
        && bid == t.bid
        && State() == if bid.None? then t.pool
                      else WriteTail(CountCow(Release(t.pool, b)), bid.value, nTokens)
      ensures Valid()
      ensures refs == if bid.None? then old(refs) else old(refs) + multiset{bid.value} - multiset{b}
    {
      hide Inv, AddBlock, Release;
      RefCountIs(State(), refs, b);
      AddBlockInv(State(), refs, None, blocks[b].nTokens);
      bid := Take(None, blocks[b].nTokens);
      if bid.Some? {
        var c := bid.value;
        ReleaseBlock(b);
        RefCountIs(State(), refs, c);
        WriteTailInv(State(), refs, c, nTokens);
        stats := stats.(cowCopies := stats.cowCopies + 1);
        blocks := blocks[c := blocks[c].(nTokens := nTokens)];
      }
    }

    method FreeTable(table: seq<nat>)
      requires Valid() && multiset(table) <= refs
      modifies this
      ensures State() == Free(old(State()), table)
      ensures Valid() && refs == old(refs) - multiset(table)
    {
      hide Inv, Release;
      ghost var start := State();
      assert table[0..] == table;
      for i := 0 to |table|
        invariant Valid() && multiset(table[i..]) <= refs
        invariant refs - multiset(table[i..]) == old(refs) - multiset(table)
        invariant Free(State(), table[i..]) == Free(start, table)
      {
        assert table[i..] == [table[i]] + table[i + 1..];
        assert multiset(table[i..]) == multiset{table[i]} + multiset(table[i + 1..]);
        assert table[i] in refs;
        ReleaseBlock(table[i]);
      }
    }
  }

  datatype GrowOutcome = Done(table: seq<nat>, added: bool) | NoBlocks | NoTail

  function OutcomeOf(r: Appended): GrowOutcome {
    match r
    case Grown(_, table, added) => Done(table, added)
    case OutOfBlocks(_) => NoBlocks
    case IndexError => NoTail
  }

  function PoolAfter(p: Pool, r: Appended): Pool {
    if r.IndexError? then p else r.pool
  }

  lemma IdleIs(p: Pool)
    requires CacheOk(p)
    ensures p.NumEvictable() == |set h | h in p.cache && p.BlockAt(p.cache[h]).refCount == 0|
  {
    assert (set h | h in p.cache && p.Idle(h)) == (set h | h in p.cache && p.BlockAt(p.cache[h]).refCount == 0);
  }

  lemma AppendRefs(refs: multiset<nat>, table: seq<nat>, b: nat)
    requires multiset(table) <= refs
    ensures refs - multiset(table) + multiset(table + [b]) == refs + multiset{b}
  {
  }
}
