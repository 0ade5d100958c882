/** Where a block can be. Every block is exactly one of free, referenced,
    evictable or stranded. A stranded block has lost its cache entry to a newer
    block with the same content and can never be handed out again. */
module PagedClasses {
  import opened Lists
  import opened PagedSpec
  import opened PagedInvariant

  /** Some cache entry leads to `b`. */
  ghost predicate Cached(p: Pool, b: nat) {
    && b < |p.blocks|
    && p.blocks[b].contentHash.Some?
    && p.blocks[b].contentHash.value in p.cache
    && p.cache[p.blocks[b].contentHash.value] == b
  }

  ghost predicate IsFree(p: Pool, b: nat) {
    b in p.freeIds
  }

  ghost predicate IsReferenced(p: Pool, b: nat) {
    b < |p.blocks| && p.blocks[b].refCount > 0
  }

  ghost predicate IsEvictable(p: Pool, b: nat) {
    Cached(p, b) && p.blocks[b].refCount == 0
  }

  ghost predicate IsStranded(p: Pool, b: nat) {
    b < |p.blocks| && p.blocks[b].refCount == 0 && b !in p.freeIds && !Cached(p, b)
  }

  ghost function Where(p: Pool, inClass: (Pool, nat) -> bool): set<nat> {
    set b: nat | b < |p.blocks| && inClass(p, b)
  }

  ghost function AllBlocks(n: nat): (s: set<nat>)
    ensures forall b: nat :: b in s <==> b < n
    ensures |s| == n
  {
    if n == 0 then {} else AllBlocks(n - 1) + {n - 1}
  }

  lemma FreeCount(p: Pool, refs: multiset<nat>)
    requires Inv(p, refs)
    ensures |Where(p, IsFree)| == |p.freeIds|
  {
    NoDupSize(p.freeIds, Where(p, IsFree));
  }

  /** The source counts cache entries; since the cache is injective that is the
      number of evictable blocks. */
  lemma EvictableCount(p: Pool, refs: multiset<nat>)
    requires Inv(p, refs)
    ensures |Where(p, IsEvictable)| == p.NumEvictable()
  {
    var entries := set h | h in p.cache && p.Idle(h);
    var blocks := Where(p, IsEvictable);
    assert forall h | h in entries :: p.cache[h] in blocks;
    SameSize(p, entries, blocks);
  }

  lemma {:induction false} SameSize(p: Pool, entries: set<Digest>, blocks: set<nat>)
    requires CacheOk(p)
    requires forall h :: h in entries ==> h in p.cache && p.cache[h] in blocks
    requires forall b :: b in blocks ==> Cached(p, b) && p.blocks[b].contentHash.value in entries
    ensures |entries| == |blocks|
    decreases blocks
  {
    if blocks == {} {
      assert entries == {};
    } else {
      var b :| b in blocks;
      SameSize(p, entries - {p.blocks[b].contentHash.value}, blocks - {b});
    }
  }

  datatype Class = OnFreeList | Referenced | Evictable | Stranded

  ghost function ClassOf(p: Pool, b: nat): Class {
    if b in p.freeIds then OnFreeList
    else if p.BlockAt(b).refCount > 0 then Referenced
    else if Cached(p, b) then Evictable
    else Stranded
  }

  /** Every block is in exactly one class. */
  lemma ExactlyOneClass(p: Pool, refs: multiset<nat>, b: nat)
    requires Inv(p, refs) && b < |p.blocks|
    ensures IsFree(p, b) <==> ClassOf(p, b) == OnFreeList
    ensures IsReferenced(p, b) <==> ClassOf(p, b) == Referenced
    ensures IsEvictable(p, b) <==> ClassOf(p, b) == Evictable
    ensures IsStranded(p, b) <==> ClassOf(p, b) == Stranded
    ensures !p.caching ==> ClassOf(p, b) in {OnFreeList, Referenced}
  {
  }

  /** The blocks of one class are the blocks below n that are in none of the others. */
  lemma ClassSizes(n: nat, f: set<nat>, r: set<nat>, e: set<nat>, s: set<nat>)
    requires r <= AllBlocks(n) && e <= AllBlocks(n) - r && s <= AllBlocks(n) - r - e
    requires f == AllBlocks(n) - r - e - s
    ensures |f| + |r| + |e| + |s| == n
  {
  }

  lemma ClassesCover(p: Pool, refs: multiset<nat>)
    requires Inv(p, refs)
    ensures var all := AllBlocks(|p.blocks|);
      var f, r, e, s := Where(p, IsFree), Where(p, IsReferenced), Where(p, IsEvictable), Where(p, IsStranded);
      && r <= all && e <= all - r && s <= all - r - e && f == all - r - e - s
      && (!p.caching ==> e == {} && s == {})
  {
    forall b: nat | b < |p.blocks| {
      ExactlyOneClass(p, refs, b);
    }
    hide Inv, ClassOf, IsFree, IsReferenced, IsEvictable, IsStranded;
  }

  /** The four classes cover the pool, so their sizes add up to its size; with
      caching off there are only free and referenced blocks. */
  lemma Partition(p: Pool, refs: multiset<nat>)
    requires Inv(p, refs)
    ensures |p.freeIds| + |Where(p, IsReferenced)| + p.NumEvictable() + |Where(p, IsStranded)| == |p.blocks|
    ensures !p.caching ==> |p.freeIds| + |Where(p, IsReferenced)| == |p.blocks|
  {
    FreeCount(p, refs);
    EvictableCount(p, refs);
    ClassesCover(p, refs);
    var f, r, e, s := Where(p, IsFree), Where(p, IsReferenced), Where(p, IsEvictable), Where(p, IsStranded);
    hide *;
    ClassSizes(|p.blocks|, f, r, e, s);
  }

  ghost predicate KeepsStranded(p: Pool, q: Pool) {
    forall b: nat :: IsStranded(p, b) ==> IsStranded(q, b)
  }

  /** Registering `hash` overwrites the entry that leads to the idle block `b`; but
      an entry that has just been evicted to make room is not there to overwrite. */
  ghost predicate Overtaken(p: Pool, hash: Option<Digest>, b: nat) {
    && p.caching && hash.Some? && p.Idle(hash.value) && p.cache[hash.value] == b
    && !(p.freeIds == [] && FirstIdle(p, 0) < |p.lru| && p.lru[FirstIdle(p, 0)] == hash.value)
  }

  /** A miss strands exactly the idle block whose entry it overwrites. */
  lemma AddBlockStrands(p: Pool, refs: multiset<nat>, hash: Option<Digest>, nTokens: nat)
    requires Inv(p, refs)
    ensures KeepsStranded(p, AddBlock(p, hash, nTokens).pool)
    ensures forall b: nat ::
      IsStranded(AddBlock(p, hash, nTokens).pool, b)
      <==> IsStranded(p, b) || (AddBlock(p, hash, nTokens).bid.Some? && Overtaken(p, hash, b))
  {
    if p.freeIds == [] {
      AddAfterEvict(p, hash, nTokens);
      EvictInv(p, refs);
      if EvictOne(p).Some? {
        EvictStrands(p, refs);
        var q := EvictOne(p).value;
        AddBlockStrandsNonEmpty(q, refs, hash, nTokens);
        hide Inv, EvictOne, AddBlock, IsStranded;
        assert forall b: nat :: Overtaken(p, hash, b) <==>
          q.caching && hash.Some? && q.Idle(hash.value) && q.cache[hash.value] == b;
      }
    } else {
      AddBlockStrandsNonEmpty(p, refs, hash, nTokens);
      hide Inv, AddBlock, IsStranded;
    }
  }

  /** An eviction strands nothing: the block goes to the free list, and its entry
      is the only one to go. */
  lemma EvictStrands(p: Pool, refs: multiset<nat>)
    requires Inv(p, refs) && EvictOne(p).Some?
    ensures
      var h, q := p.lru[FirstIdle(p, 0)], EvictOne(p).value;
      && q.caching == p.caching && (forall b: nat :: IsStranded(q, b) <==> IsStranded(p, b))
      && (forall x :: q.Idle(x) <==> p.Idle(x) && x != h)
      && (forall x :: x in q.cache ==> x in p.cache && q.cache[x] == p.cache[x])
  {
  }

  lemma AddBlockStrandsNonEmpty(p: Pool, refs: multiset<nat>, hash: Option<Digest>, nTokens: nat)
    requires Inv(p, refs) && p.freeIds != []
    ensures AddBlock(p, hash, nTokens).bid.Some?
    ensures forall b: nat ::
      IsStranded(AddBlock(p, hash, nTokens).pool, b)
      <==> IsStranded(p, b) || (p.caching && hash.Some? && p.Idle(hash.value) && p.cache[hash.value] == b)
  {
    var f := p.freeIds[..|p.freeIds| - 1];
    var t := p.freeIds[|p.freeIds| - 1];
    assert p.freeIds == f + [t];
    assert t in p.freeIds && t !in f;
    assert forall x :: x in p.freeIds <==> x in f || x == t;
  }

  lemma HitStrands(p: Pool, refs: multiset<nat>, h: Digest)
    requires Inv(p, refs) && h in p.cache
    ensures forall b: nat :: IsStranded(HitBlock(p, h), b) <==> IsStranded(p, b)
  {
    HitFree(p, h);
  }

  /** Dropping the last reference strands the block exactly when its entry was
      taken over while it was in use. */
  lemma ReleaseStrands(p: Pool, refs: multiset<nat>, x: nat)
    requires Inv(p, refs) && x in refs
    ensures forall b: nat ::
      IsStranded(Release(p, x), b)
      <==> IsStranded(p, b) || (b == x && refs[x] == 1 && p.caching && p.blocks[x].contentHash.Some? && !Cached(p, x))
  {
    ReleaseCache(p, x);
  }

  lemma {:induction false} FreeStrands(p: Pool, refs: multiset<nat>, table: seq<nat>)
    requires Inv(p, refs) && multiset(table) <= refs
    ensures KeepsStranded(p, Free(p, table))
    decreases |table|
  {
    if table != [] {
      assert table == [table[0]] + table[1..];
      assert multiset(table) == multiset{table[0]} + multiset(table[1..]);
      assert table[0] in refs by { assert multiset(table)[table[0]] >= 1; }
      ReleaseStrands(p, refs, table[0]);
      ReleaseInv(p, refs, table[0]);
      FreeStrands(Release(p, table[0]), refs - multiset{table[0]}, table[1..]);
    }
  }

  lemma PlaceFullStrands(p: Pool, h: Digest, matching: bool, refs: multiset<nat>)
    requires Inv(p, refs)
    ensures KeepsStranded(p, PlaceFull(p, h, matching).pool)
  {
    if matching && h in p.cache {
      HitStrands(p, refs, h);
    } else {
      assert Inv(CountMiss(p), refs);
      assert KeepsStranded(p, CountMiss(p));
      AddBlockStrands(CountMiss(p), refs, Some(h), p.blockSize);
    }
  }

  lemma {:induction false} AllocateFullStrands(
    p: Pool, chunks: seq<seq<Token>>, i: nat, prev: Option<Digest>, matching: bool,
    table: seq<nat>, cached: nat, refs: multiset<nat>)
    requires i <= |chunks| && Inv(p, refs)
    ensures KeepsStranded(p, AllocateFull(p, chunks, i, prev, matching, table, cached).pool)
    decreases |chunks| - i
  {
    hide Inv, PlaceFull;
    if i < |chunks| {
      var h := HashBlock(prev, chunks[i]);
      var r := PlaceFull(p, h, matching);
      PlaceFullInv(p, h, matching, refs);
      PlaceFullStrands(p, h, matching, refs);
      if r.bid.Some? {
        AllocateFullStrands(r.pool, chunks, i + 1, Some(h), r.hit, table + [r.bid.value],
                            if r.hit then cached + p.blockSize else cached, refs + multiset{r.bid.value});
      }
    }
  }

  /** Stranded blocks stay stranded through every prompt allocation. */
  lemma AllocatePromptStrands(p: Pool, tokens: seq<Token>, refs: multiset<nat>)
    requires Inv(p, refs)
    ensures KeepsStranded(p, AllocatePrompt(p, tokens).pool)
  {
    hide Inv, AddBlock, AllocateFull;
    var chunks := Chunks(tokens, p.blockSize);
    var full := AllocateFull(p, chunks, 0, None, p.caching, [], 0);
    assert refs + multiset([]) == refs;
    AllocateFullStrands(p, chunks, 0, None, p.caching, [], 0, refs);
    AllocateFullInv(p, chunks, 0, None, p.caching, [], 0, refs);
    AddBlockStrands(full.pool, refs + multiset(full.table), None, |tokens| % p.blockSize);
  }

  lemma AppendStrands(p: Pool, table: seq<nat>, seqLen: nat, refs: multiset<nat>)
    requires Inv(p, refs) && multiset(table) <= refs
    ensures match AppendToken(p, table, seqLen)
      case Grown(q, _, _) => KeepsStranded(p, q)
      case OutOfBlocks(q) => KeepsStranded(p, q)
      case IndexError => true
  {
    hide Inv, AddBlock, Release;
    var last := |table| - 1;
    if seqLen % p.blockSize == 0 {
      AddBlockStrands(p, refs, None, 1);
    } else if table != [] {
      var b := table[last];
      assert b in refs by { assert multiset(table)[b] >= 1; }
      if p.BlockAt(b).refCount > 1 {
        var t := AddBlock(p, None, p.BlockAt(b).nTokens);
        AddBlockInv(p, refs, None, p.BlockAt(b).nTokens);
        AddBlockStrands(p, refs, None, p.BlockAt(b).nTokens);
        if t.bid.Some? {
          ReleaseStrands(t.pool, refs + multiset{t.bid.value}, b);
        }
      }
    }
  }
}
