/** The paged KV block pool as values: what each operation of the cache does to
    the pool, branch by branch. The class in PagedKVCache.dfy is proved against
    these functions, and the invariants are proved about them. */
module PagedSpec {
  import opened Lists

  type Token = int

  /** Content address of a full block, chained to everything before it. The
      digest is free of collisions by construction. */
  datatype Digest = Digest(prev: Option<Digest>, tokens: seq<Token>)

  function HashBlock(prev: Option<Digest>, tokens: seq<Token>): Digest {
    Digest(prev, tokens)
  }

  datatype Block = Block(refCount: nat, contentHash: Option<Digest>, nTokens: nat)

  datatype Stats = Stats(
    taken: nat, freed: nat, cacheHits: nat, cacheMisses: nat,
    evictions: nat, cowCopies: nat, oomEvents: nat)

  /** `cache` and `lru` together are the ordered dictionary from content hash to
      block: `lru` lists its keys, least recently used first. */
  datatype Pool = Pool(
    blockSize: pos, caching: bool, watermark: nat,
    blocks: seq<Block>, freeIds: seq<nat>,
    cache: map<Digest, nat>, lru: seq<Digest>, stats: Stats)
  {
    /** A block id outside the pool reads as an empty block; Invariant shows
        that no operation ever uses one. */
    function BlockAt(b: nat): Block {
      if b < |blocks| then blocks[b] else Block(0, None, 0)
    }

    function SetBlock(b: nat, block: Block): Pool {
      if b < |blocks| then this.(blocks := blocks[b := block]) else this
    }

    /** The cache entry `h` belongs to a block nobody is using. */
    predicate Idle(h: Digest) {
      h in cache && cache[h] < |blocks| && blocks[cache[h]].refCount == 0
    }

    function NumFree(): nat {
      |freeIds|
    }

    function NumEvictable(): nat {
      |set h | h in cache && Idle(h)|
    }

    predicate CanAllocate(n: nat) {
      NumFree() + NumEvictable() >= n + watermark
    }
  }

  /** The watermark is the whole number of blocks in the fraction, and at least one. */
  function InitPool(numBlocks: nat, blockSize: pos, caching: bool, watermarkFraction: real): (p: Pool)
    ensures p.watermark >= 1 && (p.watermark + 1) as real > numBlocks as real * watermarkFraction
    ensures p.watermark > 1 ==> p.watermark as real <= numBlocks as real * watermarkFraction
    ensures |p.blocks| == numBlocks && p.freeIds == seq(numBlocks, i => i) && p.cache == map[]
  {
    var scaled := (numBlocks as real * watermarkFraction).Floor;
    Pool(blockSize, caching, if scaled < 1 then 1 else scaled,
         seq(numBlocks, i => Block(0, None, 0)), seq(numBlocks, i => i),
         map[], [], Stats(0, 0, 0, 0, 0, 0, 0))
  }

  /** Position of the least recently used idle entry at or after `i`. */
  function FirstIdle(p: Pool, i: nat): (r: nat)
    requires i <= |p.lru|
    ensures i <= r <= |p.lru|
    ensures r < |p.lru| ==> p.Idle(p.lru[r])
    ensures forall k :: i <= k < r ==> !p.Idle(p.lru[k])
    decreases |p.lru| - i
  {
    if i == |p.lru| || p.Idle(p.lru[i]) then i else FirstIdle(p, i + 1)
  }

  function EvictOne(p: Pool): Option<Pool> {
    var i := FirstIdle(p, 0);
    if i == |p.lru| then None
    else
      var h := p.lru[i];
      var bid := p.cache[h];
      Some(p.SetBlock(bid, p.blocks[bid].(contentHash := None)).(
             cache := p.cache - {h}, lru := RemoveAt(p.lru, i), freeIds := p.freeIds + [bid],
             stats := p.stats.(evictions := p.stats.evictions + 1)))
  }

  /** The pool after taking a block, and the block, or None for OutOfBlocks. */
  datatype Taken = Taken(pool: Pool, bid: Option<nat>)

  function TakeFreeBlock(p: Pool): Taken {
    match if p.freeIds == [] then EvictOne(p) else Some(p)
    case None => Taken(p.(stats := p.stats.(oomEvents := p.stats.oomEvents + 1)), None)
    case Some(q) =>
      if q.freeIds == [] then Taken(q, None)
      else
        var bid := q.freeIds[|q.freeIds| - 1];
        Taken(q.SetBlock(bid, Block(0, None, 0)).(
                freeIds := q.freeIds[..|q.freeIds| - 1],
                stats := q.stats.(taken := q.stats.taken + 1)),
              Some(bid))
  }

  /** `cache[h] = bid`: an existing key keeps its place in the recency order. */
  function CachePut(p: Pool, h: Digest, bid: nat): Pool {
    p.(cache := p.cache[h := bid], lru := if h in p.cache then p.lru else p.lru + [h])
  }

  function MoveToEnd(lru: seq<Digest>, h: Digest): seq<Digest> {
    Remove(lru, h) + [h]
  }

  /** Take a block and hand it out with one reference, registering it in the
      cache when it is full and caching is on. */
  function AddBlock(p: Pool, hash: Option<Digest>, nTokens: nat): Taken {
    var t := TakeFreeBlock(p);
    match t.bid
    case None => t
    case Some(bid) =>
      var q := t.pool.SetBlock(bid, Block(1, hash, nTokens));
      Taken(if hash.Some? && p.caching then CachePut(q, hash.value, bid) else q, Some(bid))
  }

  /** A hit: the cached block gains a reference and becomes most recently used. */
  function HitBlock(p: Pool, h: Digest): Pool
    requires h in p.cache
  {
    var bid := p.cache[h];
    var blk := p.BlockAt(bid);
    var q := if blk.refCount == 0 then p.(freeIds := Remove(p.freeIds, bid)) else p;
    q.SetBlock(bid, blk.(refCount := blk.refCount + 1)).(
      lru := MoveToEnd(p.lru, h), stats := p.stats.(cacheHits := p.stats.cacheHits + 1))
  }

  function Release(p: Pool, bid: nat): Pool {
    var blk := p.BlockAt(bid);
    if blk.refCount > 1 then p.SetBlock(bid, blk.(refCount := blk.refCount - 1))
    else if p.caching && blk.contentHash.Some? then p.SetBlock(bid, blk.(refCount := 0))
    else
      var q :=
        if blk.contentHash.Some?
        then p.(cache := p.cache - {blk.contentHash.value}, lru := Remove(p.lru, blk.contentHash.value))
        else p;
      q.SetBlock(bid, blk.(refCount := 0, contentHash := None)).(
        freeIds := p.freeIds + [bid], stats := p.stats.(freed := p.stats.freed + 1))
  }

  function Free(p: Pool, table: seq<nat>): Pool
    decreases |table|
  {
    if table == [] then p else Free(Release(p, table[0]), table[1..])
  }

  /** A prompt allocation. When `ok` is false OutOfBlocks was raised, and `table`
      is the partly built table the exception drops. */
  datatype Allocation = Allocation(pool: Pool, table: seq<nat>, cached: nat, ok: bool)

  /** The full blocks of a token list, in order; a partial tail is left out. */
  function Chunks(tokens: seq<Token>, size: pos): (r: seq<seq<Token>>)
    ensures |r| == |tokens| / size
    decreases |tokens|
  {
    if |tokens| < size then
      DivModUnique(|tokens|, size, 0, |tokens|);
      []
    else
      DivModStep(|tokens|, size);
      [tokens[..size]] + Chunks(tokens[size..], size)
  }

  /** Chunk i of the recursion is the slice the loop takes. */
  lemma {:induction false} ChunkAt(tokens: seq<Token>, size: pos, i: nat)
    requires i < |tokens| / size
    ensures i * size <= (i + 1) * size <= |tokens|
    ensures Chunks(tokens, size)[i] == tokens[i * size..(i + 1) * size]
    decreases i
  {
    if |tokens| < size {
      DivModUnique(|tokens|, size, 0, |tokens|);
    } else if i > 0 {
      DivModStep(|tokens|, size);
      ChunkAt(tokens[size..], size, i - 1);
      ShiftByOne(i, size);
      assert tokens[size..][(i - 1) * size..i * size] == tokens[i * size..(i + 1) * size];
    }
  }

  lemma ShiftByOne(i: nat, size: nat)
    requires i > 0
    ensures (i - 1) * size + size == i * size && i * size + size == (i + 1) * size
  {
  }

  function CountMiss(p: Pool): Pool {
    p.(stats := p.stats.(cacheMisses := p.stats.cacheMisses + 1))
  }

  /** One full prompt block: a hit while every block so far was one, else a miss. */
  datatype Placed = Placed(pool: Pool, bid: Option<nat>, hit: bool)

  function PlaceFull(p: Pool, h: Digest, matching: bool): Placed {
    if matching && h in p.cache then Placed(HitBlock(p, h), Some(p.cache[h]), true)
    else
      var t := AddBlock(CountMiss(p), Some(h), p.blockSize);
      Placed(t.pool, t.bid, false)
  }

  /** The full blocks of a prompt from block `i` on. `prev` is the digest of
      block i-1 and `matching` says that every block so far was a hit. */
  function AllocateFull(p: Pool, chunks: seq<seq<Token>>, i: nat, prev: Option<Digest>, matching: bool,
                        table: seq<nat>, cached: nat): Allocation
    requires i <= |chunks|
    decreases |chunks| - i
  {
    if i == |chunks| then Allocation(p, table, cached, true)
    else
      var h := HashBlock(prev, chunks[i]);
      var r := PlaceFull(p, h, matching);
      if r.bid.None? then Allocation(r.pool, table, cached, false)
      else AllocateFull(r.pool, chunks, i + 1, Some(h), r.hit, table + [r.bid.value],
                        if r.hit then cached + p.blockSize else cached)
  }

  /** The partial tail block of a prompt, which is never cached. */
  function AllocateTail(full: Allocation, rem: nat): Allocation {
    if !full.ok || rem == 0 then full
    else
      var t := AddBlock(full.pool, None, rem);
      if t.bid.None? then full.(pool := t.pool, ok := false)
      else full.(pool := t.pool, table := full.table + [t.bid.value])
  }

  function AllocatePrompt(p: Pool, tokens: seq<Token>): Allocation {
    AllocateTail(AllocateFull(p, Chunks(tokens, p.blockSize), 0, None, p.caching, [], 0),
                 |tokens| % p.blockSize)
  }

  /** `IndexError` is Python's error for the tail of an empty table. */
  datatype Appended =
    | Grown(pool: Pool, table: seq<nat>, added: bool)
    | OutOfBlocks(pool: Pool)
    | IndexError

  function WriteTail(p: Pool, b: nat, nTokens: nat): Pool {
    p.SetBlock(b, p.BlockAt(b).(nTokens := nTokens))
  }

  function CountCow(p: Pool): Pool {
    p.(stats := p.stats.(cowCopies := p.stats.cowCopies + 1))
  }

  function AppendToken(p: Pool, table: seq<nat>, seqLen: nat): Appended {
    var offset := seqLen % p.blockSize;
    if offset == 0 then
      var t := AddBlock(p, None, 1);
      if t.bid.None? then OutOfBlocks(t.pool) else Grown(t.pool, table + [t.bid.value], true)
    else if table == [] then IndexError
    else
      var last := |table| - 1;
      var tail := p.BlockAt(table[last]);
      if tail.refCount > 1 then
        var t := AddBlock(p, None, tail.nTokens);
        if t.bid.None? then OutOfBlocks(t.pool)
        else
          var q := Release(t.pool, table[last]);
          Grown(WriteTail(CountCow(q), t.bid.value, offset + 1), table[last := t.bid.value], false)
      else
        Grown(WriteTail(p, table[last], offset + 1), table, false)
  }
}
