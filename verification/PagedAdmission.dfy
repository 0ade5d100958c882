/** Does the admission guard suffice? A prompt allocation is charged against the
    free and evictable blocks: one per miss, one per hit on an idle block, and one
    more for every idle cached block past the first miss, whose entry the
    allocation overwrites and whose block it strands. */
module PagedAdmission {
  import opened Lists
  import opened PagedSpec
  import opened PagedInvariant
  import opened PagedSharing

  ghost function IdleEntries(p: Pool): set<Digest> {
    set h | h in p.cache && p.Idle(h)
  }

  /** Blocks that can be taken: free ones, and idle cached ones by eviction. */
  ghost function Available(p: Pool): nat {
    p.NumFree() + p.NumEvictable()
  }

  ghost function IdleCharge(p: Pool, h: Digest): nat {
    if p.Idle(h) then 1 else 0
  }

  /** What the blocks of a prompt from block i on need at least. */
  ghost function Cost(p: Pool, chunks: seq<seq<Token>>, i: nat, matching: bool): nat
    requires i <= |chunks|
    decreases |chunks| - i
  {
    if i == |chunks| then 0
    else if matching && Chain(chunks, i) in p.cache
      then IdleCharge(p, Chain(chunks, i)) + Cost(p, chunks, i + 1, true)
    else |chunks| - i
  }

  /** What they need at most. */
  ghost function Worst(p: Pool, chunks: seq<seq<Token>>, i: nat, matching: bool): nat
    requires i <= |chunks|
    decreases |chunks| - i
  {
    if i == |chunks| then 0
    else if matching && Chain(chunks, i) in p.cache
      then IdleCharge(p, Chain(chunks, i)) + Worst(p, chunks, i + 1, true)
    else 1 + IdleCharge(p, Chain(chunks, i)) + Worst(p, chunks, i + 1, false)
  }

  /** Past its first miss the prompt's chain has no idle cached block. */
  ghost predicate NothingIdlePastMiss(p: Pool, chunks: seq<seq<Token>>, i: nat, matching: bool)
    requires i <= |chunks|
    decreases |chunks| - i
  {
    i == |chunks|
    || if matching && Chain(chunks, i) in p.cache then NothingIdlePastMiss(p, chunks, i + 1, true)
       else !p.Idle(Chain(chunks, i)) && NothingIdlePastMiss(p, chunks, i + 1, false)
  }

  lemma {:induction false} WorstIsCost(p: Pool, chunks: seq<seq<Token>>, i: nat, matching: bool)
    requires i <= |chunks|
    ensures Cost(p, chunks, i, matching) <= Worst(p, chunks, i, matching)
    ensures NothingIdlePastMiss(p, chunks, i, matching)
       <==> Worst(p, chunks, i, matching) == Cost(p, chunks, i, matching)
    ensures Cost(p, chunks, i, matching) <= |chunks| - i
    decreases |chunks| - i
  {
    if i < |chunks| {
      WorstIsCost(p, chunks, i + 1, matching && Chain(chunks, i) in p.cache);
    }
  }

  // ---- one block

  lemma EvictAvailable(p: Pool, refs: multiset<nat>)
    requires Inv(p, refs)
    ensures EvictOne(p).None? <==> p.NumEvictable() == 0
    ensures EvictOne(p).Some? ==> var q := EvictOne(p).value;
      Available(q) == Available(p) && forall h :: q.Idle(h) ==> p.Idle(h)
  {
    var i := FirstIdle(p, 0);
    if i < |p.lru| {
      var h, q := p.lru[i], EvictOne(p).value;
      assert IdleEntries(q) == IdleEntries(p) - {h};
      assert h in IdleEntries(p);
    } else {
      assert forall h :: h in p.cache ==> h in p.lru && !p.Idle(h);
      assert IdleEntries(p) == {};
    }
  }

  /** If q's idle entries are p's without h, it has one fewer or the same number. */
  lemma IdleLost(p: Pool, q: Pool, hash: Option<Digest>)
    requires forall x :: q.Idle(x) <==> p.Idle(x) && Some(x) != hash
    ensures q.NumEvictable() == p.NumEvictable() - (if hash.Some? then IdleCharge(p, hash.value) else 0)
  {
    var cut := if hash.Some? then {hash.value} else {};
    assert IdleEntries(q) == IdleEntries(p) - cut;
    assert hash.Some? ==> (hash.value in IdleEntries(p) <==> p.Idle(hash.value));
  }

  lemma TakeAvailable(p: Pool, refs: multiset<nat>, hash: Option<Digest>, nTokens: nat)
    requires Inv(p, refs) && p.freeIds != []
    ensures var t := AddBlock(p, hash, nTokens);
      && t.bid.Some?
      && Available(t.pool) == Available(p) - 1 - (if hash.Some? then IdleCharge(p, hash.value) else 0)
      && (forall h :: t.pool.Idle(h) <==> p.Idle(h) && Some(h) != hash)
  {
    TakeIdle(p, refs, hash, nTokens);
    IdleLost(p, AddBlock(p, hash, nTokens).pool, hash);
  }

  lemma TakeIdle(p: Pool, refs: multiset<nat>, hash: Option<Digest>, nTokens: nat)
    requires Inv(p, refs) && p.freeIds != []
    ensures forall h :: AddBlock(p, hash, nTokens).pool.Idle(h) <==> p.Idle(h) && Some(h) != hash
  {
    var b := p.freeIds[|p.freeIds| - 1];
    assert b in p.freeIds;
    assert FreeListOk(p) && CacheOk(p);
    assert forall h :: h in p.cache ==> p.cache[h] != b;
  }

  /** Taking a block uses up one available block, and strands one more at most
      when the entry it registers was idle. */
  lemma AddBlockAvailable(p: Pool, refs: multiset<nat>, hash: Option<Digest>, nTokens: nat)
    requires Inv(p, refs)
    ensures var t := AddBlock(p, hash, nTokens);
      && (t.bid.Some? <==> Available(p) > 0)
      && (t.bid.Some? ==>
            && Available(p) - 1 - (if hash.Some? then IdleCharge(p, hash.value) else 0)
               <= Available(t.pool) <= Available(p) - 1
            && forall h :: t.pool.Idle(h) ==> p.Idle(h) && Some(h) != hash)
  {
    EvictAvailable(p, refs);
    EvictInv(p, refs);
    if p.freeIds == [] {
      AddAfterEvict(p, hash, nTokens);
    }
    hide Inv, EvictOne, AddBlock;
    if p.freeIds != [] {
      TakeAvailable(p, refs, hash, nTokens);
    } else if EvictOne(p).Some? {
      TakeAvailable(EvictOne(p).value, refs, hash, nTokens);
    }
  }

  lemma HitAvailable(p: Pool, refs: multiset<nat>, h: Digest)
    requires Inv(p, refs) && h in p.cache
    ensures Available(HitBlock(p, h)) == Available(p) - IdleCharge(p, h)
    ensures forall x :: HitBlock(p, h).Idle(x) <==> p.Idle(x) && x != h
  {
    HitIdle(p, refs, h);
    HitInv(p, refs, h);
    hide HitBlock, Inv;
    IdleLost(p, HitBlock(p, h), Some(h));
  }

  lemma HitIdle(p: Pool, refs: multiset<nat>, h: Digest)
    requires Inv(p, refs) && h in p.cache
    ensures forall x :: HitBlock(p, h).Idle(x) <==> p.Idle(x) && x != h
  {
    HitInv(p, refs, h);
    assert CacheOk(p);
    var q := HitBlock(p, h);
    hide HitBlock, Inv;
    forall x ensures q.Idle(x) <==> p.Idle(x) && x != h {
      assert x in p.cache && x != h ==> p.cache[x] != p.cache[h];
    }
  }

  // ---- all full blocks

  lemma ChainsDiffer(chunks: seq<seq<Token>>, i: nat, j: nat)
    requires i < j < |chunks|
    ensures Chain(chunks, i) != Chain(chunks, j)
  {
    ChainIsPrefix(chunks, i, chunks, j);
    assert |chunks[..i + 1]| != |chunks[..j + 1]|;
  }

  /** The charges from block i on look only at the digests from i on. */
  lemma {:induction false} ChargesFrame(p: Pool, q: Pool, chunks: seq<seq<Token>>, i: nat)
    requires i <= |chunks|
    requires q.cache == p.cache
    requires forall j :: i <= j < |chunks| ==> (q.Idle(Chain(chunks, j)) <==> p.Idle(Chain(chunks, j)))
    ensures Cost(q, chunks, i, true) == Cost(p, chunks, i, true)
    ensures Worst(q, chunks, i, true) == Worst(p, chunks, i, true)
    decreases |chunks| - i
  {
    if i < |chunks| {
      ChargesFrame(p, q, chunks, i + 1);
      if Chain(chunks, i) !in p.cache {
        WorstFrame(p, q, chunks, i + 1);
        WorstFrame(q, p, chunks, i + 1);
      }
    }
  }

  /** Once matching is over the worst case can only fall. */
  lemma {:induction false} WorstFrame(p: Pool, q: Pool, chunks: seq<seq<Token>>, i: nat)
    requires i <= |chunks|
    requires forall j :: i <= j < |chunks| && q.Idle(Chain(chunks, j)) ==> p.Idle(Chain(chunks, j))
    ensures Worst(q, chunks, i, false) <= Worst(p, chunks, i, false)
    decreases |chunks| - i
  {
    if i < |chunks| {
      WorstFrame(p, q, chunks, i + 1);
    }
  }

  /** One full block: the slack over the least cost never grows, the slack over
      the worst case never shrinks, and only an empty pool stops it. */
  lemma PlaceFullAvailable(p: Pool, refs: multiset<nat>, chunks: seq<seq<Token>>, i: nat, matching: bool)
    requires Inv(p, refs) && i < |chunks|
    ensures var r := PlaceFull(p, Chain(chunks, i), matching);
      && (r.bid.None? ==> Available(p) == 0 && Cost(p, chunks, i, matching) > 0)
      && (r.bid.Some? ==>
            && Available(r.pool) - Cost(r.pool, chunks, i + 1, r.hit) <= Available(p) - Cost(p, chunks, i, matching)
            && Available(r.pool) - Worst(r.pool, chunks, i + 1, r.hit) >= Available(p) - Worst(p, chunks, i, matching))
  {
    var h := Chain(chunks, i);
    forall j | i < j < |chunks| ensures Chain(chunks, j) != h { ChainsDiffer(chunks, i, j); }
    if matching && h in p.cache {
      hide Inv;
      HitAvailable(p, refs, h);
      HitInv(p, refs, h);
      hide HitBlock;
      ChargesFrame(p, HitBlock(p, h), chunks, i + 1);
    } else {
      MissAvailable(p, refs, chunks, i, matching);
    }
  }

  lemma MissAvailable(p: Pool, refs: multiset<nat>, chunks: seq<seq<Token>>, i: nat, matching: bool)
    requires Inv(p, refs) && i < |chunks|
    requires !(matching && Chain(chunks, i) in p.cache)
    requires forall j :: i < j < |chunks| ==> Chain(chunks, j) != Chain(chunks, i)
    ensures var t := AddBlock(CountMiss(p), Some(Chain(chunks, i)), p.blockSize);
      && (t.bid.None? ==> Available(p) == 0 && Cost(p, chunks, i, matching) > 0)
      && (t.bid.Some? ==>
            && Available(t.pool) - Cost(t.pool, chunks, i + 1, false) <= Available(p) - Cost(p, chunks, i, matching)
            && Available(t.pool) - Worst(t.pool, chunks, i + 1, false) >= Available(p) - Worst(p, chunks, i, matching))
  {
    hide Inv, AddBlock;
    var m, h := CountMiss(p), Chain(chunks, i);
    CountMissInv(p, refs);
    assert forall x :: m.Idle(x) <==> p.Idle(x);
    assert IdleEntries(m) == IdleEntries(p);
    AddBlockAvailable(m, refs, Some(h), p.blockSize);
    var t := AddBlock(m, Some(h), p.blockSize);
    if t.bid.Some? {
      WorstFrame(p, t.pool, chunks, i + 1);
    }
  }

  lemma {:induction false} AllocateFullAvailable(
    p: Pool, refs: multiset<nat>, chunks: seq<seq<Token>>, i: nat, prev: Option<Digest>, matching: bool,
    table: seq<nat>, cached: nat)
    requires Inv(p, refs) && i <= |chunks|
    requires prev == if i == 0 then None else Some(Chain(chunks, i - 1))
    ensures var r := AllocateFull(p, chunks, i, prev, matching, table, cached);
      && (r.ok ==> Available(r.pool) <= Available(p) - Cost(p, chunks, i, matching))
      && (Available(p) >= Worst(p, chunks, i, matching) ==>
            r.ok && Available(r.pool) >= Available(p) - Worst(p, chunks, i, matching))
    decreases |chunks| - i
  {
    hide Inv, PlaceFull, Available;
    if i < |chunks| {
      var h := Chain(chunks, i);
      assert h == HashBlock(prev, chunks[i]);
      var r := PlaceFull(p, h, matching);
      PlaceFullInv(p, h, matching, refs);
      PlaceFullAvailable(p, refs, chunks, i, matching);
      WorstIsCost(p, chunks, i, matching);
      if r.bid.Some? {
        AllocateFullAvailable(r.pool, refs + multiset{r.bid.value}, chunks, i + 1, Some(h), r.hit,
                              table + [r.bid.value], if r.hit then cached + p.blockSize else cached);
      }
    }
  }

  // ---- whole prompts

  ghost function PromptCost(p: Pool, tokens: seq<Token>): nat {
    Cost(p, Chunks(tokens, p.blockSize), 0, p.caching) + if |tokens| % p.blockSize == 0 then 0 else 1
  }

  ghost function PromptWorst(p: Pool, tokens: seq<Token>): nat {
    Worst(p, Chunks(tokens, p.blockSize), 0, p.caching) + if |tokens| % p.blockSize == 0 then 0 else 1
  }

  function BlocksFor(n: nat, size: pos): nat {
    (n + size - 1) / size
  }

  lemma BlocksForIs(n: nat, size: pos)
    ensures BlocksFor(n, size) == n / size + if n % size == 0 then 0 else 1
  {
    var q, r := n / size, n % size;
    assert n == q * size + r;
    if r == 0 {
      DivModUnique(n + size - 1, size, q, (size as int) - 1);
    } else {
      assert (q + 1) * size == q * size + size;
      DivModUnique(n + size - 1, size, q + 1, r - 1);
    }
  }

  /** What a prompt allocation can rely on, in any state: it fails when fewer
      blocks than its cost are available, and succeeds when its worst case is. */
  lemma AllocationBounds(p: Pool, refs: multiset<nat>, tokens: seq<Token>)
    requires Inv(p, refs)
    ensures var r := AllocatePrompt(p, tokens);
      && (r.ok ==> Available(r.pool) <= Available(p) - PromptCost(p, tokens))
      && (Available(p) >= PromptWorst(p, tokens) ==>
            r.ok && Available(r.pool) >= Available(p) - PromptWorst(p, tokens))
  {
    hide Inv, AddBlock, Available;
    var chunks := Chunks(tokens, p.blockSize);
    var full := AllocateFull(p, chunks, 0, None, p.caching, [], 0);
    AllocateFullAvailable(p, refs, chunks, 0, None, p.caching, [], 0);
    AllocateFullInv(p, chunks, 0, None, p.caching, [], 0, refs) by {
      assert refs + multiset([]) == refs;
    }
    if full.ok && |tokens| % p.blockSize != 0 {
      AddBlockAvailable(full.pool, refs + multiset(full.table), None, |tokens| % p.blockSize);
    }
  }

  ghost predicate NothingIdleLater(p: Pool, tokens: seq<Token>) {
    NothingIdlePastMiss(p, Chunks(tokens, p.blockSize), 0, p.caching)
  }

  /** THE ADMISSION THEOREM. With no idle cached block past the first miss, the
      allocation succeeds exactly when its cost is available and uses up exactly
      that; so the guard suffices, and leaves the watermark in reserve. */
  lemma GuardSuffices(p: Pool, refs: multiset<nat>, tokens: seq<Token>)
    requires Inv(p, refs) && NothingIdleLater(p, tokens)
    ensures var r := AllocatePrompt(p, tokens);
      && (r.ok <==> Available(p) >= PromptCost(p, tokens))
      && (r.ok ==> Available(r.pool) == Available(p) - PromptCost(p, tokens))
      && (p.CanAllocate(BlocksFor(|tokens|, p.blockSize)) ==> r.ok && Available(r.pool) >= p.watermark)
  {
    AllocationBounds(p, refs, tokens);
    WorstIsCost(p, Chunks(tokens, p.blockSize), 0, p.caching);
    BlocksForIs(|tokens|, p.blockSize);
    hide AllocatePrompt, Inv;
  }

  /** With caching off the condition always holds. */
  lemma {:induction false} NothingIdleUncached(p: Pool, refs: multiset<nat>, chunks: seq<seq<Token>>, i: nat,
                                               matching: bool)
    requires Inv(p, refs) && !p.caching && i <= |chunks|
    ensures NothingIdlePastMiss(p, chunks, i, matching)
    ensures Cost(p, chunks, i, matching) == |chunks| - i
    decreases |chunks| - i
  {
    if i < |chunks| {
      NothingIdleUncached(p, refs, chunks, i + 1, false);
    }
  }
}
