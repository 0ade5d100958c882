/** With caching off no block is ever shared, so free blocks and references add up
    to the pool; and how many blocks one request can come to hold. */
module EngineFit {
  import opened Lists
  import opened PagedSpec
  import opened PagedInvariant
  import opened PagedClasses
  import opened PagedSharing
  import opened PagedHits
  import opened PagedAdmission
  import opened EngineSpec

  // ---- unshared blocks

  ghost predicate Sole(refs: multiset<nat>) {
    forall b :: refs[b] <= 1
  }

  lemma {:induction false} SoleSize(refs: multiset<nat>, blocks: set<nat>)
    requires Sole(refs)
    requires forall b :: b in blocks <==> b in refs
    ensures |refs| == |blocks|
    decreases blocks
  {
    if blocks == {} {
      assert refs == multiset{};
    } else {
      var b :| b in blocks;
      var rest := refs - multiset{b};
      assert forall x :: rest[x] == if x == b then 0 else refs[x];
      SoleSize(rest, blocks - {b});
      assert refs == rest + multiset{b};
    }
  }

  /** Free blocks and references account for the whole pool. */
  lemma FreePlusHeld(p: Pool, refs: multiset<nat>)
    requires Inv(p, refs) && !p.caching && Sole(refs)
    ensures |p.freeIds| + |refs| == |p.blocks|
  {
    Partition(p, refs);
    SoleSize(refs, Where(p, IsReferenced));
  }

  lemma SoleAdd(refs: multiset<nat>, b: nat)
    requires Sole(refs) && refs[b] == 0
    ensures Sole(refs + multiset{b})
  {
  }

  lemma {:induction false} AllocateFullSole(
    p: Pool, chunks: seq<seq<Token>>, i: nat, prev: Option<Digest>, matching: bool,
    table: seq<nat>, cached: nat, refs: multiset<nat>)
    requires i <= |chunks|
    requires Inv(p, refs + multiset(table)) && Sole(refs + multiset(table)) && !p.caching
    ensures var r := AllocateFull(p, chunks, i, prev, matching, table, cached);
      Sole(refs + multiset(r.table)) && !r.pool.caching
    decreases |chunks| - i
  {
    hide Inv, PlaceFull, Sole;
    if i < |chunks| {
      var h := HashBlock(prev, chunks[i]);
      var r := PlaceFull(p, h, matching);
      PlaceFullInv(p, h, matching, refs + multiset(table));
      PlaceFullSole(p, h, matching, refs + multiset(table));
      if r.bid.Some? {
        MultisetSnoc(refs, table, r.bid.value);
        AllocateFullSole(r.pool, chunks, i + 1, Some(h), r.hit, table + [r.bid.value],
                         if r.hit then cached + p.blockSize else cached, refs);
      }
    }
  }

  lemma PlaceFullSole(p: Pool, h: Digest, matching: bool, refs: multiset<nat>)
    requires Inv(p, refs) && Sole(refs) && !p.caching
    ensures var r := PlaceFull(p, h, matching);
      !r.pool.caching && (r.bid.Some? ==> Sole(refs + multiset{r.bid.value}))
  {
    CountMissInv(p, refs);
    AddBlockInv(CountMiss(p), refs, Some(h), p.blockSize);
    assert h !in p.cache;
    hide AddBlock, Inv;
  }

  /** With caching off an admitted prompt gets its blocks, all of them its own. */
  lemma AdmittedPrompt(p: Pool, refs: multiset<nat>, tokens: seq<Token>)
    requires Inv(p, refs) && Sole(refs) && !p.caching
    requires p.CanAllocate(CeilDiv(|tokens|, p.blockSize))
    ensures var r := AllocatePrompt(p, tokens);
      && r.ok && r.cached == 0 && |r.table| == CeilDiv(|tokens|, p.blockSize)
      && Inv(r.pool, refs + multiset(r.table)) && Sole(refs + multiset(r.table)) && SameConfig(p, r.pool)
  {
    hide Inv, AllocatePrompt, Sole, NothingIdlePastMiss;
    NothingIdleUncached(p, refs, Chunks(tokens, p.blockSize), 0, p.caching);
    GuardSuffices(p, refs, tokens);
    PromptShape(p, tokens);
    BlocksForIs(|tokens|, p.blockSize);
    AllocatePromptInv(p, tokens, refs);
    AllocatePromptSole(p, refs, tokens);
  }

  lemma AllocatePromptSole(p: Pool, refs: multiset<nat>, tokens: seq<Token>)
    requires Inv(p, refs) && Sole(refs) && !p.caching
    ensures Sole(refs + multiset(AllocatePrompt(p, tokens).table))
  {
    hide Inv, AddBlock, AllocateFull, Sole;
    assert refs + multiset([]) == refs;
    var chunks := Chunks(tokens, p.blockSize);
    AllocateFullInv(p, chunks, 0, None, p.caching, [], 0, refs);
    AllocateFullSole(p, chunks, 0, None, p.caching, [], 0, refs);
    var full := AllocateFull(p, chunks, 0, None, p.caching, [], 0);
    AddBlockInv(full.pool, refs + multiset(full.table), None, |tokens| % p.blockSize);
    var t := AddBlock(full.pool, None, |tokens| % p.blockSize);
    if t.bid.Some? {
      SoleAdd(refs + multiset(full.table), t.bid.value);
      MultisetSnoc(refs, full.table, t.bid.value);
    }
  }

  /** With a free block at hand, growing an unshared table always succeeds. */
  lemma AppendSole(p: Pool, refs: multiset<nat>, table: seq<nat>, seqLen: nat)
    requires Inv(p, refs) && Sole(refs) && !p.caching
    requires multiset(table) <= refs && table != []
    requires seqLen % p.blockSize == 0 ==> |p.freeIds| > 0
    ensures var r := AppendToken(p, table, seqLen);
      && r.Grown?
      && |r.table| == |table| + (if seqLen % p.blockSize == 0 then 1 else 0)
      && Inv(r.pool, refs - multiset(table) + multiset(r.table))
      && Sole(refs - multiset(table) + multiset(r.table)) && SameConfig(p, r.pool)
  {
    AppendInv(p, table, seqLen, refs);
    if seqLen % p.blockSize == 0 {
      AddBlockInv(p, refs, None, 1);
      AddBlockAvailable(p, refs, None, 1);
      hide Inv, AddBlock;
      var b := AddBlock(p, None, 1).bid.value;
      assert refs - multiset(table) + multiset(table + [b]) == refs + multiset{b};
    } else {
      var last := table[|table| - 1];
      assert multiset(table)[last] >= 1;
      RefCountIs(p, refs, last);
      hide Inv;
      assert refs - multiset(table) + multiset(table) == refs;
    }
  }

  // ---- how large a table gets

  lemma DivMonotone(a: nat, b: nat, d: pos)
    requires a <= b
    ensures a / d <= b / d
    decreases b
  {
    if b >= d {
      DivModStep(b, d);
      if a >= d {
        DivModStep(a, d);
        DivMonotone(a - d, b - d, d);
      } else {
        DivModUnique(a, d, 0, a);
      }
    } else {
      DivModUnique(a, d, 0, a);
      DivModUnique(b, d, 0, b);
    }
  }

  lemma DivNext(n: nat, d: pos)
    requires n > 0
    ensures n / d == (n - 1) / d + if n % d == 0 then 1 else 0
  {
    var q, r := n / d, n % d;
    assert n == q * d + r;
    if r == 0 {
      assert q > 0;
      assert (q - 1) * d == q * d - d;
      DivModUnique(n - 1, d, q - 1, (d as int) - 1);
    } else {
      DivModUnique(n - 1, d, q, r - 1);
    }
  }

  lemma CeilDivIs(n: nat, d: pos)
    ensures CeilDiv(n, d) == n / d + if n % d == 0 then 0 else 1
  {
    BlocksForIs(n, d);
  }

  /** Prompt blocks plus one block per multiple of the block size passed in decode
      never exceed what the whole request needs. */
  lemma TableLimit(p: nat, o: nat, d: pos)
    requires o >= 1
    ensures CeilDiv(p, d) <= CeilDiv(p + o, d)
    ensures CeilDiv(p, d) - p / d + (p + o - 1) / d <= CeilDiv(p + o, d)
  {
    CeilDivIs(p, d);
    CeilDivIs(p + o, d);
    DivNext(p + o, d);
    DivMonotone(p, p + o - 1, d);
  }
}
