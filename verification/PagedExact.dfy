/** When a prompt allocation succeeds, exactly: a count of free blocks and the idle
    cache entries in the order of their eviction decide it. */
module PagedExact {
  import opened Lists
  import opened PagedSpec
  import opened PagedInvariant
  import opened PagedSharing
  import opened PagedAdmission

  /** What an allocation can draw on: free blocks, and idle entries, the next to be
      evicted first. */
  datatype Stock = Stock(free: nat, idle: seq<Digest>)

  /** A block is taken, from the free ones or by evicting; registering `hash` for it
      puts an idle entry of that digest out of reach. */
  function TakeOne(s: Stock, hash: Option<Digest>): Option<Stock> {
    if s.free == 0 && s.idle == [] then None
    else
      var rest := if s.free > 0 then Stock(s.free - 1, s.idle) else Stock(0, s.idle[1..]);
      Some(if hash.Some? then rest.(idle := Remove(rest.idle, hash.value)) else rest)
  }

  /** The blocks of a prompt from block i on: while every block so far was cached a
      cached one is taken out of reach of eviction, any other takes a block. */
  function DrawFull(s: Stock, cached: set<Digest>, chunks: seq<seq<Token>>, i: nat, matching: bool): Option<Stock>
    requires i <= |chunks|
    decreases |chunks| - i
  {
    if i == |chunks| then Some(s)
    else
      var h := Chain(chunks, i);
      if matching && h in cached then DrawFull(s.(idle := Remove(s.idle, h)), cached, chunks, i + 1, true)
      else match TakeOne(s, Some(h))
        case None => None
        case Some(s1) => DrawFull(s1, cached, chunks, i + 1, false)
  }

  /** A whole prompt, with its partial last block. */
  function Draw(s: Stock, cached: set<Digest>, tokens: seq<Token>, size: pos, caching: bool): Option<Stock> {
    match DrawFull(s, cached, Chunks(tokens, size), 0, caching)
    case None => None
    case Some(s1) => if |tokens| % size == 0 then Some(s1) else TakeOne(s1, None)
  }

  // ---- the stock of a pool

  function IdleIn(p: Pool, lru: seq<Digest>): seq<Digest> {
    if lru == [] then [] else (if p.Idle(lru[0]) then [lru[0]] else []) + IdleIn(p, lru[1..])
  }

  function StockOf(p: Pool): Stock {
    Stock(|p.freeIds|, IdleIn(p, p.lru))
  }

  lemma {:induction false} IdleMember(p: Pool, lru: seq<Digest>, h: Digest)
    ensures h in IdleIn(p, lru) <==> h in lru && p.Idle(h)
  {
    if lru != [] {
      IdleMember(p, lru[1..], h);
    }
  }

  lemma {:induction false} IdleAppend(p: Pool, a: seq<Digest>, b: seq<Digest>)
    ensures IdleIn(p, a + b) == IdleIn(p, a) + IdleIn(p, b)
  {
    if a == [] {
      assert a + b == b;
    } else {
      assert (a + b)[1..] == a[1..] + b;
      IdleAppend(p, a[1..], b);
    }
  }

  /** One entry is no longer idle: it drops out and the others keep their order. */
  lemma {:induction false} IdleDropped(p: Pool, q: Pool, lru: seq<Digest>, h: Digest)
    requires NoDup(lru) && forall x :: x in lru ==> (q.Idle(x) <==> p.Idle(x) && x != h)
    ensures IdleIn(q, lru) == Remove(IdleIn(p, lru), h)
  {
    if lru != [] {
      var rest := lru[1..];
      assert forall x :: x in rest ==> x in lru && x != lru[0];
      IdleDropped(p, q, rest, h);
      IdleMember(p, rest, lru[0]);
      if p.Idle(lru[0]) {
        assert IdleIn(p, lru)[1..] == IdleIn(p, rest);
      } else {
        assert IdleIn(p, lru) == IdleIn(p, rest);
      }
    }
  }

  lemma {:induction false} IdleSame(p: Pool, q: Pool, lru: seq<Digest>)
    requires forall x :: x in lru ==> (q.Idle(x) <==> p.Idle(x))
    ensures IdleIn(q, lru) == IdleIn(p, lru)
  {
    if lru != [] {
      IdleSame(p, q, lru[1..]);
    }
  }

  /** An entry that is not idle does not show. */
  lemma {:induction false} BusyRemoved(p: Pool, lru: seq<Digest>, h: Digest)
    requires !p.Idle(h)
    ensures IdleIn(p, Remove(lru, h)) == IdleIn(p, lru)
  {
    if lru != [] && lru[0] != h {
      BusyRemoved(p, lru[1..], h);
      assert Remove(lru, h)[1..] == Remove(lru[1..], h);
    }
  }

  lemma NoneIdle(p: Pool, lru: seq<Digest>)
    requires forall x :: x in lru ==> !p.Idle(x)
    ensures IdleIn(p, lru) == []
  {
  }

  // ---- the operations on the stock

  lemma HitStock(p: Pool, refs: multiset<nat>, h: Digest)
    requires Inv(p, refs) && h in p.cache
    ensures StockOf(HitBlock(p, h)) == Stock(|p.freeIds|, Remove(IdleIn(p, p.lru), h))
    ensures HitBlock(p, h).cache == p.cache
  {
    var q := HitBlock(p, h);
    HitIdle(p, refs, h);
    HitFree(p, h);
    assert q.lru == Remove(p.lru, h) + [h] && NoDup(p.lru) && !q.Idle(h);
    hide HitBlock, Inv;
    IdleAppend(q, Remove(p.lru, h), [h]);
    BusyRemoved(q, p.lru, h);
    IdleDropped(p, q, p.lru, h);
    assert [h][1..] == [] && IdleIn(q, [h]) == [];
  }

  lemma TakeLru(p: Pool, refs: multiset<nat>, hash: Option<Digest>, nTokens: nat)
    requires Inv(p, refs) && p.freeIds != []
    ensures
      var t := AddBlock(p, hash, nTokens);
      && t.bid.Some? && |t.pool.freeIds| == |p.freeIds| - 1 && NoDup(p.lru)
      && (t.pool.lru == p.lru || (hash.Some? && t.pool.lru == p.lru + [hash.value]))
  {
  }

  lemma IdleUnless(p: Pool, q: Pool, hash: Option<Digest>)
    requires NoDup(p.lru) && (q.lru == p.lru || (hash.Some? && q.lru == p.lru + [hash.value]))
    requires forall x :: q.Idle(x) <==> p.Idle(x) && Some(x) != hash
    ensures IdleIn(q, q.lru) == if hash.Some? then Remove(IdleIn(p, p.lru), hash.value) else IdleIn(p, p.lru)
  {
    if hash.Some? {
      IdleDropped(p, q, p.lru, hash.value);
      IdleAppend(q, p.lru, [hash.value]);
      assert [hash.value][1..] == [] && IdleIn(q, [hash.value]) == [];
    } else {
      IdleSame(p, q, p.lru);
    }
  }

  lemma TakeStock(p: Pool, refs: multiset<nat>, hash: Option<Digest>, nTokens: nat)
    requires Inv(p, refs) && p.freeIds != []
    ensures
      var t := AddBlock(p, hash, nTokens);
      t.bid.Some? && TakeOne(StockOf(p), hash) == Some(StockOf(t.pool))
  {
    hide AddBlock, Inv, IdleIn;
    TakeIdle(p, refs, hash, nTokens);
    TakeLru(p, refs, hash, nTokens);
    IdleUnless(p, AddBlock(p, hash, nTokens).pool, hash);
  }

  /** The first idle entry is the one evicted. */
  lemma EvictStock(p: Pool, refs: multiset<nat>)
    requires Inv(p, refs)
    ensures EvictOne(p).None? <==> StockOf(p).idle == []
    ensures EvictOne(p).Some? ==>
              StockOf(EvictOne(p).value) == Stock(|p.freeIds| + 1, StockOf(p).idle[1..])
  {
    var i := FirstIdle(p, 0);
    hide Inv;
    IdleSplit(p, i);
    if i < |p.lru| {
      EvictedIdle(p, refs);
      var q := EvictOne(p).value;
      assert q.lru == p.lru[..i] + p.lru[i + 1..];
      hide EvictOne;
      IdleSame(p, q, q.lru);
      IdleAppend(p, p.lru[..i], p.lru[i + 1..]);
    }
  }

  lemma IdleSplit(p: Pool, i: nat)
    requires i <= |p.lru| && forall k :: 0 <= k < i ==> !p.Idle(p.lru[k])
    ensures IdleIn(p, p.lru[..i]) == []
    ensures IdleIn(p, p.lru) == if i < |p.lru| then IdleIn(p, p.lru[i..]) else []
    ensures i < |p.lru| && p.Idle(p.lru[i]) ==> IdleIn(p, p.lru[i..]) == [p.lru[i]] + IdleIn(p, p.lru[i + 1..])
  {
    assert p.lru == p.lru[..i] + p.lru[i..];
    IdleAppend(p, p.lru[..i], p.lru[i..]);
    NoneIdle(p, p.lru[..i]);
    if i < |p.lru| {
      assert p.lru[i..][0] == p.lru[i] && p.lru[i..][1..] == p.lru[i + 1..];
    }
  }

  lemma EvictedIdle(p: Pool, refs: multiset<nat>)
    requires Inv(p, refs) && FirstIdle(p, 0) < |p.lru|
    ensures
      var h, q := p.lru[FirstIdle(p, 0)], EvictOne(p).value;
      && |q.freeIds| == |p.freeIds| + 1
      && forall x :: x in q.lru ==> (q.Idle(x) <==> p.Idle(x))
  {
    RemoveAtNoDup(p.lru, FirstIdle(p, 0));
  }

  lemma AddStock(p: Pool, refs: multiset<nat>, hash: Option<Digest>, nTokens: nat)
    requires Inv(p, refs)
    ensures
      var t := AddBlock(p, hash, nTokens);
      && (t.bid.Some? <==> TakeOne(StockOf(p), hash).Some?)
      && (t.bid.Some? ==> TakeOne(StockOf(p), hash) == Some(StockOf(t.pool)))
  {
    if p.freeIds == [] {
      EvictStock(p, refs);
      AddAfterEvict(p, hash, nTokens);
      if EvictOne(p).Some? {
        EvictInv(p, refs);
        hide Inv, EvictOne, AddBlock, IdleIn;
        TakeStock(EvictOne(p).value, refs, hash, nTokens);
      }
    } else {
      hide Inv, AddBlock, IdleIn;
      TakeStock(p, refs, hash, nTokens);
    }
  }

  lemma CountedStock(p: Pool, refs: multiset<nat>)
    requires Inv(p, refs)
    ensures Inv(CountMiss(p), refs) && StockOf(CountMiss(p)) == StockOf(p)
  {
    IdleSame(p, CountMiss(p), p.lru);
    CountMissInv(p, refs);
  }

  lemma {:induction false} AllocateFullStock(
    p: Pool, refs: multiset<nat>, chunks: seq<seq<Token>>, i: nat, prev: Option<Digest>, matching: bool,
    table: seq<nat>, cached: nat)
    requires Inv(p, refs) && i <= |chunks|
    requires prev == if i == 0 then None else Some(Chain(chunks, i - 1))
    ensures
      var r := AllocateFull(p, chunks, i, prev, matching, table, cached);
      var left := DrawFull(StockOf(p), p.cache.Keys, chunks, i, matching);
      && (r.ok <==> left.Some?) && (r.ok ==> left == Some(StockOf(r.pool)))
    decreases |chunks| - i
  {
    hide Inv, StockOf, TakeOne, AddBlock, HitBlock;
    if i < |chunks| {
      var h := Chain(chunks, i);
      assert h == HashBlock(prev, chunks[i]);
      var r := PlaceFull(p, h, matching);
      PlaceFullInv(p, h, matching, refs);
      if matching && h in p.cache {
        HitStock(p, refs, h);
        StockIs(p);
      } else {
        CountedStock(p, refs);
        AddStock(CountMiss(p), refs, Some(h), p.blockSize);
        if r.bid.Some? {
          MissesAnyway(StockOf(r.pool), p.cache.Keys, r.pool.cache.Keys, chunks, i + 1);
        }
      }
      if r.bid.Some? {
        AllocateFullStock(r.pool, refs + multiset{r.bid.value}, chunks, i + 1, Some(h), r.hit,
                          table + [r.bid.value], if r.hit then cached + p.blockSize else cached);
      }
    }
  }

  lemma StockIs(p: Pool)
    ensures StockOf(p) == Stock(|p.freeIds|, IdleIn(p, p.lru))
  {
  }

  /** After a miss it no longer matters what is cached. */
  lemma {:induction false} MissesAnyway(s: Stock, a: set<Digest>, b: set<Digest>, chunks: seq<seq<Token>>, i: nat)
    requires i <= |chunks|
    ensures DrawFull(s, a, chunks, i, false) == DrawFull(s, b, chunks, i, false)
    decreases |chunks| - i
  {
    hide TakeOne;
    if i < |chunks| && TakeOne(s, Some(Chain(chunks, i))).Some? {
      MissesAnyway(TakeOne(s, Some(Chain(chunks, i))).value, a, b, chunks, i + 1);
    }
  }

  /** In every state of the pool a prompt allocation succeeds exactly when the stock
      can be drawn on to its end, and leaves exactly what the drawing leaves. */
  lemma AllocationExact(p: Pool, refs: multiset<nat>, tokens: seq<Token>)
    requires Inv(p, refs)
    ensures
      var r := AllocatePrompt(p, tokens);
      var left := Draw(StockOf(p), p.cache.Keys, tokens, p.blockSize, p.caching);
      && (r.ok <==> left.Some?) && (r.ok ==> left == Some(StockOf(r.pool)))
  {
    hide Inv, StockOf, TakeOne, AddBlock, AllocateFull, DrawFull;
    var chunks := Chunks(tokens, p.blockSize);
    var full := AllocateFull(p, chunks, 0, None, p.caching, [], 0);
    AllocateFullStock(p, refs, chunks, 0, None, p.caching, [], 0);
    AllocateFullInv(p, chunks, 0, None, p.caching, [], 0, refs) by {
      assert refs + multiset([]) == refs;
    }
    if full.ok && |tokens| % p.blockSize != 0 {
      AddStock(full.pool, refs + multiset(full.table), None, |tokens| % p.blockSize);
    }
  }
}
