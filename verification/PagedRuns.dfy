/** The sharing invariant over whole runs: any interleaving of prompt
    allocations, appends and frees, failing calls included. */
module PagedRuns {
  import opened Lists
  import opened PagedSpec
  import opened PagedInvariant
  import opened PagedSharing
  import opened PagedClasses

  // ---- what a client keeps

  /** Nothing `c` relies on differs between (p, refs) and (q, refs'). */
  ghost predicate Untouched(p: Pool, refs: multiset<nat>, q: Pool, refs': multiset<nat>, c: Client) {
    && SameConfig(p, q)
    && forall x :: x in c.table && x < |p.blocks| ==>
         && q.blocks[x].nTokens == p.blocks[x].nTokens
         && q.blocks[x].contentHash == p.blocks[x].contentHash
         && (p.blocks[x].contentHash.None? ==> refs'[x] == refs[x])
  }

  /** Every block in use holds the same content in both pools. */
  ghost predicate SameContents(p: Pool, q: Pool, refs: multiset<nat>) {
    forall x :: x in refs ==>
      && x < |p.blocks| && x < |q.blocks|
      && q.blocks[x].nTokens == p.blocks[x].nTokens
      && q.blocks[x].contentHash == p.blocks[x].contentHash
  }

  lemma ClientFrame(p: Pool, refs: multiset<nat>, q: Pool, refs': multiset<nat>, c: Client)
    requires ClientOk(p, refs, c)
    requires Untouched(p, refs, q, refs', c)
    ensures ClientOk(q, refs', c)
  {
    forall j | 0 <= j < |c.table| ensures SlotOk(q, refs', c, j) {
      assert SlotOk(p, refs, c, j);
    }
  }

  lemma InRefs(cs: seq<Client>, k: nat, x: nat)
    requires k < |cs| && x in cs[k].table
    ensures x in Refs(cs)
  {
    RefsCover(cs, k);
    assert multiset(cs[k].table)[x] >= 1;
  }

  // ---- adding a block

  lemma AddBlockCache(p: Pool, hash: Option<Digest>, nTokens: nat)
    ensures var t := AddBlock(p, hash, nTokens);
      forall h :: h in t.pool.cache ==>
        (h in p.cache && t.pool.cache[h] == p.cache[h]) || (hash == Some(h) && Some(t.pool.cache[h]) == t.bid)
  {
  }

  /** Adding a block leaves every other table's blocks as they were. */
  lemma AddBlockUntouched(p: Pool, refs: multiset<nat>, hash: Option<Digest>, nTokens: nat)
    requires Inv(p, refs) && CacheFull(p)
    requires hash.Some? ==> nTokens == p.blockSize
    ensures var t := AddBlock(p, hash, nTokens);
      CacheFull(t.pool)
      && forall x :: x in refs ==> x < |p.blocks| && x < |t.pool.blocks| && t.pool.blocks[x] == p.blocks[x]
  {
    AddBlockInv(p, refs, hash, nTokens);
    assert RefsOk(p, refs);
    AddBlockCacheFull(p, refs, hash, nTokens);
    hide AddBlock, CacheFull, Inv;
  }

  lemma AddBlockCacheFull(p: Pool, refs: multiset<nat>, hash: Option<Digest>, nTokens: nat)
    requires Inv(p, refs) && CacheFull(p)
    requires hash.Some? ==> nTokens == p.blockSize
    ensures CacheFull(AddBlock(p, hash, nTokens).pool)
  {
    AddBlockInv(p, refs, hash, nTokens);
    AddBlockCache(p, hash, nTokens);
    var q := AddBlock(p, hash, nTokens).pool;
    assert CacheOk(p) && CacheOk(q) by {
      assert exists r :: Inv(q, r) by {
        assert Inv(q, refs) || Inv(q, refs + multiset{AddBlock(p, hash, nTokens).bid.value});
      }
    }
    hide AddBlock, Inv;
    forall h | h in q.cache ensures q.BlockAt(q.cache[h]).nTokens == p.blockSize {
      assert q.cache[h] < |q.blocks|;
    }
  }

  lemma HitUntouched(p: Pool, refs: multiset<nat>, h: Digest)
    requires Inv(p, refs) && CacheFull(p) && h in p.cache
    ensures CacheFull(HitBlock(p, h)) && SameContents(p, HitBlock(p, h), refs)
    ensures p.BlockAt(p.cache[h]).contentHash == Some(h)
    ensures p.BlockAt(p.cache[h]).nTokens == p.blockSize
  {
    assert CacheOk(p) && RefsOk(p, refs);
    hide Inv;
  }

  /** Placing a full block gives the table a block with exactly this digest. */
  lemma PlaceFullUntouched(p: Pool, refs: multiset<nat>, h: Digest, matching: bool)
    requires Inv(p, refs) && CacheFull(p)
    ensures var r := PlaceFull(p, h, matching);
      && CacheFull(r.pool)
      && SameContents(p, r.pool, refs)
      && match r.bid
         case None => true
         case Some(b) =>
           && b < |r.pool.blocks|
           && r.pool.blocks[b].nTokens == p.blockSize
           && r.pool.blocks[b].contentHash == Some(h)
           && (b in refs ==> p.blocks[b].contentHash.Some?)
  {
    if matching && h in p.cache {
      HitUntouched(p, refs, h);
      HitInv(p, refs, h);
    } else {
      assert Inv(CountMiss(p), refs) && CacheFull(CountMiss(p));
      AddBlockUntouched(CountMiss(p), refs, Some(h), p.blockSize);
      AddBlockInv(CountMiss(p), refs, Some(h), p.blockSize);
    }
  }

  lemma ChainOfTake(chunks: seq<seq<Token>>, k: nat, j: nat)
    requires j < k <= |chunks|
    ensures Chain(chunks[..k], j) == Chain(chunks, j)
  {
    ChainIsPrefix(chunks[..k], j, chunks, j);
    assert chunks[..k][..j + 1] == chunks[..j + 1];
  }

  ghost predicate AllOk(p: Pool, refs: multiset<nat>, cs: seq<Client>) {
    forall k :: 0 <= k < |cs| ==> ClientOk(p, refs, cs[k])
  }

  /** One more full block of a prompt, with the digest the sharing rule asks for. */
  lemma PlaceFullSharing(p: Pool, cs: seq<Client>, chunks: seq<seq<Token>>, i: nat,
                         table: seq<nat>, matching: bool)
    requires i < |chunks| && |chunks[i]| == p.blockSize
    requires SharingInv(p, cs + [Client(table, chunks[..i], [])])
    ensures var r := PlaceFull(p, Chain(chunks, i), matching);
      match r.bid
      case None => SharingInv(r.pool, cs + [Client(table, chunks[..i], [])])
      case Some(b) => SharingInv(r.pool, cs + [Client(table + [b], chunks[..i + 1], [])])
  {
    hide Inv, PlaceFull, CacheFull, ClientOk;
    var cur := Client(table, chunks[..i], []);
    var refs := Refs(cs + [cur]);
    var h := Chain(chunks, i);
    var r := PlaceFull(p, h, matching);
    PlaceFullInv(p, h, matching, refs);
    PlaceFullUntouched(p, refs, h, matching);
    var refs' := if r.bid.Some? then refs + multiset{r.bid.value} else refs;
    forall k | 0 <= k < |cs + [cur]| ensures ClientOk(r.pool, refs', (cs + [cur])[k]) {
      var c := (cs + [cur])[k];
      forall x | x in c.table ensures x in refs { InRefs(cs + [cur], k, x); }
      ClientFrame(p, refs, r.pool, refs', c);
    }
    if r.bid.Some? {
      var cur' := Client(table + [r.bid.value], chunks[..i + 1], []);
      assert ClientOk(r.pool, refs', (cs + [cur])[|cs|]);
      CurrentGrows(r.pool, refs', chunks, i, table, r.bid.value);
      RefsSnoc(cs, cur);
      RefsSnoc(cs, cur');
      MultisetSnoc(Refs(cs), table, r.bid.value);
      assert refs' == Refs(cs + [cur']);
      forall k | 0 <= k < |cs + [cur']| ensures ClientOk(r.pool, refs', (cs + [cur'])[k]) {
        assert k < |cs| ==> (cs + [cur])[k] == (cs + [cur'])[k];
      }
    }
  }

  lemma CurrentGrows(q: Pool, refs: multiset<nat>, chunks: seq<seq<Token>>, i: nat, table: seq<nat>, b: nat)
    requires i < |chunks| && |chunks[i]| == q.blockSize
    requires ClientOk(q, refs, Client(table, chunks[..i], []))
    requires b < |q.blocks| && q.blocks[b].nTokens == q.blockSize
    requires q.blocks[b].contentHash == Some(Chain(chunks, i))
    ensures ClientOk(q, refs, Client(table + [b], chunks[..i + 1], []))
  {
    var cur := Client(table, chunks[..i], []);
    var cur' := Client(table + [b], chunks[..i + 1], []);
    forall k | 0 <= k < i + 1 ensures |cur'.chunks[k]| == q.blockSize {
      assert k < i ==> cur.chunks[k] == cur'.chunks[k];
    }
    forall j | 0 <= j < i + 1 ensures SlotOk(q, refs, cur', j) {
      ChainOfTake(chunks, i + 1, j);
      if j < i {
        ChainOfTake(chunks, i, j);
        assert SlotOk(q, refs, cur, j);
      }
    }
  }

  lemma PlaceFullSize(p: Pool, cs: seq<Client>, h: Digest, matching: bool)
    requires SharingInv(p, cs)
    ensures PlaceFull(p, h, matching).pool.blockSize == p.blockSize
  {
    PlaceFullInv(p, h, matching, Refs(cs));
  }

  lemma {:induction false} AllocateFullSharing(
    p: Pool, cs: seq<Client>, chunks: seq<seq<Token>>, i: nat, prev: Option<Digest>, matching: bool,
    table: seq<nat>, cached: nat)
    requires i <= |chunks|
    requires forall k :: 0 <= k < |chunks| ==> |chunks[k]| == p.blockSize
    requires prev == if i == 0 then None else Some(Chain(chunks, i - 1))
    requires |table| == i
    requires SharingInv(p, cs + [Client(table, chunks[..i], [])])
    ensures var r := AllocateFull(p, chunks, i, prev, matching, table, cached);
      && |r.table| <= |chunks| && (r.ok ==> |r.table| == |chunks|)
      && SharingInv(r.pool, cs + [Client(r.table, chunks[..|r.table|], [])])
    decreases |chunks| - i
  {
    hide SharingInv, PlaceFull;
    if i < |chunks| {
      var h := Chain(chunks, i);
      assert h == HashBlock(prev, chunks[i]);
      var r := PlaceFull(p, h, matching);
      PlaceFullSharing(p, cs, chunks, i, table, matching);
      PlaceFullSize(p, cs + [Client(table, chunks[..i], [])], h, matching);
      if r.bid.Some? {
        AllocateFullSharing(r.pool, cs, chunks, i + 1, Some(h), r.hit, table + [r.bid.value],
                            if r.hit then cached + p.blockSize else cached);
      }
    }
  }

  // ---- prompt allocation

  function TailOf(tokens: seq<Token>, size: pos): seq<Token> {
    if |tokens| < size then tokens else TailOf(tokens[size..], size)
  }

  lemma {:induction false} ChunksContent(tokens: seq<Token>, size: pos)
    ensures Flatten(Chunks(tokens, size)) + TailOf(tokens, size) == tokens
    ensures |TailOf(tokens, size)| == |tokens| % size
    ensures forall k :: 0 <= k < |Chunks(tokens, size)| ==> |Chunks(tokens, size)[k]| == size
    decreases |tokens|
  {
    if |tokens| < size {
      DivModUnique(|tokens|, size, 0, |tokens|);
    } else {
      ChunksContent(tokens[size..], size);
      DivModStep(|tokens|, size);
      assert Chunks(tokens, size)[1..] == Chunks(tokens[size..], size);
    }
  }

  /** The client an allocation leaves behind: the caller's on success; on failure
      the full blocks taken before OutOfBlocks, which no caller holds. */
  function Built(r: Allocation, tokens: seq<Token>, size: pos): Client
    requires |r.table| <= |Chunks(tokens, size)| || r.ok
  {
    var chunks := Chunks(tokens, size);
    if r.ok then Client(r.table, chunks, TailOf(tokens, size))
    else Client(r.table, chunks[..|r.table|], [])
  }

  lemma AllocatePromptSharing(p: Pool, cs: seq<Client>, tokens: seq<Token>)
    requires SharingInv(p, cs)
    ensures var r := AllocatePrompt(p, tokens);
      && (r.ok || |r.table| <= |Chunks(tokens, p.blockSize)|)
      && SharingInv(r.pool, cs + [Built(r, tokens, p.blockSize)])
      && (r.ok ==> Content(Built(r, tokens, p.blockSize)) == tokens)
  {
    hide Inv, AddBlock, AllocateFull, ClientOk, CacheFull;
    var chunks := Chunks(tokens, p.blockSize);
    ChunksContent(tokens, p.blockSize);
    StartClient(p, cs, chunks);
    AllocateFullSharing(p, cs, chunks, 0, None, p.caching, [], 0);
    var full := AllocateFull(p, chunks, 0, None, p.caching, [], 0);
    AllocateFullInv(p, chunks, 0, None, p.caching, [], 0, Refs(cs)) by {
      assert Refs(cs) + multiset([]) == Refs(cs);
    }
    if full.ok {
      assert chunks[..|chunks|] == chunks;
      if |tokens| % p.blockSize != 0 {
        AllocateTailSharing(full, cs, chunks, TailOf(tokens, p.blockSize));
      }
    }
  }

  lemma StartClient(p: Pool, cs: seq<Client>, chunks: seq<seq<Token>>)
    requires SharingInv(p, cs)
    ensures SharingInv(p, cs + [Client([], chunks[..0], [])])
  {
    var c := Client([], chunks[..0], []);
    RefsSnoc(cs, c);
    assert Refs(cs) + multiset([]) == Refs(cs);
    assert ClientOk(p, Refs(cs), c);
  }

  lemma AllocateTailSharing(full: Allocation, cs: seq<Client>, chunks: seq<seq<Token>>, tail: seq<Token>)
    requires full.ok && 0 < |tail| < full.pool.blockSize && |full.table| == |chunks|
    requires SharingInv(full.pool, cs + [Client(full.table, chunks, [])])
    ensures var r := AllocateTail(full, |tail|);
      if r.ok then SharingInv(r.pool, cs + [Client(r.table, chunks, tail)])
      else r.table == full.table && SharingInv(r.pool, cs + [Client(full.table, chunks, [])])
  {
    hide Inv, AddBlock, CacheFull, ClientOk;
    var cur := Client(full.table, chunks, []);
    var refs := Refs(cs + [cur]);
    var t := AddBlock(full.pool, None, |tail|);
    AddBlockInv(full.pool, refs, None, |tail|);
    AddBlockUntouched(full.pool, refs, None, |tail|);
    if t.bid.Some? {
      var refs' := refs + multiset{t.bid.value};
      var cur' := Client(full.table + [t.bid.value], chunks, tail);
      RefsSnoc(cs, cur);
      RefsSnoc(cs, cur');
      MultisetSnoc(Refs(cs), full.table, t.bid.value);
      assert refs' == Refs(cs + [cur']);
      OthersKeep(full.pool, refs, t.pool, refs', cs + [cur]);
      assert ClientOk(t.pool, refs', (cs + [cur])[|cs|]);
      TailGrows(t.pool, refs', chunks, full.table, t.bid.value, tail);
      forall k | 0 <= k < |cs + [cur']| ensures ClientOk(t.pool, refs', (cs + [cur'])[k]) {
        assert k < |cs| ==> (cs + [cur])[k] == (cs + [cur'])[k];
      }
    } else {
      OthersKeep(full.pool, refs, t.pool, refs, cs + [cur]);
    }
  }

  lemma TailGrows(q: Pool, refs: multiset<nat>, chunks: seq<seq<Token>>, table: seq<nat>, b: nat, tail: seq<Token>)
    requires ClientOk(q, refs, Client(table, chunks, []))
    requires 0 < |tail| < q.blockSize
    requires b < |q.blocks| && q.blocks[b] == Block(1, None, |tail|) && refs[b] == 1
    ensures ClientOk(q, refs, Client(table + [b], chunks, tail))
  {
    var c, c' := Client(table, chunks, []), Client(table + [b], chunks, tail);
    forall j | 0 <= j < |c'.table| ensures SlotOk(q, refs, c', j) {
      if j < |table| {
        assert SlotOk(q, refs, c, j);
      }
    }
  }

  /** A block taken from outside `refs` disturbs none of the tables in `refs`. */
  lemma OthersKeep(p: Pool, refs: multiset<nat>, q: Pool, refs': multiset<nat>, cs: seq<Client>)
    requires refs == Refs(cs) && AllOk(p, refs, cs) && SameConfig(p, q)
    requires forall x :: x in refs ==> x < |p.blocks| && q.blocks[x] == p.blocks[x] && refs'[x] == refs[x]
    ensures AllOk(q, refs', cs)
  {
    forall k | 0 <= k < |cs| ensures ClientOk(q, refs', cs[k]) {
      forall x | x in cs[k].table ensures x in refs { InRefs(cs, k, x); }
      ClientFrame(p, refs, q, refs', cs[k]);
    }
  }

  // ---- appending a token

  /** The client after one more token. */
  function Extended(c: Client, table: seq<nat>, token: Token, size: pos): Client {
    if |c.tail| + 1 == size then Client(table, c.chunks + [c.tail + [token]], [])
    else Client(table, c.chunks, c.tail + [token])
  }

  lemma ExtendedContent(c: Client, table: seq<nat>, token: Token, size: pos)
    ensures Content(Extended(c, table, token, size)) == Content(c) + [token]
  {
    FlattenAppend(c.chunks, [c.tail + [token]]);
    assert Flatten([c.tail + [token]]) == c.tail + [token] by {
      assert [c.tail + [token]][1..] == [];
    }
  }

  /** Full blocks in use are the same after as before. */
  ghost predicate FullBlocksKept(p: Pool, q: Pool, refs: multiset<nat>) {
    forall b :: b in refs && p.BlockAt(b).nTokens == p.blockSize ==> q.BlockAt(b) == p.BlockAt(b)
  }

  /** Appending with the table's true length adds exactly the token, never finds a
      shared tail, never fails to find a tail, writes into no full block, and keeps
      sharing sound. */
  lemma AppendSharing(p: Pool, cs: seq<Client>, k: nat, token: Token)
    requires SharingInv(p, cs) && k < |cs|
    ensures var r := AppendToken(p, cs[k].table, |Content(cs[k])|);
      && !r.IndexError?
      && (r.OutOfBlocks? ==> SharingInv(r.pool, cs))
      && (r.Grown? ==>
            && SharingInv(r.pool, cs[k := Extended(cs[k], r.table, token, p.blockSize)])
            && Content(Extended(cs[k], r.table, token, p.blockSize)) == Content(cs[k]) + [token])
      && r.pool.stats.cowCopies == p.stats.cowCopies
      && FullBlocksKept(p, r.pool, Refs(cs))
  {
    var c := cs[k];
    assert ClientOk(p, Refs(cs), c);
    TableCoverage(p, Refs(cs), c);
    var r := AppendToken(p, c.table, |Content(c)|);
    if r.Grown? {
      ExtendedContent(c, r.table, token, p.blockSize);
    }
    if c.tail == [] {
      AppendNewBlock(p, cs, k, token);
    } else {
      AppendInTail(p, cs, k, token);
    }
  }

  lemma AppendNewBlock(p: Pool, cs: seq<Client>, k: nat, token: Token)
    requires SharingInv(p, cs) && k < |cs| && cs[k].tail == []
    ensures var t := AddBlock(p, None, 1);
      && (t.bid.None? ==> SharingInv(t.pool, cs))
      && (t.bid.Some? ==>
            SharingInv(t.pool, cs[k := Extended(cs[k], cs[k].table + [t.bid.value], token, p.blockSize)]))
      && t.pool.stats.cowCopies == p.stats.cowCopies
      && FullBlocksKept(p, t.pool, Refs(cs))
  {
    var refs, c := Refs(cs), cs[k];
    var t := AddBlock(p, None, 1);
    AddBlockCow(p, None, 1);
    AddBlockInv(p, refs, None, 1);
    AddBlockUntouched(p, refs, None, 1);
    hide Inv, AddBlock, CacheFull, ClientOk;
    if t.bid.Some? {
      NewTailSharing(p, cs, k, token, t.pool, t.bid.value);
    } else {
      OthersKeep(p, refs, t.pool, refs, cs);
    }
  }

  lemma AddBlockCow(p: Pool, hash: Option<Digest>, nTokens: nat)
    ensures AddBlock(p, hash, nTokens).pool.stats.cowCopies == p.stats.cowCopies
  {
  }

  lemma NewTailSharing(p: Pool, cs: seq<Client>, k: nat, token: Token, q: Pool, b: nat)
    requires k < |cs| && cs[k].tail == []
    requires AllOk(p, Refs(cs), cs) && SameConfig(p, q)
    requires forall x :: x in Refs(cs) ==> x < |p.blocks| && q.blocks[x] == p.blocks[x]
    requires b < |q.blocks| && Refs(cs)[b] == 0 && q.blocks[b] == Block(1, None, 1)
    ensures var cs' := cs[k := Extended(cs[k], cs[k].table + [b], token, p.blockSize)];
      AllOk(q, Refs(cs'), cs') && Refs(cs') == Refs(cs) + multiset{b}
  {
    hide ClientOk;
    var refs, c := Refs(cs), cs[k];
    var c' := Extended(c, c.table + [b], token, p.blockSize);
    var refs' := refs + multiset{b};
    OthersKeep(p, refs, q, refs', cs);
    NewTailOk(q, refs', c, b, token);
    assert Refs(cs[k := c']) == refs' by {
      RefsUpdate(cs, k, c');
      RefsCover(cs, k);
      AppendRefs(refs, c.table, b);
    }
    hide *;
  }

  lemma AppendRefs(refs: multiset<nat>, table: seq<nat>, b: nat)
    requires multiset(table) <= refs
    ensures refs - multiset(table) + multiset(table + [b]) == refs + multiset{b}
  {
  }

  lemma NewTailOk(q: Pool, refs: multiset<nat>, c: Client, b: nat, token: Token)
    requires ClientOk(q, refs, c) && c.tail == []
    requires b < |q.blocks| && q.blocks[b] == Block(1, None, 1) && refs[b] == 1
    ensures ClientOk(q, refs, Extended(c, c.table + [b], token, q.blockSize))
  {
    var c' := Extended(c, c.table + [b], token, q.blockSize);
    forall j | 0 <= j < |c'.table| ensures SlotOk(q, refs, c', j) {
      if j < |c.table| {
        assert SlotOk(q, refs, c, j);
        LongerChain(c.chunks, c'.chunks, j);
      }
    }
  }

  lemma LongerChain(a: seq<seq<Token>>, b: seq<seq<Token>>, j: nat)
    requires j < |a| <= |b| && b[..|a|] == a
    ensures Chain(b, j) == Chain(a, j)
  {
    ChainOfTake(b, |a|, j);
  }

  lemma AppendInTail(p: Pool, cs: seq<Client>, k: nat, token: Token)
    requires SharingInv(p, cs) && k < |cs| && cs[k].tail != []
    requires |Content(cs[k])| % p.blockSize == |cs[k].tail|
    ensures var r := AppendToken(p, cs[k].table, |Content(cs[k])|);
      && r.Grown?
      && SharingInv(r.pool, cs[k := Extended(cs[k], r.table, token, p.blockSize)])
      && r.pool.stats.cowCopies == p.stats.cowCopies
      && FullBlocksKept(p, r.pool, Refs(cs))
  {
    hide Inv, CacheFull, ClientOk, AppendToken;
    TailIsPrivate(p, cs, k);
    var refs, c := Refs(cs), cs[k];
    var b := c.table[|c.table| - 1];
    InRefs(cs, k, b);
    RefCountIs(p, refs, b);
    AppendToPrivateTail(p, c.table, |Content(c)|);
    WriteTailInv(p, refs, b, |c.tail| + 1);
    WriteTailCache(p, refs, b, |c.tail| + 1);
    TailWrittenAll(p, cs, k, token);
  }

  lemma AppendToPrivateTail(p: Pool, table: seq<nat>, seqLen: nat)
    requires table != [] && seqLen % p.blockSize != 0
    requires p.BlockAt(table[|table| - 1]).refCount <= 1
    ensures AppendToken(p, table, seqLen)
            == Grown(WriteTail(p, table[|table| - 1], seqLen % p.blockSize + 1), table, false)
  {
  }

  lemma TailIsPrivate(p: Pool, cs: seq<Client>, k: nat)
    requires k < |cs| && cs[k].tail != [] && ClientOk(p, Refs(cs), cs[k])
    ensures cs[k].table != []
    ensures var b := cs[k].table[|cs[k].table| - 1];
      && b < |p.blocks| && p.blocks[b].contentHash == None && p.blocks[b].nTokens == |cs[k].tail|
      && Refs(cs)[b] == 1
  {
    assert SlotOk(p, Refs(cs), cs[k], |cs[k].table| - 1);
  }

  lemma TailWrittenAll(p: Pool, cs: seq<Client>, k: nat, token: Token)
    requires k < |cs| && cs[k].tail != [] && AllOk(p, Refs(cs), cs)
    requires var b := cs[k].table[|cs[k].table| - 1];
      b < |p.blocks| && p.blocks[b].contentHash == None && Refs(cs)[b] == 1
    ensures var b := cs[k].table[|cs[k].table| - 1];
      var cs' := cs[k := Extended(cs[k], cs[k].table, token, p.blockSize)];
      Refs(cs') == Refs(cs) && AllOk(WriteTail(p, b, |cs[k].tail| + 1), Refs(cs'), cs')
  {
    var refs, c := Refs(cs), cs[k];
    var b := c.table[|c.table| - 1];
    var q := WriteTail(p, b, |c.tail| + 1);
    var c' := Extended(c, c.table, token, p.blockSize);
    assert Refs(cs[k := c']) == refs by {
      hide ClientOk;
      RefsCover(cs, k);
      RefsUpdate(cs, k, c');
    }
    assert ClientOk(q, refs, c') by {
      RefsCover(cs, k);
      TailWritten(p, refs, c, token);
    }
    assert SameConfig(p, q);
    hide ClientOk;
    forall m | 0 <= m < |cs| && m != k ensures ClientOk(q, refs, cs[m]) {
      OnlyHolder(cs, m, k, b);
      ClientFrame(p, refs, q, refs, cs[m]);
    }
    hide *;
  }

  lemma WriteTailCache(p: Pool, refs: multiset<nat>, b: nat, n: nat)
    requires Inv(p, refs) && CacheFull(p) && p.BlockAt(b).contentHash == None
    ensures CacheFull(WriteTail(p, b, n))
  {
  }

  lemma OnlyHolder(cs: seq<Client>, m: nat, k: nat, b: nat)
    requires m < |cs| && k < |cs| && m != k && b in cs[k].table && Refs(cs)[b] == 1
    ensures b !in cs[m].table
  {
    if b in cs[m].table {
      if m < k { RefsTwo(cs, m, k, b); } else { RefsTwo(cs, k, m, b); }
    }
  }

  lemma TailWritten(p: Pool, refs: multiset<nat>, c: Client, token: Token)
    requires ClientOk(p, refs, c) && c.tail != []
    requires multiset(c.table) <= refs
    requires var b := c.table[|c.table| - 1]; b < |p.blocks| && p.blocks[b].contentHash == None && refs[b] == 1
    ensures ClientOk(WriteTail(p, c.table[|c.table| - 1], |c.tail| + 1), refs,
                     Extended(c, c.table, token, p.blockSize))
  {
    var last := |c.table| - 1;
    var q := WriteTail(p, c.table[last], |c.tail| + 1);
    var c' := Extended(c, c.table, token, p.blockSize);
    forall j | 0 <= j < |c'.table| ensures SlotOk(q, refs, c', j) {
      assert SlotOk(p, refs, c, j);
      if j < last {
        if c.table[j] == c.table[last] {
          MultisetTwo(c.table, j, last);
          assert false;
        }
        LongerChain(c.chunks, c'.chunks, j);
      }
    }
  }

  // ---- returning a table

  /** Returning a table leaves alone every block with another holder. */
  lemma {:induction false} FreeKeeps(p: Pool, refs: multiset<nat>, table: seq<nat>)
    requires Inv(p, refs) && multiset(table) <= refs
    ensures Free(p, table).cache == p.cache
    ensures forall x :: 0 <= x < |p.blocks| ==>
      && x < |Free(p, table).blocks|
      && Free(p, table).blocks[x].nTokens == p.blocks[x].nTokens
      && (refs[x] > multiset(table)[x] ==>
            Free(p, table).blocks[x].contentHash == p.blocks[x].contentHash)
    decreases |table|
  {
    if table != [] {
      assert table == [table[0]] + table[1..];
      assert multiset(table) == multiset{table[0]} + multiset(table[1..]);
      assert table[0] in refs by { assert multiset(table)[table[0]] >= 1; }
      ReleaseInv(p, refs, table[0]);
      hide Inv, Release;
      FreeKeeps(Release(p, table[0]), refs - multiset{table[0]}, table[1..]);
    }
  }

  lemma FreeCacheFull(p: Pool, refs: multiset<nat>, table: seq<nat>)
    requires Inv(p, refs) && CacheFull(p) && multiset(table) <= refs
    ensures CacheFull(Free(p, table))
  {
    FreeKeeps(p, refs, table);
    FreeInv(p, refs, table);
    assert CacheOk(p);
    hide Inv, Free;
  }

  lemma FreeSharing(p: Pool, cs: seq<Client>, k: nat)
    requires SharingInv(p, cs) && k < |cs|
    ensures SharingInv(Free(p, cs[k].table), RemoveAt(cs, k))
  {
    hide Inv, CacheFull, Free, ClientOk;
    var refs, table := Refs(cs), cs[k].table;
    var q := Free(p, table);
    var rest := RemoveAt(cs, k);
    RefsCover(cs, k);
    RefsRemove(cs, k);
    FreeInv(p, refs, table);
    FreeKeeps(p, refs, table);
    FreeCacheFull(p, refs, table);
    forall m | 0 <= m < |rest| ensures ClientOk(q, Refs(rest), rest[m]) {
      var m' := if m < k then m else m + 1;
      assert rest[m] == cs[m'];
      assert ClientOk(p, refs, cs[m']);
      forall x | x in rest[m].table ensures x in Refs(rest) {
        InRefs(rest, m, x);
      }
      StillHeld(p, refs, q, table, Refs(rest), rest[m]);
    }
  }

  lemma StillHeld(p: Pool, refs: multiset<nat>, q: Pool, table: seq<nat>, refs': multiset<nat>, c: Client)
    requires ClientOk(p, refs, c) && SameConfig(p, q)
    requires multiset(table) <= refs && refs' == refs - multiset(table)
    requires forall x :: x in c.table ==> x in refs'
    requires forall x :: 0 <= x < |p.blocks| ==>
      && q.blocks[x].nTokens == p.blocks[x].nTokens
      && (refs[x] > multiset(table)[x] ==> q.blocks[x].contentHash == p.blocks[x].contentHash)
    ensures ClientOk(q, refs', c)
  {
    forall x | x in c.table ensures refs'[x] == refs[x] - multiset(table)[x] > 0 {
    }
    forall j | 0 <= j < |c.table| ensures SlotOk(q, refs', c, j) {
      assert SlotOk(p, refs, c, j);
    }
  }

  // ---- whole runs

  /** The pool and all tables ever built and not returned. `held` marks those a
      caller still has; the others were dropped by a failed allocation, and
      nobody can return their blocks any more. */
  datatype World = World(pool: Pool, clients: seq<Client>, held: seq<bool>)
  {
    predicate Holds(k: nat) {
      k < |clients| && k < |held| && held[k]
    }
  }

  datatype Call =
    | Allocate(tokens: seq<Token>)
    | Append(client: nat, token: Token)
    | Return(client: nat)

  function Apply(w: World, call: Call): World {
    match call
    case Allocate(tokens) =>
      var r := AllocatePrompt(w.pool, tokens);
      if r.ok || |r.table| <= |Chunks(tokens, w.pool.blockSize)| then
        World(r.pool, w.clients + [Built(r, tokens, w.pool.blockSize)], w.held + [r.ok])
      else w
    case Append(k, token) =>
      if !w.Holds(k) then w
      else
        var c := w.clients[k];
        (match AppendToken(w.pool, c.table, |Content(c)|)
         case Grown(q, table, _) =>
           w.(pool := q, clients := w.clients[k := Extended(c, table, token, w.pool.blockSize)])
         case OutOfBlocks(q) => w.(pool := q)
         case IndexError => w)
    case Return(k) =>
      if !w.Holds(k) then w
      else World(Free(w.pool, w.clients[k].table), RemoveAt(w.clients, k), RemoveAt(w.held, k))
  }

  function Run(w: World, calls: seq<Call>): World
    decreases |calls|
  {
    if calls == [] then w else Run(Apply(w, calls[0]), calls[1..])
  }

  ghost predicate WorldOk(w: World) {
    SharingInv(w.pool, w.clients)
  }

  lemma ApplyKeeps(w: World, call: Call)
    requires WorldOk(w)
    ensures WorldOk(Apply(w, call))
  {
    hide SharingInv;
    match call {
      case Allocate(tokens) =>
        AllocatePromptSharing(w.pool, w.clients, tokens);
      case Append(k, token) =>
        if w.Holds(k) {
          AppendSharing(w.pool, w.clients, k, token);
        }
      case Return(k) =>
        if w.Holds(k) {
          FreeSharing(w.pool, w.clients, k);
        }
    }
  }

  /** Every reachable state of the pool satisfies the sharing invariant, whatever
      calls are made in whatever order and whichever of them run out of blocks. */
  lemma {:induction false} RunKeeps(w: World, calls: seq<Call>)
    requires WorldOk(w)
    ensures WorldOk(Run(w, calls))
    decreases |calls|
  {
    if calls != [] {
      ApplyKeeps(w, calls[0]);
      RunKeeps(Apply(w, calls[0]), calls[1..]);
    }
  }

  /** A stranded block stays stranded whatever is called. */
  lemma {:induction false} NeverRecovered(w: World, calls: seq<Call>)
    requires WorldOk(w)
    ensures KeepsStranded(w.pool, Run(w, calls).pool)
    decreases |calls|
  {
    hide KeepsStranded, WorldOk, Apply;
    if calls == [] {
      StrandedSame(w.pool);
    } else {
      ApplyKeeps(w, calls[0]);
      ApplyStrands(w, calls[0]);
      NeverRecovered(Apply(w, calls[0]), calls[1..]);
      StrandedTrans(w.pool, Apply(w, calls[0]).pool, Run(w, calls).pool);
    }
  }

  lemma StrandedSame(p: Pool)
    ensures KeepsStranded(p, p)
  {
  }

  lemma StrandedTrans(p: Pool, q: Pool, r: Pool)
    requires KeepsStranded(p, q) && KeepsStranded(q, r)
    ensures KeepsStranded(p, r)
  {
  }

  lemma ApplyStrands(w: World, call: Call)
    requires WorldOk(w)
    ensures KeepsStranded(w.pool, Apply(w, call).pool)
  {
    hide KeepsStranded, Inv, AllocatePrompt, AppendToken, Free;
    StrandedSame(w.pool);
    match call {
      case Allocate(tokens) => AllocatePromptStrands(w.pool, tokens, Refs(w.clients));
      case Append(k, token) =>
        if w.Holds(k) {
          RefsCover(w.clients, k);
          AppendStrands(w.pool, w.clients[k].table, |Content(w.clients[k])|, Refs(w.clients));
        }
      case Return(k) =>
        if w.Holds(k) {
          RefsCover(w.clients, k);
          FreeStrands(w.pool, Refs(w.clients), w.clients[k].table);
        }
    }
  }

  lemma EveryRunIsSound(numBlocks: nat, blockSize: pos, caching: bool, watermarkFraction: real, calls: seq<Call>)
    ensures WorldOk(Run(World(InitPool(numBlocks, blockSize, caching, watermarkFraction), [], []), calls))
  {
    InitInv(numBlocks, blockSize, caching, watermarkFraction);
    RunKeeps(World(InitPool(numBlocks, blockSize, caching, watermarkFraction), [], []), calls);
  }

  /** No write copies: with true lengths the copy-on-write branch is dead in
      every run. */
  lemma {:induction false} NoCopyOnWrite(w: World, calls: seq<Call>)
    requires WorldOk(w)
    ensures Run(w, calls).pool.stats.cowCopies == w.pool.stats.cowCopies
    decreases |calls|
  {
    if calls != [] {
      ApplyKeeps(w, calls[0]);
      NoCopyOnWrite(Apply(w, calls[0]), calls[1..]);
      ApplyNoCow(w, calls[0]);
    }
  }

  lemma {:induction false} FreeCow(p: Pool, table: seq<nat>)
    ensures Free(p, table).stats.cowCopies == p.stats.cowCopies
    decreases |table|
  {
    if table != [] {
      FreeCow(Release(p, table[0]), table[1..]);
    }
  }

  lemma PlaceFullCow(p: Pool, h: Digest, matching: bool)
    ensures PlaceFull(p, h, matching).pool.stats.cowCopies == p.stats.cowCopies
  {
    AddBlockCow(CountMiss(p), Some(h), p.blockSize);
  }

  lemma {:induction false} AllocateFullCow(
    p: Pool, chunks: seq<seq<Token>>, i: nat, prev: Option<Digest>, matching: bool, table: seq<nat>, cached: nat)
    requires i <= |chunks|
    ensures AllocateFull(p, chunks, i, prev, matching, table, cached).pool.stats.cowCopies == p.stats.cowCopies
    decreases |chunks| - i
  {
    hide PlaceFull;
    if i < |chunks| {
      var h := HashBlock(prev, chunks[i]);
      var r := PlaceFull(p, h, matching);
      PlaceFullCow(p, h, matching);
      if r.bid.Some? {
        AllocateFullCow(r.pool, chunks, i + 1, Some(h), r.hit, table + [r.bid.value],
                        if r.hit then cached + p.blockSize else cached);
      }
    }
  }

  lemma ApplyNoCow(w: World, call: Call)
    requires WorldOk(w)
    ensures Apply(w, call).pool.stats.cowCopies == w.pool.stats.cowCopies
  {
    match call {
      case Allocate(tokens) =>
        var chunks := Chunks(tokens, w.pool.blockSize);
        AllocateFullCow(w.pool, chunks, 0, None, w.pool.caching, [], 0);
        AddBlockCow(AllocateFull(w.pool, chunks, 0, None, w.pool.caching, [], 0).pool,
                    None, |tokens| % w.pool.blockSize);
      case Append(k, token) =>
        if w.Holds(k) {
          AppendSharing(w.pool, w.clients, k, token);
        }
      case Return(k) =>
        if w.Holds(k) {
          FreeCow(w.pool, w.clients[k].table);
        }
    }
  }
}
