/** Prefix sharing is sound: two live tables share a block only where their token
    sequences are the same from the very beginning up to the end of that block. */
module PagedSharing {
  import opened Lists
  import opened PagedSpec
  import opened PagedInvariant

  /** A caller's table with what its blocks hold: the full blocks' tokens in
      order, and the tokens of the partial tail. */
  datatype Client = Client(table: seq<nat>, chunks: seq<seq<Token>>, tail: seq<Token>)

  function Flatten(chunks: seq<seq<Token>>): seq<Token> {
    if chunks == [] then [] else chunks[0] + Flatten(chunks[1..])
  }

  function Content(c: Client): seq<Token> {
    Flatten(c.chunks) + c.tail
  }

  /** The digest of block j: it covers blocks 0 to j. */
  function Chain(chunks: seq<seq<Token>>, j: nat): Digest
    requires j < |chunks|
  {
    HashBlock(if j == 0 then None else Some(Chain(chunks, j - 1)), chunks[j])
  }

  lemma {:induction false} ChainIsPrefix(a: seq<seq<Token>>, i: nat, b: seq<seq<Token>>, j: nat)
    requires i < |a| && j < |b|
    ensures Chain(a, i) == Chain(b, j) <==> a[..i + 1] == b[..j + 1]
  {
    assert a[..i + 1] == a[..i] + [a[i]] && b[..j + 1] == b[..j] + [b[j]];
    if i > 0 && j > 0 {
      ChainIsPrefix(a, i - 1, b, j - 1);
    }
    if i == j && a[..i + 1] == b[..j + 1] {
      assert a[i] == a[..i + 1][i] && b[i] == b[..i + 1][i];
      assert a[..i] == a[..i + 1][..i] && b[..i] == b[..i + 1][..i];
    }
  }

  function Refs(cs: seq<Client>): multiset<nat> {
    if cs == [] then multiset{} else Refs(cs[..|cs| - 1]) + multiset(cs[|cs| - 1].table)
  }

  /** Entry j of a table: how much the block holds, and either it is full and
      carries the digest of everything up to its end, or nobody else has it. */
  ghost predicate SlotOk(p: Pool, refs: multiset<nat>, c: Client, j: nat)
    requires j < |c.table|
  {
    var b := c.table[j];
    && b < |p.blocks|
    && p.blocks[b].nTokens == (if j < |c.chunks| then p.blockSize else |c.tail|)
    && match p.blocks[b].contentHash
       case Some(d) => j < |c.chunks| && d == Chain(c.chunks, j)
       case None => refs[b] == 1
  }

  ghost predicate ClientShape(size: nat, c: Client) {
    && (forall k :: 0 <= k < |c.chunks| ==> |c.chunks[k]| == size)
    && |c.tail| < size
    && |c.table| == |c.chunks| + (if c.tail == [] then 0 else 1)
  }

  ghost predicate ClientOk(p: Pool, refs: multiset<nat>, c: Client) {
    && ClientShape(p.blockSize, c)
    && forall j :: 0 <= j < |c.table| ==> SlotOk(p, refs, c, j)
  }

  ghost predicate CacheFull(p: Pool) {
    forall h :: h in p.cache ==> p.BlockAt(p.cache[h]).nTokens == p.blockSize
  }

  ghost predicate SharingInv(p: Pool, cs: seq<Client>) {
    && Inv(p, Refs(cs))
    && CacheFull(p)
    && forall k :: 0 <= k < |cs| ==> ClientOk(p, Refs(cs), cs[k])
  }

  // ---- reference counting over clients

  lemma {:induction false} RefsCover(cs: seq<Client>, k: nat)
    requires k < |cs|
    ensures multiset(cs[k].table) <= Refs(cs)
  {
    if k < |cs| - 1 {
      RefsCover(cs[..|cs| - 1], k);
    }
  }

  lemma {:induction false} RefsUpdate(cs: seq<Client>, k: nat, c: Client)
    requires k < |cs|
    ensures Refs(cs[k := c]) == Refs(cs) - multiset(cs[k].table) + multiset(c.table)
  {
    var last := |cs| - 1;
    if k < last {
      RefsUpdate(cs[..last], k, c);
      RefsCover(cs[..last], k);
      assert cs[k := c][..last] == cs[..last][k := c];
    } else {
      assert cs[k := c][..last] == cs[..last];
    }
  }

  lemma {:induction false} RefsRemove(cs: seq<Client>, k: nat)
    requires k < |cs|
    ensures Refs(RemoveAt(cs, k)) == Refs(cs) - multiset(cs[k].table)
  {
    hide Refs, RemoveAt;
    var last := |cs| - 1;
    var init := cs[..last];
    RefsSnoc(init, cs[last]);
    assert cs == init + [cs[last]];
    RemoveAtInit(cs, k);
    if k < last {
      RefsRemove(init, k);
      RefsCover(init, k);
      RefsSnoc(RemoveAt(init, k), cs[last]);
      MinusPlus(Refs(init), multiset(cs[k].table), multiset(cs[last].table));
    }
  }

  lemma RemoveAtInit<T>(s: seq<T>, k: nat)
    requires k < |s|
    ensures var last := |s| - 1;
      RemoveAt(s, k) == if k < last then RemoveAt(s[..last], k) + [s[last]] else s[..last]
  {
  }

  lemma MinusPlus(a: multiset<nat>, b: multiset<nat>, c: multiset<nat>)
    requires b <= a
    ensures a - b + c == a + c - b
  {
  }

  lemma RefsSnoc(cs: seq<Client>, c: Client)
    ensures Refs(cs + [c]) == Refs(cs) + multiset(c.table)
  {
    assert (cs + [c])[..|cs|] == cs;
  }

  lemma MultisetTwo(table: seq<nat>, i: nat, j: nat)
    requires i < j < |table| && table[i] == table[j]
    ensures multiset(table)[table[i]] >= 2
  {
    assert table == table[..i] + [table[i]] + table[i + 1..j] + [table[j]] + table[j + 1..];
  }

  lemma {:induction false} RefsTwo(cs: seq<Client>, x: nat, y: nat, b: nat)
    requires x < y < |cs|
    requires b in cs[x].table && b in cs[y].table
    ensures Refs(cs)[b] >= 2
  {
    var last := |cs| - 1;
    if y < last {
      RefsTwo(cs[..last], x, y, b);
    } else {
      RefsCover(cs[..last], x);
      assert multiset(cs[x].table)[b] >= 1 && multiset(cs[y].table)[b] >= 1;
      assert multiset(cs[x].table)[b] <= Refs(cs[..last])[b];
    }
  }

  // ---- the meaning of sharing

  lemma {:induction false} FlattenAppend(a: seq<seq<Token>>, b: seq<seq<Token>>)
    ensures Flatten(a + b) == Flatten(a) + Flatten(b)
  {
    if a == [] {
      assert a + b == b;
    } else {
      FlattenAppend(a[1..], b);
      assert (a + b)[1..] == a[1..] + b;
    }
  }

  lemma {:induction false} FlattenLength(chunks: seq<seq<Token>>, size: nat)
    requires forall k :: 0 <= k < |chunks| ==> |chunks[k]| == size
    ensures |Flatten(chunks)| == |chunks| * size
  {
    if chunks != [] {
      FlattenLength(chunks[1..], size);
      assert |chunks| * size == size + (|chunks| - 1) * size;
    }
  }

  lemma ContentPrefix(c: Client, size: pos, j: nat)
    requires ClientShape(size, c) && j <= |c.chunks|
    ensures j * size <= |Content(c)|
    ensures Content(c)[..j * size] == Flatten(c.chunks[..j])
  {
    FlattenLength(c.chunks[..j], size);
    FlattenAppend(c.chunks[..j], c.chunks[j..]);
    assert c.chunks == c.chunks[..j] + c.chunks[j..];
  }

  /** THE SHARING THEOREM. Whenever the same block occurs twice among the tables,
      it is at the same position of two different tables, and the two token
      sequences agree on everything up to the end of the block. */
  lemma SharedBlocksAgree(p: Pool, cs: seq<Client>, x: nat, i: nat, y: nat, j: nat)
    requires SharingInv(p, cs)
    requires x < |cs| && y < |cs| && i < |cs[x].table| && j < |cs[y].table|
    requires cs[x].table[i] == cs[y].table[j] && (x != y || i != j)
    ensures x != y && i == j
    ensures (i + 1) * p.blockSize <= |Content(cs[x])| && (i + 1) * p.blockSize <= |Content(cs[y])|
    ensures Content(cs[x])[..(i + 1) * p.blockSize] == Content(cs[y])[..(i + 1) * p.blockSize]
  {
    var b := cs[x].table[i];
    assert Refs(cs)[b] >= 2 by {
      if x < y {
        RefsTwo(cs, x, y, b);
      } else if y < x {
        RefsTwo(cs, y, x, b);
      } else {
        MultisetTwo(cs[x].table, if i < j then i else j, if i < j then j else i);
        RefsCover(cs, x);
      }
    }
    assert SlotOk(p, Refs(cs), cs[x], i) && SlotOk(p, Refs(cs), cs[y], j);
    ChainIsPrefix(cs[x].chunks, i, cs[y].chunks, j);
    assert |cs[x].chunks[..i + 1]| == |cs[y].chunks[..j + 1]|;
    ContentPrefix(cs[x], p.blockSize, i + 1);
    ContentPrefix(cs[y], p.blockSize, j + 1);
  }

  /** Each table has as many blocks as its tokens need, and wastes less than one
      block of slots. */
  lemma TableCoverage(p: Pool, refs: multiset<nat>, c: Client)
    requires ClientOk(p, refs, c)
    ensures |Content(c)| % p.blockSize == |c.tail|
    ensures |c.table| == (|Content(c)| + p.blockSize - 1) / p.blockSize
    ensures 0 <= |c.table| * p.blockSize - |Content(c)| < p.blockSize
  {
    var size := p.blockSize;
    FlattenLength(c.chunks, size);
    DivModUnique(|Content(c)|, size, |c.chunks|, |c.tail|);
    if c.tail == [] {
      DivModUnique(|Content(c)| + size - 1, size, |c.chunks|, (size as int) - 1);
    } else {
      assert (|c.chunks| + 1) * size == |c.chunks| * size + size;
      DivModUnique(|Content(c)| + size - 1, size, |c.chunks| + 1, |c.tail| - 1);
    }
  }
}
