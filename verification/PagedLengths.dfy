/** Does a table that grows with its sequence cover it? It does when every append
    is told the number of tokens already in the table; the engine tells it one
    more, because it counts the token emitted by the prefill. */
module PagedLengths {
  import opened Lists
  import opened PagedSpec
  import opened PagedInvariant
  import opened PagedHits

  datatype Table = Table(pool: Pool, ids: seq<nat>)

  /** Append at the lengths from `from` up to, not including, `until`; None when one
      append fails. */
  function GrowRange(p: Pool, table: seq<nat>, from: nat, until: nat): Option<Table>
    decreases until - from
  {
    if from >= until then Some(Table(p, table))
    else match AppendToken(p, table, from)
      case Grown(q, t, _) => GrowRange(q, t, from + 1, until)
      case OutOfBlocks(_) => None
      case IndexError => None
  }

  lemma NextQuotient(n: pos, d: pos)
    ensures n / d == (n - 1) / d + if n % d == 0 then 1 else 0
  {
    var q, r := (n - 1) / d, (n - 1) % d;
    if r + 1 == d {
      assert (q + 1) * d == q * d + d;
      DivModUnique(n, d, q + 1, 0);
    } else {
      DivModUnique(n, d, q, r + 1);
    }
  }

  /** A block is added exactly at the multiples of the block size. */
  lemma {:induction false} BlocksAdded(p: Pool, refs: multiset<nat>, table: seq<nat>, from: nat, until: nat)
    requires Inv(p, refs) && multiset(table) <= refs && 0 < from <= until
    ensures var g := GrowRange(p, table, from, until);
      g.Some? ==> |g.value.ids| == |table| + (until - 1) / p.blockSize - (from - 1) / p.blockSize
                  && g.value.pool.blockSize == p.blockSize
    decreases until - from
  {
    hide Inv;
    if from < until {
      AppendInv(p, table, from, refs);
      NextQuotient(from, p.blockSize);
      var r := AppendToken(p, table, from);
      if r.Grown? {
        hide AppendToken;
        BlocksAdded(r.pool, refs - multiset(table) + multiset(r.table), r.table, from + 1, until);
      }
    }
  }

  lemma Difference(a: int, b: int, d: int)
    ensures (a - b) * d == a * d - b * d
  {
  }

  lemma CeilTimes(len: nat, d: pos, blocks: nat)
    ensures blocks * d >= len <==> blocks >= len / d + if len % d == 0 then 0 else 1
  {
    var q := len / d;
    Difference(blocks, q, d);
    Difference(q, blocks, d);
    if blocks > q {
      MulAtLeast(blocks - q, d);
    } else if blocks < q {
      MulAtLeast(q - blocks, d);
    }
  }

  /** Told the true count, a table always covers its sequence, with no block to spare. */
  lemma TrueCountCovers(p: Pool, refs: multiset<nat>, tokens: seq<Token>, len: nat)
    requires Inv(p, refs) && 0 < |tokens| <= len
    ensures
      var r := AllocatePrompt(p, tokens);
      var g := GrowRange(r.pool, r.table, |tokens|, len);
      r.ok && g.Some? ==>
        && |g.value.ids| == len / p.blockSize + (if len % p.blockSize == 0 then 0 else 1)
        && |g.value.ids| * p.blockSize >= len
  {
    hide Inv, AllocatePrompt, GrowRange;
    AllocatePromptInv(p, tokens, refs);
    PromptShape(p, tokens);
    var r := AllocatePrompt(p, tokens);
    BlocksAdded(r.pool, refs + multiset(r.table), r.table, |tokens|, len);
    NextQuotient(|tokens|, p.blockSize);
    NextQuotient(len, p.blockSize);
    CeilTimes(len, p.blockSize, len / p.blockSize + if len % p.blockSize == 0 then 0 else 1);
  }

  /** With the engine's count the table of a sequence of length `len` covers it
      exactly when the prompt does not end on a block boundary, or the length
      does; otherwise the sequence's last tokens have no slot. */
  lemma EngineCountCovers(p: Pool, refs: multiset<nat>, tokens: seq<Token>, len: nat)
    requires Inv(p, refs) && 0 < |tokens| <= len
    ensures
      var r := AllocatePrompt(p, tokens);
      var g := GrowRange(r.pool, r.table, |tokens| + 1, len + 1);
      r.ok && g.Some? ==>
        (|g.value.ids| * p.blockSize >= len <==> |tokens| % p.blockSize != 0 || len % p.blockSize == 0)
  {
    hide Inv, AllocatePrompt, GrowRange;
    AllocatePromptInv(p, tokens, refs);
    PromptShape(p, tokens);
    var r := AllocatePrompt(p, tokens);
    BlocksAdded(r.pool, refs + multiset(r.table), r.table, |tokens| + 1, len + 1);
    if r.ok && GrowRange(r.pool, r.table, |tokens| + 1, len + 1).Some? {
      CeilTimes(len, p.blockSize, |GrowRange(r.pool, r.table, |tokens| + 1, len + 1).value.ids|);
    }
  }
}
