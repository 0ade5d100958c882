/** Recency told from the calls: every run has a log of what was used and what was
    evicted, the recency list is in the order of the latest uses, and every eviction
    takes the idle entry whose latest use is oldest. */
module PagedRecency {
  import opened Lists
  import opened PagedSpec
  import opened PagedInvariant
  import opened PagedSharing
  import opened PagedRuns

  // ---- the log

  /** A digest is used when it is hit and when it enters the cache; an eviction is
      recorded with the entries that went and those that were idle. */
  datatype Event = Used(h: Digest) | Evicted(gone: set<Digest>, idle: set<Digest>)

  function IdleSet(p: Pool): set<Digest> {
    set h | h in p.cache && p.Idle(h)
  }

  /** Taking a block evicts when no block is free. */
  predicate Evicts(p: Pool) {
    p.freeIds == [] && EvictOne(p).Some?
  }

  function KeysLeft(p: Pool): set<Digest> {
    if Evicts(p) then EvictOne(p).value.cache.Keys else p.cache.Keys
  }

  /** A digest enters the cache unless it is there already: `cache[h] = bid` leaves the
      place of an existing key alone. */
  function AddEvents(p: Pool, hash: Option<Digest>): seq<Event> {
    (if Evicts(p) then [Evicted(p.cache.Keys - KeysLeft(p), IdleSet(p))] else [])
    + if (p.freeIds != [] || Evicts(p)) && p.caching && hash.Some? && hash.value !in KeysLeft(p)
      then [Used(hash.value)] else []
  }

  function PlaceEvents(p: Pool, h: Digest, matching: bool): seq<Event> {
    if matching && h in p.cache then [Used(h)] else AddEvents(p, Some(h))
  }

  function FullEvents(p: Pool, chunks: seq<seq<Token>>, i: nat, prev: Option<Digest>, matching: bool): seq<Event>
    requires i <= |chunks|
    decreases |chunks| - i
  {
    if i == |chunks| then []
    else
      var h := HashBlock(prev, chunks[i]);
      var r := PlaceFull(p, h, matching);
      PlaceEvents(p, h, matching)
      + if r.bid.None? then [] else FullEvents(r.pool, chunks, i + 1, Some(h), r.hit)
  }

  function AllocateEvents(p: Pool, tokens: seq<Token>): seq<Event> {
    var chunks := Chunks(tokens, p.blockSize);
    var full := AllocateFull(p, chunks, 0, None, p.caching, [], 0);
    FullEvents(p, chunks, 0, None, p.caching)
    + if full.ok && |tokens| % p.blockSize != 0 then AddEvents(full.pool, None) else []
  }

  function AppendEvents(p: Pool, table: seq<nat>, seqLen: nat): seq<Event> {
    if seqLen % p.blockSize == 0 || (table != [] && p.BlockAt(table[|table| - 1]).refCount > 1)
    then AddEvents(p, None) else []
  }

  function CallEvents(w: World, call: Call): seq<Event> {
    match call
    case Allocate(tokens) => AllocateEvents(w.pool, tokens)
    case Append(k, token) =>
      if w.Holds(k) then AppendEvents(w.pool, w.clients[k].table, |Content(w.clients[k])|) else []
    case Return(k) => []
  }

  function Log(w: World, calls: seq<Call>): seq<Event>
    decreases |calls|
  {
    if calls == [] then [] else CallEvents(w, calls[0]) + Log(Apply(w, calls[0]), calls[1..])
  }

  // ---- what it says

  /** When a digest was used last; -1 for never. */
  function LastUse(log: seq<Event>, h: Digest): int {
    if log == [] then -1
    else if log[|log| - 1] == Used(h) then |log| - 1
    else LastUse(log[..|log| - 1], h)
  }

  /** Whether a digest has been used and not evicted since. */
  predicate Stays(log: seq<Event>, h: Digest) {
    log != [] &&
    var last := log[|log| - 1];
    last == Used(h) || (!(last.Evicted? && h in last.gone) && Stays(log[..|log| - 1], h))
  }

  /** The list holds what has been used and not evicted since, each used last before
      the next. */
  ghost predicate InUseOrder(lru: seq<Digest>, log: seq<Event>) {
    && (forall h :: h in lru <==> Stays(log, h))
    && (forall i, j :: 0 <= i < j < |lru| ==> LastUse(log, lru[i]) < LastUse(log, lru[j]))
  }

  /** One entry went, an idle one, and every other idle one has been used since. */
  ghost predicate OldestGone(before: seq<Event>, gone: set<Digest>, idle: set<Digest>) {
    exists h :: h in idle && gone == {h} && forall g :: g in idle && g != h ==> LastUse(before, h) < LastUse(before, g)
  }

  ghost predicate EvictionsOk(log: seq<Event>) {
    forall k :: 0 <= k < |log| && log[k].Evicted? ==> OldestGone(log[..k], log[k].gone, log[k].idle)
  }

  ghost predicate Kept(lru: seq<Digest>, log: seq<Event>) {
    InUseOrder(lru, log) && EvictionsOk(log)
  }

  lemma LastUseSnoc(log: seq<Event>, e: Event, h: Digest)
    ensures LastUse(log + [e], h) == if e == Used(h) then |log| else LastUse(log, h)
    ensures LastUse(log, h) < |log|
    ensures Stays(log + [e], h) <==> e == Used(h) || (!(e.Evicted? && h in e.gone) && Stays(log, h))
  {
    assert (log + [e])[..|log|] == log;
    LastUseBound(log, h);
  }

  lemma {:induction false} LastUseBound(log: seq<Event>, h: Digest)
    ensures -1 <= LastUse(log, h) < |log|
  {
    if log != [] {
      LastUseBound(log[..|log| - 1], h);
    }
  }

  lemma EvictionsSnoc(log: seq<Event>, e: Event)
    requires EvictionsOk(log) && (e.Evicted? ==> OldestGone(log, e.gone, e.idle))
    ensures EvictionsOk(log + [e])
  {
    hide OldestGone;
    var all := log + [e];
    assert all[..|log|] == log;
    forall k | 0 <= k < |all| && all[k].Evicted? ensures OldestGone(all[..k], all[k].gone, all[k].idle) {
      assert all[..k] == log[..k];
    }
  }

  lemma InUseNoDup(lru: seq<Digest>, log: seq<Event>)
    requires InUseOrder(lru, log)
    ensures NoDup(lru)
  {
    hide Stays;
    forall i, j | 0 <= i < j < |lru| ensures lru[i] != lru[j] {
      assert LastUse(log, lru[i]) < LastUse(log, lru[j]);
    }
  }

  /** A digest that enters goes to the end of the list. */
  lemma UsedEnters(lru: seq<Digest>, log: seq<Event>, h: Digest)
    requires Kept(lru, log) && h !in lru
    ensures Kept(lru + [h], log + [Used(h)])
  {
    EvictionsSnoc(log, Used(h));
    hide LastUse, Stays, EvictionsOk;
    forall x ensures x in lru + [h] <==> Stays(log + [Used(h)], x) {
      LastUseSnoc(log, Used(h), x);
    }
    forall i | 0 <= i < |lru| ensures LastUse(log + [Used(h)], lru[i]) == LastUse(log, lru[i]) < |log| {
      LastUseSnoc(log, Used(h), lru[i]);
    }
    LastUseSnoc(log, Used(h), h);
  }

  lemma Without(lru: seq<Digest>, i: nat)
    requires i < |lru|
    ensures
      var r := lru[..i] + lru[i + 1..];
      && (NoDup(lru) ==> forall x :: x in r <==> x in lru && x != lru[i])
      && forall k :: 0 <= k < |r| ==> r[k] == lru[if k < i then k else k + 1]
  {
    if NoDup(lru) {
      RemoveAtNoDup(lru, i);
      assert RemoveAt(lru, i) == lru[..i] + lru[i + 1..];
    }
  }

  /** A digest that is hit moves to the end; the others keep their order. */
  lemma UsedMoves(lru: seq<Digest>, log: seq<Event>, i: nat)
    requires Kept(lru, log) && i < |lru|
    ensures Kept(lru[..i] + lru[i + 1..] + [lru[i]], log + [Used(lru[i])])
  {
    var h, r := lru[i], lru[..i] + lru[i + 1..];
    EvictionsSnoc(log, Used(h));
    InUseNoDup(lru, log);
    Without(lru, i);
    hide LastUse, Stays, EvictionsOk, NoDup;
    forall x ensures x in r + [h] <==> Stays(log + [Used(h)], x) {
      LastUseSnoc(log, Used(h), x);
    }
    forall k | 0 <= k < |r| ensures LastUse(log + [Used(h)], r[k]) == LastUse(log, r[k]) < |log| {
      assert r[k] in r;
      LastUseSnoc(log, Used(h), r[k]);
    }
    LastUseSnoc(log, Used(h), h);
  }

  /** An entry that is evicted leaves; the others keep their order. */
  lemma EvictedLeaves(lru: seq<Digest>, log: seq<Event>, i: nat, idle: set<Digest>)
    requires Kept(lru, log) && i < |lru| && OldestGone(log, {lru[i]}, idle)
    ensures Kept(lru[..i] + lru[i + 1..], log + [Evicted({lru[i]}, idle)])
  {
    var r, e := lru[..i] + lru[i + 1..], Evicted({lru[i]}, idle);
    EvictionsSnoc(log, e);
    InUseNoDup(lru, log);
    Without(lru, i);
    hide LastUse, Stays, OldestGone, EvictionsOk, NoDup;
    forall x ensures x in r <==> Stays(log + [e], x) {
      LastUseSnoc(log, e, x);
    }
    forall k | 0 <= k < |r| ensures LastUse(log + [e], r[k]) == LastUse(log, r[k]) {
      LastUseSnoc(log, e, r[k]);
    }
  }

  // ---- the operations

  /** An eviction takes the idle entry used longest ago. */
  lemma EvictKeeps(p: Pool, refs: multiset<nat>, log: seq<Event>)
    requires Inv(p, refs) && Kept(p.lru, log) && EvictOne(p).Some?
    ensures
      var q := EvictOne(p).value;
      && OldestGone(log, p.cache.Keys - q.cache.Keys, IdleSet(p))
      && Kept(q.lru, log + [Evicted(p.cache.Keys - q.cache.Keys, IdleSet(p))])
  {
    var i, q := FirstIdle(p, 0), EvictOne(p).value;
    var h := p.lru[i];
    assert p.cache.Keys - q.cache.Keys == {h} && q.lru == p.lru[..i] + p.lru[i + 1..];
    assert h in IdleSet(p);
    forall g | g in IdleSet(p) && g != h ensures LastUse(log, h) < LastUse(log, g) {
      assert g in p.lru;
      var j :| 0 <= j < |p.lru| && p.lru[j] == g;
    }
    EvictedLeaves(p.lru, log, i, IdleSet(p));
  }

  /** What a taken block does to the list, without an eviction. */
  lemma TakenLru(p: Pool, hash: Option<Digest>, nTokens: nat)
    requires p.freeIds != []
    ensures
      var q := AddBlock(p, hash, nTokens).pool;
      q.lru == if p.caching && hash.Some? && hash.value !in p.cache then p.lru + [hash.value] else p.lru
  {
  }

  lemma AddFreeKeeps(p: Pool, refs: multiset<nat>, hash: Option<Digest>, nTokens: nat, log: seq<Event>)
    requires Inv(p, refs) && Kept(p.lru, log) && p.freeIds != []
    ensures Kept(AddBlock(p, hash, nTokens).pool.lru, log + AddEvents(p, hash))
  {
    TakenLru(p, hash, nTokens);
    assert CacheOk(p);
    hide AddBlock, Inv, Kept;
    if p.caching && hash.Some? && hash.value !in p.cache {
      assert AddEvents(p, hash) == [Used(hash.value)];
      UsedEnters(p.lru, log, hash.value);
    } else {
      assert AddEvents(p, hash) == [] && log + [] == log;
    }
  }

  lemma AddFailsPlain(p: Pool, hash: Option<Digest>, nTokens: nat)
    requires p.freeIds == [] && EvictOne(p).None?
    ensures AddBlock(p, hash, nTokens).pool.lru == p.lru && AddEvents(p, hash) == []
  {
  }

  lemma AddEventsSplit(p: Pool, q: Pool, hash: Option<Digest>)
    requires p.freeIds == [] && EvictOne(p) == Some(q) && q.freeIds != [] && q.caching == p.caching
    ensures AddEvents(p, hash) == [Evicted(p.cache.Keys - q.cache.Keys, IdleSet(p))] + AddEvents(q, hash)
  {
    hide EvictOne;
  }

  lemma AddKeeps(p: Pool, refs: multiset<nat>, hash: Option<Digest>, nTokens: nat, log: seq<Event>)
    requires Inv(p, refs) && Kept(p.lru, log)
    ensures Kept(AddBlock(p, hash, nTokens).pool.lru, log + AddEvents(p, hash))
  {
    hide AddBlock, Inv, Kept, AddEvents, EvictOne;
    if p.freeIds != [] {
      AddFreeKeeps(p, refs, hash, nTokens, log);
    } else if EvictOne(p).None? {
      AddFailsPlain(p, hash, nTokens);
      assert log + [] == log;
    } else {
      var q := EvictOne(p).value;
      EvictInv(p, refs);
      AddAfterEvict(p, hash, nTokens);
      EvictKeeps(p, refs, log);
      AddEventsSplit(p, q, hash);
      var e := Evicted(p.cache.Keys - q.cache.Keys, IdleSet(p));
      AddFreeKeeps(q, refs, hash, nTokens, log + [e]);
      assert (log + [e]) + AddEvents(q, hash) == log + ([e] + AddEvents(q, hash));
    }
  }

  /** A hit refreshes its entry. */
  lemma HitKeeps(p: Pool, refs: multiset<nat>, h: Digest, log: seq<Event>)
    requires Inv(p, refs) && Kept(p.lru, log) && h in p.cache
    ensures Kept(HitBlock(p, h).lru, log + [Used(h)])
  {
    assert CacheOk(p);
    var i := RemoveIs(p.lru, h);
    UsedMoves(p.lru, log, i);
  }

  lemma CountedEvents(p: Pool, hash: Option<Digest>)
    ensures AddEvents(CountMiss(p), hash) == AddEvents(p, hash)
  {
    var q := CountMiss(p);
    CountedIdle(p, 0);
    assert IdleSet(q) == IdleSet(p);
  }

  lemma {:induction false} CountedIdle(p: Pool, i: nat)
    requires i <= |p.lru|
    ensures FirstIdle(CountMiss(p), i) == FirstIdle(p, i)
    decreases |p.lru| - i
  {
    if i < |p.lru| {
      CountedIdle(p, i + 1);
    }
  }

  lemma PlaceKeeps(p: Pool, refs: multiset<nat>, h: Digest, matching: bool, log: seq<Event>)
    requires Inv(p, refs) && Kept(p.lru, log)
    ensures Kept(PlaceFull(p, h, matching).pool.lru, log + PlaceEvents(p, h, matching))
  {
    if matching && h in p.cache {
      HitKeeps(p, refs, h, log);
    } else {
      CountMissInv(p, refs);
      hide AddBlock, Inv, Kept, AddEvents;
      CountedEvents(p, Some(h));
      AddKeeps(CountMiss(p), refs, Some(h), p.blockSize, log);
    }
  }

  lemma {:induction false} FullKeeps(p: Pool, refs: multiset<nat>, chunks: seq<seq<Token>>, i: nat,
                                     prev: Option<Digest>, matching: bool, table: seq<nat>, cached: nat,
                                     log: seq<Event>)
    requires Inv(p, refs) && Kept(p.lru, log) && i <= |chunks|
    ensures Kept(AllocateFull(p, chunks, i, prev, matching, table, cached).pool.lru,
                 log + FullEvents(p, chunks, i, prev, matching))
    decreases |chunks| - i
  {
    hide Inv, Kept, PlaceFull, PlaceEvents;
    if i == |chunks| {
      assert log + [] == log;
    } else {
      var h := HashBlock(prev, chunks[i]);
      var r, e := PlaceFull(p, h, matching), PlaceEvents(p, h, matching);
      PlaceFullInv(p, h, matching, refs);
      PlaceKeeps(p, refs, h, matching, log);
      if r.bid.Some? {
        FullKeeps(r.pool, refs + multiset{r.bid.value}, chunks, i + 1, Some(h), r.hit, table + [r.bid.value],
                  if r.hit then cached + p.blockSize else cached, log + e);
        var more := FullEvents(r.pool, chunks, i + 1, Some(h), r.hit);
        assert (log + e) + more == log + (e + more);
      } else {
        assert e + [] == e;
      }
    }
  }

  lemma AllocateKeeps(p: Pool, refs: multiset<nat>, tokens: seq<Token>, log: seq<Event>)
    requires Inv(p, refs) && Kept(p.lru, log)
    ensures Kept(AllocatePrompt(p, tokens).pool.lru, log + AllocateEvents(p, tokens))
  {
    hide Inv, Kept, AllocateFull, FullEvents, AddEvents, AddBlock;
    var chunks := Chunks(tokens, p.blockSize);
    var full, e := AllocateFull(p, chunks, 0, None, p.caching, [], 0), FullEvents(p, chunks, 0, None, p.caching);
    FullKeeps(p, refs, chunks, 0, None, p.caching, [], 0, log);
    AllocateFullInv(p, chunks, 0, None, p.caching, [], 0, refs) by {
      assert refs + multiset([]) == refs;
    }
    if full.ok && |tokens| % p.blockSize != 0 {
      AddKeeps(full.pool, refs + multiset(full.table), None, |tokens| % p.blockSize, log + e);
      assert (log + e) + AddEvents(full.pool, None) == log + (e + AddEvents(full.pool, None));
    } else {
      assert e + [] == e;
    }
  }

  /** With caching on a release keeps every entry, with caching off there is none. */
  lemma ReleaseLru(p: Pool, refs: multiset<nat>, bid: nat)
    requires Inv(p, refs)
    ensures Release(p, bid).lru == p.lru
  {
    assert p.lru != [] ==> p.lru[0] in p.lru;
  }

  lemma {:induction false} FreeLru(p: Pool, refs: multiset<nat>, table: seq<nat>)
    requires Inv(p, refs) && multiset(table) <= refs
    ensures Free(p, table).lru == p.lru
    decreases |table|
  {
    hide Inv, Release;
    if table != [] {
      assert table == [table[0]] + table[1..];
      assert multiset(table)[table[0]] >= 1;
      ReleaseLru(p, refs, table[0]);
      ReleaseInv(p, refs, table[0]);
      FreeLru(Release(p, table[0]), refs - multiset{table[0]}, table[1..]);
    }
  }

  lemma AppendKeeps(p: Pool, refs: multiset<nat>, table: seq<nat>, seqLen: nat, log: seq<Event>)
    requires Inv(p, refs) && multiset(table) <= refs && Kept(p.lru, log)
    ensures
      var r := AppendToken(p, table, seqLen);
      Kept(if r.IndexError? then p.lru else r.pool.lru, log + AppendEvents(p, table, seqLen))
  {
    hide Inv, Kept, AddEvents, AddBlock, Release;
    assert log + [] == log;
    AddBlockInv(p, refs, None, 1);
    AddKeeps(p, refs, None, 1, log);
    if table != [] {
      var last := table[|table| - 1];
      assert multiset(table)[last] >= 1;
      AddBlockInv(p, refs, None, p.BlockAt(last).nTokens);
      AddKeeps(p, refs, None, p.BlockAt(last).nTokens, log);
      var t := AddBlock(p, None, p.BlockAt(last).nTokens);
      if t.bid.Some? {
        ReleaseLru(t.pool, refs + multiset{t.bid.value}, last);
      }
    }
  }

  // ---- every run

  lemma ApplyRecency(w: World, call: Call, log: seq<Event>)
    requires WorldOk(w) && Kept(w.pool.lru, log)
    ensures Kept(Apply(w, call).pool.lru, log + CallEvents(w, call))
  {
    hide Inv, Kept, AllocatePrompt, AppendToken, Free, AllocateEvents, AppendEvents, Chunks;
    assert log + [] == log;
    var refs := Refs(w.clients);
    match call {
      case Allocate(tokens) =>
        AllocatePromptSharing(w.pool, w.clients, tokens);
        AllocateKeeps(w.pool, refs, tokens, log);
      case Append(k, token) =>
        if w.Holds(k) {
          RefsCover(w.clients, k);
          AppendKeeps(w.pool, refs, w.clients[k].table, |Content(w.clients[k])|, log);
        }
      case Return(k) =>
        if w.Holds(k) {
          RefsCover(w.clients, k);
          FreeLru(w.pool, refs, w.clients[k].table);
        }
    }
  }

  lemma {:induction false} RunRecency(w: World, calls: seq<Call>, log: seq<Event>)
    requires WorldOk(w) && Kept(w.pool.lru, log)
    ensures Kept(Run(w, calls).pool.lru, log + Log(w, calls))
    decreases |calls|
  {
    hide WorldOk, Kept, Apply, CallEvents;
    if calls == [] {
      assert log + [] == log;
    } else {
      var next, e := Apply(w, calls[0]), CallEvents(w, calls[0]);
      ApplyKeeps(w, calls[0]);
      ApplyRecency(w, calls[0], log);
      RunRecency(next, calls[1..], log + e);
      assert (log + e) + Log(next, calls[1..]) == log + (e + Log(next, calls[1..]));
    }
  }

  /** Over every run on a fresh pool the recency list holds the cached digests in the
      order of their latest use, and each eviction of the run took the idle entry whose
      latest use was oldest. */
  lemma EveryRunEvictsOldest(numBlocks: nat, blockSize: pos, caching: bool, watermarkFraction: real, calls: seq<Call>)
    ensures
      var w := World(InitPool(numBlocks, blockSize, caching, watermarkFraction), [], []);
      var p, log := Run(w, calls).pool, Log(w, calls);
      && (forall h :: h in p.lru <==> h in p.cache)
      && (forall h :: h in p.cache <==> Stays(log, h))
      && InUseOrder(p.lru, log) && EvictionsOk(log)
  {
    hide WorldOk, Run, Log, InUseOrder, EvictionsOk, Stays, InitPool;
    var w := World(InitPool(numBlocks, blockSize, caching, watermarkFraction), [], []);
    FreshWorld(numBlocks, blockSize, caching, watermarkFraction);
    RunKeeps(w, calls);
    ListedCached(Run(w, calls));
    RunRecency(w, calls, []);
    assert [] + Log(w, calls) == Log(w, calls);
    InOrderStays(Run(w, calls).pool.lru, Log(w, calls));
  }

  lemma FreshWorld(numBlocks: nat, blockSize: pos, caching: bool, watermarkFraction: real)
    ensures
      var w := World(InitPool(numBlocks, blockSize, caching, watermarkFraction), [], []);
      WorldOk(w) && Kept(w.pool.lru, [])
  {
    InitInv(numBlocks, blockSize, caching, watermarkFraction);
  }

  lemma ListedCached(w: World)
    requires WorldOk(w)
    ensures forall h :: h in w.pool.lru <==> h in w.pool.cache
  {
    assert CacheOk(w.pool);
  }

  lemma InOrderStays(lru: seq<Digest>, log: seq<Event>)
    requires InUseOrder(lru, log)
    ensures forall h :: h in lru <==> Stays(log, h)
  {
  }
}
