/** When growing the decodes goes wrong, exactly. Nobody is preempted as long as
    there is a block for every decode that needs one; once a sequence has to be
    preempted that the loop comes to later, its empty table makes the step raise. */
module EngineGrowth {
  import opened Lists
  import opened PagedSpec
  import opened PagedInvariant
  import opened PagedAdmission
  import opened EngineSpec
  import opened EngineAccounting
  import opened EngineSteps
  import opened EngineRuns
  import opened EngineMemory
  import opened EngineHealthyWork

  // ---- one append

  /** Growing this table takes a block: the length is on a block boundary, or the
      tail is shared and has to be copied. */
  ghost predicate Takes(table: seq<nat>, len: nat, size: pos, refs: multiset<nat>) {
    len % size == 0 || (table != [] && refs[table[|table| - 1]] > 1)
  }

  /** The references that matter to the other tables once this one has grown: a
      copied tail has one holder fewer. */
  ghost function Settled(table: seq<nat>, len: nat, size: pos, refs: multiset<nat>): multiset<nat> {
    if len % size != 0 && Takes(table, len, size, refs) then refs - multiset{table[|table| - 1]} else refs
  }

  lemma ReleaseSharedAvailable(p: Pool, b: nat, c: nat, n: nat)
    requires p.BlockAt(b).refCount > 1 && c != b
    ensures Available(WriteTail(CountCow(Release(p, b)), c, n)) == Available(p)
  {
    var q := WriteTail(CountCow(Release(p, b)), c, n);
    assert forall x :: q.Idle(x) <==> p.Idle(x);
    IdleLost(p, q, None);
  }

  lemma WriteAvailable(p: Pool, b: nat, n: nat)
    ensures Available(WriteTail(p, b, n)) == Available(p)
  {
    var q := WriteTail(p, b, n);
    assert forall x :: q.Idle(x) <==> p.Idle(x);
    IdleLost(p, q, None);
  }

  lemma LastHeld(p: Pool, refs: multiset<nat>, table: seq<nat>)
    requires Inv(p, refs) && multiset(table) <= refs && table != []
    ensures var b := table[|table| - 1]; b in refs && b < |p.blocks| && p.blocks[b].refCount == refs[b]
  {
    var b := table[|table| - 1];
    assert b in refs by { assert multiset(table)[b] >= 1; }
    RefCountIs(p, refs, b);
  }

  /** Copying a shared tail takes one block, and needs one. */
  lemma CopyExact(p: Pool, refs: multiset<nat>, b: nat, n: nat)
    requires Inv(p, refs) && b in refs && b < |p.blocks| && p.blocks[b].refCount > 1
    ensures var t := AddBlock(p, None, p.BlockAt(b).nTokens);
      && (t.bid.Some? <==> Available(p) > 0)
      && (t.bid.Some? ==>
            && refs[t.bid.value] == 0
            && Available(WriteTail(CountCow(Release(t.pool, b)), t.bid.value, n)) == Available(p) - 1)
  {
    hide Inv, AddBlock, Release, Available, WriteTail, CountCow;
    AddBlockAvailable(p, refs, None, p.BlockAt(b).nTokens);
    AddBlockInv(p, refs, None, p.BlockAt(b).nTokens);
    var t := AddBlock(p, None, p.BlockAt(b).nTokens);
    if t.bid.Some? {
      ReleaseSharedAvailable(t.pool, b, t.bid.value, n);
    }
  }

  /** Appending to a table that is not empty fails exactly when it takes a block
      and none is available; otherwise it uses exactly what it takes. */
  lemma AppendExact(p: Pool, refs: multiset<nat>, table: seq<nat>, len: nat)
    requires Inv(p, refs) && multiset(table) <= refs && table != []
    ensures
      var r := AppendToken(p, table, len);
      var takes := Takes(table, len, p.blockSize, refs);
      && (takes && Available(p) == 0 ==> r.OutOfBlocks?)
      && (!(takes && Available(p) == 0) ==>
            && r.Grown? && r.table != []
            && Available(r.pool) == Available(p) - (if takes then 1 else 0)
            && forall x :: x in refs ==>
                 (refs - multiset(table) + multiset(r.table))[x] == Settled(table, len, p.blockSize, refs)[x])
  {
    hide Inv, AddBlock, Release, Available, WriteTail, CountCow;
    LastHeld(p, refs, table);
    var last := |table| - 1;
    var b, n := table[last], len % p.blockSize + 1;
    if n == 1 {
      AddBlockAvailable(p, refs, None, 1);
      AddBlockInv(p, refs, None, 1);
      var t := AddBlock(p, None, 1);
      if t.bid.Some? {
        GrownRefs(refs, table, t.bid.value);
      }
    } else if p.blocks[b].refCount > 1 {
      CopyExact(p, refs, b, n);
      var t := AddBlock(p, None, p.BlockAt(b).nTokens);
      if t.bid.Some? {
        CopiedRefs(refs, table, t.bid.value);
      }
    } else {
      WriteAvailable(p, b, n);
    }
  }

  lemma GrownRefs(refs: multiset<nat>, table: seq<nat>, b: nat)
    requires multiset(table) <= refs && refs[b] == 0
    ensures forall x :: x in refs ==> (refs - multiset(table) + multiset(table + [b]))[x] == refs[x]
  {
    assert multiset(table + [b]) == multiset(table) + multiset{b};
  }

  lemma CopiedRefs(refs: multiset<nat>, table: seq<nat>, b: nat)
    requires multiset(table) <= refs && refs[b] == 0 && table != []
    ensures
      var last := |table| - 1;
      forall x :: x in refs ==>
        (refs - multiset(table) + multiset(table[last := b]))[x] == (refs - multiset{table[last]})[x]
  {
    var last := |table| - 1;
    assert table == table[..last] + [table[last]];
    assert table[last := b] == table[..last] + [b];
    assert multiset(table) == multiset(table[..last]) + multiset{table[last]};
    assert multiset(table[last := b]) == multiset(table[..last]) + multiset{b};
  }

  // ---- what all the decodes need

  /** The blocks it takes to grow `ids` one after the other. */
  ghost function Needs(e: Engine, ids: seq<int>, refs: multiset<nat>): nat
    decreases |ids|
  {
    if ids == [] then 0
    else
      var s := e.Get(ids[0]);
      (if Takes(s.table, s.TotalLen(), e.kv.blockSize, refs) then 1 else 0)
      + Needs(e, ids[1..], Settled(s.table, s.TotalLen(), e.kv.blockSize, refs))
  }

  ghost predicate Growable(e: Engine, decodes: seq<int>) {
    NoDup(decodes) && forall x :: x in decodes ==> x in e.running && e.Get(x).table != []
  }

  /** The two agree on the tails of these tables. */
  ghost predicate SameTails(e: Engine, ids: seq<int>, a: multiset<nat>, b: multiset<nat>) {
    forall x :: x in ids ==> TailRefs(e, x, a) == TailRefs(e, x, b)
  }

  ghost function TailRefs(e: Engine, x: int, refs: multiset<nat>): nat {
    var table := e.Get(x).table;
    if table == [] then 0 else refs[table[|table| - 1]]
  }

  lemma SettledTail(table: seq<nat>, len: nat, size: pos, a: multiset<nat>, b: multiset<nat>, x: nat)
    requires a[x] == b[x] && (table != [] ==> a[table[|table| - 1]] == b[table[|table| - 1]])
    ensures Takes(table, len, size, a) == Takes(table, len, size, b)
    ensures Settled(table, len, size, a)[x] == Settled(table, len, size, b)[x]
  {
  }

  /** Growing one table leaves the two in agreement on the tails. */
  lemma SettledTails(e: Engine, ids: seq<int>, table: seq<nat>, len: nat, a: multiset<nat>, b: multiset<nat>)
    requires SameTails(e, ids, a, b) && (table != [] ==> a[table[|table| - 1]] == b[table[|table| - 1]])
    ensures Takes(table, len, e.kv.blockSize, a) == Takes(table, len, e.kv.blockSize, b)
    ensures SameTails(e, ids, Settled(table, len, e.kv.blockSize, a), Settled(table, len, e.kv.blockSize, b))
  {
    hide Takes, Settled;
    var size := e.kv.blockSize;
    if table != [] {
      SettledTail(table, len, size, a, b, table[|table| - 1]);
    } else {
      NoTable(len, size, a, b);
    }
    var a', b' := Settled(table, len, size, a), Settled(table, len, size, b);
    forall x | x in ids ensures TailRefs(e, x, a') == TailRefs(e, x, b') {
      var own := e.Get(x).table;
      assert TailRefs(e, x, a) == TailRefs(e, x, b);
      if own != [] {
        SettledTail(table, len, size, a, b, own[|own| - 1]);
      }
    }
  }

  lemma NoTable(len: nat, size: pos, a: multiset<nat>, b: multiset<nat>)
    ensures Takes([], len, size, a) == Takes([], len, size, b)
  {
  }

  lemma {:induction false} NeedsFrame(e: Engine, e': Engine, ids: seq<int>, a: multiset<nat>, b: multiset<nat>)
    requires e'.kv.blockSize == e.kv.blockSize && forall x :: x in ids ==> e'.Get(x) == e.Get(x)
    requires SameTails(e, ids, a, b)
    ensures Needs(e', ids, a) == Needs(e, ids, b)
    decreases |ids|
  {
    hide Takes, Settled;
    if ids != [] {
      assert ids[0] in ids && forall x :: x in ids[1..] ==> x in ids;
      var s := e.Get(ids[0]);
      var len, size := s.TotalLen(), e.kv.blockSize;
      assert TailRefs(e, ids[0], a) == TailRefs(e, ids[0], b);
      assert SameTails(e, ids[1..], a, b);
      SettledTails(e, ids[1..], s.table, len, a, b);
      hide TailRefs, SameTails;
      NeedsFrame(e, e', ids[1..], Settled(s.table, len, size, a), Settled(s.table, len, size, b));
    }
  }

  // ---- growing one decode

  /** The engine with this table grown. */
  function GrownTo(e: Engine, id: int): Engine {
    var r := AppendToken(e.kv, e.Get(id).table, e.Get(id).TotalLen());
    if r.Grown? then e.Put(id, e.Get(id).(table := r.table)).(kv := r.pool) else e
  }

  ghost predicate IdTakes(e: Engine, id: int) {
    Takes(e.Get(id).table, e.Get(id).TotalLen(), e.kv.blockSize, Held(e))
  }

  ghost function IdSettled(e: Engine, id: int): multiset<nat> {
    Settled(e.Get(id).table, e.Get(id).TotalLen(), e.kv.blockSize, Held(e))
  }

  lemma AppendHeld(e: Engine, id: int)
    requires Accounted(e) && MemoryOk(e) && id in e.running && e.Get(id).table != []
    ensures
      var table := e.Get(id).table;
      var r := AppendToken(e.kv, table, e.Get(id).TotalLen());
      && (IdTakes(e, id) && Available(e.kv) == 0 ==> r.OutOfBlocks?)
      && (!(IdTakes(e, id) && Available(e.kv) == 0) ==>
            && r.Grown? && r.table != [] && SameConfig(e.kv, r.pool)
            && Available(r.pool) == Available(e.kv) - (if IdTakes(e, id) then 1 else 0)
            && forall x :: x in Held(e) ==> (Held(e) - multiset(table) + multiset(r.table))[x] == IdSettled(e, id)[x])
  {
    var s := e.Get(id);
    RunningIsLive(e, id);
    hide Accounted, AppendToken, Inv, Held, Takes, Settled, Available;
    AppendInv(e.kv, s.table, s.TotalLen(), Held(e));
    AppendExact(e.kv, Held(e), s.table, s.TotalLen());
  }

  lemma GrowOneExact(e: Engine, id: int, survivors: seq<int>)
    requires Accounted(e) && MemoryOk(e) && id in e.running && e.Get(id).table != []
    ensures IdTakes(e, id) && Available(e.kv) == 0 ==>
              AppendToken(e.kv, e.Get(id).table, e.Get(id).TotalLen()).OutOfBlocks?
    ensures !(IdTakes(e, id) && Available(e.kv) == 0) ==>
              var e' := GrownTo(e, id);
              && GrowOne(e, id, survivors) == Growth(e', survivors + [id])
              && Accounted(e') && MemoryOk(e') && OnlyTables(e, e')
              && Available(e'.kv) == Available(e.kv) - (if IdTakes(e, id) then 1 else 0)
              && (forall x :: x != id ==> e'.Get(x) == e.Get(x)) && e'.Get(id).table != []
              && (forall x :: x in Held(e) ==> Held(e')[x] == IdSettled(e, id)[x])
  {
    hide Accounted, MemoryOk, AppendToken, Inv, Held, IdTakes, IdSettled, Available, Live;
    AppendHeld(e, id);
    var s := e.Get(id);
    var r := AppendToken(e.kv, s.table, s.TotalLen());
    if r.Grown? {
      RunningIsLive(e, id);
      RunningUnfinished(e, [id]);
      GrownMemory(e, id);
      TableGrownOk(e, id, r.table, r.pool);
      TableExchanged(e, id, r.table, r.pool);
    }
  }

  lemma RestGrowable(e: Engine, e': Engine, decodes: seq<int>)
    requires decodes != [] && Growable(e, decodes) && OnlyTables(e, e')
    requires forall x :: x != decodes[0] ==> e'.Get(x) == e.Get(x)
    ensures Growable(e', decodes[1..])
    ensures forall x :: x in decodes[1..] ==> x != decodes[0] && x in decodes
  {
    forall x | x in decodes[1..] ensures x != decodes[0] && x in decodes {
      var i :| 0 <= i < |decodes[1..]| && decodes[1..][i] == x;
      assert decodes[i + 1] == x;
    }
  }

  lemma TailHeld(e: Engine, id: int)
    requires Accounted(e) && id in e.running && e.Get(id).table != []
    ensures e.Get(id).table[|e.Get(id).table| - 1] in Held(e)
  {
    RunningIsLive(e, id);
    hide Held, Accounted;
    var table := e.Get(id).table;
    assert multiset(table)[table[|table| - 1]] >= 1;
  }

  /** After a growth the others need what they needed before. */
  lemma NeedsAfter(e: Engine, e': Engine, decodes: seq<int>, ids: seq<int>)
    requires decodes != [] && Growable(e, decodes) && Accounted(e) && OnlyTables(e, e')
    requires forall x :: x != decodes[0] ==> e'.Get(x) == e.Get(x)
    requires forall x :: x in Held(e) ==> Held(e')[x] == IdSettled(e, decodes[0])[x]
    requires forall x :: x in ids ==> x in decodes[1..]
    ensures Needs(e', ids, Held(e')) == Needs(e, ids, IdSettled(e, decodes[0]))
  {
    RestGrowable(e, e', decodes);
    hide Accounted, Held, Settled, IdSettled, Needs;
    forall x | x in ids ensures TailRefs(e, x, Held(e')) == TailRefs(e, x, IdSettled(e, decodes[0])) {
      TailHeld(e, x);
    }
    NeedsFrame(e, e', ids, Held(e'), IdSettled(e, decodes[0]));
  }

  // ---- preemptions are counted

  lemma {:induction false} GrowOneCounts(e: Engine, id: int, survivors: seq<int>)
    ensures var g := GrowOne(e, id, survivors); g.Growth? ==> g.engine.totalPreemptions >= e.totalPreemptions
    ensures AppendToken(e.kv, e.Get(id).table, e.Get(id).TotalLen()).OutOfBlocks? ==>
              var g := GrowOne(e, id, survivors); g.Growth? ==> g.engine.totalPreemptions > e.totalPreemptions
    decreases |e.running|
  {
    hide AppendToken, Free;
    var s := e.Get(id);
    var r := AppendToken(e.kv, s.table, s.TotalLen());
    if r.OutOfBlocks? && Victim(e.running, id).Some? {
      var v := Victim(e.running, id).value;
      GrowOneCounts(Preempt(e.(kv := r.pool), v), id, Remove(survivors, v));
    }
  }

  lemma {:induction false} GrowAllCounts(e: Engine, decodes: seq<int>, survivors: seq<int>)
    ensures var g := GrowAll(e, decodes, survivors); g.Growth? ==> g.engine.totalPreemptions >= e.totalPreemptions
    decreases |decodes|
  {
    hide GrowOne;
    if decodes != [] {
      GrowOneCounts(e, decodes[0], survivors);
      var g := GrowOne(e, decodes[0], survivors);
      if g.Growth? {
        GrowAllCounts(g.engine, decodes[1..], g.survivors);
      }
    }
  }

  // ---- nobody is preempted exactly when there is a block for everyone's need

  /** Growing succeeds without preempting anybody. */
  ghost predicate Undisturbed(e: Engine, g: Growth) {
    g.Growth? && g.engine.totalPreemptions == e.totalPreemptions
  }

  /** Growing preempts nobody exactly when the blocks the decodes need are
      available; then every decode survives, and exactly those blocks are used. */
  lemma {:induction false} GrowthExact(e: Engine, decodes: seq<int>, survivors: seq<int>)
    requires Accounted(e) && MemoryOk(e) && Growable(e, decodes)
    ensures
      var g := GrowAll(e, decodes, survivors);
      var need := Needs(e, decodes, Held(e));
      && (Undisturbed(e, g) <==> need <= Available(e.kv))
      && (need <= Available(e.kv) ==>
            && g.survivors == survivors + decodes && OnlyTables(e, g.engine)
            && Available(g.engine.kv) == Available(e.kv) - need)
    decreases |decodes|
  {
    hide Accounted, MemoryOk, GrowOne, Available, Held, GrownTo, Takes, Settled;
    if decodes == [] {
      assert survivors + decodes == survivors;
    } else {
      var id := decodes[0];
      assert id in decodes;
      GrowOneExact(e, id, survivors);
      if IdTakes(e, id) && Available(e.kv) == 0 {
        GrowOneCounts(e, id, survivors);
        var g := GrowOne(e, id, survivors);
        if g.Growth? {
          GrowAllCounts(g.engine, decodes[1..], g.survivors);
        }
      } else {
        var e' := GrownTo(e, id);
        RestGrowable(e, e', decodes);
        NeedsAfter(e, e', decodes, decodes[1..]);
        GrowthExact(e', decodes[1..], survivors + [id]);
        var g := GrowAll(e', decodes[1..], survivors + [id]);
        if g.Growth? && OnlyTables(e', g.engine) {
          OnlyTablesTrans(e, e', g.engine);
        }
        assert survivors + [id] + decodes[1..] == survivors + decodes;
      }
    }
  }

  // ---- the step raises exactly when the newest is preempted too early

  /** A preempted sequence that growing cannot handle: no table, and a length off
      the block boundary. */
  ghost predicate Doomed(e: Engine, x: int) {
    x !in e.running && e.Get(x).table == [] && e.Get(x).TotalLen() % e.kv.blockSize != 0
  }

  lemma {:induction false} FreeConfig(p: Pool, table: seq<nat>)
    ensures Free(p, table).blockSize == p.blockSize
    decreases |table|
  {
    if table != [] {
      FreeConfig(Release(p, table[0]), table[1..]);
    }
  }

  lemma AppendConfig(p: Pool, table: seq<nat>, len: nat)
    ensures var r := AppendToken(p, table, len);
      && (r.Grown? ==> r.pool.blockSize == p.blockSize) && (r.OutOfBlocks? ==> r.pool.blockSize == p.blockSize)
  {
  }

  lemma {:induction false} RemoveIn(s: seq<int>, v: int, x: int)
    ensures x in Remove(s, v) ==> x in s
    ensures x != v ==> (x in Remove(s, v) <==> x in s)
  {
    if s != [] && s[0] != v {
      RemoveIn(s[1..], v, x);
    }
  }

  /** Growing and preempting others does not help it. */
  lemma {:induction false} StillDoomed(e: Engine, id: int, survivors: seq<int>, x: int)
    requires Doomed(e, x) && id != x
    ensures var g := GrowOne(e, id, survivors); g.Growth? ==> Doomed(g.engine, x)
    decreases |e.running|
  {
    hide AppendToken, Free;
    var s := e.Get(id);
    AppendConfig(e.kv, s.table, s.TotalLen());
    var r := AppendToken(e.kv, s.table, s.TotalLen());
    if r.OutOfBlocks? {
      var e1 := e.(kv := r.pool);
      FreeConfig(e1.kv, s.table);
      RemoveIn(e.running, id, x);
      if Victim(e.running, id).Some? {
        var v := Victim(e.running, id).value;
        FreeConfig(e1.kv, e.Get(v).table);
        RemoveIn(e.running, v, x);
        StillDoomed(Preempt(e1, v), id, Remove(survivors, v), x);
      }
    }
  }

  lemma {:induction false} DoomedFails(e: Engine, decodes: seq<int>, survivors: seq<int>, x: int)
    requires Doomed(e, x) && x in decodes
    ensures GrowAll(e, decodes, survivors) == GrowFailed
    decreases |decodes|
  {
    if decodes[0] != x {
      hide GrowOne;
      StillDoomed(e, decodes[0], survivors, x);
      var g := GrowOne(e, decodes[0], survivors);
      if g.Growth? {
        DoomedFails(g.engine, decodes[1..], g.survivors, x);
      }
    }
  }

  /** A running sequence with a table always gets its block, at whatever cost. */
  lemma {:induction false} RunningGrows(e: Engine, id: int, survivors: seq<int>)
    requires id in e.running && e.Get(id).table != []
    ensures GrowOne(e, id, survivors).Growth?
    decreases |e.running|
  {
    hide Free;
    var s := e.Get(id);
    var r := AppendToken(e.kv, s.table, s.TotalLen());
    if r.OutOfBlocks? && Victim(e.running, id).Some? {
      var v := Victim(e.running, id).value;
      RemoveIn(e.running, v, id);
      RunningGrows(Preempt(e.(kv := r.pool), v), id, Remove(survivors, v));
    }
  }

  /** The length a preempted sequence waits with: swapped, it keeps its tokens. */
  function WaitingLen(e: Engine, x: int): nat {
    if e.cfg.swap then e.Get(x).TotalLen() else e.Get(x).req.promptTokens
  }

  /** Making room for another first preempts the newest running sequence. */
  lemma NewestDoomed(e: Engine, id: int, survivors: seq<int>)
    requires Accounted(e) && e.running != []
    requires AppendToken(e.kv, e.Get(id).table, e.Get(id).TotalLen()).OutOfBlocks?
    requires
      var last := e.running[|e.running| - 1];
      last != id && WaitingLen(e, last) % e.kv.blockSize != 0
    ensures var g := GrowOne(e, id, survivors); g.Growth? ==> Doomed(g.engine, e.running[|e.running| - 1])
  {
    hide AppendToken, Free;
    var s, last := e.Get(id), e.running[|e.running| - 1];
    var r := AppendToken(e.kv, s.table, s.TotalLen());
    assert Victim(e.running, id) == Some(last);
    var e1 := e.(kv := r.pool);
    AppendConfig(e.kv, s.table, s.TotalLen());
    FreeConfig(e1.kv, e.Get(last).table);
    RunningNoDup(e);
    RemoveNoDup(e.running, last);
    StillDoomed(Preempt(e1, last), id, Remove(survivors, last), last);
  }

  lemma RunningNoDup(e: Engine)
    requires Accounted(e)
    ensures NoDup(e.running)
  {
    forall x | x in e.running ensures multiset(e.running)[x] <= 1 {
      assert Members(e)[x] <= 1;
    }
    MultiplicityNoDup(e.running);
  }

  /** With the newest running sequence last among the decodes, and due to wait at a
      length off the block boundary, growing raises exactly when the decodes before
      it need more blocks than are available. */
  lemma {:induction false} GrowthFailsExactly(e: Engine, decodes: seq<int>, survivors: seq<int>)
    requires Accounted(e) && MemoryOk(e) && Growable(e, decodes) && decodes != [] && e.running != []
    requires decodes[|decodes| - 1] == e.running[|e.running| - 1]
    requires WaitingLen(e, decodes[|decodes| - 1]) % e.kv.blockSize != 0
    ensures GrowAll(e, decodes, survivors) == GrowFailed
       <==> Needs(e, decodes[..|decodes| - 1], Held(e)) > Available(e.kv)
    decreases |decodes|
  {
    hide Accounted, MemoryOk, Available, Held, Takes, Settled, AppendToken;
    var id, before := decodes[0], decodes[..|decodes| - 1];
    assert id in decodes;
    if |decodes| == 1 {
      RunningGrows(e, id, survivors);
      var g := GrowOne(e, id, survivors);
      assert GrowAll(e, decodes, survivors) == GrowAll(g.engine, [], g.survivors);
    } else {
      hide GrowOne, GrownTo;
      var last := decodes[|decodes| - 1];
      assert before[0] == id && last != id;
      GrowOneExact(e, id, survivors);
      assert decodes[1..][|decodes| - 2] == last;
      if IdTakes(e, id) && Available(e.kv) == 0 {
        NewestDoomed(e, id, survivors);
        var g := GrowOne(e, id, survivors);
        if g.Growth? {
          DoomedFails(g.engine, decodes[1..], g.survivors, last);
        }
      } else {
        var e' := GrownTo(e, id);
        RestGrowable(e, e', decodes);
        assert decodes[1..][..|decodes| - 2] == before[1..];
        NeedsAfter(e, e', decodes, before[1..]);
        GrowthFailsExactly(e', decodes[1..], survivors + [id]);
      }
    }
  }
}
