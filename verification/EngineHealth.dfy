/** The state of an engine whose pool is large enough and whose prefix cache is
    off: no sequence has ever been preempted, every table is private and within
    its request's size, and nothing is lost. */
module EngineHealth {
  import opened Lists
  import opened PagedSpec
  import opened PagedInvariant
  import opened EngineSpec
  import opened EngineAccounting
  import opened EngineMoves
  import opened EngineSteps
  import opened EngineRuns
  import opened EngineMemory
  import opened EngineFit

  // ---- one record

  /** The request is not empty and needs at most `m` blocks in all. */
  predicate Fits(r: Request, size: pos, m: nat) {
    r.promptTokens >= 1 && r.outputTokens >= 1 && CeilDiv(r.promptTokens + r.outputTokens, size) <= m
  }

  predicate Untouched(s: Sequence) {
    s.table == [] && s.prefilled == 0 && s.generated == 0
  }

  predicate Prefilling(s: Sequence, size: pos) {
    s.generated == 0 && s.prefilled < s.req.promptTokens && |s.table| == CeilDiv(s.req.promptTokens, size)
  }

  /** The prompt is in place and the table covers decode up to length `len`. */
  predicate DecodingTo(s: Sequence, size: pos, len: nat) {
    && s.prefilled == s.req.promptTokens && s.generated >= 1 && s.table != []
    && |s.table| + s.req.promptTokens / size <= CeilDiv(s.req.promptTokens, size) + len / size
  }

  /** Ready for the next step. */
  predicate Decoding(s: Sequence, size: pos) {
    s.generated >= 1 && DecodingTo(s, size, s.req.promptTokens + s.generated - 1)
  }

  /** Its table has been grown in this step. */
  predicate Grown'(s: Sequence, size: pos) {
    DecodingTo(s, size, s.TotalLen())
  }

  lemma DecodingIsGrown(s: Sequence, size: pos)
    requires Decoding(s, size)
    ensures Grown'(s, size)
  {
    DivMonotone(s.TotalLen() - 1, s.TotalLen(), size);
  }

  /** No table outgrows its request. */
  lemma TableWithin(s: Sequence, size: pos, m: nat)
    requires Fits(s.req, size, m) && !s.Done()
    requires Prefilling(s, size) || Grown'(s, size)
    ensures |s.table| <= m && s.table != []
  {
    var p, o := s.req.promptTokens, s.req.outputTokens;
    TableLimit(p, o, size);
    CeilDivIs(p, size);
    if Grown'(s, size) {
      DivMonotone(s.TotalLen(), p + o - 1, size);
    } else {
      DivMonotone(size, p + size - 1, size);
      DivModUnique(size, size, 1, 0);
    }
  }

  /** A table about to take a new block has room for it. */
  lemma RoomToGrow(s: Sequence, size: pos, m: nat)
    requires Fits(s.req, size, m) && !s.Done() && Decoding(s, size)
    requires s.TotalLen() % size == 0
    ensures |s.table| + 1 <= m
  {
    DivNext(s.TotalLen(), size);
    var grown := s.(table := s.table + [0]);
    assert Grown'(grown, size);
    TableWithin(grown, size, m);
  }

  // ---- the engine

  /** What holds throughout a step, tables aside. */
  ghost predicate Calm(e: Engine, m: nat) {
    && !e.kv.caching && e.lost == multiset{} && e.swapped == [] && e.totalPreemptions == 0
    && |e.kv.blocks| >= e.cfg.maxNumSeqs * m && |e.kv.blocks| >= m + e.kv.watermark
    && e.cfg.maxNumSeqs >= 1 && e.cfg.maxBatchedTokens >= 1
    && (forall x :: x in e.waiting ==> Untouched(e.Get(x)))
    && (forall x :: x in e.seqs ==> Fits(e.seqs[x].req, e.kv.blockSize, m))
    && (forall i :: 0 <= i < |e.pending| ==> Fits(e.pending[i], e.kv.blockSize, m))
  }

  /** In the middle of a step: the sequences in `todo` have not been grown yet. */
  ghost predicate Tables(e: Engine, todo: seq<int>) {
    forall x :: x in e.running ==>
      && !e.Get(x).Done()
      && (Prefilling(e.Get(x), e.kv.blockSize) || Grown'(e.Get(x), e.kv.blockSize))
      && (x in todo ==> Decoding(e.Get(x), e.kv.blockSize))
  }

  ghost predicate MidStep(e: Engine, m: nat, todo: seq<int>) {
    Accounted(e) && MemoryOk(e) && Sole(Held(e)) && Calm(e, m) && Tables(e, todo)
  }

  /** Between steps: prefilling or ready to decode. Without chunked prefill no
      sequence is left half prefilled. */
  ghost predicate Settled(e: Engine) {
    forall x :: x in e.running ==>
      && !e.Get(x).Done()
      && (Prefilling(e.Get(x), e.kv.blockSize) || Decoding(e.Get(x), e.kv.blockSize))
      && (!e.cfg.chunked ==> Decoding(e.Get(x), e.kv.blockSize))
  }

  ghost predicate Healthy(e: Engine, m: nat) {
    Accounted(e) && MemoryOk(e) && Sole(Held(e)) && Calm(e, m) && Settled(e)
  }

  // ---- capacity

  lemma {:induction false} RefsAppend(e: Engine, a: seq<int>, b: seq<int>)
    ensures TableRefs(e, a + b) == TableRefs(e, a) + TableRefs(e, b)
  {
    if a == [] {
      assert a + b == b;
    } else {
      RefsAppend(e, a[1..], b);
      assert (a + b)[1..] == a[1..] + b;
    }
  }

  lemma {:induction false} NoRefs(e: Engine, ids: seq<int>)
    requires forall x :: x in ids ==> e.Get(x).table == []
    ensures TableRefs(e, ids) == multiset{}
  {
    if ids != [] {
      NoRefs(e, ids[1..]);
    }
  }

  lemma MulSucc(n: nat, m: nat)
    ensures (n + 1) * m == n * m + m
  {
  }

  lemma {:induction false} RefsAtMost(e: Engine, ids: seq<int>, m: nat)
    requires forall x :: x in ids ==> |e.Get(x).table| <= m
    ensures |TableRefs(e, ids)| <= |ids| * m
  {
    if ids != [] {
      RefsAtMost(e, ids[1..], m);
      MulSucc(|ids| - 1, m);
      assert |multiset(e.Get(ids[0]).table)| == |e.Get(ids[0]).table|;
    }
  }

  lemma {:induction false} RefsBelow(e: Engine, ids: seq<int>, m: nat, y: int)
    requires forall x :: x in ids ==> |e.Get(x).table| <= m
    requires y in ids && |e.Get(y).table| < m
    ensures |TableRefs(e, ids)| < |ids| * m
  {
    MulSucc(|ids| - 1, m);
    assert |multiset(e.Get(ids[0]).table)| == |e.Get(ids[0]).table|;
    if ids[0] == y {
      RefsAtMost(e, ids[1..], m);
    } else {
      RefsBelow(e, ids[1..], m, y);
    }
  }

  /** Only running sequences hold blocks. */
  lemma HeldIsRunning(e: Engine, m: nat)
    requires Calm(e, m)
    ensures Held(e) == TableRefs(e, e.running)
  {
    NoRefs(e, e.waiting);
    RefsAppend(e, e.waiting, e.running);
    assert Live(e) == e.waiting + e.running;
  }

  lemma MidTables(e: Engine, m: nat, todo: seq<int>)
    requires MidStep(e, m, todo)
    ensures forall x :: x in e.running ==> |e.Get(x).table| <= m && e.Get(x).table != [] && x in e.seqs
  {
    forall x | x in e.running ensures |e.Get(x).table| <= m && e.Get(x).table != [] && x in e.seqs {
      assert OnSomeList(e, x);
      assert x in e.seqs;
      hide Accounted, MemoryOk, Sole;
      TableWithin(e.Get(x), e.kv.blockSize, m);
    }
  }

  lemma MulMono(a: nat, b: nat, m: nat)
    requires a <= b
    ensures a * m <= b * m
  {
  }

  /** A sequence that needs another block finds one free. */
  lemma BlockForGrowth(e: Engine, m: nat, todo: seq<int>, x: int)
    requires MidStep(e, m, todo) && x in e.running && x in todo
    requires e.Get(x).TotalLen() % e.kv.blockSize == 0
    ensures |e.kv.freeIds| > 0
  {
    MidTables(e, m, todo);
    RoomToGrow(e.Get(x), e.kv.blockSize, m) by {
      assert x in e.seqs;
    }
    HeldIsRunning(e, m);
    RefsBelow(e, e.running, m, x);
    MulMono(|e.running|, e.cfg.maxNumSeqs, m) by {
      assert Accounted(e);
    }
    FreePlusHeld(e.kv, Held(e));
  }

  /** An engine with an empty batch can always admit. */
  lemma RoomToAdmit(e: Engine, m: nat, todo: seq<int>, x: int)
    requires MidStep(e, m, todo) && e.running == [] && x in e.seqs
    ensures e.kv.CanAllocate(CeilDiv(e.Get(x).req.promptTokens, e.kv.blockSize))
  {
    HeldIsRunning(e, m);
    FreePlusHeld(e.kv, Held(e));
    TableLimit(e.Get(x).req.promptTokens, e.Get(x).req.outputTokens, e.kv.blockSize);
  }
}
