/** A healthy engine stays healthy through each part of a step. */
module EngineHealthySteps {
  import opened Lists
  import opened PagedSpec
  import opened PagedInvariant
  import opened EngineSpec
  import opened EngineAccounting
  import opened EngineMoves
  import opened EngineSteps
  import opened EngineRuns
  import opened EngineMemory
  import opened EngineFit
  import opened EngineHealth

  // ---- arrivals and order

  lemma AdmitOneHealthy(e: Engine, m: nat)
    requires Healthy(e, m) && e.pending != []
    ensures Healthy(AdmitOne(e), m)
  {
    var e' := AdmitOne(e);
    AdmitOneAccounted(e);
    AdmitOneMemory(e);
    AdmitOneHeld(e);
    AdmitOneCalm(e, m);
    hide Accounted, MemoryOk, Sole, Held;
  }

  lemma AdmitOneHeld(e: Engine)
    requires Accounted(e) && e.pending != []
    ensures Held(AdmitOne(e)) == Held(e)
  {
    var id := e.pending[0].id;
    var e' := AdmitOne(e);
    AdmitOneMembers(e);
    NotTracked(e, id);
    assert forall x :: x in Live(e) ==> e'.Get(x) == e.Get(x);
    AdmitLive(e);
    hide Accounted, AdmitOne, Live;
    RefsSame(e, e', Live(e));
    RefsPermuted(e', Live(e'), [id] + Live(e));
    RefsCons(e', id, Live(e));
  }

  lemma AdmitOneCalm(e: Engine, m: nat)
    requires Accounted(e) && Calm(e, m) && Settled(e) && e.pending != []
    ensures Calm(AdmitOne(e), m) && Settled(AdmitOne(e))
  {
    AdmitOneMembers(e);
    NotTracked(e, e.pending[0].id);
    hide Accounted, Members, Tracked;
    AdmitOneSettled(e);
    hide Settled;
    AdmitOneStillCalm(e, m);
  }

  lemma AdmitOneSettled(e: Engine)
    requires Settled(e) && e.pending != [] && !OnSomeList(e, e.pending[0].id)
    ensures Settled(AdmitOne(e))
  {
    hide Prefilling, Decoding;
    assert forall x :: x in e.running ==> AdmitOne(e).Get(x) == e.Get(x);
  }

  lemma AdmitOneStillCalm(e: Engine, m: nat)
    requires Calm(e, m) && e.pending != [] && !OnSomeList(e, e.pending[0].id)
    ensures Calm(AdmitOne(e), m)
  {
    var e' := AdmitOne(e);
    var r := WithTokens(e.pending[0]);
    assert Fits(e.pending[0], e.kv.blockSize, m) && Fits(r, e.kv.blockSize, m);
    hide Fits, WithTokens;
    assert e'.seqs == e.seqs[r.id := NewSequence(r)];
    assert forall x :: x in e.waiting ==> e'.Get(x) == e.Get(x);
    assert forall i :: 0 <= i < |e'.pending| ==> e'.pending[i] == e.pending[i + 1];
  }

  lemma {:induction false} AdmitArrivalsHealthy(e: Engine, m: nat)
    requires Healthy(e, m)
    ensures Healthy(AdmitArrivals(e), m)
    decreases |e.pending|
  {
    hide Healthy, WithTokens, NewSequence;
    if e.pending != [] && e.pending[0].arrival <= e.now {
      AdmitOneHealthy(e, m);
      AdmitArrivalsHealthy(AdmitOne(e), m);
    }
  }

  lemma ClockHealthy(e: Engine, now: real, stepNo: nat, m: nat)
    requires Healthy(e, m) && e.now <= now
    ensures Healthy(e.(now := now, stepNo := stepNo), m)
  {
    hide Accounted, MemoryOk, Sole, Held, Calm, Settled;
    ClockAccounted(e, now, stepNo);
    ClockMemory(e, now, stepNo);
    ClockHeld(e, now, stepNo);
    ClockCalm(e, now, stepNo, m);
  }

  lemma ClockHeld(e: Engine, now: real, stepNo: nat)
    ensures Held(e.(now := now, stepNo := stepNo)) == Held(e)
  {
    RefsSame(e, e.(now := now, stepNo := stepNo), Live(e));
  }

  lemma ClockCalm(e: Engine, now: real, stepNo: nat, m: nat)
    requires Calm(e, m) && Settled(e)
    ensures Calm(e.(now := now, stepNo := stepNo), m) && Settled(e.(now := now, stepNo := stepNo))
  {
    hide Fits, Prefilling, Decoding, Untouched;
    assert forall x :: e.(now := now, stepNo := stepNo).Get(x) == e.Get(x);
  }

  lemma WakeHealthy(e: Engine, m: nat)
    requires Healthy(e, m)
    ensures Healthy(Wake(e), m)
    ensures !InFlight(Wake(e)) ==> Wake(e).pending == []
  {
    hide Healthy, AdmitArrivals;
    AdmitArrivalsHealthy(e, m);
    var e1 := AdmitArrivals(e);
    if !(InFlight(e1) || e1.pending == []) {
      var e2 := e1.(now := e1.pending[0].arrival);
      HealthyBooks(e, m);
      AdmitArrivalsAccounted(e);
      ClockHealthy(e1, e1.pending[0].arrival, e1.stepNo, m);
      AdmitArrivalsHealthy(e2, m);
      JumpAdmits(e2);
    }
  }

  lemma HealthyBooks(e: Engine, m: nat)
    requires Healthy(e, m)
    ensures Accounted(e)
  {
  }

  /** A jump to the next arrival admits it. */
  lemma JumpAdmits(e: Engine)
    requires e.pending != [] && e.pending[0].arrival <= e.now
    ensures AdmitArrivals(e).waiting != []
  {
    WaitingStays(AdmitOne(e));
  }

  lemma {:induction false} WaitingStays(e: Engine)
    ensures |AdmitArrivals(e).waiting| >= |e.waiting|
    decreases |e.pending|
  {
    if e.pending != [] && e.pending[0].arrival <= e.now {
      WaitingStays(AdmitOne(e));
    }
  }

  lemma SortHealthy(e: Engine, m: nat)
    requires Healthy(e, m)
    ensures Healthy(SortWaiting(e), m)
  {
    var e' := SortWaiting(e);
    SortWaitingAccounted(e);
    SortMemory(e);
    SortCalm(e, m);
    SortHeld(e);
    hide Accounted, MemoryOk, Sole, Held, Calm, SortWaiting;
  }

  lemma SortCalm(e: Engine, m: nat)
    requires Calm(e, m) && Settled(e)
    ensures Calm(SortWaiting(e), m) && Settled(SortWaiting(e))
  {
    var e' := SortWaiting(e);
    SortMultiset(e, e.waiting);
    hide Fits, CeilDiv, SortByPriority;
    forall x | x in e'.waiting ensures x in e.waiting {
      assert x in multiset(e'.waiting);
    }
  }

  lemma SortHeld(e: Engine)
    ensures Held(SortWaiting(e)) == Held(e)
  {
    var e' := SortWaiting(e);
    SortMultiset(e, e.waiting);
    LiveMultiset(e);
    LiveMultiset(e');
    hide Live, SortByPriority;
    RefsPermuted(e', Live(e), Live(e'));
    RefsSame(e, e', Live(e));
  }

  /** The start of a step: nothing has been grown. */
  lemma SettledIsMid(e: Engine, m: nat, todo: seq<int>)
    requires Healthy(e, m)
    requires forall x :: x in todo ==> x in e.running && e.Get(x).PrefillDone()
    ensures MidStep(e, m, todo)
  {
    hide Accounted, MemoryOk, Sole, Calm;
    forall x | x in e.running && Decoding(e.Get(x), e.kv.blockSize)
      ensures Grown'(e.Get(x), e.kv.blockSize)
    {
      DecodingIsGrown(e.Get(x), e.kv.blockSize);
    }
  }

  // ---- admission

  /** The record of a sequence that has just been given its prompt blocks. */
  ghost predicate JustAdmitted(s: Sequence, size: pos) {
    Prefilling(s, size) && s.prefilled == 0
  }

  /** The head of the waiting list started running with its own blocks, and no
      other record changed. */
  ghost predicate HeadStarted(e: Engine, e1: Engine) {
    && e.waiting != []
    && e1.waiting == e.waiting[1..] && e1.running == e.running + [e.waiting[0]]
    && e1.kv.blockSize == e.kv.blockSize && e1.cfg == e.cfg
    && JustAdmitted(e1.Get(e.waiting[0]), e1.kv.blockSize)
    && e1.Get(e.waiting[0]).req == e.Get(e.waiting[0]).req
    && (forall x :: x != e.waiting[0] ==> e1.Get(x) == e.Get(x))
    && e1.pending == e.pending
  }

  lemma AdmitHealthy(e: Engine, m: nat, todo: seq<int>)
    requires MidStep(e, m, todo) && e.waiting != [] && |e.running| < e.cfg.maxNumSeqs
    requires e.waiting[0] !in todo
    ensures var id := e.waiting[0];
      var a := Allocate(e, id);
      && (a.ok <==> e.kv.CanAllocate(CeilDiv(e.Get(id).req.promptTokens, e.kv.blockSize)))
      && (!a.ok ==> a.engine == e)
      && (a.ok ==> MidStep(StartHead(a.engine), m, todo) && HeadStarted(e, StartHead(a.engine)))
  {
    var id := e.waiting[0];
    var s := e.Get(id);
    var a := Allocate(e, id);
    WaitingHead(e);
    KnownRecord(e, id);
    if e.kv.CanAllocate(CeilDiv(s.req.promptTokens, e.kv.blockSize)) {
      assert |s.req.tokenIds| == s.req.promptTokens;
      AdmittedPrompt(e.kv, Held(e), s.req.tokenIds);
      AllocateMemory(e, id);
      AllocateAccounted(e, id);
      var r := AllocatePrompt(e.kv, s.req.tokenIds);
      assert Untouched(s);
      hide AllocatePrompt, Accounted, Inv, Sole;
      assert a.ok;
      AdmittedHeld(e, id, r);
      StartedHeld(a.engine);
      StartHeadAccounted(a.engine);
      StartHeadMemory(a.engine);
      StartedCalm(e, m, todo, r);
    }
  }

  lemma AdmittedHeld(e: Engine, id: int, r: Allocation)
    requires Accounted(e) && id in e.waiting && e.Get(id).table == []
    ensures var e1 := e.Put(id, e.Get(id).(table := r.table, cached := r.cached, prefilled := r.cached)).(
                        kv := r.pool, lost := e.lost + multiset(e.Get(id).table));
      Held(e1) == Held(e) + multiset(r.table)
  {
    var e1 := e.Put(id, e.Get(id).(table := r.table, cached := r.cached, prefilled := r.cached)).(
                kv := r.pool, lost := e.lost + multiset(e.Get(id).table));
    LiveOnce(e, id);
    LiveSame(e, e1);
    hide Accounted, Live, Held;
    MemoryExchanged(e, e1, id, multiset(e.Get(id).table));
    assert multiset(e.Get(id).table) == multiset{};
  }

  lemma StartedHeld(e: Engine)
    requires e.waiting != []
    ensures Held(StartHead(e)) == Held(e)
  {
    var e' := StartHead(e);
    assert e.waiting == [e.waiting[0]] + e.waiting[1..];
    assert multiset(Live(e')) == multiset(Live(e));
    RefsSame(e, e', Live(e));
    RefsPermuted(e', Live(e), Live(e'));
  }

  lemma StartedCalm(e: Engine, m: nat, todo: seq<int>, r: Allocation)
    requires Accounted(e) && Calm(e, m) && Tables(e, todo) && e.waiting != [] && e.waiting[0] !in todo
    requires var s := e.Get(e.waiting[0]);
      r.ok && r.cached == 0 && |r.table| == CeilDiv(s.req.promptTokens, e.kv.blockSize) && SameConfig(e.kv, r.pool)
    ensures var id := e.waiting[0];
      var e1 := StartHead(e.Put(id, e.Get(id).(table := r.table, cached := r.cached, prefilled := r.cached)).(
                  kv := r.pool, lost := e.lost + multiset(e.Get(id).table)));
      Calm(e1, m) && Tables(e1, todo) && HeadStarted(e, e1)
  {
    var id := e.waiting[0];
    var e1 := StartHead(e.Put(id, e.Get(id).(table := r.table, cached := r.cached, prefilled := r.cached)).(
                kv := r.pool, lost := e.lost + multiset(e.Get(id).table)));
    WaitingHead(e);
    HeadTracked(e);
    assert Untouched(e.Get(id)) && Fits(e.seqs[id].req, e.kv.blockSize, m);
    assert e1.lost == multiset{};
    hide Accounted, CeilDiv, DecodingTo;
    assert forall x :: x != id ==> e1.Get(x) == e.Get(x);
  }
}
