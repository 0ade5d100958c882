/** The engine and its block pool agree over every run: the references the pool
    has handed out are exactly the tables of unfinished sequences, plus the
    references of tables that were dropped or overwritten. */
module EngineMemory {
  import opened Lists
  import opened PagedSpec
  import opened PagedInvariant
  import opened EngineSpec
  import opened EngineAccounting
  import opened EngineMoves
  import opened EngineSteps
  import opened EngineRuns

  function TableRefs(e: Engine, ids: seq<int>): multiset<nat> {
    if ids == [] then multiset{} else multiset(e.Get(ids[0]).table) + TableRefs(e, ids[1..])
  }

  function Live(e: Engine): seq<int> {
    e.waiting + e.running + e.swapped
  }

  ghost function Held(e: Engine): multiset<nat> {
    TableRefs(e, Live(e)) + e.lost
  }

  ghost predicate MemoryOk(e: Engine) {
    Inv(e.kv, Held(e))
  }

  // ---- references of a list of sequences

  lemma {:induction false} RefsSame(e: Engine, e': Engine, ids: seq<int>)
    requires forall x :: x in ids ==> e'.Get(x).table == e.Get(x).table
    ensures TableRefs(e', ids) == TableRefs(e, ids)
  {
    if ids != [] {
      RefsSame(e, e', ids[1..]);
    }
  }

  lemma {:induction false} RefsPick(e: Engine, ids: seq<int>, x: int)
    requires x in ids
    ensures TableRefs(e, ids) == multiset(e.Get(x).table) + TableRefs(e, Remove(ids, x))
  {
    if ids[0] != x {
      RefsPick(e, ids[1..], x);
      var rest := Remove(ids[1..], x);
      assert Remove(ids, x) == [ids[0]] + rest;
      assert ([ids[0]] + rest)[1..] == rest;
    }
  }

  /** Only which sequences are listed matters, not their order. */
  lemma {:induction false} RefsPermuted(e: Engine, a: seq<int>, b: seq<int>)
    requires multiset(a) == multiset(b)
    ensures TableRefs(e, a) == TableRefs(e, b)
    decreases |a|
  {
    if a == [] {
      assert |multiset(b)| == 0;
    } else {
      assert a == [a[0]] + a[1..];
      assert a[0] in multiset(b);
      RefsPick(e, b, a[0]);
      RemoveMultiset(b, a[0]);
      assert multiset(a[1..]) == multiset(Remove(b, a[0]));
      RefsPermuted(e, a[1..], Remove(b, a[0]));
    }
  }

  /** Replacing the table of one listed sequence. */
  lemma RefsExchanged(e: Engine, e': Engine, ids: seq<int>, x: int)
    requires x in ids && multiset(ids)[x] == 1
    requires forall y :: y in ids && y != x ==> e'.Get(y).table == e.Get(y).table
    ensures multiset(e.Get(x).table) <= TableRefs(e, ids)
    ensures TableRefs(e', ids) == TableRefs(e, ids) - multiset(e.Get(x).table) + multiset(e'.Get(x).table)
  {
    RefsPick(e, ids, x);
    RefsPick(e', ids, x);
    var rest := Remove(ids, x);
    RemoveMultiset(ids, x);
    forall y | y in rest ensures e'.Get(y).table == e.Get(y).table {
      assert y in multiset(rest);
      assert multiset(rest)[y] == multiset(ids)[y] - if y == x then 1 else 0;
    }
    RefsSame(e, e', rest);
  }

  // ---- the unfinished sequences

  lemma LiveMultiset(e: Engine)
    ensures multiset(Live(e)) == multiset(e.waiting) + multiset(e.running) + multiset(e.swapped)
  {
  }

  lemma LiveOnce(e: Engine, x: int)
    requires AtMostOnce(Members(e))
    requires x in e.waiting || x in e.running || x in e.swapped
    ensures x in Live(e) && multiset(Live(e))[x] == 1
  {
    LiveMultiset(e);
    OnOneList(e, x);
  }

  /** Same unfinished sequences, same tables, same pool, same losses. */
  lemma MemorySame(e: Engine, e': Engine)
    requires MemoryOk(e)
    requires multiset(Live(e')) == multiset(Live(e))
    requires forall x :: x in Live(e) ==> e'.Get(x).table == e.Get(x).table
    requires e'.kv == e.kv && e'.lost == e.lost
    ensures MemoryOk(e')
  {
    RefsSame(e, e', Live(e));
    RefsPermuted(e', Live(e), Live(e'));
  }

  /** One sequence exchanges its table; `dropped` becomes unreachable. */
  lemma MemoryExchanged(e: Engine, e': Engine, x: int, dropped: multiset<nat>)
    requires multiset(Live(e))[x] == 1 && multiset(Live(e')) == multiset(Live(e))
    requires forall y :: y in Live(e) && y != x ==> e'.Get(y).table == e.Get(y).table
    requires e'.lost == e.lost + dropped
    ensures multiset(e.Get(x).table) <= Held(e)
    ensures Held(e') == Held(e) - multiset(e.Get(x).table) + multiset(e'.Get(x).table) + dropped
  {
    RefsExchanged(e, e', Live(e), x);
    RefsPermuted(e', Live(e), Live(e'));
    SumShuffle(TableRefs(e, Live(e)), multiset(e.Get(x).table), multiset(e'.Get(x).table), e.lost, dropped);
  }

  lemma SumShuffle(t: multiset<nat>, old': multiset<nat>, new': multiset<nat>, lost: multiset<nat>,
                   dropped: multiset<nat>)
    requires old' <= t
    ensures t - old' + new' + (lost + dropped) == t + lost - old' + new' + dropped
    ensures old' <= t + lost
  {
  }

  // ---- each operation

  lemma AdmitOneMemory(e: Engine)
    requires Accounted(e) && MemoryOk(e) && e.pending != []
    ensures MemoryOk(AdmitOne(e))
  {
    var id := e.pending[0].id;
    var e' := AdmitOne(e);
    AdmitOneMembers(e);
    NotTracked(e, id);
    assert forall x :: x in Live(e) ==> e'.Get(x) == e.Get(x);
    AdmitLive(e);
    hide Accounted, Inv, AdmitOne, Live;
    RefsSame(e, e', Live(e));
    RefsPermuted(e', Live(e'), [id] + Live(e));
    RefsCons(e', id, Live(e));
    assert Held(e') == Held(e);
  }

  lemma AdmitLive(e: Engine)
    requires e.pending != []
    ensures var e', id := AdmitOne(e), e.pending[0].id;
      && multiset(Live(e')) == multiset([id] + Live(e))
      && e'.kv == e.kv && e'.lost == e.lost && e'.Get(id).table == []
  {
  }

  lemma RefsCons(e: Engine, id: int, ids: seq<int>)
    requires e.Get(id).table == []
    ensures TableRefs(e, [id] + ids) == TableRefs(e, ids)
  {
    assert ([id] + ids)[1..] == ids;
    assert multiset(e.Get(id).table) == multiset{};
  }

  lemma {:induction false} AdmitArrivalsMemory(e: Engine)
    requires Accounted(e) && MemoryOk(e)
    ensures MemoryOk(AdmitArrivals(e))
    decreases |e.pending|
  {
    hide Accounted, MemoryOk, WithTokens, NewSequence;
    if e.pending != [] && e.pending[0].arrival <= e.now {
      AdmitOneMemory(e);
      AdmitOneAccounted(e);
      AdmitArrivalsMemory(AdmitOne(e));
    }
  }

  lemma ClockMemory(e: Engine, now: real, stepNo: nat)
    requires MemoryOk(e)
    ensures MemoryOk(e.(now := now, stepNo := stepNo))
  {
    RefsSame(e, e.(now := now, stepNo := stepNo), Live(e));
  }

  lemma WakeMemory(e: Engine)
    requires Accounted(e) && MemoryOk(e)
    ensures MemoryOk(Wake(e))
  {
    hide Accounted, MemoryOk, AdmitArrivals;
    AdmitArrivalsAccounted(e);
    AdmitArrivalsMemory(e);
    var e1 := AdmitArrivals(e);
    if !(InFlight(e1) || e1.pending == []) {
      ClockMemory(e1, e1.pending[0].arrival, e1.stepNo);
      ClockAccounted(e1, e1.pending[0].arrival, e1.stepNo);
      AdmitArrivalsMemory(e1.(now := e1.pending[0].arrival));
    }
  }

  lemma AllocateMemory(e: Engine, id: int)
    requires Accounted(e) && MemoryOk(e) && id in e.waiting
    ensures MemoryOk(Allocate(e, id).engine)
  {
    var a := Allocate(e, id);
    LiveOnce(e, id);
    var s := e.Get(id);
    AllocatePromptInv(e.kv, s.req.tokenIds, Held(e));
    hide Accounted, Inv, AllocatePrompt;
    if e.kv.CanAllocate(CeilDiv(s.req.promptTokens, e.kv.blockSize)) {
      var r := AllocatePrompt(e.kv, s.req.tokenIds);
      if r.ok {
        MemoryExchanged(e, a.engine, id, multiset(s.table));
        Regain(Held(e), multiset(s.table), multiset(r.table));
      } else {
        RefsSame(e, a.engine, Live(e));
        assert Held(a.engine) == Held(e) + multiset(r.table);
      }
    }
  }

  lemma Regain(h: multiset<nat>, t: multiset<nat>, n: multiset<nat>)
    requires t <= h
    ensures h - t + n + t == h + n
  {
  }

  lemma StartHeadMemory(e: Engine)
    requires MemoryOk(e) && e.waiting != []
    ensures MemoryOk(StartHead(e))
  {
    var e' := StartHead(e);
    assert e.waiting == [e.waiting[0]] + e.waiting[1..];
    assert multiset(Live(e')) == multiset(Live(e));
    hide MemoryOk;
    MemorySame(e, e');
  }

  lemma SortMemory(e: Engine)
    requires MemoryOk(e)
    ensures MemoryOk(SortWaiting(e))
  {
    hide MemoryOk, SortByPriority;
    var e' := SortWaiting(e);
    SortMultiset(e, e.waiting);
    LiveMultiset(e);
    LiveMultiset(e');
    hide Live;
    MemorySame(e, e');
  }

  lemma PreemptMemory(e: Engine, v: int)
    requires Accounted(e) && MemoryOk(e) && v in e.running
    ensures MemoryOk(Preempt(e, v))
  {
    PreemptHeld(e, v);
    hide Accounted, Inv, Free, Held;
    FreeInv(e.kv, Held(e), e.Get(v).table);
  }

  lemma PreemptHeld(e: Engine, v: int)
    requires Accounted(e) && v in e.running
    ensures multiset(e.Get(v).table) <= Held(e)
    ensures Held(Preempt(e, v)) == Held(e) - multiset(e.Get(v).table)
  {
    var e' := Preempt(e, v);
    LiveOnce(e, v);
    PreemptLive(e, v);
    PreemptEffect(e, v);
    hide Accounted, Live, Preempt, Held;
    assert e'.lost == e.lost + multiset{};
    MemoryExchanged(e, e', v, multiset{});
    assert multiset(e'.Get(v).table) == multiset{};
  }

  lemma PreemptEffect(e: Engine, v: int)
    ensures var e' := Preempt(e, v);
      && e'.Get(v).table == [] && e'.lost == e.lost && (forall y :: y != v ==> e'.Get(y) == e.Get(y))
      && e'.kv == Free(e.kv, e.Get(v).table)
  {
    hide Free;
  }

  lemma PreemptLive(e: Engine, v: int)
    requires v in e.running
    ensures multiset(Live(Preempt(e, v))) == multiset(Live(e))
  {
    hide Live, Remove, Free;
    RemoveMultiset(e.running, v);
    assert multiset(e.running)[v] > 0;
    LiveMultiset(e);
    LiveMultiset(Preempt(e, v));
    if e.cfg.swap {
      assert multiset(e.swapped + [v]) == multiset(e.swapped) + multiset{v};
    } else {
      assert multiset([v] + e.waiting) == multiset{v} + multiset(e.waiting);
    }
  }

  lemma RestoredMemory(e: Engine, r: Allocation)
    requires Accounted(e) && MemoryOk(e) && e.swapped != []
    requires r == AllocatePrompt(e.kv, RestoreTokens(e.Get(e.swapped[0])))
    ensures MemoryOk(Restored(e, r))
  {
    RestoredHeld(e, r);
    hide Accounted, Inv, AllocatePrompt, Held;
    AllocatePromptInv(e.kv, RestoreTokens(e.Get(e.swapped[0])), Held(e));
  }

  lemma RestoredHeld(e: Engine, r: Allocation)
    requires Accounted(e) && e.swapped != []
    ensures Held(Restored(e, r)) == Held(e) + multiset(r.table)
  {
    var id := e.swapped[0];
    var e' := Restored(e, r);
    var mine := multiset(e.Get(id).table);
    LiveOnce(e, id);
    RestoredLive(e, r);
    hide Accounted, Live, Held;
    MemoryExchanged(e, e', id, mine);
    Regain(Held(e), mine, multiset(r.table));
  }

  lemma RestoredLive(e: Engine, r: Allocation)
    requires e.swapped != []
    ensures multiset(Live(Restored(e, r))) == multiset(Live(e))
  {
    var id := e.swapped[0];
    assert e.swapped == [id] + e.swapped[1..];
    assert multiset(e.running + [id]) == multiset(e.running) + multiset{id};
    LiveMultiset(e);
    LiveMultiset(Restored(e, r));
    hide Live;
  }

  lemma {:induction false} RestoreSwappedMemory(e: Engine)
    requires Accounted(e) && MemoryOk(e)
    ensures RestoreSwapped(e).Some? ==> MemoryOk(RestoreSwapped(e).value)
    decreases |e.swapped|
  {
    hide Accounted, MemoryOk, AllocatePrompt;
    if e.swapped != [] && |e.running| < e.cfg.maxNumSeqs {
      var r := AllocatePrompt(e.kv, RestoreTokens(e.Get(e.swapped[0])));
      RestoredMemory(e, r);
      RestoredAccounted(e, r);
      RestoreSwappedMemory(Restored(e, r));
    }
  }

  lemma FinishOneMemory(e: Engine, id: int)
    requires Accounted(e) && MemoryOk(e) && id in e.running
    ensures MemoryOk(FinishOne(e, id))
  {
    FinishHeld(e, id);
    hide Accounted, Inv, Free, Held;
    FreeInv(e.kv, Held(e), e.Get(id).table);
  }

  lemma FinishHeld(e: Engine, id: int)
    requires Accounted(e) && id in e.running
    ensures multiset(e.Get(id).table) <= Held(e)
    ensures Held(FinishOne(e, id)) == Held(e) - multiset(e.Get(id).table)
  {
    var e' := FinishOne(e, id);
    LiveOnce(e, id);
    FinishLive(e, id);
    FinishEffect(e, id);
    hide Accounted, FinishOne, Live;
    RefsExchanged(e, e', Live(e), id);
    RefsPermuted(e', Live(e), [id] + Live(e'));
    RefsCons(e', id, Live(e'));
  }

  lemma FinishEffect(e: Engine, id: int)
    ensures var e' := FinishOne(e, id);
      && e'.Get(id).table == [] && e'.lost == e.lost && (forall y :: y != id ==> e'.Get(y) == e.Get(y))
  {
    hide Free;
  }

  lemma FinishLive(e: Engine, id: int)
    requires id in e.running
    ensures multiset(Live(e)) == multiset([id] + Live(FinishOne(e, id)))
  {
    RemoveMultiset(e.running, id);
    assert multiset(e.running)[id] > 0;
    LiveMultiset(e);
    LiveMultiset(FinishOne(e, id));
    hide Live, Remove, Free;
  }

  lemma {:induction false} FinishDoneMemory(e: Engine, ids: seq<int>)
    requires Accounted(e) && MemoryOk(e) && multiset(ids) <= multiset(e.running)
    ensures MemoryOk(FinishDone(e, ids))
    decreases |ids|
  {
    hide Accounted, Members, MemoryOk, FinishOne;
    if ids != [] {
      assert ids == [ids[0]] + ids[1..];
      assert multiset(ids) == multiset{ids[0]} + multiset(ids[1..]);
      assert multiset(e.running)[ids[0]] >= 1;
      if e.Get(ids[0]).Done() {
        FinishOneAccounted(e, ids[0]);
        FinishOneMemory(e, ids[0]);
        FinishDoneMemory(FinishOne(e, ids[0]), ids[1..]);
      } else {
        FinishDoneMemory(e, ids[1..]);
      }
    }
  }

  // ---- the scheduler

  lemma {:induction false} AdmitChunkedMemory(e: Engine, prefills: seq<Chunk>, budget: int)
    requires Accounted(e) && MemoryOk(e) && PrefillsOk(e, prefills)
    ensures MemoryOk(AdmitChunked(e, prefills, budget).0)
    decreases |e.waiting|
  {
    hide Accounted, PrefillsOk, Members, Allocate, MemoryOk;
    if !(e.waiting == [] || budget <= 0 || |e.running| + |prefills| >= e.cfg.maxNumSeqs) {
      AdmitStepOk(e, prefills);
      var id := e.waiting[0];
      var a := Allocate(e, id);
      AllocateMemory(e, id);
      if a.ok {
        StartHeadMemory(a.engine);
        var e1 := StartHead(a.engine);
        var remaining := Remaining(e1.Get(id));
        if remaining == 0 {
          AdmitChunkedMemory(e1, prefills, budget);
        } else {
          var chunk := ChunkSize(e.cfg, remaining, budget);
          AddChunk(e1, prefills, id, chunk, e.running);
          AdmitChunkedMemory(e1, prefills + [Chunk(id, chunk)], budget - chunk);
        }
      }
    }
  }

  lemma {:induction false} AdmitWholeMemory(e: Engine, prefills: seq<Chunk>, budget: int, admitted: bool)
    requires Accounted(e) && MemoryOk(e) && PrefillsOk(e, prefills)
    ensures MemoryOk(AdmitWhole(e, prefills, budget, admitted).0)
    decreases |e.waiting|
  {
    hide Accounted, PrefillsOk, Members, Allocate, MemoryOk;
    if !(e.waiting == [] || |e.running| >= e.cfg.maxNumSeqs || budget <= 0) {
      var id := e.waiting[0];
      if !(e.Get(id).req.promptTokens - e.Get(id).cached > budget && admitted) {
        AdmitStepOk(e, prefills);
        var a := Allocate(e, id);
        AllocateMemory(e, id);
        if a.ok {
          StartHeadMemory(a.engine);
          var e1 := StartHead(a.engine);
          var chunk := Remaining(e1.Get(id));
          if chunk > 0 {
            AddChunk(e1, prefills, id, chunk, e.running);
            AdmitWholeMemory(e1, prefills + [Chunk(id, chunk)], budget - chunk, true);
          } else {
            AdmitWholeMemory(e1, prefills, budget, true);
          }
        }
      }
    }
  }

  lemma ScheduleMemory(e: Engine)
    requires Accounted(e) && MemoryOk(e)
    ensures Schedule(e).Work? ==> MemoryOk(Schedule(e).engine)
  {
    hide Accounted, MemoryOk, SortWaiting, AdmitChunked, AdmitWhole, RestoreSwapped, PartialChunks, FilterDone,
         PrefillsOk;
    SortWaitingAccounted(e);
    SortMemory(e);
    var e1 := SortWaiting(e);
    if e.cfg.chunked {
      var budget := e.cfg.maxBatchedTokens - |FilterDone(e1, e1.running, true)|;
      FirstChunksOk(e1, budget);
      var first := PartialChunks(e1, FilterDone(e1, e1.running, false), budget);
      AdmitChunkedMemory(e1, first, budget - TotalTokens(first));
    } else {
      NoPrefills(e1);
      AdmitWholeOk(e1, [], e.cfg.maxBatchedTokens, false);
      AdmitWholeMemory(e1, [], e.cfg.maxBatchedTokens, false);
      RestoreSwappedMemory(AdmitWhole(e1, [], e.cfg.maxBatchedTokens, false).0);
    }
  }

  // ---- growing

  /** The sequences being grown are unfinished, so their tables are held. */
  lemma UnfinishedIsLive(e: Engine, id: int)
    requires Accounted(e) && id in e.seqs && e.seqs[id].status != Finished
    ensures id in Live(e) && multiset(Live(e))[id] == 1
  {
    assert OnSomeList(e, id);
    assert id !in e.finished;
    LiveOnce(e, id);
  }

  lemma GrownMemory(e: Engine, id: int)
    requires Accounted(e) && MemoryOk(e) && id in e.seqs && e.seqs[id].status != Finished
    ensures var r := AppendToken(e.kv, e.Get(id).table, e.Get(id).TotalLen());
      && (r.Grown? ==> MemoryOk(e.Put(id, e.Get(id).(table := r.table)).(kv := r.pool)))
      && (r.OutOfBlocks? ==> MemoryOk(e.(kv := r.pool)))
  {
    var s := e.Get(id);
    UnfinishedIsLive(e, id);
    RefsExchanged(e, e, Live(e), id);
    hide Accounted, Inv, AppendToken, Live, TableRefs;
    AppendInv(e.kv, s.table, s.TotalLen(), Held(e));
    var r := AppendToken(e.kv, s.table, s.TotalLen());
    if r.Grown? {
      TableExchanged(e, id, r.table, r.pool);
    } else if r.OutOfBlocks? {
      LiveSame(e, e.(kv := r.pool));
      RefsSame(e, e.(kv := r.pool), Live(e));
    }
  }

  lemma TableExchanged(e: Engine, id: int, table: seq<nat>, kv: Pool)
    requires multiset(Live(e))[id] == 1
    ensures var e' := e.Put(id, e.Get(id).(table := table)).(kv := kv);
      Held(e') == Held(e) - multiset(e.Get(id).table) + multiset(table)
  {
    var e' := e.Put(id, e.Get(id).(table := table)).(kv := kv);
    LiveSame(e, e');
    hide Live, Held;
    assert e'.lost == e.lost + multiset{};
    MemoryExchanged(e, e', id, multiset{});
  }

  lemma LiveSame(e: Engine, e': Engine)
    requires e'.waiting == e.waiting && e'.running == e.running && e'.swapped == e.swapped
    ensures Live(e') == Live(e)
  {
  }

  lemma {:induction false} GrowOneMemory(e: Engine, id: int, survivors: seq<int>, ids: seq<int>)
    requires Accounted(e) && MemoryOk(e) && Unfinished(e, ids) && id in ids
    ensures GrowOne(e, id, survivors).Growth? ==> MemoryOk(GrowOne(e, id, survivors).engine)
    decreases |e.running|
  {
    hide Accounted, MemoryOk, AppendToken, Preempt;
    var s := e.Get(id);
    GrownMemory(e, id);
    match AppendToken(e.kv, s.table, s.TotalLen()) {
      case Grown(kv, table, _) =>
      case IndexError =>
      case OutOfBlocks(kv) =>
        var e1 := e.(kv := kv);
        KvAccounted(e, kv);
        match Victim(e.running, id) {
          case Some(v) =>
            PreemptAccounted(e1, v);
            PreemptUnfinished(e1, v, ids);
            PreemptMemory(e1, v);
            GrowOneMemory(Preempt(e1, v), id, Remove(survivors, v), ids);
          case None =>
            if id in e.running {
              PreemptMemory(e1, id);
            }
        }
    }
  }

  lemma {:induction false} GrowAllMemory(e: Engine, decodes: seq<int>, survivors: seq<int>, ids: seq<int>)
    requires Accounted(e) && MemoryOk(e) && Unfinished(e, ids)
    requires forall x :: x in survivors || x in decodes ==> x in ids
    ensures GrowAll(e, decodes, survivors).Growth? ==> MemoryOk(GrowAll(e, decodes, survivors).engine)
    decreases |decodes|
  {
    hide Accounted, MemoryOk, GrowOne, Unfinished;
    if decodes != [] {
      GrowOneOk(e, decodes[0], survivors, ids);
      GrowOneMemory(e, decodes[0], survivors, ids);
      match GrowOne(e, decodes[0], survivors) {
        case GrowFailed =>
        case Growth(e1, survivors1) => GrowAllMemory(e1, decodes[1..], survivors1, ids);
      }
    }
  }

  // ---- applying the work

  ghost predicate KeepsTable(f: Sequence -> Sequence) {
    forall s :: f(s).table == s.table
  }

  lemma {:induction false} ForEachTables(e: Engine, ids: seq<int>, f: Sequence -> Sequence)
    requires KeepsTable(f)
    ensures var e' := ForEach(e, ids, f);
      && SameLists(e, e') && e'.kv == e.kv && e'.lost == e.lost
      && forall x :: e'.Get(x).table == e.Get(x).table
    decreases |ids|
  {
    if ids != [] {
      ForEachTables(e.Put(ids[0], f(e.Get(ids[0]))), ids[1..], f);
    }
  }

  ghost predicate KeepsTableChunks(f: (Sequence, nat) -> Sequence) {
    forall s, n :: f(s, n).table == s.table
  }

  lemma {:induction false} ForChunksTables(e: Engine, chunks: seq<Chunk>, f: (Sequence, nat) -> Sequence)
    requires KeepsTableChunks(f)
    ensures var e' := ForChunks(e, chunks, f);
      && SameLists(e, e') && e'.kv == e.kv && e'.lost == e.lost
      && forall x :: e'.Get(x).table == e.Get(x).table
    decreases |chunks|
  {
    if chunks != [] {
      var c := chunks[0];
      ForChunksTables(e.Put(c.id, f(e.Get(c.id), c.tokens)), chunks[1..], f);
    }
  }

  lemma ClockedMemory(e: Engine, prefills: seq<Chunk>, decodes: seq<int>, input: StepInput)
    requires MemoryOk(e)
    ensures MemoryOk(Clocked(e, prefills, decodes, input))
  {
    hide MemoryOk, ForEach;
    ForEachTables(e, decodes, CountingSpec(e.cfg.draftTokens, input.accepted));
    MemorySame(e, Clocked(e, prefills, decodes, input));
  }

  lemma TokenedMemory(e: Engine, prefills: seq<Chunk>, decodes: seq<int>, tokens: nat)
    requires MemoryOk(e)
    ensures MemoryOk(Tokened(e, prefills, decodes, tokens))
  {
    hide MemoryOk, ForEach, ForChunks;
    ForChunksTables(e, prefills, AddPrefill);
    var e3 := ForChunks(e, prefills, AddPrefill);
    ForEachTables(e3, decodes, Emitting(tokens, e.now));
    var e4 := ForEach(e3, decodes, Emitting(tokens, e.now));
    ForChunksTables(e4, prefills, EmittingFirst(e.now));
    var e5 := ForChunks(e4, prefills, EmittingFirst(e.now));
    LiveSame(e, e5);
    MemorySame(e, e5);
  }

  lemma CreditedMemory(e: Engine, prefills: seq<Chunk>, decodes: seq<int>, tokens: nat)
    requires Accounted(e) && MemoryOk(e) && ChunksFit(e, prefills) && DistinctChunks(prefills)
    requires forall x :: x in decodes ==> x in e.seqs
    ensures MemoryOk(Credited(e, prefills, decodes, tokens))
  {
    hide Accounted, MemoryOk, Tokened, FinishDone;
    TokenedOk(e, prefills, decodes, tokens);
    TokenedMemory(e, prefills, decodes, tokens);
    var e5 := Tokened(e, prefills, decodes, tokens);
    FinishDoneMemory(e5, e5.running);
  }

  // ---- steps and runs

  lemma StepWorkMemory(e: Engine, input: StepInput)
    requires Accounted(e) && MemoryOk(e) && input.duration >= 0.0
    ensures !StepWork(e, input).Crashed? ==> MemoryOk(StepWork(e, input).engine)
  {
    hide Accounted, MemoryOk, Schedule, GrowAll, Clocked, Credited, PrefillsOk, ChunksFit, DistinctChunks, Shrunk;
    ScheduleOk(e);
    ScheduleMemory(e);
    var w := Schedule(e);
    if w.Work? {
      RunningUnfinished(w.engine, w.decodes);
      GrowAllOk(w.engine, w.decodes, [], w.decodes);
      GrowAllMemory(w.engine, w.decodes, [], w.decodes);
      var g := GrowAll(w.engine, w.decodes, []);
      if g.Growth? {
        PrefillsDistinctIn(w.engine, w.prefills);
        FitsAfterGrowth(w.engine, g.engine, w.prefills);
        if w.prefills == [] && g.survivors == [] {
          ClockMemory(g.engine, g.engine.now + TICK, g.engine.stepNo + 1);
        } else {
          ClockedOk(g.engine, w.prefills, g.survivors, input);
          ClockedMemory(g.engine, w.prefills, g.survivors, input);
          CreditedMemory(Clocked(g.engine, w.prefills, g.survivors, input), w.prefills, g.survivors,
                         TokensPerDecode(g.engine.cfg, w.prefills, g.survivors, input.accepted));
        }
      }
    }
  }

  lemma StepMemory(e: Engine, input: StepInput)
    requires Accounted(e) && MemoryOk(e) && input.duration >= 0.0
    ensures !Step(e, input).Crashed? ==> MemoryOk(Step(e, input).engine)
  {
    hide Accounted, MemoryOk, Wake, StepWork;
    WakeAccounted(e);
    WakeMemory(e);
    var e1 := Wake(e);
    if InFlight(e1) || e1.pending != [] {
      StepWorkMemory(e1, input);
    }
  }

  lemma {:induction false} SubmitMemory(e: Engine, reqs: seq<Request>)
    requires MemoryOk(e)
    ensures MemoryOk(Submit(e, reqs))
    decreases |reqs|
  {
    hide MemoryOk;
    if reqs != [] {
      var e1 := e.(pending := InsertPending(e.pending, reqs[0]));
      MemorySame(e, e1);
      SubmitMemory(e1, reqs[1..]);
    }
  }

  /** THE MEMORY THEOREM. After any submissions and completed steps, under every
      policy and preemption mode, the pool's invariant holds with exactly the
      references the unfinished sequences hold, plus the lost ones. */
  lemma {:induction false} ExecuteMemory(e: Engine, commands: seq<Command>)
    requires Accounted(e) && MemoryOk(e)
    requires forall i :: 0 <= i < |commands| ==> CommandOk(commands[i])
    requires AtMostOnce(Members(e) + multiset(Submitted(commands)))
    ensures var r := Execute(e, commands);
      r.Some? ==> MemoryOk(r.value)
    decreases |commands|
  {
    hide Accounted, Members, AtMostOnce, Step, Submit, MemoryOk;
    if commands != [] {
      assert CommandOk(commands[0]);
      var rest := commands[1..];
      var tail := multiset(Submitted(rest));
      match commands[0] {
        case SubmitAll(reqs) =>
          var mine := multiset(Ids(reqs));
          assert multiset(Submitted(commands)) == mine + tail;
          assert Members(e) + mine + tail == Members(e) + multiset(Submitted(commands));
          AtMostOnceSub(Members(e) + mine, tail);
          SubmitAccounted(e, reqs);
          SubmitMemory(e, reqs);
          ExecuteMemory(Submit(e, reqs), rest);
        case StepOnce(input) =>
          assert Submitted(commands) == Submitted(rest);
          StepAccounted(e, input);
          StepMemory(e, input);
          var r := Step(e, input);
          if !r.Crashed? {
            ExecuteMemory(r.engine, rest);
          }
      }
    }
  }
}
