/** Moving a sequence from one list to another keeps the books. */
module EngineMoves {
  import opened Lists
  import opened PagedSpec
  import opened EngineSpec
  import opened EngineAccounting

  lemma TrackedIsList(e: Engine, x: int)
    ensures OnSomeList(e, x) <==> Tracked(e)[x] > 0
  {
  }

  /** Only the record of `id` and the lists differ, and the lists hold the same
      requests altogether. */
  ghost predicate Moved(e: Engine, e': Engine, id: int) {
    && e'.cfg == e.cfg && e'.now == e.now && e'.stepNo == e.stepNo && e'.pending == e.pending
    && id in e.seqs && e'.seqs == e.seqs[id := e'.Get(id)]
    && e'.Get(id).req == e.Get(id).req
    && Tracked(e') == Tracked(e)
  }

  lemma MoveAccounted(e: Engine, e': Engine, id: int)
    requires Accounted(e) && Moved(e, e', id)
    requires RecordOk(e'.Get(id), e.now)
    requires StatusOk(e') && |e'.running| <= e.cfg.maxNumSeqs
    ensures Accounted(e') && Members(e') == Members(e)
  {
    hide RecordOk, AtMostOnce, Tracked;
    assert Members(e') == Members(e);
    forall x ensures x in e'.seqs <==> OnSomeList(e', x) {
      TrackedIsList(e, x);
      TrackedIsList(e', x);
    }
  }

  ghost predicate AllHave(e: Engine, ids: seq<int>, status: Status) {
    forall x :: x in ids ==> e.Get(x).status == status
  }

  lemma OthersKeepStatus(e: Engine, e': Engine, id: int, ids: seq<int>, status: Status)
    requires AllHave(e, ids, status) && id !in ids
    requires id in e.seqs && e'.seqs == e.seqs[id := e'.Get(id)]
    ensures AllHave(e', ids, status)
  {
  }

  // ---- preemption

  lemma PreemptTracked(e: Engine, v: int)
    requires v in e.running
    ensures Tracked(Preempt(e, v)) == Tracked(e)
  {
    RemoveMultiset(e.running, v);
    assert multiset(e.running)[v] > 0;
    assert multiset([v] + e.waiting) == multiset{v} + multiset(e.waiting);
    assert multiset(e.swapped + [v]) == multiset(e.swapped) + multiset{v};
  }

  lemma OnlyRunning(e: Engine, v: int)
    requires AtMostOnce(Members(e)) && v in e.running
    ensures v !in e.waiting && v !in e.swapped && v !in e.finished && v !in Remove(e.running, v)
  {
    OnOneList(e, v);
    RemoveMultiset(e.running, v);
    assert multiset(e.running)[v] == 1;
    assert v in Remove(e.running, v) <==> multiset(Remove(e.running, v))[v] > 0;
  }

  lemma RemoveSubset(s: seq<int>, v: int)
    ensures forall x :: x in Remove(s, v) ==> x in s
  {
    RemoveMultiset(s, v);
    forall x | x in Remove(s, v) ensures x in s {
      assert x in multiset(Remove(s, v));
    }
  }

  lemma PreemptStatus(e: Engine, v: int)
    requires AtMostOnce(Members(e)) && StatusOk(e) && v in e.running && v in e.seqs
    ensures StatusOk(Preempt(e, v))
  {
    OnlyRunning(e, v);
    RemoveSubset(e.running, v);
    var e' := Preempt(e, v);
    hide Members, AtMostOnce, Free;
    OthersKeepStatus(e, e', v, e.waiting, Waiting);
    OthersKeepStatus(e, e', v, Remove(e.running, v), Running);
    OthersKeepStatus(e, e', v, e.swapped, Swapped);
    OthersKeepStatus(e, e', v, e.finished, Finished);
  }

  lemma PreemptedRecord(s: Sequence, now: real)
    requires RecordOk(s, now)
    ensures RecordOk(s.(nPreemptions := s.nPreemptions + 1, table := [], status := Swapped), now)
    ensures RecordOk(Restarted(s.(nPreemptions := s.nPreemptions + 1)), now)
  {
  }

  /** Preemption moves one running sequence to the swapped or the waiting list. */
  lemma PreemptAccounted(e: Engine, v: int)
    requires Accounted(e) && v in e.running
    ensures var e' := Preempt(e, v);
      && Accounted(e') && Members(e') == Members(e) && Moved(e, e', v)
      && |e'.running| == |e.running| - 1 && v !in e'.running
      && e'.Get(v).prefilled <= e.Get(v).prefilled
      && e'.Get(v).nPreemptions == e.Get(v).nPreemptions + 1
  {
    var e' := Preempt(e, v);
    assert OnSomeList(e, v);
    assert v in e.seqs && RecordOk(e.seqs[v], e.now);
    PreemptTracked(e, v);
    PreemptStatus(e, v);
    PreemptedRecord(e.seqs[v], e.now);
    OnlyRunning(e, v);
    hide Members, Tracked, RecordOk, AtMostOnce, Free, StatusOk;
    MoveAccounted(e, e', v);
  }

  // ---- starting a waiting sequence

  lemma StartHeadAccounted(e: Engine)
    requires Accounted(e) && e.waiting != [] && |e.running| < e.cfg.maxNumSeqs
    ensures var e' := StartHead(e);
      && Accounted(e') && Members(e') == Members(e) && Moved(e, e', e.waiting[0])
      && e.waiting[0] !in e.running
  {
    var id := e.waiting[0];
    var e' := StartHead(e);
    assert OnSomeList(e, id);
    assert RecordOk(e'.Get(id), e.now);
    assert id !in e.waiting[1..] && id !in e.running && id !in e.swapped && id !in e.finished by {
      HeadTracked(e);
    }
    assert Tracked(e') == Tracked(e) by {
      HeadTracked(e);
      assert multiset(e.running + [id]) == multiset(e.running) + multiset{id};
    }
    hide Members, Tracked, RecordOk, AtMostOnce;
    assert StatusOk(e') by {
      OthersKeepStatus(e, e', id, e.waiting[1..], Waiting);
      OthersKeepStatus(e, e', id, e.running, Running);
      OthersKeepStatus(e, e', id, e.swapped, Swapped);
      OthersKeepStatus(e, e', id, e.finished, Finished);
    }
    hide StatusOk, RecordsOk;
    MoveAccounted(e, e', id);
  }

  lemma HeadTracked(e: Engine)
    requires AtMostOnce(Members(e)) && e.waiting != []
    ensures var id := e.waiting[0];
      && multiset(e.waiting) == multiset{id} + multiset(e.waiting[1..])
      && id !in e.waiting[1..] && id !in e.running && id !in e.swapped && id !in e.finished
  {
    var id := e.waiting[0];
    assert e.waiting == [id] + e.waiting[1..];
    OnOneList(e, id);
    assert multiset(e.waiting)[id] == 1 + multiset(e.waiting[1..])[id];
  }

  // ---- ordering the waiting list

  lemma {:induction false} InsertByPriorityMultiset(e: Engine, id: int, sorted: seq<int>)
    ensures multiset(InsertByPriority(e, id, sorted)) == multiset(sorted) + multiset{id}
  {
    if sorted != [] && !Before(e.Get(id), e.Get(sorted[0])) {
      InsertByPriorityMultiset(e, id, sorted[1..]);
      assert sorted == [sorted[0]] + sorted[1..];
    }
  }

  lemma {:induction false} SortMultiset(e: Engine, ids: seq<int>)
    ensures multiset(SortByPriority(e, ids)) == multiset(ids)
  {
    if ids != [] {
      SortMultiset(e, ids[1..]);
      InsertByPriorityMultiset(e, ids[0], SortByPriority(e, ids[1..]));
      assert ids == [ids[0]] + ids[1..];
    }
  }

  lemma SortWaitingAccounted(e: Engine)
    requires Accounted(e)
    ensures var e' := SortWaiting(e);
      && Accounted(e') && Members(e') == Members(e) && e' == e.(waiting := e'.waiting)
      && multiset(e'.waiting) == multiset(e.waiting)
  {
    hide RecordOk, AtMostOnce, OnSomeList, SortByPriority;
    var e' := SortWaiting(e);
    SortMultiset(e, e.waiting);
    assert Tracked(e') == Tracked(e);
    assert Members(e') == Members(e);
    SortLists(e);
    assert PendingOk(e');
    hide *;
  }

  lemma SortLists(e: Engine)
    requires RecordsOk(e) && StatusOk(e)
    ensures RecordsOk(SortWaiting(e)) && StatusOk(SortWaiting(e))
  {
    hide RecordOk;
    var e' := SortWaiting(e);
    forall x ensures x in e'.waiting <==> x in e.waiting {
      SortMultiset(e, e.waiting);
      assert x in e'.waiting <==> x in multiset(e'.waiting);
    }
    hide SortByPriority;
    assert forall x :: OnSomeList(e', x) == OnSomeList(e, x);
  }

  // ---- restoring swapped sequences

  lemma SwappedHeadTracked(e: Engine)
    requires AtMostOnce(Members(e)) && e.swapped != []
    ensures var id := e.swapped[0];
      && multiset(e.swapped) == multiset{id} + multiset(e.swapped[1..])
      && id !in e.swapped[1..] && id !in e.running && id !in e.waiting && id !in e.finished
  {
    var id := e.swapped[0];
    assert e.swapped == [id] + e.swapped[1..];
    OnOneList(e, id);
    assert multiset(e.swapped)[id] == 1 + multiset(e.swapped[1..])[id];
  }

  /** A swapped sequence back in the batch with a new table. */
  function Restored(e: Engine, r: Allocation): Engine
    requires e.swapped != []
  {
    var id := e.swapped[0];
    var s := e.Get(id);
    e.Put(id, s.(table := r.table, status := Running)).(
      swapped := e.swapped[1..], running := e.running + [id], kv := r.pool, lost := e.lost + multiset(s.table))
  }

  lemma RestoredAccounted(e: Engine, r: Allocation)
    requires Accounted(e) && e.swapped != [] && |e.running| < e.cfg.maxNumSeqs
    ensures var e' := Restored(e, r);
      Accounted(e') && Members(e') == Members(e) && Moved(e, e', e.swapped[0])
  {
    var id := e.swapped[0];
    var e' := Restored(e, r);
    assert OnSomeList(e, id);
    assert RecordOk(e'.Get(id), e.now);
    SwappedHeadTracked(e);
    assert Tracked(e') == Tracked(e) by {
      assert multiset(e.running + [id]) == multiset(e.running) + multiset{id};
    }
    hide Members, Tracked, RecordOk, AtMostOnce;
    assert StatusOk(e') by {
      OthersKeepStatus(e, e', id, e.waiting, Waiting);
      OthersKeepStatus(e, e', id, e.running, Running);
      OthersKeepStatus(e, e', id, e.swapped[1..], Swapped);
      OthersKeepStatus(e, e', id, e.finished, Finished);
    }
    hide StatusOk, RecordsOk;
    MoveAccounted(e, e', id);
  }

  lemma {:induction false} RestoreSwappedAccounted(e: Engine)
    requires Accounted(e)
    ensures match RestoreSwapped(e)
      case None => true
      case Some(e') =>
        && Accounted(e') && Members(e') == Members(e)
        && e'.cfg == e.cfg && e'.now == e.now && e'.stepNo == e.stepNo
    decreases |e.swapped|
  {
    hide Accounted, Members, AllocatePrompt;
    if e.swapped != [] && |e.running| < e.cfg.maxNumSeqs {
      var s := e.Get(e.swapped[0]);
      var r := AllocatePrompt(e.kv, RestoreTokens(s));
      RestoredAccounted(e, r);
      RestoreSwappedAccounted(Restored(e, r));
    }
  }

  // ---- finishing

  lemma FinishTracked(e: Engine, id: int)
    requires id in e.running
    ensures Tracked(FinishOne(e, id)) == Tracked(e)
  {
    RemoveMultiset(e.running, id);
    assert multiset(e.running)[id] > 0;
    assert multiset(e.finished + [id]) == multiset(e.finished) + multiset{id};
  }

  lemma FinishOneAccounted(e: Engine, id: int)
    requires Accounted(e) && id in e.running && e.Get(id).Done()
    ensures var e' := FinishOne(e, id);
      && Accounted(e') && Members(e') == Members(e) && Moved(e, e', id)
      && multiset(e'.running) == multiset(e.running) - multiset{id}
  {
    var e' := FinishOne(e, id);
    assert OnSomeList(e, id);
    assert RecordOk(e.seqs[id], e.now);
    assert RecordOk(e'.Get(id), e.now);
    FinishTracked(e, id);
    OnlyRunning(e, id);
    RemoveSubset(e.running, id);
    RemoveMultiset(e.running, id);
    hide Members, Tracked, RecordOk, AtMostOnce, Free;
    assert StatusOk(e') by {
      OthersKeepStatus(e, e', id, e.waiting, Waiting);
      OthersKeepStatus(e, e', id, Remove(e.running, id), Running);
      OthersKeepStatus(e, e', id, e.swapped, Swapped);
      OthersKeepStatus(e, e', id, e.finished, Finished);
    }
    hide StatusOk, RecordsOk;
    MoveAccounted(e, e', id);
  }

  /** Finishing keeps the books, and leaves no finished sequence in the batch. */
  lemma {:induction false} FinishDoneAccounted(e: Engine, ids: seq<int>)
    requires Accounted(e) && multiset(ids) <= multiset(e.running)
    ensures var e' := FinishDone(e, ids);
      && Accounted(e') && Members(e') == Members(e)
      && e'.cfg == e.cfg && e'.now == e.now && e'.stepNo == e.stepNo
    decreases |ids|
  {
    hide Accounted, Members, FinishOne;
    if ids != [] {
      assert ids == [ids[0]] + ids[1..];
      assert multiset(ids) == multiset{ids[0]} + multiset(ids[1..]);
      assert multiset(e.running)[ids[0]] >= 1;
      if e.Get(ids[0]).Done() {
        FinishOneAccounted(e, ids[0]);
        FinishDoneAccounted(FinishOne(e, ids[0]), ids[1..]);
      } else {
        FinishDoneAccounted(e, ids[1..]);
      }
    }
  }
}
