/** What an engine still has to do: the prompt tokens to prefill and the output
    tokens to emit, over all unfinished requests. */
module EngineDebt {
  import opened Lists
  import opened PagedSpec
  import opened EngineSpec
  import opened EngineAccounting
  import opened EngineMoves
  import opened EngineSteps
  import opened EngineMemory
  import opened EngineHealth
  import opened EngineHealthySteps
  import opened EngineHealthyWork

  function RequestSize(r: Request): nat {
    r.promptTokens + r.outputTokens
  }

  function PendingDebt(q: seq<Request>): nat {
    if q == [] then 0 else RequestSize(q[0]) + PendingDebt(q[1..])
  }

  function SumOwed(e: Engine, ids: seq<int>): nat {
    if ids == [] then 0 else Owed(e.Get(ids[0])) + SumOwed(e, ids[1..])
  }

  function Debt(e: Engine): nat {
    PendingDebt(e.pending) + SumOwed(e, Live(e))
  }

  lemma {:induction false} SumPick(e: Engine, ids: seq<int>, x: int)
    requires x in ids
    ensures SumOwed(e, ids) == Owed(e.Get(x)) + SumOwed(e, Remove(ids, x))
  {
    if ids[0] != x {
      SumPick(e, ids[1..], x);
      var rest := Remove(ids[1..], x);
      assert ([ids[0]] + rest)[1..] == rest;
    }
  }

  /** A part of a list owes no more than the list. */
  lemma {:induction false} SumPart(e: Engine, a: seq<int>, b: seq<int>)
    requires multiset(a) <= multiset(b)
    ensures SumOwed(e, a) <= SumOwed(e, b)
    decreases |a|
  {
    if a != [] {
      assert a == [a[0]] + a[1..];
      assert a[0] in multiset(b);
      SumPick(e, b, a[0]);
      RemoveMultiset(b, a[0]);
      assert multiset(a[1..]) <= multiset(Remove(b, a[0]));
      SumPart(e, a[1..], Remove(b, a[0]));
    }
  }

  lemma {:induction false} SumAtMost(e: Engine, e': Engine, ids: seq<int>)
    requires forall x :: x in ids ==> Owed(e'.Get(x)) <= Owed(e.Get(x))
    ensures SumOwed(e', ids) <= SumOwed(e, ids)
  {
    if ids != [] {
      SumAtMost(e, e', ids[1..]);
    }
  }

  lemma {:induction false} SumBelow(e: Engine, e': Engine, ids: seq<int>, y: int)
    requires forall x :: x in ids ==> Owed(e'.Get(x)) <= Owed(e.Get(x))
    requires y in ids && Owed(e'.Get(y)) < Owed(e.Get(y))
    ensures SumOwed(e', ids) < SumOwed(e, ids)
  {
    if ids[0] == y {
      SumAtMost(e, e', ids[1..]);
    } else {
      SumBelow(e, e', ids[1..], y);
    }
  }

  /** The debt does not grow when the unfinished sequences are the same or fewer
      and none owes more. */
  lemma DebtAtMost(e: Engine, e': Engine)
    requires PendingDebt(e'.pending) == PendingDebt(e.pending)
    requires multiset(Live(e')) <= multiset(Live(e))
    requires forall x :: x in Live(e) ==> Owed(e'.Get(x)) <= Owed(e.Get(x))
    ensures Debt(e') <= Debt(e)
  {
    SumAtMost(e, e', Live(e));
    SumPart(e', Live(e'), Live(e));
  }

  lemma DebtBelow(e: Engine, e': Engine, y: int)
    requires PendingDebt(e'.pending) == PendingDebt(e.pending)
    requires multiset(Live(e')) <= multiset(Live(e))
    requires forall x :: x in Live(e) ==> Owed(e'.Get(x)) <= Owed(e.Get(x))
    requires y in Live(e) && Owed(e'.Get(y)) < Owed(e.Get(y))
    ensures Debt(e') < Debt(e)
  {
    SumBelow(e, e', Live(e), y);
    SumPart(e', Live(e'), Live(e));
  }

  // ---- arrivals and scheduling owe the same

  lemma AdmitOneDebt(e: Engine)
    requires Accounted(e) && e.pending != []
    ensures Debt(AdmitOne(e)) == Debt(e)
  {
    var id := e.pending[0].id;
    AdmitKeepsLive(e);
    AdmitLive(e);
    AdmitOwes(e);
    hide Accounted, AdmitOne, Live, Owed, SumOwed;
    AdmitSums(e, AdmitOne(e), id);
  }

  lemma AdmitKeepsLive(e: Engine)
    requires Accounted(e) && e.pending != []
    ensures forall x :: x in Live(e) ==> AdmitOne(e).Get(x) == e.Get(x)
  {
    AdmitOneMembers(e);
    NotTracked(e, e.pending[0].id);
  }

  lemma AdmitSums(e: Engine, e': Engine, id: int)
    requires forall x :: x in Live(e) ==> e'.Get(x) == e.Get(x)
    requires multiset(Live(e')) == multiset([id] + Live(e))
    ensures SumOwed(e', Live(e')) == Owed(e'.Get(id)) + SumOwed(e, Live(e))
  {
    hide Live, Owed;
    SumAtMost(e, e', Live(e));
    SumAtMost(e', e, Live(e));
    SumPart(e', Live(e'), [id] + Live(e));
    SumPart(e', [id] + Live(e), Live(e'));
    assert ([id] + Live(e))[1..] == Live(e);
  }

  lemma AdmitOwes(e: Engine)
    requires e.pending != []
    ensures Owed(AdmitOne(e).Get(e.pending[0].id)) == RequestSize(e.pending[0])
    ensures AdmitOne(e).pending == e.pending[1..]
  {
  }

  lemma {:induction false} AdmitArrivalsDebt(e: Engine)
    requires Accounted(e)
    ensures Debt(AdmitArrivals(e)) == Debt(e)
    decreases |e.pending|
  {
    hide Accounted, WithTokens, NewSequence, Debt;
    if e.pending != [] && e.pending[0].arrival <= e.now {
      AdmitOneDebt(e);
      AdmitOneAccounted(e);
      AdmitArrivalsDebt(AdmitOne(e));
    }
  }

  lemma ClockDebt(e: Engine, now: real, stepNo: nat)
    ensures Debt(e.(now := now, stepNo := stepNo)) == Debt(e)
  {
    var e' := e.(now := now, stepNo := stepNo);
    SumAtMost(e, e', Live(e));
    SumAtMost(e', e, Live(e));
  }

  lemma WakeDebt(e: Engine)
    requires Accounted(e)
    ensures Debt(Wake(e)) == Debt(e)
  {
    hide Accounted, AdmitArrivals, Debt;
    AdmitArrivalsAccounted(e);
    AdmitArrivalsDebt(e);
    var e1 := AdmitArrivals(e);
    if !(InFlight(e1) || e1.pending == []) {
      ClockDebt(e1, e1.pending[0].arrival, e1.stepNo);
      ClockAccounted(e1, e1.pending[0].arrival, e1.stepNo);
      AdmitArrivalsDebt(e1.(now := e1.pending[0].arrival));
    }
  }

  lemma SortDebt(e: Engine)
    ensures Debt(SortWaiting(e)) <= Debt(e)
  {
    var e' := SortWaiting(e);
    SortMultiset(e, e.waiting);
    LiveMultiset(e);
    LiveMultiset(e');
    hide Live, SortByPriority;
    DebtAtMost(e, e');
  }

  lemma HeadStartedDebt(e: Engine, e1: Engine)
    requires HeadStarted(e, e1) && Untouched(e.Get(e.waiting[0])) && e1.swapped == e.swapped
    ensures Debt(e1) <= Debt(e)
  {
    var id := e.waiting[0];
    assert e.waiting == [id] + e.waiting[1..];
    assert multiset(Live(e1)) == multiset(Live(e));
    hide Live;
    forall x ensures Owed(e1.Get(x)) <= Owed(e.Get(x)) {
      if x == id {
        assert e1.Get(id).prefilled == 0 && e1.Get(id).generated == 0;
      }
    }
    DebtAtMost(e, e1);
  }

  lemma OnlyTablesDebt(e: Engine, e': Engine)
    requires OnlyTables(e, e')
    ensures Debt(e') <= Debt(e)
  {
    LiveSame(e, e');
    forall x ensures Owed(e'.Get(x)) == Owed(e.Get(x)) {
    }
    DebtAtMost(e, e');
  }
}
