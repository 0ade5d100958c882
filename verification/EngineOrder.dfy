/** The orders the engine works in: arrivals, priorities, preemption victims. */
module EngineOrder {
  import opened Lists
  import opened EngineSpec
  import opened EngineAccounting
  import opened EngineRuns
  import opened EngineClock

  // ---- arrivals

  ghost predicate ByArrival(q: seq<Request>) {
    forall i, j :: 0 <= i < j < |q| ==> q[i].arrival <= q[j].arrival
  }

  lemma ConsByArrival(r: Request, q: seq<Request>)
    requires ByArrival(q) && forall x :: x in q ==> r.arrival <= x.arrival
    ensures ByArrival([r] + q)
  {
    assert forall k :: 0 <= k < |q| ==> q[k] in q;
  }

  lemma TailByArrival(q: seq<Request>)
    requires ByArrival(q) && q != []
    ensures ByArrival(q[1..]) && forall x :: x in q ==> q[0].arrival <= x.arrival
  {
  }

  /** The queue stays ordered, and gains exactly the request, behind those that
      arrive no later. */
  lemma {:induction false} InsertByArrival(q: seq<Request>, r: Request)
    requires ByArrival(q)
    ensures ByArrival(InsertPending(q, r))
    ensures forall x :: x in InsertPending(q, r) <==> x == r || x in q
  {
    hide ByArrival;
    if q == [] {
      ConsByArrival(r, []);
    } else {
      var head, rest := q[0], q[1..];
      assert q == [head] + rest;
      TailByArrival(q);
      if r.arrival < head.arrival {
        ConsByArrival(r, q);
      } else {
        InsertByArrival(rest, r);
        ConsByArrival(head, InsertPending(rest, r));
      }
    }
  }

  lemma {:induction false} SubmitByArrival(e: Engine, reqs: seq<Request>)
    requires ByArrival(e.pending)
    ensures ByArrival(Submit(e, reqs).pending)
    decreases |reqs|
  {
    if reqs != [] {
      InsertByArrival(e.pending, reqs[0]);
      SubmitByArrival(e.(pending := InsertPending(e.pending, reqs[0])), reqs[1..]);
    }
  }

  /** How many requests at the head of the queue have arrived. */
  function Arrived(q: seq<Request>, now: real): (n: nat)
    ensures n <= |q|
    ensures forall k :: 0 <= k < n ==> q[k].arrival <= now
    ensures n < |q| ==> q[n].arrival > now
  {
    if q == [] || q[0].arrival > now then 0 else 1 + Arrived(q[1..], now)
  }

  /** Admission takes the requests that have arrived, all of them and no other, and
      lines them up in arrival order. */
  lemma AdmitsTheArrived(e: Engine)
    requires ByArrival(e.pending)
    ensures
      var n, e' := Arrived(e.pending, e.now), AdmitArrivals(e);
      && e'.pending == e.pending[n..] && e'.waiting == e.waiting + Ids(e.pending[..n])
      && ByArrival(e'.pending) && (forall r :: r in e'.pending ==> r.arrival > e.now)
  {
    hide ByArrival, Ids, AdmitArrivals;
    AdmitsHead(e);
    LateRest(e.pending, Arrived(e.pending, e.now), e.now);
  }

  lemma LateRest(q: seq<Request>, n: nat, now: real)
    requires ByArrival(q) && n <= |q| && (n < |q| ==> q[n].arrival > now)
    ensures ByArrival(q[n..]) && forall r :: r in q[n..] ==> r.arrival > now
  {
    forall r | r in q[n..] ensures r.arrival > now {
      var k :| n <= k < |q| && q[k] == r;
      assert k == n || q[n].arrival <= q[k].arrival;
    }
  }

  lemma {:induction false} AdmitsHead(e: Engine)
    ensures
      var n, e' := Arrived(e.pending, e.now), AdmitArrivals(e);
      e'.pending == e.pending[n..] && e'.waiting == e.waiting + Ids(e.pending[..n])
    decreases |e.pending|
  {
    hide Ids;
    if e.pending == [] || e.pending[0].arrival > e.now {
      NothingTaken(e.pending, e.waiting);
    } else {
      OneArrives(e);
      hide AdmitArrivals, AdmitOne;
      AdmitsHead(AdmitOne(e));
      HeadAndRest(e.pending, Arrived(e.pending[1..], e.now), e.waiting);
    }
  }

  lemma OneArrives(e: Engine)
    requires e.pending != [] && e.pending[0].arrival <= e.now
    ensures var e1 := AdmitOne(e);
      && AdmitArrivals(e) == AdmitArrivals(e1) && e1.now == e.now
      && e1.pending == e.pending[1..] && e1.waiting == e.waiting + [e.pending[0].id]
  {
  }

  lemma NothingTaken(q: seq<Request>, waiting: seq<int>)
    ensures q[0..] == q && waiting + Ids(q[..0]) == waiting
  {
  }

  lemma HeadAndRest(q: seq<Request>, n: nat, waiting: seq<int>)
    requires q != [] && n < |q|
    ensures q[1..][n..] == q[n + 1..]
    ensures (waiting + [q[0].id]) + Ids(q[1..][..n]) == waiting + Ids(q[..n + 1])
  {
    assert q[..n + 1][0] == q[0] && q[..n + 1][1..] == q[1..][..n];
  }

  lemma StepWorkPending(e: Engine, input: StepInput)
    ensures !StepWork(e, input).Crashed? ==> StepWork(e, input).engine.pending == e.pending
  {
    hide Schedule, GrowAll, ApplyWork;
    ScheduleClock(e);
    var w := Schedule(e);
    if w.Work? {
      GrowAllClock(w.engine, w.decodes, []);
      var g := GrowAll(w.engine, w.decodes, []);
      if g.Growth? {
        ApplyClock(g.engine, w.prefills, g.survivors, input);
      }
    }
  }

  /** The arrival queue is in order throughout every run. */
  lemma {:induction false} QueueStaysOrdered(e: Engine, commands: seq<Command>)
    requires ByArrival(e.pending)
    ensures Execute(e, commands).Some? ==> ByArrival(Execute(e, commands).value.pending)
    decreases |commands|
  {
    hide ByArrival, AdmitArrivals, StepWork, Submit;
    if commands != [] {
      match commands[0] {
        case SubmitAll(reqs) =>
          SubmitByArrival(e, reqs);
          QueueStaysOrdered(Submit(e, reqs), commands[1..]);
        case StepOnce(input) =>
          AdmitsTheArrived(e);
          var a := AdmitArrivals(e);
          if !(InFlight(a) || a.pending == []) {
            AdmitsTheArrived(a.(now := a.pending[0].arrival));
          }
          StepWorkPending(Wake(e), input);
          var r := Step(e, input);
          if !r.Crashed? {
            QueueStaysOrdered(r.engine, commands[1..]);
          }
      }
    }
  }

  // ---- priorities

  /** The lower number goes first, of equals the earlier arrival. */
  ghost predicate Prioritised(e: Engine, ids: seq<int>) {
    forall i, j :: 0 <= i < j < |ids| ==>
      var a, b := e.Get(ids[i]).req, e.Get(ids[j]).req;
      a.priority < b.priority || (a.priority == b.priority && a.arrival <= b.arrival)
  }

  lemma BeforeOrder(a: Sequence, b: Sequence, c: Sequence)
    ensures Before(a, b) || Before(b, a)
    ensures Before(a, b) && Before(b, c) ==> Before(a, c)
  {
  }

  lemma {:induction false} InsertPrioritised(e: Engine, id: int, sorted: seq<int>)
    requires Prioritised(e, sorted)
    ensures Prioritised(e, InsertByPriority(e, id, sorted))
    ensures forall x :: x in InsertByPriority(e, id, sorted) <==> x == id || x in sorted
  {
    hide Before;
    if sorted != [] {
      var head, rest := sorted[0], sorted[1..];
      assert sorted == [head] + rest;
      BeforeOrder(e.Get(id), e.Get(head), e.Get(id));
      if Before(e.Get(id), e.Get(head)) {
        HeadBefore(e, sorted);
        forall x | x in sorted ensures Before(e.Get(id), e.Get(x)) {
          BeforeOrder(e.Get(id), e.Get(head), e.Get(x));
        }
        ConsPrioritised(e, id, sorted);
      } else {
        HeadBefore(e, sorted);
        InsertPrioritised(e, id, rest);
        ConsPrioritised(e, head, InsertByPriority(e, id, rest));
      }
    }
  }

  lemma HeadBefore(e: Engine, sorted: seq<int>)
    requires Prioritised(e, sorted) && sorted != []
    ensures Prioritised(e, sorted[1..]) && forall x :: x in sorted ==> Before(e.Get(sorted[0]), e.Get(x))
  {
  }

  lemma ConsPrioritised(e: Engine, id: int, sorted: seq<int>)
    requires Prioritised(e, sorted) && forall x :: x in sorted ==> Before(e.Get(id), e.Get(x))
    ensures Prioritised(e, [id] + sorted)
  {
    assert forall k :: 0 <= k < |sorted| ==> sorted[k] in sorted;
  }

  /** Under priority scheduling the waiting list is by priority, then arrival. */
  lemma {:induction false} WaitingIsPrioritised(e: Engine, ids: seq<int>)
    ensures Prioritised(e, SortByPriority(e, ids))
  {
    if ids != [] {
      WaitingIsPrioritised(e, ids[1..]);
      InsertPrioritised(e, ids[0], SortByPriority(e, ids[1..]));
    }
  }

  // ---- victims

  /** The victim is the last on the running list apart from the sequence itself. */
  lemma {:induction false} VictimIsNewest(running: seq<int>, id: int)
    ensures Victim(running, id).Some? ==>
              exists i :: 0 <= i < |running| && running[i] == Victim(running, id).value
                          && forall j :: i < j < |running| ==> running[j] == id
  {
    if running != [] {
      var last := |running| - 1;
      if running[last] != id {
        assert running[last] == Victim(running, id).value;
      } else {
        VictimIsNewest(running[..last], id);
        if Victim(running[..last], id).Some? {
          var i :| 0 <= i < last && running[..last][i] == Victim(running, id).value
                   && forall j :: i < j < last ==> running[..last][j] == id;
          assert running[i] == Victim(running, id).value;
          assert forall j :: i < j < |running| ==> running[j] == if j < last then running[..last][j] else id;
        }
      }
    }
  }
}
