/** How requests come in: their token ids, their place in the queue, and when an idle
    engine wakes. */
module EngineArrivals {
  import opened Lists
  import opened PagedSpec
  import opened EngineSpec
  import opened EngineAccounting
  import opened EngineOrder

  // ---- synthesised token ids

  /** Token `i` of a request that brings none: from the base of its group or session
      while it is shared, then from that of its session, or else its own. */
  lemma SynthAt(r: Request, i: nat)
    requires i < r.promptTokens
    ensures
      var shares := r.keys.sharedBase.Some? && i < r.keys.sharedPrefixTokens;
      var n := if r.keys.sharedBase.None? then 0
               else if r.keys.sharedPrefixTokens < r.promptTokens then r.keys.sharedPrefixTokens else r.promptTokens;
      SynthTokenIds(r)[i] ==
      if shares then r.keys.sharedBase.value + i
      else if r.keys.sessionBase.Some? && !r.keys.hasGroup then r.keys.sessionBase.value + i
      else r.keys.uniqueBase + i - n
  {
  }

  /** Two requests of one group or session agree on the prefix that both share. */
  lemma SharersAgree(a: Request, b: Request, i: nat)
    requires a.keys.sharedBase.Some? && b.keys.sharedBase == a.keys.sharedBase
    requires i < a.promptTokens && i < b.promptTokens
    requires i < a.keys.sharedPrefixTokens && i < b.keys.sharedPrefixTokens
    ensures SynthTokenIds(a)[i] == SynthTokenIds(b)[i]
  {
    SynthAt(a, i);
    SynthAt(b, i);
  }

  /** A turn of a session repeats the tokens of every earlier, shorter turn exactly. */
  lemma SessionGrows(a: Request, b: Request)
    requires a.keys.sessionBase.Some? && b.keys.sessionBase == a.keys.sessionBase
    requires !a.keys.hasGroup && !b.keys.hasGroup && b.keys.sharedBase == a.keys.sharedBase
    requires a.keys.sharedPrefixTokens == b.keys.sharedPrefixTokens && a.promptTokens <= b.promptTokens
    ensures SynthTokenIds(b)[..a.promptTokens] == SynthTokenIds(a)
  {
    forall i | 0 <= i < a.promptTokens ensures SynthTokenIds(b)[i] == SynthTokenIds(a)[i] {
      SynthAt(a, i);
      SynthAt(b, i);
    }
  }

  /** Requests without a session whose own bases lie far enough apart differ in every
      token that either does not share. */
  lemma StrangersDiffer(a: Request, b: Request, i: nat, j: nat)
    requires i < a.promptTokens && j < b.promptTokens
    requires a.keys.sessionBase.None? && b.keys.sessionBase.None?
    requires a.keys.sharedBase.Some? ==> i >= a.keys.sharedPrefixTokens
    requires b.keys.sharedBase.Some? ==> j >= b.keys.sharedPrefixTokens
    requires a.keys.uniqueBase + a.promptTokens <= b.keys.uniqueBase
    ensures SynthTokenIds(a)[i] != SynthTokenIds(b)[j]
  {
    SynthAt(a, i);
    SynthAt(b, j);
  }

  // ---- the queue

  /** Those that arrive at time `t`, in the order they are listed. */
  function ArrivingAt(q: seq<Request>, t: real): seq<Request> {
    if q == [] then [] else (if q[0].arrival == t then [q[0]] else []) + ArrivingAt(q[1..], t)
  }

  lemma {:induction false} ArrivingPlus(a: seq<Request>, b: seq<Request>, t: real)
    ensures ArrivingAt(a + b, t) == ArrivingAt(a, t) + ArrivingAt(b, t)
  {
    if a == [] {
      assert a + b == b;
    } else {
      assert (a + b)[1..] == a[1..] + b;
      ArrivingPlus(a[1..], b, t);
    }
  }

  lemma {:induction false} LaterOnly(q: seq<Request>, t: real)
    requires forall x :: x in q ==> x.arrival > t
    ensures ArrivingAt(q, t) == []
  {
    if q != [] {
      assert q[0] in q;
      LaterOnly(q[1..], t);
    }
  }

  lemma {:induction false} InsertStable(q: seq<Request>, r: Request, t: real)
    requires ByArrival(q)
    ensures ArrivingAt(InsertPending(q, r), t) == ArrivingAt(q, t) + ArrivingAt([r], t)
  {
    hide ByArrival, InsertPending;
    InsertSplits(q, r);
    if q == [] {
      assert ArrivingAt([], t) == [];
    } else if r.arrival < q[0].arrival {
      TailByArrival(q);
      Ahead(q, r, t);
    } else {
      TailByArrival(q);
      InsertStable(q[1..], r, t);
      ArrivingPlus([q[0]], InsertPending(q[1..], r), t);
      Behind(q, r, t);
    }
  }

  lemma InsertSplits(q: seq<Request>, r: Request)
    ensures InsertPending(q, r) ==
            if q == [] || r.arrival < q[0].arrival then [r] + q else [q[0]] + InsertPending(q[1..], r)
  {
  }

  lemma Ahead(q: seq<Request>, r: Request, t: real)
    requires q != [] && r.arrival < q[0].arrival && forall x :: x in q ==> q[0].arrival <= x.arrival
    ensures ArrivingAt([r] + q, t) == ArrivingAt(q, t) + ArrivingAt([r], t)
  {
    ArrivingPlus([r], q, t);
    ArrivesAlone(r, t);
    if r.arrival == t {
      LaterOnly(q, t);
    }
  }

  lemma ArrivesAlone(r: Request, t: real)
    ensures ArrivingAt([r], t) == if r.arrival == t then [r] else []
  {
  }

  lemma Behind(q: seq<Request>, r: Request, t: real)
    requires q != []
    ensures ArrivingAt([q[0]], t) + (ArrivingAt(q[1..], t) + ArrivingAt([r], t))
         == ArrivingAt(q, t) + ArrivingAt([r], t)
  {
    assert q == [q[0]] + q[1..];
    ArrivingPlus([q[0]], q[1..], t);
  }

  /** Requests that arrive together queue up in the order they were submitted. */
  lemma {:induction false} SubmitStable(e: Engine, reqs: seq<Request>, t: real)
    requires ByArrival(e.pending)
    ensures ArrivingAt(Submit(e, reqs).pending, t) == ArrivingAt(e.pending, t) + ArrivingAt(reqs, t)
    ensures Submit(e, reqs) == e.(pending := Submit(e, reqs).pending)
    decreases |reqs|
  {
    hide ByArrival;
    if reqs == [] {
      assert ArrivingAt(e.pending, t) + [] == ArrivingAt(e.pending, t);
    } else {
      var e1 := e.(pending := InsertPending(e.pending, reqs[0]));
      assert reqs == [reqs[0]] + reqs[1..];
      InsertStable(e.pending, reqs[0], t);
      InsertByArrival(e.pending, reqs[0]);
      SubmitStable(e1, reqs[1..], t);
      ArrivingPlus([reqs[0]], reqs[1..], t);
    }
  }

  // ---- arriving

  /** A request that has just come in: nothing done yet, with the token ids it brought
      or, if it brought none, those synthesised for it. */
  ghost predicate JustIn(s: Sequence, r: Request) {
    && s.req == r.(tokenIds := if r.tokenIds == [] then SynthTokenIds(r) else r.tokenIds)
    && s.status == Waiting && s.table == [] && s.prefilled == 0 && s.generated == 0 && s.cached == 0
    && s.firstToken == -1.0 && s.finish == -1.0 && s.tokenTimes == [] && s.nPreemptions == 0
    && s.specAccepted == 0 && s.specProposed == 0
  }

  ghost predicate DistinctIds(q: seq<Request>) {
    forall i, j :: 0 <= i < j < |q| ==> q[i].id != q[j].id
  }

  /** Admission: the first `n` of the queue are in, everything else stays. */
  ghost predicate TakenIn(e: Engine, e': Engine, n: nat) {
    && n <= |e.pending|
    && e' == e.(pending := e.pending[n..], waiting := e.waiting + Ids(e.pending[..n]), seqs := e'.seqs)
    && (forall i :: 0 <= i < n ==> JustIn(e'.Get(e.pending[i].id), e.pending[i]))
    && forall x :: (forall i :: 0 <= i < n ==> e.pending[i].id != x) ==> e'.Get(x) == e.Get(x)
  }

  lemma OneTakenIn(e: Engine, e1: Engine, e': Engine, n: nat)
    requires e.pending != [] && DistinctIds(e.pending) && e1 == AdmitOne(e) && TakenIn(e1, e', n)
    ensures TakenIn(e, e', n + 1)
  {
    HeadAndRest(e.pending, n, e.waiting);
    hide Ids, SynthTokenIds;
    var q, rest := e.pending, e.pending[1..];
    forall i | 0 <= i < n + 1 ensures JustIn(e'.Get(q[i].id), q[i]) {
      if i > 0 {
        assert rest[i - 1] == q[i];
      } else {
        assert forall k :: 0 <= k < n ==> rest[k].id != q[0].id;
      }
    }
    forall x | forall i :: 0 <= i < n + 1 ==> q[i].id != x ensures e'.Get(x) == e.Get(x) {
      assert q[0].id != x;
      assert forall k :: 0 <= k < n ==> rest[k] == q[k + 1];
    }
  }

  lemma {:induction false} AdmitsIn(e: Engine)
    requires DistinctIds(e.pending)
    ensures TakenIn(e, AdmitArrivals(e), Arrived(e.pending, e.now))
    decreases |e.pending|
  {
    hide TakenIn, Ids, DistinctIds;
    if e.pending == [] || e.pending[0].arrival > e.now {
      NobodyIn(e);
    } else {
      OneArrives(e);
      RestDistinctIds(e.pending);
      AdmitsIn(AdmitOne(e));
      OneTakenIn(e, AdmitOne(e), AdmitArrivals(e), Arrived(e.pending[1..], e.now));
    }
  }

  lemma NobodyIn(e: Engine)
    ensures TakenIn(e, e, 0)
  {
    NothingTaken(e.pending, e.waiting);
  }

  lemma RestDistinctIds(q: seq<Request>)
    requires DistinctIds(q) && q != []
    ensures DistinctIds(q[1..])
  {
  }

  /** When an engine that does nothing wakes: at the next arrival, if all it has is a
      queue of requests still to arrive; otherwise its clock stands. */
  function WakeTime(e: Engine): real {
    if e.running == [] && e.waiting == [] && e.swapped == [] && e.pending != [] && e.pending[0].arrival > e.now
    then e.pending[0].arrival else e.now
  }

  /** Waking takes in whoever has arrived by then, all of them and no other. */
  lemma WakesFor(e: Engine)
    requires ByArrival(e.pending) && DistinctIds(e.pending)
    ensures
      var e1 := e.(now := WakeTime(e));
      TakenIn(e1, Wake(e), Arrived(e.pending, WakeTime(e)))
  {
    hide Ids, DistinctIds, ByArrival;
    AdmitsIn(e);
    var a := AdmitArrivals(e);
    if e.pending != [] && e.pending[0].arrival > e.now {
      hide AdmitArrivals;
      StaysSame(e);
      AdmitsIn(e.(now := e.pending[0].arrival));
    } else {
      NowInFlight(e);
    }
  }

  lemma StaysSame(e: Engine)
    requires e.pending != [] && e.pending[0].arrival > e.now
    ensures AdmitArrivals(e) == e
  {
  }

  lemma NowInFlight(e: Engine)
    requires e.pending == [] || e.pending[0].arrival <= e.now
    ensures Wake(e) == AdmitArrivals(e)
  {
    hide Ids, AdmitArrivals;
    AdmitsHead(e);
    var n := Arrived(e.pending, e.now);
    if e.pending != [] {
      IdsSize(e.pending[..n]);
    }
  }

  lemma {:induction false} IdsSize(q: seq<Request>)
    ensures |Ids(q)| == |q|
  {
    if q != [] {
      IdsSize(q[1..]);
    }
  }

  /** A step with nothing to do and nobody to come is idle, any other goes to work. */
  lemma StepWakes(e: Engine, input: StepInput)
    ensures
      var none := e.running == [] && e.waiting == [] && e.swapped == [] && e.pending == [];
      Step(e, input) == if none then Idle(e) else StepWork(Wake(e), input)
  {
    hide StepWork, AdmitArrivals, Ids;
    if e.pending == [] {
      NobodyComes(e);
    } else {
      WakesSome(e);
    }
  }

  lemma NobodyComes(e: Engine)
    requires e.pending == []
    ensures AdmitArrivals(e) == e
  {
  }

  lemma WakesSome(e: Engine)
    requires e.pending != []
    ensures InFlight(Wake(e)) || Wake(e).pending != []
  {
    hide AdmitArrivals, Ids;
    AdmitsHead(e);
    IdsSize(e.pending[..Arrived(e.pending, e.now)]);
    var a := AdmitArrivals(e);
    if !InFlight(a) && a.pending != [] {
      var b := a.(now := a.pending[0].arrival);
      AdmitsHead(b);
      IdsSize(b.pending[..Arrived(b.pending, b.now)]);
    }
  }
}
