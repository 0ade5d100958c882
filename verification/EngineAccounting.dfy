/** Request and token accounting over every run of the engine: both policies, both
    preemption modes, speculation on or off. */
module EngineAccounting {
  import opened Lists
  import opened PagedSpec
  import opened PagedHits
  import opened EngineSpec

  // ---- the invariant

  predicate RequestOk(r: Request) {
    r.outputTokens >= 1 && (r.tokenIds == [] || |r.tokenIds| == r.promptTokens)
  }

  /** The token times are one per generated token, in order, none in the future;
      the first token's time is the first of them. */
  ghost predicate TimesOk(s: Sequence, now: real) {
    && |s.tokenTimes| == s.generated
    && (forall i, j :: 0 <= i <= j < |s.tokenTimes| ==> s.tokenTimes[i] <= s.tokenTimes[j])
    && (forall i :: 0 <= i < |s.tokenTimes| ==> 0.0 <= s.tokenTimes[i] <= now)
    && s.firstToken == if s.generated == 0 then -1.0 else s.tokenTimes[0]
  }

  ghost predicate RecordOk(s: Sequence, now: real) {
    && s.req.outputTokens >= 1
    && |s.req.tokenIds| == s.req.promptTokens
    && s.prefilled <= s.req.promptTokens
    && s.cached <= s.req.promptTokens
    && s.generated <= s.req.outputTokens
    && TimesOk(s, now)
    && (s.status == Finished ==> s.generated == s.req.outputTokens && s.table == [])
  }

  function Ids(rs: seq<Request>): seq<int> {
    if rs == [] then [] else [rs[0].id] + Ids(rs[1..])
  }

  /** The requests the engine has accepted and the lists they are on. */
  ghost function Tracked(e: Engine): multiset<int> {
    multiset(e.waiting) + multiset(e.running) + multiset(e.swapped) + multiset(e.finished)
  }

  ghost function Members(e: Engine): multiset<int> {
    multiset(Ids(e.pending)) + Tracked(e)
  }

  ghost predicate OnSomeList(e: Engine, x: int) {
    x in e.waiting || x in e.running || x in e.swapped || x in e.finished
  }

  ghost predicate AtMostOnce(m: multiset<int>) {
    forall x :: m[x] <= 1
  }

  ghost predicate RecordsOk(e: Engine) {
    && (forall x :: x in e.seqs <==> OnSomeList(e, x))
    && (forall x :: x in e.seqs ==> e.seqs[x].req.id == x && RecordOk(e.seqs[x], e.now))
  }

  ghost predicate StatusOk(e: Engine) {
    && (forall x :: x in e.waiting ==> e.Get(x).status == Waiting)
    && (forall x :: x in e.running ==> e.Get(x).status == Running)
    && (forall x :: x in e.swapped ==> e.Get(x).status == Swapped)
    && (forall x :: x in e.finished ==> e.Get(x).status == Finished)
  }

  ghost predicate PendingOk(e: Engine) {
    forall i :: 0 <= i < |e.pending| ==> RequestOk(e.pending[i])
  }

  /** Every request is on exactly one list, its record is consistent, and the
      batch is within its limit. */
  ghost predicate Accounted(e: Engine) {
    && AtMostOnce(Members(e))
    && RecordsOk(e)
    && StatusOk(e)
    && PendingOk(e)
    && |e.running| <= e.cfg.maxNumSeqs
    && e.now >= 0.0
  }

  // ---- general steps

  /** `s'` is a later state of the same record, on the same list. */
  ghost predicate Later(s: Sequence, s': Sequence, now: real) {
    s'.req == s.req && s'.status == s.status && RecordOk(s', now)
  }

  ghost predicate SameLists(e: Engine, e': Engine) {
    && e'.cfg == e.cfg && e'.now == e.now && e'.pending == e.pending && e'.waiting == e.waiting
    && e'.running == e.running && e'.swapped == e.swapped && e'.finished == e.finished
  }

  /** Replacing one record by a later state of it. */
  lemma PutAccounted(e: Engine, e': Engine, id: int)
    requires Accounted(e) && id in e.seqs
    requires SameLists(e, e') && e'.seqs == e.seqs[id := e'.Get(id)]
    requires Later(e.seqs[id], e'.Get(id), e.now)
    ensures Accounted(e') && Members(e') == Members(e)
  {
    hide AtMostOnce, RecordOk;
    PutRecords(e, e', id);
    PutStatus(e, e', id);
  }

  lemma PutRecords(e: Engine, e': Engine, id: int)
    requires RecordsOk(e) && id in e.seqs
    requires SameLists(e, e') && e'.seqs == e.seqs[id := e'.Get(id)]
    requires Later(e.seqs[id], e'.Get(id), e.now)
    ensures RecordsOk(e')
  {
    hide RecordOk;
    forall x ensures x in e'.seqs <==> OnSomeList(e', x) {
      assert OnSomeList(e', x) == OnSomeList(e, x);
    }
  }

  lemma PutStatus(e: Engine, e': Engine, id: int)
    requires StatusOk(e) && id in e.seqs
    requires SameLists(e, e') && e'.seqs == e.seqs[id := e'.Get(id)]
    requires e'.Get(id).status == e.seqs[id].status
    ensures StatusOk(e')
  {
    assert forall x :: e'.Get(x).status == e.Get(x).status;
  }

  lemma RecordLater(s: Sequence, now: real, now': real)
    requires RecordOk(s, now) && now <= now'
    ensures RecordOk(s, now')
  {
  }

  /** Time only moves forward. */
  lemma ClockAccounted(e: Engine, now: real, stepNo: nat)
    requires Accounted(e) && e.now <= now
    ensures Accounted(e.(now := now, stepNo := stepNo))
  {
    hide AtMostOnce, RecordOk;
    var e' := e.(now := now, stepNo := stepNo);
    forall x ensures x in e'.seqs <==> OnSomeList(e', x) {
      assert OnSomeList(e', x) == OnSomeList(e, x);
    }
    forall x | x in e'.seqs ensures RecordOk(e'.seqs[x], now) {
      RecordLater(e.seqs[x], e.now, now);
    }
  }

  lemma OnOneList(e: Engine, x: int)
    requires AtMostOnce(Members(e))
    ensures multiset(e.waiting)[x] + multiset(e.running)[x] + multiset(e.swapped)[x] + multiset(e.finished)[x] <= 1
  {
    assert Members(e)[x] <= 1;
  }

  // ---- arrivals

  lemma {:induction false} InsertPendingMembers(q: seq<Request>, r: Request)
    ensures multiset(Ids(InsertPending(q, r))) == multiset(Ids(q)) + multiset{r.id}
  {
    hide Ids;
    if q == [] || r.arrival < q[0].arrival {
      IdsCons(r, q);
    } else {
      InsertPendingMembers(q[1..], r);
      IdsCons(q[0], InsertPending(q[1..], r));
      IdsCons(q[0], q[1..]);
      assert q == [q[0]] + q[1..];
    }
  }

  lemma IdsCons(r: Request, q: seq<Request>)
    ensures multiset(Ids([r] + q)) == multiset{r.id} + multiset(Ids(q))
  {
    assert ([r] + q)[1..] == q;
  }

  lemma SubmitOneAccounted(e: Engine, r: Request)
    requires Accounted(e) && RequestOk(r)
    requires AtMostOnce(Members(e) + multiset{r.id})
    ensures var e1 := e.(pending := InsertPending(e.pending, r));
      Accounted(e1) && Members(e1) == Members(e) + multiset{r.id}
  {
    var e1 := e.(pending := InsertPending(e.pending, r));
    InsertPendingOk(e.pending, r);
    assert Members(e1) == Members(e) + multiset{r.id} by {
      InsertPendingMembers(e.pending, r);
      assert Tracked(e1) == Tracked(e);
      MultisetShuffle(multiset(Ids(e.pending)), Tracked(e), multiset{r.id});
    }
    assert RecordsOk(e1) && StatusOk(e1) by {
      hide RecordOk, Members, PendingOk;
      assert forall x :: OnSomeList(e1, x) == OnSomeList(e, x);
    }
    hide *;
  }

  lemma {:induction false} InsertPendingOk(q: seq<Request>, r: Request)
    requires RequestOk(r) && forall i :: 0 <= i < |q| ==> RequestOk(q[i])
    ensures forall i :: 0 <= i < |InsertPending(q, r)| ==> RequestOk(InsertPending(q, r)[i])
  {
    hide RequestOk;
    if q != [] && r.arrival >= q[0].arrival {
      InsertPendingOk(q[1..], r);
    }
  }

  lemma MultisetShuffle<T>(a: multiset<T>, b: multiset<T>, c: multiset<T>)
    ensures a + c + b == a + b + c
  {
  }

  lemma AtMostOnceSub(a: multiset<int>, b: multiset<int>)
    requires AtMostOnce(a + b)
    ensures AtMostOnce(a)
  {
    forall x ensures a[x] <= 1 {
      assert (a + b)[x] <= 1;
    }
  }

  /** Submitting adds exactly the submitted requests. */
  lemma {:induction false} SubmitAccounted(e: Engine, reqs: seq<Request>)
    requires Accounted(e)
    requires forall i :: 0 <= i < |reqs| ==> RequestOk(reqs[i])
    requires AtMostOnce(Members(e) + multiset(Ids(reqs)))
    ensures Accounted(Submit(e, reqs))
    ensures Members(Submit(e, reqs)) == Members(e) + multiset(Ids(reqs))
    decreases |reqs|
  {
    hide Accounted, AtMostOnce, Members, RequestOk;
    if reqs != [] {
      var r := reqs[0];
      assert Ids(reqs) == [r.id] + Ids(reqs[1..]);
      assert multiset(Ids(reqs)) == multiset{r.id} + multiset(Ids(reqs[1..]));
      assert Members(e) + multiset{r.id} + multiset(Ids(reqs[1..])) == Members(e) + multiset(Ids(reqs));
      AtMostOnceSub(Members(e) + multiset{r.id}, multiset(Ids(reqs[1..])));
      SubmitOneAccounted(e, r);
      SubmitAccounted(e.(pending := InsertPending(e.pending, r)), reqs[1..]);
    }
  }

  lemma NewRecordOk(r: Request, now: real)
    requires RequestOk(r) && now >= 0.0
    ensures RecordOk(NewSequence(WithTokens(r)), now)
  {
  }

  /** The head of the arrival queue as a waiting sequence. */
  function AdmitOne(e: Engine): Engine
    requires e.pending != []
  {
    var r := WithTokens(e.pending[0]);
    e.Put(r.id, NewSequence(r)).(pending := e.pending[1..], waiting := e.waiting + [r.id])
  }

  lemma AdmitOneMembers(e: Engine)
    requires e.pending != []
    ensures Members(AdmitOne(e)) == Members(e)
    ensures Members(e)[e.pending[0].id] >= 1 + Tracked(e)[e.pending[0].id]
  {
    var id := e.pending[0].id;
    assert Ids(e.pending) == [id] + Ids(e.pending[1..]);
    assert multiset(Ids(e.pending)) == multiset{id} + multiset(Ids(e.pending[1..]));
    assert multiset(e.waiting + [id]) == multiset(e.waiting) + multiset{id};
  }

  lemma NotTracked(e: Engine, x: int)
    requires Tracked(e)[x] == 0
    ensures !OnSomeList(e, x)
  {
  }

  lemma AdmitOneAccounted(e: Engine)
    requires Accounted(e) && e.pending != []
    ensures Accounted(AdmitOne(e)) && Members(AdmitOne(e)) == Members(e)
  {
    var r := WithTokens(e.pending[0]);
    var e1 := AdmitOne(e);
    AdmitOneMembers(e);
    assert Tracked(e)[r.id] == 0;
    NotTracked(e, r.id);
    AdmitOnePending(e);
    AdmitOneStatus(e);
    AdmitOneRecords(e);
    hide *;
  }

  lemma AdmitOnePending(e: Engine)
    requires PendingOk(e) && e.pending != []
    ensures PendingOk(AdmitOne(e)) && RequestOk(e.pending[0])
  {
  }

  lemma AdmitOneRecords(e: Engine)
    requires RecordsOk(e) && PendingOk(e) && e.now >= 0.0 && e.pending != []
    ensures RecordsOk(AdmitOne(e))
  {
    var r, e1 := e.pending[0], AdmitOne(e);
    AdmitOnePending(e);
    NewRecordOk(r, e.now);
    hide RecordOk, PendingOk;
    assert forall x :: OnSomeList(e1, x) <==> OnSomeList(e, x) || x == r.id;
  }

  lemma AdmitOneStatus(e: Engine)
    requires StatusOk(e) && e.pending != [] && !OnSomeList(e, e.pending[0].id)
    ensures StatusOk(AdmitOne(e))
  {
  }

  lemma {:induction false} AdmitArrivalsAccounted(e: Engine)
    requires Accounted(e)
    ensures var e1 := AdmitArrivals(e);
      && Accounted(e1) && Members(e1) == Members(e)
      && e1.cfg == e.cfg && e1.now == e.now && e1.stepNo == e.stepNo
      && (e1.pending != [] ==> e1.pending[0].arrival > e1.now)
    decreases |e.pending|
  {
    hide Accounted, Members, WithTokens, NewSequence;
    if e.pending != [] && e.pending[0].arrival <= e.now {
      AdmitOneAccounted(e);
      AdmitArrivalsAccounted(AdmitOne(e));
    }
  }

  lemma WakeAccounted(e: Engine)
    requires Accounted(e)
    ensures Accounted(Wake(e)) && Members(Wake(e)) == Members(e)
    ensures Wake(e).now >= e.now && Wake(e).cfg == e.cfg && Wake(e).stepNo == e.stepNo
  {
    AdmitArrivalsAccounted(e);
    var e1 := AdmitArrivals(e);
    hide Accounted, AdmitArrivals;
    if !(InFlight(e1) || e1.pending == []) {
      ClockAccounted(e1, e1.pending[0].arrival, e1.stepNo);
      AdmitArrivalsAccounted(e1.(now := e1.pending[0].arrival));
    }
  }

  // ---- memory operations

  /** Allocation touches one record, which stays on its list. */
  lemma AllocateAccounted(e: Engine, id: int)
    requires Accounted(e) && id in e.seqs && e.seqs[id].status != Finished
    ensures var a := Allocate(e, id);
      && Accounted(a.engine) && SameLists(e, a.engine) && a.engine.seqs.Keys == e.seqs.Keys
      && a.engine.stepNo == e.stepNo && Members(a.engine) == Members(e)
      && (forall x :: x in e.seqs && x != id ==> a.engine.seqs[x] == e.seqs[x])
  {
    var a := Allocate(e, id);
    var s := e.seqs[id];
    PromptShape(e.kv, s.req.tokenIds);
    assert RecordOk(s, e.now);
    assert Later(s, a.engine.Get(id), e.now);
    hide AllocatePrompt, Accounted, RecordOk;
    if a.ok {
      PutAccounted(e, a.engine, id);
    } else {
      assert e.seqs == e.seqs[id := s];
      PutAccounted(e, a.engine, id);
    }
  }
}
