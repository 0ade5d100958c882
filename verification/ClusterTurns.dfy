/** Who a colocated worker takes in, and whose prompt it works on first. */
module ClusterTurns {
  import opened Lists
  import opened ClusterPrefill
  import opened ClusterDecode
  import opened ClusterBudget
  import opened ClusterColocated

  /** The requests that have arrived and lack tokens. */
  ghost function Waiting(group: seq<Req>, before: seq<Step>, t: real): set<Req> {
    set x | x in group && x.at <= t && Emissions(before, x.id) < Need(x)
  }

  /** The requests that a batch gives their first token. */
  ghost function Starting(group: seq<Req>, before: seq<Step>, batch: seq<int>): set<Req> {
    set x | x in group && Emissions(before, x.id) == 0 && x.id in batch
  }

  /** As many of the requests that wait are in the batch or in prefill as there is room
      for; no prompt is worked on while an earlier one is left unfinished; and unless
      the budget is used up, every prefill ends in a first token. */
  ghost predicate TurnOk(group: seq<Req>, trace: seq<Step>, work: seq<Work>, i: nat, cfg: Config)
    requires i < |trace| && i < |work|
  {
    var s, k, before := trace[i], work[i], trace[..i];
    var waiting := |Waiting(group, before, s.start)|;
    && k.decoding + k.prefilling == (if waiting <= cfg.maxBatch then waiting else cfg.maxBatch)
    && (forall x, y :: x in group && y in group && x.at < y.at && TokensFor(k.chunks, y.id) > 0 ==>
          Prefilled(work[..i + 1], x.id) == x.prompt)
    && (TotalTokens(k.chunks) < (if cfg.chunked then cfg.maxTokens - k.decoding else cfg.maxTokens) ==>
          |Starting(group, before, s.batch)| == k.prefilling)
  }

  ghost predicate TurnsOk(group: seq<Req>, trace: seq<Step>, work: seq<Work>, cfg: Config) {
    && |work| == |trace|
    && forall i: nat :: i < |trace| && i < |work| ==> TurnOk(group, trace, work, i, cfg)
  }

  /** No arrived request is left out while there is room. */
  predicate Crowded(pending: seq<Req>, w: Shared, cfg: Config) {
    w.idx < |pending| && pending[w.idx].at <= w.now ==> |w.active| + |w.parts| == cfg.maxBatch
  }

  lemma Index(reqs: seq<Req>, r: Req) returns (k: nat)
    requires r in reqs
    ensures k < |reqs| && reqs[k] == r
  {
    k :| k < |reqs| && reqs[k] == r;
  }

  /** Whoever waits has been admitted, or there was no room. */
  lemma WaitingIn(pending: seq<Req>, w: Shared, cfg: Config, x: Req)
    requires SharedOk(pending, w, cfg) && TimeOrdered(pending) && x in pending
    ensures x in w.active || x in Reqs(w.parts) ==> x in Waiting(pending, w.trace, w.now)
    ensures x in Waiting(pending, w.trace, w.now) && Crowded(pending, w, cfg) && |w.active| + |w.parts| < cfg.maxBatch
            ==> x in w.active || x in Reqs(w.parts)
  {
    hide HistoryOk, Emissions, Prefilled, FirstAt, LastAt;
    var k := Index(pending, x);
    assert StageOk(pending, k, w);
    assert k >= w.idx ==> pending[w.idx].at <= pending[k].at;
  }

  lemma AdmittedNoDup(pending: seq<Req>, w: Shared, cfg: Config)
    requires SharedOk(pending, w, cfg)
    ensures NoDup(w.active + Reqs(w.parts))
    ensures |w.active + Reqs(w.parts)| == |w.active| + |w.parts| <= cfg.maxBatch
    ensures forall r :: r in w.active + Reqs(w.parts) ==> r in pending
  {
    Bounds(pending, w, cfg);
    hide StageOk, HistoryOk;
    var parts := Reqs(w.parts);
    assert forall k :: 0 <= k < |w.active| ==> w.active[k] in w.active;
    assert forall k :: 0 <= k < |parts| ==> parts[k] in parts;
  }

  lemma SubsetSize(a: set<Req>, b: set<Req>)
    requires a <= b
    ensures |a| <= |b|
  {
    assert b == a + (b - a);
  }

  lemma SizeOf(s: seq<Req>, elements: set<Req>)
    requires NoDup(s)
    ensures (forall x :: x in s <==> x in elements) ==> |elements| == |s|
    ensures (forall x :: x in s ==> x in elements) ==> |s| <= |elements|
  {
    var own := set x | x in s;
    NoDupSize(s, own);
    if forall x :: x in s ==> x in elements {
      SubsetSize(own, elements);
    }
    if forall x :: x in s <==> x in elements {
      assert own == elements;
    }
  }

  lemma RoomCount(pending: seq<Req>, w: Shared, cfg: Config)
    requires SharedOk(pending, w, cfg) && TimeOrdered(pending) && Crowded(pending, w, cfg)
    ensures
      var waiting := |Waiting(pending, w.trace, w.now)|;
      |w.active| + |w.parts| == if waiting <= cfg.maxBatch then waiting else cfg.maxBatch
  {
    AdmittedNoDup(pending, w, cfg);
    var all, waiting := w.active + Reqs(w.parts), Waiting(pending, w.trace, w.now);
    forall x | x in pending
      ensures x in all ==> x in waiting
      ensures x in waiting && |all| < cfg.maxBatch ==> x in all
    {
      WaitingIn(pending, w, cfg, x);
    }
    hide SharedOk, NoDup, TimeOrdered, Crowded;
    SizeOf(all, waiting);
  }

  /** The prompt of whoever arrived before a request that gets tokens is complete. */
  lemma EarlierDone(pending: seq<Req>, w: Shared, w': Shared, cfg: Config, x: Req, y: Req)
    requires SharedOk(pending, w, cfg) && SharedStepped(pending, w, w', cfg) && TimeOrdered(pending) && Queued(w.parts)
    requires x in pending && y in pending && x.at < y.at
    requires TokensFor(Chunks(w.parts, Budget(w, cfg)), y.id) > 0
    ensures Prefilled(w'.work, x.id) == x.prompt
  {
    hide HistoryOk, Emissions, Prefilled, FirstAt, LastAt, Chunks, SharedStepped, Born, Still, Queued;
    var chunks := Chunks(w.parts, Budget(w, cfg));
    if y !in Reqs(w.parts) {
      NotInParts(pending, w, cfg, y);
    }
    var k := Index(pending, x);
    var m := Index(pending, y);
    assert StageOk(pending, k, w) && StageOk(pending, m, w);
    assert k < m < w.idx;
    Emits(pending, w, w', cfg, x);
    if x in Reqs(w.parts) {
      var i := Index(Reqs(w.parts), x);
      var j := Index(Reqs(w.parts), y);
      assert w.parts[i] in w.parts;
      InQueue(w.parts, i, j);
      ChunksInOrder(w.parts, Budget(w, cfg), i, j);
    } else {
      NotInParts(pending, w, cfg, x);
    }
  }

  lemma InQueue(parts: seq<Part>, i: nat, j: nat)
    requires Queued(parts) && i < |parts| && j < |parts| && parts[i].req.at < parts[j].req.at
    ensures i < j
  {
  }

  lemma OneMore(pending: seq<Req>, w: Shared, w': Shared, cfg: Config)
    requires SharedStepped(pending, w, w', cfg)
    ensures |w'.trace| == |w.trace| + 1
  {
  }

  /** With budget left over, whoever was in prefill gets a first token. */
  lemma EverybodyStarts(pending: seq<Req>, w: Shared, w': Shared, cfg: Config)
    requires SharedOk(pending, w, cfg) && SharedStepped(pending, w, w', cfg)
    requires TotalTokens(Chunks(w.parts, Budget(w, cfg))) < Budget(w, cfg)
    ensures |Starting(pending, w.trace, w'.trace[|w.trace|].batch)| == |w.parts|
  {
    hide SharedOk, Chunks, SharedStepped, Born, Still, NoDup, Starting;
    OneMore(pending, w, w', cfg);
    AllBorn(w.parts, Budget(w, cfg));
    AdmittedNoDup(pending, w, cfg);
    var born, starting := Reqs(w.parts), Starting(pending, w.trace, w'.trace[|w.trace|].batch);
    forall x ensures x in starting <==> x in born {
      StartsIfBorn(pending, w, w', cfg, x);
    }
    NoDupBack(w.active, born);
    SizeOf(born, starting);
  }

  lemma NoDupBack<T>(a: seq<T>, b: seq<T>)
    requires NoDup(a + b)
    ensures NoDup(b)
  {
    forall i, j | 0 <= i < j < |b| ensures b[i] != b[j] {
      assert (a + b)[|a| + i] == b[i] && (a + b)[|a| + j] == b[j];
    }
  }

  lemma StartsIfBorn(pending: seq<Req>, w: Shared, w': Shared, cfg: Config, x: Req)
    requires SharedOk(pending, w, cfg) && SharedStepped(pending, w, w', cfg) && |w'.trace| == |w.trace| + 1
    requires Born(w.parts, Budget(w, cfg)) == Reqs(w.parts)
    ensures x in Starting(pending, w.trace, w'.trace[|w.trace|].batch) <==> x in Reqs(w.parts)
  {
    hide HistoryOk, Emissions, Prefilled, FirstAt, LastAt, Chunks, SharedStepped, Born, Still;
    Bounds(pending, w, cfg);
    if x in pending {
      var k := Index(pending, x);
      assert StageOk(pending, k, w);
      Emits(pending, w, w', cfg, x);
    }
  }

  lemma NewTurn(pending: seq<Req>, w: Shared, w': Shared, cfg: Config)
    requires SharedOk(pending, w, cfg) && SharedStepped(pending, w, w', cfg) && |w.work| == |w.trace|
    requires TimeOrdered(pending) && Queued(w.parts) && Crowded(pending, w, cfg)
    ensures |w'.trace| == |w'.work| == |w.trace| + 1 && TurnOk(pending, w'.trace, w'.work, |w.trace|, cfg)
  {
    hide SharedOk, Chunks, Prefilled, Waiting, Starting, TimeOrdered, Crowded, Queued, Born, Still, SlotsStepped;
    var n, k := |w.trace|, Work(Chunks(w.parts, Budget(w, cfg)), |w.active|, |w.parts|);
    RoomCount(pending, w, cfg);
    assert w'.work[..n + 1] == w'.work && w'.trace[..n] == w.trace && w'.work[n] == k;
    assert w'.trace[n].start == w.now && |w'.trace| == n + 1;
    if TotalTokens(k.chunks) < Budget(w, cfg) {
      EverybodyStarts(pending, w, w', cfg);
    }
    hide SharedStepped;
    forall x, y | x in pending && y in pending && x.at < y.at && TokensFor(k.chunks, y.id) > 0
      ensures Prefilled(w'.work[..n + 1], x.id) == x.prompt
    {
      EarlierDone(pending, w, w', cfg, x, y);
    }
  }

  lemma TurnsSnoc(group: seq<Req>, w: Shared, w': Shared, cfg: Config)
    requires TurnsOk(group, w.trace, w.work, cfg) && |w'.trace| == |w'.work| == |w.trace| + 1
    requires w.trace <= w'.trace && w.work <= w'.work && TurnOk(group, w'.trace, w'.work, |w.trace|, cfg)
    ensures TurnsOk(group, w'.trace, w'.work, cfg)
  {
    forall i: nat | i < |w'.trace| ensures TurnOk(group, w'.trace, w'.work, i, cfg) {
      if i < |w.trace| {
        assert TurnOk(group, w.trace, w.work, i, cfg);
        assert w'.trace[..i] == w.trace[..i] && w'.work[..i + 1] == w.work[..i + 1];
      }
    }
  }

  /** A step keeps all of it. */
  lemma SharedSteppedTurns(pending: seq<Req>, w: Shared, w': Shared, cfg: Config)
    requires SharedOk(pending, w, cfg) && SharedStepped(pending, w, w', cfg)
    requires TimeOrdered(pending) && Queued(w.parts) && Crowded(pending, w, cfg)
    requires TurnsOk(pending, w.trace, w.work, cfg)
    ensures TurnsOk(pending, w'.trace, w'.work, cfg) && Queued(w'.parts)
  {
    hide SharedOk, TurnOk, Born, Still, Chunks, SlotsStepped, TimeOrdered, Crowded, Queued;
    NewTurn(pending, w, w', cfg);
    assert w'.trace == w.trace + [w'.trace[|w.trace|]];
    TurnsSnoc(pending, w, w', cfg);
    StillQueued(w.parts, Budget(w, cfg));
  }

  lemma TurnsFor(a: seq<Req>, b: seq<Req>, w: Shared, cfg: Config)
    requires TurnsOk(a, w.trace, w.work, cfg) && forall r :: r in b <==> r in a
    ensures TurnsOk(b, w.trace, w.work, cfg)
  {
    hide Emissions, Prefilled, TokensFor, TotalTokens;
    forall i: nat | i < |w.trace| ensures TurnOk(b, w.trace, w.work, i, cfg) {
      assert TurnOk(a, w.trace, w.work, i, cfg);
      assert Waiting(b, w.trace[..i], w.trace[i].start) == Waiting(a, w.trace[..i], w.trace[i].start);
      assert Starting(b, w.trace[..i], w.trace[i].batch) == Starting(a, w.trace[..i], w.trace[i].batch);
    }
  }
}
