/** A colocated worker: prefill and decode share one batch, one clock and, in
    chunked mode, one token budget. The cost of a step is an arbitrary
    non-negative function of what it works on. */
module ClusterColocated {
  import opened Lists
  import opened ClusterPrefill
  import opened ClusterDecode
  import opened ClusterDisaggregated
  import opened ClusterBudget

  datatype Config = Config(maxBatch: pos, maxTokens: pos, chunked: bool)

  /** Chunk sizes, their contexts after the step, and the decoding contexts. */
  type Cost = (seq<nat>, seq<nat>, seq<nat>) -> real

  /** `trace` records the tokens each step gave, `work` its prefill side. */
  datatype Shared = Shared(
    idx: nat, active: seq<Req>, parts: seq<Part>, slots: map<int, Slot>, now: real,
    prefillBusy: real, decodeBusy: real, trace: seq<Step>, work: seq<Work>)

  // ---- invariant

  ghost predicate WorkOk(w: Work, cfg: Config) {
    && w.decoding + w.prefilling <= cfg.maxBatch
    && TotalTokens(w.chunks) <= if cfg.chunked then Positive(cfg.maxTokens - w.decoding) else cfg.maxTokens
  }

  /** The requests that have some of their tokens but not all. */
  ghost function Midway(group: seq<Req>, trace: seq<Step>): set<Req> {
    set x | x in group && 0 < Emissions(trace, x.id) < Need(x)
  }

  /** What was recorded of step `i` is what it did: the requests midway count as
      decoding, and are in its batch unless prefill work holds them up; any other
      request in the batch has just had the last of its prompt. */
  ghost predicate RecordOk(group: seq<Req>, trace: seq<Step>, work: seq<Work>, i: nat, cfg: Config)
    requires i < |trace| && i < |work|
  {
    var midway, batch, k := Midway(group, trace[..i]), trace[i].batch, work[i];
    && WorkOk(k, cfg) && k.decoding == |midway| && |k.chunks| <= k.prefilling && |batch| <= |midway| + k.prefilling
    && (forall x :: x in group && x in midway ==> (x.id in batch <==> cfg.chunked || k.chunks == []))
    && (forall x :: x in group && x !in midway && x.id in batch ==>
          Emissions(trace[..i], x.id) == 0 && Prefilled(work[..i + 1], x.id) == x.prompt)
  }

  /** The time taken by the steps that have prefill work, or by those that have none. */
  function TimeOf(trace: seq<Step>, work: seq<Work>, prefill: bool): real {
    if trace == [] || work == [] then 0.0
    else
      var s := trace[|trace| - 1];
      TimeOf(trace[..|trace| - 1], work[..|work| - 1], prefill)
      + if (work[|work| - 1].chunks != []) == prefill then s.at - s.start else 0.0
  }

  lemma TimeSnoc(trace: seq<Step>, work: seq<Work>, s: Step, k: Work, prefill: bool)
    ensures TimeOf(trace + [s], work + [k], prefill)
         == TimeOf(trace, work, prefill) + if (k.chunks != []) == prefill then s.at - s.start else 0.0
  {
    assert (trace + [s])[..|trace|] == trace && (work + [k])[..|work|] == work;
  }

  /** Steps respect the batch and the budget, the clock never runs back, and a step
      with any prefill work is prefill time, any other decode time. */
  ghost predicate HistoryOk(group: seq<Req>, w: Shared, cfg: Config) {
    && |w.work| == |w.trace|
    && (forall i: nat :: i < |w.trace| && i < |w.work| ==> RecordOk(group, w.trace, w.work, i, cfg))
    && (forall i :: 0 <= i < |w.trace| ==> w.trace[i].start <= w.trace[i].at <= w.now)
    && (forall i, j :: 0 <= i < j < |w.trace| ==> w.trace[i].at <= w.trace[j].start)
    && w.prefillBusy == TimeOf(w.trace, w.work, true) && w.decodeBusy == TimeOf(w.trace, w.work, false)
  }

  /** A request that was admitted: in prefill until its first token, in the batch
      until its last. */
  ghost predicate Entered(x: Req, w: Shared) {
    var e, c := Emissions(w.trace, x.id), Prefilled(w.work, x.id);
    && x.id in w.slots
    && x.at <= w.now
    && w.slots[x.id].remaining == x.output - e
    && e <= Need(x)
    && w.slots[x.id].ctx == x.prompt + (if e == 0 then 0 else e - 1)
    && (e > 0 ==> c == x.prompt && w.slots[x.id].first == FirstAt(w.trace, x.id)
                  && x.at <= w.slots[x.id].first <= w.now)
    && (x in Reqs(w.parts) <==> e == 0)
    && (forall p :: p in w.parts && p.req == x ==> p.done == c)
    && (x in w.active <==> 0 < e < Need(x))
    && (e == Need(x) ==> w.slots[x.id].finish == LastAt(w.trace, x.id)
                         && w.slots[x.id].first <= w.slots[x.id].finish <= w.now)
  }

  ghost predicate NotEntered(x: Req, w: Shared) {
    && x !in w.active && x !in Reqs(w.parts)
    && Emissions(w.trace, x.id) == 0 && Prefilled(w.work, x.id) == 0
  }

  ghost predicate StageOk(pending: seq<Req>, k: nat, w: Shared)
    requires k < |pending|
  {
    if k < w.idx then Entered(pending[k], w) else NotEntered(pending[k], w)
  }

  ghost predicate ListsOk(pending: seq<Req>, w: Shared, cfg: Config) {
    && w.idx <= |pending|
    && |w.active| + |w.parts| <= cfg.maxBatch
    && NoDup(w.active)
    && PartsOk(w.parts)
    && (forall r :: r in w.active ==> r in pending)
    && (forall r :: r in Reqs(w.parts) ==> r in pending)
  }

  ghost predicate SharedOk(pending: seq<Req>, w: Shared, cfg: Config) {
    && DistinctIds(pending)
    && (forall r :: r in pending ==> r.at >= 0.0)
    && w.now >= 0.0
    && ListsOk(pending, w, cfg)
    && (forall k: nat :: k < |pending| ==> StageOk(pending, k, w))
    && HistoryOk(pending, w, cfg)
  }

  lemma Bounds(pending: seq<Req>, w: Shared, cfg: Config)
    requires SharedOk(pending, w, cfg)
    ensures w.idx <= |pending| && |w.active| + |w.parts| <= cfg.maxBatch && w.now >= 0.0
    ensures NoDup(w.active) && PartsOk(w.parts) && DistinctIds(pending)
    ensures forall r :: r in w.active ==> r in pending && r.id in w.slots && r !in Reqs(w.parts)
    ensures forall r :: r in Reqs(w.parts) ==> r in pending && r.id in w.slots
  {
    forall r | r in pending && (r in w.active || r in Reqs(w.parts))
      ensures r.id in w.slots && !(r in w.active && r in Reqs(w.parts))
    {
      var k :| 0 <= k < |pending| && pending[k] == r;
      assert StageOk(pending, k, w);
    }
  }

  lemma IdsIn(pending: seq<Req>, reqs: seq<Req>)
    requires DistinctIds(pending) && forall r :: r in reqs ==> r in pending
    ensures forall x :: x in pending ==> (x.id in Ids(reqs) <==> x in reqs)
    ensures NoDup(reqs) ==> NoDup(Ids(reqs)) && DistinctIds(reqs)
  {
    var ids := Ids(reqs);
    forall x | x in pending ensures x.id in ids <==> x in reqs {
      if x.id in ids {
        var i :| 0 <= i < |ids| && ids[i] == x.id;
        SameId(pending, reqs[i], x);
      }
      if x in reqs {
        var i :| 0 <= i < |reqs| && reqs[i] == x;
        assert ids[i] == x.id;
      }
    }
    forall i, j | 0 <= i < j < |ids| && NoDup(reqs) ensures ids[i] != ids[j] {
      SameId(pending, reqs[i], reqs[j]);
    }
  }

  // ---- admission

  function Enter(w: Shared, r: Req): Shared {
    w.(idx := w.idx + 1, parts := w.parts + [Part(r, 0)],
       slots := w.slots[r.id := Slot(r.output, r.prompt, -1.0, -1.0)])
  }

  lemma {:induction false} ReqsSnoc(parts: seq<Part>, p: Part)
    ensures Reqs(parts + [p]) == Reqs(parts) + [p.req]
  {
    if parts == [] {
      assert parts + [p] == [p];
    } else {
      assert (parts + [p])[1..] == parts[1..] + [p];
      ReqsSnoc(parts[1..], p);
    }
  }

  lemma PartReq(parts: seq<Part>, p: Part)
    requires p in parts
    ensures p.req in Reqs(parts)
  {
    var i :| 0 <= i < |parts| && parts[i] == p;
    assert Reqs(parts)[i] == p.req;
  }

  lemma EnterOk(pending: seq<Req>, w: Shared, cfg: Config)
    requires SharedOk(pending, w, cfg) && w.idx < |pending|
    requires pending[w.idx].at <= w.now && |w.active| + |w.parts| < cfg.maxBatch
    ensures SharedOk(pending, Enter(w, pending[w.idx]), cfg)
  {
    var w' := Enter(w, pending[w.idx]);
    EnterLists(pending, w, cfg);
    forall k: nat | k < |pending| ensures StageOk(pending, k, w') {
      EnterItem(pending, k, w, cfg);
    }
    HistorySame(pending, w, w', cfg);
    hide StageOk, HistoryOk, ListsOk;
  }

  lemma EnterItem(pending: seq<Req>, k: nat, w: Shared, cfg: Config)
    requires SharedOk(pending, w, cfg) && w.idx < |pending| && k < |pending| && pending[w.idx].at <= w.now
    ensures StageOk(pending, k, Enter(w, pending[w.idx]))
  {
    hide HistoryOk, ListsOk, Emissions, Prefilled, FirstAt, LastAt;
    assert StageOk(pending, w.idx, w);
    assert StageOk(pending, k, w);
    assert k != w.idx ==> pending[k].id != pending[w.idx].id;
    hide SharedOk;
    if k == w.idx {
      EnterNew(w, pending[k]);
    } else if k < w.idx {
      EnterOld(w, pending[w.idx], pending[k]);
    } else {
      EnterLater(w, pending[w.idx], pending[k]);
    }
  }

  lemma EnterNew(w: Shared, r: Req)
    requires NotEntered(r, w) && r.at <= w.now
    ensures Entered(r, Enter(w, r))
  {
    hide Emissions, Prefilled, FirstAt, LastAt;
    ReqsSnoc(w.parts, Part(r, 0));
    forall p | p in w.parts ensures p.req in Reqs(w.parts) {
      PartReq(w.parts, p);
    }
  }

  lemma EnterOld(w: Shared, r: Req, x: Req)
    requires Entered(x, w) && x.id != r.id
    ensures Entered(x, Enter(w, r))
  {
    hide Emissions, Prefilled, FirstAt, LastAt;
    ReqsSnoc(w.parts, Part(r, 0));
  }

  lemma EnterLater(w: Shared, r: Req, x: Req)
    requires NotEntered(x, w) && x.id != r.id
    ensures NotEntered(x, Enter(w, r))
  {
    hide Emissions, Prefilled;
    ReqsSnoc(w.parts, Part(r, 0));
  }

  lemma HistorySame(group: seq<Req>, w: Shared, w': Shared, cfg: Config)
    requires HistoryOk(group, w, cfg) && w'.trace == w.trace && w'.work == w.work && w'.now >= w.now
    requires w'.prefillBusy == w.prefillBusy && w'.decodeBusy == w.decodeBusy
    ensures HistoryOk(group, w', cfg)
  {
    hide RecordOk;
  }

  lemma SnocIds(reqs: seq<Req>, r: Req)
    requires DistinctIds(reqs) && forall x :: x in reqs ==> x.id != r.id
    ensures DistinctIds(reqs + [r])
  {
    assert forall k :: 0 <= k < |reqs| ==> reqs[k] in reqs;
  }

  lemma EnterLists(pending: seq<Req>, w: Shared, cfg: Config)
    requires SharedOk(pending, w, cfg) && w.idx < |pending| && |w.active| + |w.parts| < cfg.maxBatch
    ensures ListsOk(pending, Enter(w, pending[w.idx]), cfg)
  {
    hide HistoryOk, Emissions, Prefilled, FirstAt, LastAt, DistinctIds;
    var r := pending[w.idx];
    assert StageOk(pending, w.idx, w);
    hide StageOk;
    ReqsSnoc(w.parts, Part(r, 0));
    forall x | x in Reqs(w.parts) ensures x.id != r.id {
      SameId(pending, x, r);
    }
    SnocIds(Reqs(w.parts), r);
    assert r in pending;
  }

  /** Whoever is in prefill has arrived no later than whoever is still to be admitted. */
  lemma EnteredBefore(pending: seq<Req>, w: Shared, cfg: Config)
    requires SharedOk(pending, w, cfg) && TimeOrdered(pending)
    ensures w.idx < |pending| ==> forall p :: p in w.parts ==> p.req.at <= pending[w.idx].at
  {
    hide HistoryOk, Emissions, Prefilled, FirstAt, LastAt;
    forall p | w.idx < |pending| && p in w.parts ensures p.req.at <= pending[w.idx].at {
      PartReq(w.parts, p);
      var k :| 0 <= k < |pending| && pending[k] == p.req;
      assert StageOk(pending, k, w);
    }
  }

  lemma QueuedSnoc(parts: seq<Part>, p: Part)
    requires Queued(parts) && forall q :: q in parts ==> q.req.at <= p.req.at
    ensures Queued(parts + [p])
  {
    assert forall k :: 0 <= k < |parts| ==> parts[k] in parts;
  }

  method EnterReady(pending: seq<Req>, was: Shared, cfg: Config) returns (w: Shared)
    requires SharedOk(pending, was, cfg) && TimeOrdered(pending) && Queued(was.parts)
    ensures SharedOk(pending, w, cfg) && Queued(w.parts)
    ensures w.trace == was.trace && w.work == was.work && w.now == was.now && w.active == was.active
    ensures w.idx < |pending| && pending[w.idx].at <= w.now ==> |w.active| + |w.parts| == cfg.maxBatch
    ensures w.idx == was.idx ==> w == was
    ensures w.idx >= was.idx && |w.parts| == |was.parts| + w.idx - was.idx
  {
    Bounds(pending, was, cfg);
    hide SharedOk, TimeOrdered, Queued;
    w := was;
    while w.idx < |pending| && pending[w.idx].at <= w.now && |w.active| + |w.parts| < cfg.maxBatch
      invariant SharedOk(pending, w, cfg) && |w.active| + |w.parts| <= cfg.maxBatch && Queued(w.parts)
      invariant w.trace == was.trace && w.work == was.work && w.now == was.now && w.active == was.active
      invariant w.idx == was.idx ==> w == was
      invariant w.idx >= was.idx && |w.parts| == |was.parts| + w.idx - was.idx
      decreases |pending| - w.idx
    {
      EnterOk(pending, w, cfg);
      EnteredBefore(pending, w, cfg);
      QueuedSnoc(w.parts, Part(pending[w.idx], 0));
      w := Enter(w, pending[w.idx]);
    }
  }

  // ---- one step

  function Budget(w: Shared, cfg: Config): int {
    if cfg.chunked then cfg.maxTokens - |w.active| else cfg.maxTokens
  }

  /** Without chunking, a step with prefill work decodes nothing. */
  function Decoders(w: Shared, cfg: Config): seq<Req> {
    if cfg.chunked || Chunks(w.parts, Budget(w, cfg)) == [] then w.active else []
  }

  function FirstToken(r: Req, s: Slot, now: real): Slot {
    Slot(s.remaining - 1, r.prompt, now, if s.remaining - 1 <= 0 then now else s.finish)
  }

  function NextToken(s: Slot, now: real): Slot {
    Slot(s.remaining - 1, s.ctx + 1, s.first, if s.remaining - 1 <= 0 then now else s.finish)
  }

  ghost predicate SlotsStepped(pending: seq<Req>, born: seq<Req>, decoders: seq<Req>, was: map<int, Slot>,
                               slots: map<int, Slot>, now: real) {
    && slots.Keys == was.Keys
    && forall x :: x in pending && x.id in was && x.id in slots ==>
         slots[x.id] == if x in born then FirstToken(x, was[x.id], now)
                        else if x in decoders then NextToken(was[x.id], now) else was[x.id]
  }

  function Contexts(reqs: seq<Req>, slots: map<int, Slot>): seq<nat> {
    seq(|reqs|, i requires 0 <= i < |reqs| => if reqs[i].id in slots then slots[reqs[i].id].ctx else 0)
  }

  function Sizes(chunks: seq<Chunk>): (r: seq<nat>)
    ensures |r| == |chunks| && forall i :: 0 <= i < |r| ==> r[i] == chunks[i].tokens
  {
    seq(|chunks|, i requires 0 <= i < |chunks| => chunks[i].tokens)
  }

  /** What a step does, said without its loops. */
  ghost predicate SharedStepped(pending: seq<Req>, w: Shared, w': Shared, cfg: Config) {
    var born, decoders := Born(w.parts, Budget(w, cfg)), Decoders(w, cfg);
    && w'.idx == w.idx
    && w'.now >= w.now
    && w'.parts == Still(w.parts, Budget(w, cfg))
    && SlotsStepped(pending, born, decoders, w.slots, w'.slots, w'.now)
    && NoDup(w'.active) && |w'.active| <= |w.active| + |born|
    && (forall r :: r in w'.active <==>
          (r in w.active || r in born) && r.id in w'.slots && w'.slots[r.id].remaining > 0)
    && |w'.trace| == |w.trace| + 1 && w'.trace[..|w.trace|] == w.trace
    && w'.trace[|w.trace|].start == w.now && w'.trace[|w.trace|].at == w'.now
    && w'.prefillBusy == w.prefillBusy + (if Chunks(w.parts, Budget(w, cfg)) != [] then w'.now - w.now else 0.0)
    && w'.decodeBusy == w.decodeBusy + (if Chunks(w.parts, Budget(w, cfg)) != [] then 0.0 else w'.now - w.now)
    && w'.trace[|w.trace|].batch == Ids(born) + Ids(decoders)
    && w'.trace[|w.trace|].contexts == Contexts(decoders, w.slots)
    && w'.work == w.work + [Work(Chunks(w.parts, Budget(w, cfg)), |w.active|, |w.parts|)]
  }

  lemma PrefilledSnoc(work: seq<Work>, s: Work, id: int)
    ensures Prefilled(work + [s], id) == Prefilled(work, id) + TokensFor(s.chunks, id)
  {
    assert (work + [s])[..|work|] == work;
  }

  /** What a step means for one request. */
  lemma Emits(pending: seq<Req>, w: Shared, w': Shared, cfg: Config, x: Req)
    requires SharedOk(pending, w, cfg) && SharedStepped(pending, w, w', cfg) && x in pending
    ensures
      var born, decoders, s := Born(w.parts, Budget(w, cfg)), Decoders(w, cfg), w'.trace[|w.trace|];
      && w'.trace == w.trace + [s]
      && (x.id in s.batch <==> x in born || x in decoders)
      && Prefilled(w'.work, x.id) == Prefilled(w.work, x.id) + TokensFor(Chunks(w.parts, Budget(w, cfg)), x.id)
      && (forall r :: r in born ==> r in Reqs(w.parts))
  {
    hide StageOk, HistoryOk;
    var budget := Budget(w, cfg);
    var born, decoders, s := Born(w.parts, budget), Decoders(w, cfg), w'.trace[|w.trace|];
    assert w'.trace == w.trace + [s];
    ShareMembers(w.parts, budget);
    IdsIn(pending, born);
    IdsIn(pending, decoders);
    PrefilledSnoc(w.work, Work(Chunks(w.parts, budget), |w.active|, |w.parts|), x.id);
  }

  lemma NotInParts(pending: seq<Req>, w: Shared, cfg: Config, x: Req)
    requires SharedOk(pending, w, cfg) && x in pending && x !in Reqs(w.parts)
    ensures TokensFor(Chunks(w.parts, Budget(w, cfg)), x.id) == 0
    ensures x !in Born(w.parts, Budget(w, cfg)) && x !in Reqs(Still(w.parts, Budget(w, cfg)))
  {
    hide StageOk, HistoryOk;
    ShareMembers(w.parts, Budget(w, cfg));
    forall r | r in Reqs(w.parts) ensures r.id != x.id {
      SameId(pending, r, x);
    }
  }

  lemma StageStep(pending: seq<Req>, k: nat, w: Shared, w': Shared, cfg: Config)
    requires SharedOk(pending, w, cfg) && SharedStepped(pending, w, w', cfg) && k < |pending|
    ensures StageOk(pending, k, w')
  {
    hide HistoryOk, Emissions, FirstAt, LastAt, Prefilled, SharedStepped, Born, Still, Chunks;
    var x := pending[k];
    assert StageOk(pending, k, w);
    if k >= w.idx {
      NotEnteredStep(pending, x, w, w', cfg);
    } else if x in Reqs(w.parts) {
      PrefillStep(pending, x, w, w', cfg);
    } else {
      DecodeStep(pending, x, w, w', cfg);
    }
    SharedSteppedIdx(pending, w, w', cfg);
  }

  lemma SharedSteppedIdx(pending: seq<Req>, w: Shared, w': Shared, cfg: Config)
    requires SharedStepped(pending, w, w', cfg)
    ensures w'.idx == w.idx
  {
  }

  lemma NotEnteredStep(pending: seq<Req>, x: Req, w: Shared, w': Shared, cfg: Config)
    requires SharedOk(pending, w, cfg) && SharedStepped(pending, w, w', cfg) && x in pending && NotEntered(x, w)
    ensures NotEntered(x, w')
  {
    hide HistoryOk, Emissions, FirstAt, LastAt, Prefilled, StageOk, Born, Still, Chunks;
    NotInParts(pending, w, cfg, x);
    Emits(pending, w, w', cfg, x);
    Snoc(w.trace, w'.trace[|w.trace|], x.id);
  }

  lemma PrefillStep(pending: seq<Req>, x: Req, w: Shared, w': Shared, cfg: Config)
    requires SharedOk(pending, w, cfg) && SharedStepped(pending, w, w', cfg) && x in pending
    requires Entered(x, w) && x in Reqs(w.parts)
    ensures Entered(x, w')
  {
    hide HistoryOk, Emissions, FirstAt, LastAt, Prefilled, StageOk, Born, Still, Chunks, Contexts, DistinctIds, Ids;
    hide SharedOk, Entered, Placed, SharedStepped;
    var budget := Budget(w, cfg);
    var i :| 0 <= i < |w.parts| && Reqs(w.parts)[i] == x;
    var p := w.parts[i];
    Bounds(pending, w, cfg);
    AllPlaced(w.parts, budget);
    Emits(pending, w, w', cfg, x);
    Snoc(w.trace, w'.trace[|w.trace|], x.id);
    PrefillSlot(pending, x, w, w', cfg);
    Prefills(x, w, w', cfg, p);
  }

  /** What a step makes of the slot and the place of a request in prefill. */
  lemma PrefillSlot(pending: seq<Req>, x: Req, w: Shared, w': Shared, cfg: Config)
    requires SharedStepped(pending, w, w', cfg) && x in pending && x.id in w.slots && x !in w.active
    ensures
      var born := Born(w.parts, Budget(w, cfg));
      && x.id in w'.slots && w'.now >= w.now && w'.parts == Still(w.parts, Budget(w, cfg))
      && w'.slots[x.id] == (if x in born then FirstToken(x, w.slots[x.id], w'.now) else w.slots[x.id])
      && (x in w'.active <==> x in born && w'.slots[x.id].remaining > 0)
      && x !in Decoders(w, cfg) && |w'.trace| == |w.trace| + 1 && w'.trace[|w.trace|].at == w'.now
  {
    hide Born, Still, Chunks, FirstToken, NextToken;
  }

  lemma Prefills(x: Req, w: Shared, w': Shared, cfg: Config, p: Part)
    requires Entered(x, w) && x in Reqs(w.parts) && p in w.parts && p.req == x && Placed(p, w.parts, Budget(w, cfg))
    requires |w'.trace| == |w.trace| + 1 && w'.trace == w.trace + [w'.trace[|w.trace|]]
    requires w'.trace[|w.trace|].at == w'.now
    requires
      var born, s := Born(w.parts, Budget(w, cfg)), w'.trace[|w.trace|];
      && (x.id in s.batch <==> x in born) && w'.now >= w.now
      && Prefilled(w'.work, x.id) == Prefilled(w.work, x.id) + TokensFor(Chunks(w.parts, Budget(w, cfg)), x.id)
      && x.id in w.slots && x.id in w'.slots && w'.parts == Still(w.parts, Budget(w, cfg))
      && w'.slots[x.id] == (if x in born then FirstToken(x, w.slots[x.id], w'.now) else w.slots[x.id])
      && (x in w'.active <==> x in born && w'.slots[x.id].remaining > 0)
    ensures Entered(x, w')
  {
    hide Emissions, FirstAt, LastAt, Prefilled, Born, Still, Chunks, TokensFor;
    Snoc(w.trace, w'.trace[|w.trace|], x.id);
  }

  lemma DecodeStep(pending: seq<Req>, x: Req, w: Shared, w': Shared, cfg: Config)
    requires SharedOk(pending, w, cfg) && SharedStepped(pending, w, w', cfg) && x in pending
    requires Entered(x, w) && x !in Reqs(w.parts)
    ensures Entered(x, w')
  {
    hide HistoryOk, Emissions, FirstAt, LastAt, Prefilled, StageOk, Born, Still, Chunks;
    NotInParts(pending, w, cfg, x);
    Emits(pending, w, w', cfg, x);
    Snoc(w.trace, w'.trace[|w.trace|], x.id);
    forall p | p in w'.parts ensures p.req != x {
      PartReq(w'.parts, p);
    }
    var s := w.slots[x.id];
    assert w'.slots[x.id] == if x in Decoders(w, cfg) then NextToken(s, w'.now) else s;
  }

  lemma SharedSteppedOk(pending: seq<Req>, w: Shared, w': Shared, cfg: Config)
    requires SharedOk(pending, w, cfg) && SharedStepped(pending, w, w', cfg)
    ensures SharedOk(pending, w', cfg)
  {
    forall k: nat | k < |pending| ensures StageOk(pending, k, w') {
      StageStep(pending, k, w, w', cfg);
    }
    hide StageOk;
    SharedSteppedLists(pending, w, w', cfg);
    SharedSteppedHistory(pending, w, w', cfg);
  }

  lemma SharedSteppedLists(pending: seq<Req>, w: Shared, w': Shared, cfg: Config)
    requires SharedOk(pending, w, cfg) && SharedStepped(pending, w, w', cfg)
    ensures ListsOk(pending, w', cfg)
  {
    hide StageOk, HistoryOk, Born, Still, Chunks;
    ShareMembers(w.parts, Budget(w, cfg));
    ShareDistinct(w.parts, Budget(w, cfg));
    assert PartsOk(w'.parts);
  }

  lemma {:induction false} ShareSizes(parts: seq<Part>, budget: int)
    ensures |Chunks(parts, budget)| <= |parts| && |Born(parts, budget)| <= |parts|
  {
    if parts != [] {
      ShareSizes(parts[1..], budget - Share(parts[0], budget));
    }
  }

  /** The requests midway are those in the batch. */
  lemma MidwayActive(pending: seq<Req>, w: Shared, cfg: Config)
    requires SharedOk(pending, w, cfg)
    ensures |Midway(pending, w.trace)| == |w.active|
    ensures forall x :: x in Midway(pending, w.trace) <==> x in w.active
  {
    hide HistoryOk, Emissions, Prefilled, FirstAt, LastAt;
    forall x | x in pending ensures x in w.active <==> 0 < Emissions(w.trace, x.id) < Need(x) {
      var k :| 0 <= k < |pending| && pending[k] == x;
      assert StageOk(pending, k, w);
    }
    NoDupSize(w.active, Midway(pending, w.trace));
  }

  /** Whoever is in a step's batch without being midway has just been born. */
  lemma BornFresh(pending: seq<Req>, w: Shared, w': Shared, cfg: Config, x: Req)
    requires SharedOk(pending, w, cfg) && SharedStepped(pending, w, w', cfg) && x in pending
    requires x !in w.active && x.id in w'.trace[|w.trace|].batch
    ensures Emissions(w.trace, x.id) == 0 && Prefilled(w'.work, x.id) == x.prompt
  {
    hide HistoryOk, Emissions, FirstAt, LastAt, Prefilled, Born, Still, Chunks;
    Emits(pending, w, w', cfg, x);
    var k :| 0 <= k < |pending| && pending[k] == x;
    assert StageOk(pending, k, w);
    assert x in Reqs(w.parts);
    PrefillStep(pending, x, w, w', cfg);
    Snoc(w.trace, w'.trace[|w.trace|], x.id);
  }

  /** Whoever is midway is in the batch unless prefill work holds them up. */
  lemma MidwayInBatch(pending: seq<Req>, w: Shared, w': Shared, cfg: Config, x: Req)
    requires SharedOk(pending, w, cfg) && SharedStepped(pending, w, w', cfg) && x in w.active && x in pending
    ensures x.id in w'.trace[|w.trace|].batch <==> cfg.chunked || Chunks(w.parts, Budget(w, cfg)) == []
  {
    Emits(pending, w, w', cfg, x);
    BatchDistinct(pending, w, cfg);
    hide SharedOk, SharedStepped, Born, Chunks;
  }

  lemma RecordSizes(pending: seq<Req>, w: Shared, w': Shared, cfg: Config)
    requires SharedOk(pending, w, cfg) && SharedStepped(pending, w, w', cfg)
    ensures
      var n, k := |w.trace|, Work(Chunks(w.parts, Budget(w, cfg)), |w.active|, |w.parts|);
      && |w'.trace| == n + 1 && w'.trace[..n] == w.trace && w'.work == w.work + [k] && WorkOk(k, cfg)
      && |k.chunks| <= k.prefilling && |w'.trace[n].batch| <= |w.active| + k.prefilling
  {
    hide StageOk, HistoryOk, Born, Chunks, TotalTokens;
    ChunksWithin(w.parts, Budget(w, cfg));
    ShareSizes(w.parts, Budget(w, cfg));
  }

  /** The record of the step just taken. */
  lemma NewRecord(pending: seq<Req>, w: Shared, w': Shared, cfg: Config)
    requires SharedOk(pending, w, cfg) && SharedStepped(pending, w, w', cfg) && |w.work| == |w.trace|
    ensures |w'.trace| == |w'.work| == |w.trace| + 1 && RecordOk(pending, w'.trace, w'.work, |w.trace|, cfg)
  {
    hide SharedOk, SharedStepped, Midway, Emissions, Prefilled, Chunks, WorkOk;
    var n := |w.trace|;
    RecordSizes(pending, w, w', cfg);
    MidwayActive(pending, w, cfg);
    assert w'.work[..n + 1] == w'.work;
    forall x | x in pending && x in w.active
      ensures x.id in w'.trace[n].batch <==> cfg.chunked || w'.work[n].chunks == []
    {
      MidwayInBatch(pending, w, w', cfg, x);
    }
    forall x | x in pending && x !in w.active && x.id in w'.trace[n].batch
      ensures Emissions(w.trace, x.id) == 0 && Prefilled(w'.work, x.id) == x.prompt
    {
      BornFresh(pending, w, w', cfg, x);
    }
  }

  lemma OldRecord(group: seq<Req>, w: Shared, w': Shared, i: nat, cfg: Config)
    requires i < |w.trace| == |w.work| && RecordOk(group, w.trace, w.work, i, cfg)
    requires w.trace <= w'.trace && w.work <= w'.work
    ensures RecordOk(group, w'.trace, w'.work, i, cfg)
  {
    assert w'.trace[..i] == w.trace[..i] && w'.work[..i + 1] == w.work[..i + 1];
  }

  lemma SharedSteppedHistory(pending: seq<Req>, w: Shared, w': Shared, cfg: Config)
    requires SharedOk(pending, w, cfg) && SharedStepped(pending, w, w', cfg)
    ensures HistoryOk(pending, w', cfg)
  {
    NewRecord(pending, w, w', cfg);
    var k := Work(Chunks(w.parts, Budget(w, cfg)), |w.active|, |w.parts|);
    TimeSnoc(w.trace, w.work, w'.trace[|w.trace|], k, true);
    TimeSnoc(w.trace, w.work, w'.trace[|w.trace|], k, false);
    hide StageOk, ListsOk, Born, Still, Chunks, TotalTokens, RecordOk, SlotsStepped, TimeOf;
    assert w'.trace == w.trace + [w'.trace[|w.trace|]];
    forall i: nat | i < |w'.trace| ensures RecordOk(pending, w'.trace, w'.work, i, cfg) {
      if i < |w.trace| {
        assert RecordOk(pending, w.trace, w.work, i, cfg);
        OldRecord(pending, w, w', i, cfg);
      }
    }
  }

  // ---- progress

  /** Prompt tokens and output tokens still to be worked off. */
  function WorkLeft(pending: seq<Req>, trace: seq<Step>, work: seq<Work>): int {
    if pending == [] then 0
    else pending[0].prompt - Prefilled(work, pending[0].id) + Need(pending[0]) - Emissions(trace, pending[0].id)
         + WorkLeft(pending[1..], trace, work)
  }

  lemma {:induction false} WorkLeftBounds(pending: seq<Req>, trace: seq<Step>, work: seq<Work>)
    requires forall x :: x in pending ==> Emissions(trace, x.id) <= Need(x) && Prefilled(work, x.id) <= x.prompt
    ensures WorkLeft(pending, trace, work) >= 0
  {
    if pending != [] {
      assert pending[0] in pending;
      assert forall x :: x in pending[1..] ==> x in pending;
      WorkLeftBounds(pending[1..], trace, work);
    }
  }

  lemma {:induction false} WorkLeftStep(pending: seq<Req>, trace: seq<Step>, work: seq<Work>, s: Step, p: Work)
    ensures WorkLeft(pending, trace + [s], work + [p]) <= WorkLeft(pending, trace, work)
    ensures forall x :: x in pending && (x.id in s.batch || TokensFor(p.chunks, x.id) > 0) ==>
              WorkLeft(pending, trace + [s], work + [p]) < WorkLeft(pending, trace, work)
  {
    if pending != [] {
      Snoc(trace, s, pending[0].id);
      PrefilledSnoc(work, p, pending[0].id);
      WorkLeftStep(pending[1..], trace, work, s, p);
      assert pending == [pending[0]] + pending[1..];
    }
  }

  lemma SharedWorkLeft(pending: seq<Req>, w: Shared, cfg: Config)
    requires SharedOk(pending, w, cfg)
    ensures WorkLeft(pending, w.trace, w.work) >= 0
  {
    hide Emissions, Prefilled, FirstAt, LastAt;
    forall x | x in pending ensures Emissions(w.trace, x.id) <= Need(x) && Prefilled(w.work, x.id) <= x.prompt {
      var k :| 0 <= k < |pending| && pending[k] == x;
      assert StageOk(pending, k, w);
      if x in Reqs(w.parts) {
        var i :| 0 <= i < |w.parts| && Reqs(w.parts)[i] == x;
        assert w.parts[i] in w.parts;
      }
    }
    WorkLeftBounds(pending, w.trace, w.work);
  }

  /** The first request in prefill gets tokens, or is complete. */
  lemma FirstPartMoves(parts: seq<Part>, budget: int)
    requires parts != [] && budget > 0 && parts[0].done <= parts[0].req.prompt
    ensures TokensFor(Chunks(parts, budget), parts[0].req.id) > 0 || parts[0].req in Born(parts, budget)
  {
    ChunksHead(parts, budget);
  }

  /** A step with anything to work on makes progress. */
  lemma SharedProgress(pending: seq<Req>, w: Shared, w': Shared, cfg: Config)
    requires SharedOk(pending, w, cfg) && SharedStepped(pending, w, w', cfg) && (w.active != [] || w.parts != [])
    ensures WorkLeft(pending, w'.trace, w'.work) < WorkLeft(pending, w.trace, w.work)
  {
    Bounds(pending, w, cfg);
    var budget := Budget(w, cfg);
    var chunks, s := Chunks(w.parts, budget), w'.trace[|w.trace|];
    var x := if Decoders(w, cfg) != [] then Decoders(w, cfg)[0]
             else if chunks != [] then OfChunk(w.parts, budget) else w.parts[0].req;
    assert w.active == [] ==> w.parts != [];
    if Decoders(w, cfg) == [] {
      if chunks == [] {
        assert w.active == [] && Reqs(w.parts)[0] == x && w.parts[0] in w.parts;
        FirstPartMoves(w.parts, budget);
        assert TokensFor(chunks, x.id) == 0;
      }
    }
    assert x in pending;
    Emits(pending, w, w', cfg, x);
    WorkLeftStep(pending, w.trace, w.work, s, Work(chunks, |w.active|, |w.parts|));
  }

  /** The request the first chunk is for. */
  ghost function OfChunk(parts: seq<Part>, budget: int): (r: Req)
    requires Chunks(parts, budget) != []
    ensures r in Reqs(parts) && TokensFor(Chunks(parts, budget), r.id) > 0
  {
    ShareMembers(parts, budget);
    var id := Chunks(parts, budget)[0].id;
    assert TokensFor(Chunks(parts, budget), id) > 0;
    var r :| r in Reqs(parts) && r.id == id;
    r
  }

  // ---- the step's loops

  /** How far each chunk takes its request through its prompt. */
  function Reaches(parts: seq<Part>, budget: int): seq<nat> {
    if parts == [] then []
    else
      var take := Share(parts[0], budget);
      (if take > 0 then [parts[0].done + take] else []) + Reaches(parts[1..], budget - take)
  }

  method DividePrefill(parts: seq<Part>, total: int)
    returns (chunks: seq<Chunk>, contexts: seq<nat>, born: seq<Req>, still: seq<Part>)
    ensures chunks == Chunks(parts, total) && born == Born(parts, total) && still == Still(parts, total)
    ensures contexts == Reaches(parts, total)
  {
    hide Chunks, Born, Still, Share, Reaches;
    chunks, contexts, born, still := [], [], [], [];
    var budget := total;
    assert parts[0..] == parts;
    DivideEnd(parts, total);
    for i := 0 to |parts|
      invariant chunks + Chunks(parts[i..], budget) == Chunks(parts, total)
      invariant born + Born(parts[i..], budget) == Born(parts, total)
      invariant still + Still(parts[i..], budget) == Still(parts, total)
      invariant contexts + Reaches(parts[i..], budget) == Reaches(parts, total)
    {
      var p := parts[i];
      ReachTurn(parts, i, budget, contexts);
      DivideStep(parts, i, budget, chunks, born, still);
      var take := Share(p, budget);
      if take > 0 {
        chunks := chunks + [Chunk(p.req.id, take)];
        contexts := contexts + [p.done + take];
      }
      if p.done + take >= p.req.prompt {
        born := born + [p.req];
      } else {
        still := still + [Part(p.req, p.done + take)];
      }
      budget := budget - take;
    }
    DivideEnd(parts, budget);
  }

  /** One turn of that loop. */
  lemma DivideStep(parts: seq<Part>, i: nat, budget: int, chunks: seq<Chunk>, born: seq<Req>, still: seq<Part>)
    requires i < |parts|
    ensures
      var p, take := parts[i], Share(parts[i], budget);
      && chunks + Chunks(parts[i..], budget)
         == (if take > 0 then chunks + [Chunk(p.req.id, take)] else chunks) + Chunks(parts[i + 1..], budget - take)
      && born + Born(parts[i..], budget)
         == (if p.done + take >= p.req.prompt then born + [p.req] else born) + Born(parts[i + 1..], budget - take)
      && still + Still(parts[i..], budget)
         == (if p.done + take >= p.req.prompt then still else still + [Part(p.req, p.done + take)])
            + Still(parts[i + 1..], budget - take)
  {
    hide *;
    ChunkTurn(parts, i, budget, chunks);
    BornTurn(parts, i, budget, born);
    StillTurn(parts, i, budget, still);
  }

  lemma ChunkTurn(parts: seq<Part>, i: nat, budget: int, chunks: seq<Chunk>)
    requires i < |parts|
    ensures
      var p, take := parts[i], Share(parts[i], budget);
      chunks + Chunks(parts[i..], budget)
      == (if take > 0 then chunks + [Chunk(p.req.id, take)] else chunks) + Chunks(parts[i + 1..], budget - take)
  {
    assert parts[i..][0] == parts[i] && parts[i..][1..] == parts[i + 1..];
  }

  lemma BornTurn(parts: seq<Part>, i: nat, budget: int, born: seq<Req>)
    requires i < |parts|
    ensures
      var p, take := parts[i], Share(parts[i], budget);
      born + Born(parts[i..], budget)
      == (if p.done + take >= p.req.prompt then born + [p.req] else born) + Born(parts[i + 1..], budget - take)
  {
    assert parts[i..][0] == parts[i] && parts[i..][1..] == parts[i + 1..];
  }

  lemma ReachTurn(parts: seq<Part>, i: nat, budget: int, contexts: seq<nat>)
    requires i < |parts|
    ensures
      var p, take := parts[i], Share(parts[i], budget);
      contexts + Reaches(parts[i..], budget)
      == (if take > 0 then contexts + [p.done + take] else contexts) + Reaches(parts[i + 1..], budget - take)
  {
    assert parts[i..][0] == parts[i] && parts[i..][1..] == parts[i + 1..];
  }

  lemma StillTurn(parts: seq<Part>, i: nat, budget: int, still: seq<Part>)
    requires i < |parts|
    ensures
      var p, take := parts[i], Share(parts[i], budget);
      still + Still(parts[i..], budget)
      == (if p.done + take >= p.req.prompt then still else still + [Part(p.req, p.done + take)])
         + Still(parts[i + 1..], budget - take)
  {
    assert parts[i..][0] == parts[i] && parts[i..][1..] == parts[i + 1..];
  }

  lemma DivideEnd(parts: seq<Part>, budget: int)
    ensures Chunks(parts[|parts|..], budget) == [] && Born(parts[|parts|..], budget) == []
    ensures Still(parts[|parts|..], budget) == [] && Reaches(parts[|parts|..], budget) == []
  {
  }

  method CreditFirst(born: seq<Req>, was: map<int, Slot>, now: real) returns (slots: map<int, Slot>)
    requires DistinctIds(born) && forall r :: r in born ==> r.id in was
    ensures slots.Keys == was.Keys
    ensures forall r :: r in born && r.id in was ==> slots[r.id] == FirstToken(r, was[r.id], now)
    ensures forall id :: id in was && id !in Ids(born) ==> slots[id] == was[id]
  {
    slots := was;
    for i := 0 to |born|
      invariant slots.Keys == was.Keys
      invariant forall j :: 0 <= j < i ==> slots[born[j].id] == FirstToken(born[j], was[born[j].id], now)
      invariant forall id :: id in was && id !in Ids(born)[..i] ==> slots[id] == was[id]
    {
      var r := born[i];
      assert Ids(born)[..i + 1] == Ids(born)[..i] + [r.id];
      assert r.id !in Ids(born)[..i];
      var s := slots[r.id];
      s := s.(first := now, ctx := r.prompt, remaining := s.remaining - 1);
      if s.remaining <= 0 {
        s := s.(finish := now);
      }
      slots := slots[r.id := s];
    }
    assert Ids(born)[..|born|] == Ids(born);
  }

  /** Decoding requests get one token each; the newly born are passed over. */
  method CreditNext(active: seq<Req>, born: seq<Req>, was: map<int, Slot>, now: real)
    returns (slots: map<int, Slot>, done: seq<Req>)
    requires DistinctIds(active) && forall r :: r in active ==> r.id in was
    ensures slots.Keys == was.Keys
    ensures forall r :: r in active && r.id in was ==>
              slots[r.id] == if r in born then was[r.id] else NextToken(was[r.id], now)
    ensures forall id :: id in was && id !in Ids(active) ==> slots[id] == was[id]
    ensures forall r :: r in done ==> r in active && r.id in was && slots[r.id].remaining <= 0
  {
    hide NextToken;
    slots, done := was, [];
    for i := 0 to |active|
      invariant slots.Keys == was.Keys
      invariant forall j :: 0 <= j < i ==>
        slots[active[j].id] == if active[j] in born then was[active[j].id] else NextToken(was[active[j].id], now)
      invariant forall id :: id in was && id !in Ids(active)[..i] ==> slots[id] == was[id]
      invariant forall r :: r in done ==> r in active[..i] && slots[r.id].remaining <= 0
    {
      var r := active[i];
      assert Ids(active)[..i + 1] == Ids(active)[..i] + [r.id] && active[..i + 1] == active[..i] + [r];
      assert r.id !in Ids(active)[..i];
      assert r in active;
      if r !in born {
        var s := NextOf(slots[r.id], now);
        slots := slots[r.id := s];
        if s.remaining <= 0 {
          done := done + [r];
        }
      }
    }
    assert Ids(active)[..|active|] == Ids(active) && active[..|active|] == active;
  }

  method NextOf(was: Slot, now: real) returns (s: Slot)
    ensures s == NextToken(was, now)
  {
    s := was.(remaining := was.remaining - 1, ctx := was.ctx + 1);
    if s.remaining <= 0 {
      s := s.(finish := now);
    }
  }

  /** Which of the batch have all their tokens. */
  function Spent(reqs: seq<Req>, slots: map<int, Slot>): (r: seq<Req>)
    ensures forall x :: x in r <==> x in reqs && x.id in slots && slots[x.id].remaining <= 0
  {
    if reqs == [] then []
    else (if reqs[0].id in slots && slots[reqs[0].id].remaining <= 0 then [reqs[0]] else []) + Spent(reqs[1..], slots)
  }

  lemma BatchDistinct(pending: seq<Req>, w: Shared, cfg: Config)
    requires SharedOk(pending, w, cfg)
    ensures
      var born := Born(w.parts, Budget(w, cfg));
      && DistinctIds(born) && DistinctIds(w.active + born) && NoDup(w.active + born)
      && (forall r :: r in born ==> r in pending && r.id in w.slots)
      && (forall x :: x in pending ==> (x.id in Ids(born) <==> x in born))
      && (forall x :: x in pending ==> (x.id in Ids(w.active + born) <==> x in w.active || x in born))
      && (forall r :: r in w.active ==> r !in born)
  {
    hide StageOk, HistoryOk, Born;
    Bounds(pending, w, cfg);
    var born := Born(w.parts, Budget(w, cfg));
    ShareMembers(w.parts, Budget(w, cfg));
    ShareDistinct(w.parts, Budget(w, cfg));
    assert NoDup(born);
    IdsIn(pending, born);
    var all := w.active + born;
    forall i, j | 0 <= i < j < |all| ensures all[i] != all[j] {
      assert i < |w.active| ==> all[i] in w.active;
      assert j >= |w.active| ==> all[j] in born;
    }
    IdsIn(pending, all);
  }

  /** First tokens, then next tokens; whoever has all its tokens leaves. */
  method CreditStep(pending: seq<Req>, batch: seq<Req>, born: seq<Req>, decoders: seq<Req>,
                    was: map<int, Slot>, now: real)
    returns (slots: map<int, Slot>, left: seq<Req>)
    requires DistinctIds(born) && DistinctIds(batch + born) && NoDup(batch + born)
    requires forall r :: r in batch + born ==> r.id in was
    requires forall x :: x in pending ==> (x.id in Ids(born) <==> x in born)
    requires forall x :: x in pending ==> (x.id in Ids(batch + born) <==> x in batch || x in born)
    requires decoders == batch || decoders == []
    ensures SlotsStepped(pending, born, decoders, was, slots, now)
    ensures NoDup(left) && |left| <= |batch| + |born|
    ensures forall r :: r in left <==> (r in batch || r in born) && r.id in slots && slots[r.id].remaining > 0
  {
    hide DistinctIds;
    assert forall r :: r in born ==> r in batch + born;
    slots := CreditFirst(born, was, now);
    ghost var firsts := slots;
    assert forall x :: x in pending && x.id in was && x !in born ==> firsts[x.id] == was[x.id];
    var active := batch + born;
    var done := [];
    if decoders != [] {
      slots, done := CreditNext(active, born, slots, now);
      forall x | x in pending && x.id in was ensures slots[x.id] ==
        if x in born then FirstToken(x, was[x.id], now)
        else if x in decoders then NextToken(was[x.id], now) else was[x.id]
      {
        assert x in active || x.id !in Ids(active);
      }
    }
    left := RemoveEach(active, done);
    left := RemoveEach(left, Spent(left, slots));
  }

  method StepShared(pending: seq<Req>, w: Shared, cfg: Config, cost: Cost) returns (w': Shared)
    requires SharedOk(pending, w, cfg) && forall a, b, c :: cost(a, b, c) >= 0.0
    ensures SharedStepped(pending, w, w', cfg)
    ensures w'.now == w.now + cost(Sizes(Chunks(w.parts, Budget(w, cfg))), Reaches(w.parts, Budget(w, cfg)),
                                   Contexts(Decoders(w, cfg), w.slots))
  {
    Bounds(pending, w, cfg);
    BatchDistinct(pending, w, cfg);
    hide SharedOk, Born, Still, Chunks, PartsOk, SharedStepped, DistinctIds, SlotsStepped, NoDup;
    var total := if cfg.chunked then cfg.maxTokens - |w.active| else cfg.maxTokens;
    var chunks, contexts, born, still := DividePrefill(w.parts, total);
    var decoders := if cfg.chunked || chunks == [] then w.active else [];
    var duration := cost(Sizes(chunks), contexts, Contexts(decoders, w.slots));
    assert duration >= 0.0;
    var now := w.now + duration;
    var slots, left := CreditStep(pending, w.active, born, decoders, w.slots, now);
    w' := Shared(w.idx, left, still, slots, now,
                 if chunks != [] then w.prefillBusy + duration else w.prefillBusy,
                 if chunks != [] then w.decodeBusy else w.decodeBusy + duration,
                 w.trace + [Step(Ids(born) + Ids(decoders), Contexts(decoders, w.slots), w.now, now)],
                 w.work + [Work(chunks, |w.active|, |w.parts|)]);
    StepDone(pending, w, w', cfg, left);
  }

  lemma StepDone(pending: seq<Req>, w: Shared, w': Shared, cfg: Config, left: seq<Req>)
    requires
      var born, decoders := Born(w.parts, Budget(w, cfg)), Decoders(w, cfg);
      && w'.idx == w.idx && w'.now >= w.now && w'.parts == Still(w.parts, Budget(w, cfg)) && w'.active == left
      && SlotsStepped(pending, born, decoders, w.slots, w'.slots, w'.now)
      && NoDup(left) && |left| <= |w.active| + |born|
      && (forall r :: r in left <==> (r in w.active || r in born) && r.id in w'.slots && w'.slots[r.id].remaining > 0)
      && w'.trace == w.trace + [Step(Ids(born) + Ids(decoders), Contexts(decoders, w.slots), w.now, w'.now)]
      && w'.prefillBusy == w.prefillBusy + (if Chunks(w.parts, Budget(w, cfg)) != [] then w'.now - w.now else 0.0)
      && w'.decodeBusy == w.decodeBusy + (if Chunks(w.parts, Budget(w, cfg)) != [] then 0.0 else w'.now - w.now)
      && w'.work == w.work + [Work(Chunks(w.parts, Budget(w, cfg)), |w.active|, |w.parts|)]
    ensures SharedStepped(pending, w, w', cfg)
  {
  }
}
