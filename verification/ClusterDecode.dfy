/** A decode worker: continuous batching over the requests it was given, stepped
    on its own clock. The cost of a step is an arbitrary non-negative function of
    the context lengths in the batch. */
module ClusterDecode {
  import opened Lists
  import opened ClusterPrefill

  /** What the worker keeps per request: tokens to go, context length, and the
      time stamps, -1 until they are set. */
  datatype Slot = Slot(remaining: int, ctx: nat, first: real, finish: real)

  /** One step: its batch, the context lengths, and when it began and ended. */
  datatype Step = Step(batch: seq<int>, contexts: seq<nat>, start: real, at: real)

  datatype Worker = Worker(
    idx: nat, active: seq<Req>, slots: map<int, Slot>, now: real, busy: real, trace: seq<Step>)

  // ---- what a trace says

  /** In how many steps a request took part: a token each. */
  function Emissions(trace: seq<Step>, id: int): nat {
    if trace == [] then 0
    else Emissions(trace[..|trace| - 1], id) + if id in trace[|trace| - 1].batch then 1 else 0
  }

  function FirstAt(trace: seq<Step>, id: int): real {
    if trace == [] then -1.0
    else if Emissions(trace[..|trace| - 1], id) > 0 then FirstAt(trace[..|trace| - 1], id)
    else if id in trace[|trace| - 1].batch then trace[|trace| - 1].at else -1.0
  }

  function LastAt(trace: seq<Step>, id: int): real {
    if trace == [] then -1.0
    else if id in trace[|trace| - 1].batch then trace[|trace| - 1].at
    else LastAt(trace[..|trace| - 1], id)
  }

  /** A request takes part in at least one step, whatever its output length. */
  function Need(r: Req): (n: pos)
    ensures n >= r.output && (n > 1 ==> n == r.output)
  {
    if r.output < 1 then 1 else r.output
  }

  lemma Snoc(trace: seq<Step>, s: Step, id: int)
    ensures Emissions(trace + [s], id) == Emissions(trace, id) + if id in s.batch then 1 else 0
    ensures LastAt(trace + [s], id) == if id in s.batch then s.at else LastAt(trace, id)
    ensures FirstAt(trace + [s], id) ==
            if Emissions(trace, id) > 0 then FirstAt(trace, id) else if id in s.batch then s.at else -1.0
  {
    assert (trace + [s])[..|trace|] == trace;
  }

  function Ids(reqs: seq<Req>): (r: seq<int>)
    ensures |r| == |reqs| && forall i :: 0 <= i < |reqs| ==> r[i] == reqs[i].id
  {
    seq(|reqs|, i requires 0 <= i < |reqs| => reqs[i].id)
  }

  ghost predicate DistinctIds(reqs: seq<Req>) {
    forall i, j :: 0 <= i < j < |reqs| ==> reqs[i].id != reqs[j].id
  }

  // ---- invariant of the worker

  ghost predicate StepOk(s: Step, maxBatch: nat) {
    s.batch != [] && |s.batch| <= maxBatch && NoDup(s.batch) && |s.contexts| == |s.batch|
  }

  /** Batches are bounded and the clock never runs back. */
  ghost predicate TraceOk(trace: seq<Step>, now: real, maxBatch: nat) {
    && (forall i :: 0 <= i < |trace| ==> StepOk(trace[i], maxBatch) && trace[i].at <= now)
    && (forall i, j :: 0 <= i < j < |trace| ==> trace[i].at <= trace[j].at)
  }

  /** A request that was admitted: its slot says how far it got, and it is in the
      batch exactly while it still needs tokens. */
  ghost predicate Admitted(x: Req, w: Worker) {
    var e := Emissions(w.trace, x.id);
    && x.id in w.slots
    && x.at <= w.now
    && w.slots[x.id].remaining == x.output - e
    && w.slots[x.id].ctx == x.prompt + e
    && w.slots[x.id].first == FirstAt(w.trace, x.id)
    && (e > 0 ==> x.at <= w.slots[x.id].first <= w.now)
    && (x in w.active <==> e < Need(x))
    && e <= Need(x)
    && (e == Need(x) ==> w.slots[x.id].finish == LastAt(w.trace, x.id)
                         && w.slots[x.id].first <= w.slots[x.id].finish <= w.now)
  }

  ghost predicate Untouched(x: Req, w: Worker) {
    x !in w.active && Emissions(w.trace, x.id) == 0
  }

  ghost predicate ItemOk(pending: seq<Req>, k: nat, w: Worker)
    requires k < |pending|
  {
    if k < w.idx then Admitted(pending[k], w) else Untouched(pending[k], w)
  }

  ghost predicate WorkerOk(pending: seq<Req>, w: Worker, maxBatch: nat) {
    && DistinctIds(pending)
    && (forall r :: r in pending ==> r.at >= 0.0)
    && w.idx <= |pending|
    && w.now >= 0.0
    && |w.active| <= maxBatch
    && NoDup(w.active)
    && (forall r :: r in w.active ==> r in pending)
    && (forall k: nat :: k < |pending| ==> ItemOk(pending, k, w))
    && TraceOk(w.trace, w.now, maxBatch)
  }

  lemma ActiveAdmitted(pending: seq<Req>, w: Worker, maxBatch: nat, r: Req)
    requires WorkerOk(pending, w, maxBatch) && r in w.active
    ensures Admitted(r, w)
  {
    var k :| 0 <= k < |pending| && pending[k] == r;
    assert ItemOk(pending, k, w);
  }

  lemma ActiveIds(pending: seq<Req>, w: Worker, maxBatch: nat)
    requires WorkerOk(pending, w, maxBatch)
    ensures NoDup(Ids(w.active))
    ensures forall x :: x in pending ==> (x.id in Ids(w.active) <==> x in w.active)
  {
    var ids := Ids(w.active);
    forall i, j | 0 <= i < j < |ids| ensures ids[i] != ids[j] {
      SameId(pending, w.active[i], w.active[j]);
    }
    forall x | x in pending ensures x.id in ids <==> x in w.active {
      if x.id in ids {
        var i :| 0 <= i < |ids| && ids[i] == x.id;
        SameId(pending, w.active[i], x);
      }
      if x in w.active {
        var i :| 0 <= i < |w.active| && w.active[i] == x;
        assert ids[i] == x.id;
      }
    }
  }

  lemma SameId(pending: seq<Req>, a: Req, b: Req)
    requires DistinctIds(pending) && a in pending && b in pending
    ensures a.id == b.id ==> a == b
  {
    var i :| 0 <= i < |pending| && pending[i] == a;
    var j :| 0 <= j < |pending| && pending[j] == b;
    assert i < j ==> pending[i].id != pending[j].id;
  }

  // ---- admission

  function Admit(w: Worker, r: Req): Worker {
    w.(idx := w.idx + 1, active := w.active + [r], slots := w.slots[r.id := Slot(r.output, r.prompt, -1.0, -1.0)])
  }

  lemma AdmitOk(pending: seq<Req>, w: Worker, maxBatch: nat)
    requires WorkerOk(pending, w, maxBatch) && w.idx < |pending|
    requires pending[w.idx].at <= w.now && |w.active| < maxBatch
    ensures WorkerOk(pending, Admit(w, pending[w.idx]), maxBatch)
  {
    hide TraceOk, Emissions, LastAt;
    var r, w' := pending[w.idx], Admit(w, pending[w.idx]);
    assert ItemOk(pending, w.idx, w);
    NoEmissionNoTime(w.trace, r.id);
    forall k: nat | k < |pending| ensures ItemOk(pending, k, w') {
      assert ItemOk(pending, k, w);
      if k != w.idx {
        SameId(pending, pending[k], r);
        assert pending[k].id != r.id;
      }
    }
    SnocNoDup(w.active, r);
  }

  lemma {:induction false} NoEmissionNoTime(trace: seq<Step>, id: int)
    requires Emissions(trace, id) == 0
    ensures FirstAt(trace, id) == -1.0
  {
    if trace != [] {
      NoEmissionNoTime(trace[..|trace| - 1], id);
    }
  }

  lemma BatchBound(pending: seq<Req>, w: Worker, maxBatch: nat)
    requires WorkerOk(pending, w, maxBatch)
    ensures |w.active| <= maxBatch && w.idx <= |pending| && w.now >= 0.0 && DistinctIds(pending)
    ensures forall r :: r in w.active ==> r in pending && r.id in w.slots
  {
    forall r | r in w.active ensures r.id in w.slots {
      ActiveAdmitted(pending, w, maxBatch, r);
    }
  }

  /** Requests that have arrived join the batch while it has room. */
  method AdmitReady(pending: seq<Req>, was: Worker, maxBatch: pos) returns (w: Worker)
    requires WorkerOk(pending, was, maxBatch)
    ensures WorkerOk(pending, w, maxBatch)
    ensures w.trace == was.trace && w.now == was.now && w.busy == was.busy && w.idx >= was.idx
    ensures w.idx < |pending| && pending[w.idx].at <= w.now ==> |w.active| == maxBatch
    ensures w.idx == was.idx ==> w == was
    ensures |w.active| == |was.active| + w.idx - was.idx
  {
    BatchBound(pending, was, maxBatch);
    hide WorkerOk;
    w := was;
    while w.idx < |pending| && pending[w.idx].at <= w.now && |w.active| < maxBatch
      invariant WorkerOk(pending, w, maxBatch) && |w.active| <= maxBatch
      invariant w.trace == was.trace && w.now == was.now && w.busy == was.busy && w.idx >= was.idx
      invariant w.idx == was.idx ==> w == was
      invariant |w.active| == |was.active| + w.idx - was.idx
      decreases |pending| - w.idx
    {
      AdmitOk(pending, w, maxBatch);
      w := Admit(w, pending[w.idx]);
    }
  }

  // ---- one step

  function Decoded(s: Slot, now: real): Slot {
    Slot(s.remaining - 1, s.ctx + 1, if s.first < 0.0 then now else s.first,
         if s.remaining - 1 <= 0 then now else s.finish)
  }

  /** What a step does, said without its loops. */
  ghost predicate Stepped(w: Worker, w': Worker, duration: real) {
    && w'.idx == w.idx
    && w'.now == w.now + duration && w'.busy == w.busy + duration
    && w'.slots.Keys == w.slots.Keys
    && (forall id :: id in w.slots ==>
          w'.slots[id] == if id in Ids(w.active) then Decoded(w.slots[id], w'.now) else w.slots[id])
    && NoDup(w'.active) && |w'.active| <= |w.active|
    && (forall r :: r in w'.active <==> r in w.active && r.id in w'.slots && w'.slots[r.id].remaining > 0)
    && |w'.trace| == |w.trace| + 1
    && w'.trace[..|w.trace|] == w.trace
    && w'.trace[|w.trace|].batch == Ids(w.active)
    && w'.trace[|w.trace|].start == w.now && w'.trace[|w.trace|].at == w'.now
    && |w'.trace[|w.trace|].contexts| == |w.active|
    && (forall i :: 0 <= i < |w.active| && w.active[i].id in w.slots ==>
          w'.trace[|w.trace|].contexts[i] == w.slots[w.active[i].id].ctx)
  }

  lemma ItemStep(pending: seq<Req>, k: nat, w: Worker, w': Worker, duration: real, maxBatch: nat)
    requires WorkerOk(pending, w, maxBatch) && Stepped(w, w', duration) && duration >= 0.0 && k < |pending|
    ensures ItemOk(pending, k, w')
  {
    var x, s := pending[k], w'.trace[|w.trace|];
    assert w'.trace == w.trace + [s];
    hide TraceOk, Emissions, FirstAt, LastAt;
    Snoc(w.trace, s, x.id);
    ActiveIds(pending, w, maxBatch);
    assert ItemOk(pending, k, w);
    if k < w.idx {
      AdmittedStep(x, w, w', duration);
    }
  }

  lemma AdmittedStep(x: Req, w: Worker, w': Worker, duration: real)
    requires Admitted(x, w) && Stepped(w, w', duration) && duration >= 0.0 && w.now >= 0.0
    requires x.at >= 0.0 && (x.id in Ids(w.active) <==> x in w.active)
    requires w'.trace == w.trace + [w'.trace[|w.trace|]]
    ensures Admitted(x, w')
  {
    hide Emissions, FirstAt, LastAt;
    var s := w'.trace[|w.trace|];
    Snoc(w.trace, s, x.id);
    if Emissions(w.trace, x.id) == 0 {
      NoEmissionNoTime(w.trace, x.id);
    } else {
      FirstStands(x, w);
    }
  }

  lemma FirstStands(x: Req, w: Worker)
    requires Admitted(x, w) && Emissions(w.trace, x.id) > 0
    ensures x.at <= w.slots[x.id].first <= w.now
  {
  }

  lemma SteppedOk(pending: seq<Req>, w: Worker, w': Worker, duration: real, maxBatch: nat)
    requires WorkerOk(pending, w, maxBatch) && w.active != [] && Stepped(w, w', duration) && duration >= 0.0
    ensures WorkerOk(pending, w', maxBatch)
  {
    hide ItemOk;
    forall k: nat | k < |pending| ensures ItemOk(pending, k, w') {
      ItemStep(pending, k, w, w', duration, maxBatch);
    }
    ActiveIds(pending, w, maxBatch);
    assert w'.trace == w.trace + [w'.trace[|w.trace|]];
  }

  // ---- progress

  /** Tokens the requests still have to be given. */
  function Backlog(pending: seq<Req>, trace: seq<Step>): int {
    if pending == [] then 0
    else Need(pending[0]) - Emissions(trace, pending[0].id) + Backlog(pending[1..], trace)
  }

  lemma {:induction false} BacklogBounds(pending: seq<Req>, trace: seq<Step>)
    requires forall x :: x in pending ==> Emissions(trace, x.id) <= Need(x)
    ensures Backlog(pending, trace) >= 0
  {
    if pending != [] {
      assert pending[0] in pending;
      assert forall x :: x in pending[1..] ==> x in pending;
      BacklogBounds(pending[1..], trace);
    }
  }

  lemma {:induction false} BacklogStep(pending: seq<Req>, trace: seq<Step>, s: Step)
    ensures Backlog(pending, trace + [s]) <= Backlog(pending, trace)
    ensures forall x :: x in pending && x.id in s.batch ==> Backlog(pending, trace + [s]) < Backlog(pending, trace)
  {
    if pending != [] {
      Snoc(trace, s, pending[0].id);
      BacklogStep(pending[1..], trace, s);
      assert pending == [pending[0]] + pending[1..];
    }
  }

  lemma WorkerBacklog(pending: seq<Req>, w: Worker, maxBatch: nat)
    requires WorkerOk(pending, w, maxBatch)
    ensures Backlog(pending, w.trace) >= 0
  {
    forall x | x in pending ensures Emissions(w.trace, x.id) <= Need(x) {
      var k :| 0 <= k < |pending| && pending[k] == x;
      assert ItemOk(pending, k, w);
    }
    BacklogBounds(pending, w.trace);
  }

  lemma SteppedProgress(pending: seq<Req>, w: Worker, w': Worker, duration: real, maxBatch: nat)
    requires WorkerOk(pending, w, maxBatch) && w.active != [] && Stepped(w, w', duration)
    ensures Backlog(pending, w'.trace) < Backlog(pending, w.trace)
  {
    var s := w'.trace[|w.trace|];
    assert w'.trace == w.trace + [s];
    BacklogStep(pending, w.trace, s);
    assert w.active[0] in pending && Ids(w.active)[0] == w.active[0].id;
  }

  // ---- when the steps run

  /** A step follows the one before it at once. */
  predicate Follows(before: seq<Step>, start: real) {
    before != [] && start == before[|before| - 1].at
  }

  /** The worker has slept until a request was ready; it sleeps only when whatever
      was ready earlier has all its tokens. */
  ghost predicate Woken(group: seq<Req>, before: seq<Step>, start: real) {
    && (exists r :: r in group && r.at == start)
    && (before != [] ==> start > before[|before| - 1].at)
    && forall x :: x in group && x.at < start ==> Emissions(before, x.id) == Need(x)
  }

  /** A request's context is its prompt and the tokens it has been given. */
  ghost predicate ContextsOk(group: seq<Req>, before: seq<Step>, s: Step) {
    && |s.contexts| == |s.batch|
    && forall x, j :: x in group && 0 <= j < |s.batch| && s.batch[j] == x.id ==>
         s.contexts[j] == x.prompt + Emissions(before, x.id)
  }

  ghost predicate BatchOf(group: seq<Req>, batch: seq<int>) {
    forall j :: 0 <= j < |batch| ==> batch[j] in Ids(group)
  }

  ghost predicate StepTimed(group: seq<Req>, before: seq<Step>, s: Step, cost: seq<nat> -> real) {
    && s.at == s.start + cost(s.contexts)
    && BatchOf(group, s.batch)
    && (Follows(before, s.start) || Woken(group, before, s.start))
    && ContextsOk(group, before, s)
  }

  function BusyTime(trace: seq<Step>): real {
    if trace == [] then 0.0
    else BusyTime(trace[..|trace| - 1]) + (trace[|trace| - 1].at - trace[|trace| - 1].start)
  }

  /** Every step takes what its contexts cost, at once or after a sleep, and the
      worker's busy time is the time its steps take. */
  ghost predicate Timed(group: seq<Req>, trace: seq<Step>, busy: real, cost: seq<nat> -> real) {
    && (forall i :: 0 <= i < |trace| ==> StepTimed(group, trace[..i], trace[i], cost))
    && busy == BusyTime(trace)
  }

  /** The clock of a worker between two steps. */
  ghost predicate ClockOk(group: seq<Req>, w: Worker) {
    Follows(w.trace, w.now) || Woken(group, w.trace, w.now)
  }

  lemma TimedSnoc(group: seq<Req>, trace: seq<Step>, busy: real, cost: seq<nat> -> real, s: Step)
    requires Timed(group, trace, busy, cost) && StepTimed(group, trace, s, cost)
    ensures Timed(group, trace + [s], busy + (s.at - s.start), cost)
  {
    hide StepTimed;
    var all := trace + [s];
    assert all[..|trace|] == trace;
    forall i | 0 <= i < |all| ensures StepTimed(group, all[..i], all[i], cost) {
      assert all[..i] == trace[..i];
    }
  }

  lemma IdIn(reqs: seq<Req>, r: Req)
    requires r in reqs
    ensures r.id in Ids(reqs)
  {
    var k :| 0 <= k < |reqs| && reqs[k] == r;
    assert Ids(reqs)[k] == r.id;
  }

  lemma SteppedContexts(pending: seq<Req>, w: Worker, w': Worker, duration: real, maxBatch: nat)
    requires WorkerOk(pending, w, maxBatch) && Stepped(w, w', duration)
    ensures
      var s := w'.trace[|w.trace|];
      ContextsOk(pending, w.trace, s) && BatchOf(pending, s.batch)
  {
    hide TraceOk, Emissions, FirstAt, LastAt, ItemOk;
    var s := w'.trace[|w.trace|];
    forall j | 0 <= j < |s.batch| ensures s.batch[j] in Ids(pending) {
      IdIn(pending, w.active[j]);
    }
    forall x, j | x in pending && 0 <= j < |s.batch| && s.batch[j] == x.id
      ensures s.contexts[j] == x.prompt + Emissions(w.trace, x.id)
    {
      SameId(pending, w.active[j], x);
      ActiveAdmitted(pending, w, maxBatch, x);
    }
  }

  lemma SteppedTimed(pending: seq<Req>, w: Worker, w': Worker, cost: seq<nat> -> real, maxBatch: nat)
    requires WorkerOk(pending, w, maxBatch) && Timed(pending, w.trace, w.busy, cost) && ClockOk(pending, w)
    requires |w'.trace| == |w.trace| + 1 && Stepped(w, w', cost(w'.trace[|w.trace|].contexts))
    ensures Timed(pending, w'.trace, w'.busy, cost) && ClockOk(pending, w')
  {
    var s := w'.trace[|w.trace|];
    SteppedContexts(pending, w, w', cost(s.contexts), maxBatch);
    hide WorkerOk, Timed, ContextsOk, Woken, BatchOf;
    TimedSnoc(pending, w.trace, w.busy, cost, s);
    assert w'.trace == w.trace + [s];
  }

  // ---- who takes part in a step

  /** A request that is ready and lacks tokens is in the batch, unless the batch is full
      of requests that were ready no later; once in it, it stays. */
  ghost predicate Filled(group: seq<Req>, before: seq<Step>, s: Step, maxBatch: nat) {
    forall x :: x in group && x.at <= s.start && Emissions(before, x.id) < Need(x) && x.id !in s.batch ==>
      && |s.batch| == maxBatch && Emissions(before, x.id) == 0
      && forall y :: y in group && y.id in s.batch ==> y.at <= x.at
  }

  ghost predicate InTurns(group: seq<Req>, trace: seq<Step>, maxBatch: nat) {
    forall i :: 0 <= i < |trace| ==> Filled(group, trace[..i], trace[i], maxBatch)
  }

  /** No ready request is left out while the batch has room. */
  predicate Packed(pending: seq<Req>, w: Worker, maxBatch: nat) {
    w.idx < |pending| && pending[w.idx].at <= w.now ==> |w.active| == maxBatch
  }

  lemma Position(reqs: seq<Req>, r: Req) returns (k: nat)
    requires r in reqs
    ensures k < |reqs| && reqs[k] == r
  {
    k :| k < |reqs| && reqs[k] == r;
  }

  lemma SteppedFilled(pending: seq<Req>, w: Worker, w': Worker, duration: real, maxBatch: nat)
    requires WorkerOk(pending, w, maxBatch) && TimeOrdered(pending) && Packed(pending, w, maxBatch)
    requires Stepped(w, w', duration)
    ensures Filled(pending, w.trace, w'.trace[|w.trace|], maxBatch)
  {
    hide TraceOk, Emissions, FirstAt, LastAt;
    ActiveIds(pending, w, maxBatch);
    var s := w'.trace[|w.trace|];
    forall x | x in pending && x.at <= s.start && Emissions(w.trace, x.id) < Need(x) && x.id !in s.batch
      ensures |s.batch| == maxBatch && Emissions(w.trace, x.id) == 0
      ensures forall y :: y in pending && y.id in s.batch ==> y.at <= x.at
    {
      var k := Position(pending, x);
      assert ItemOk(pending, k, w);
      assert pending[w.idx].at <= pending[k].at;
      forall y | y in pending && y.id in s.batch ensures y.at <= x.at {
        var j := Position(pending, y);
        assert ItemOk(pending, j, w);
      }
    }
  }

  lemma SteppedTrace(w: Worker, w': Worker, duration: real)
    requires Stepped(w, w', duration)
    ensures w'.trace == w.trace + [w'.trace[|w.trace|]]
  {
  }

  lemma InTurnsSnoc(group: seq<Req>, trace: seq<Step>, s: Step, maxBatch: nat)
    requires InTurns(group, trace, maxBatch) && Filled(group, trace, s, maxBatch)
    ensures InTurns(group, trace + [s], maxBatch)
  {
    hide Filled;
    var all := trace + [s];
    assert all[..|trace|] == trace;
    forall i | 0 <= i < |all| ensures Filled(group, all[..i], all[i], maxBatch) {
      assert all[..i] == trace[..i];
    }
  }

  lemma InTurnsSame(a: seq<Req>, b: seq<Req>, trace: seq<Step>, maxBatch: nat)
    requires InTurns(a, trace, maxBatch) && forall r :: r in b <==> r in a
    ensures InTurns(b, trace, maxBatch)
  {
    hide Emissions;
    forall i | 0 <= i < |trace| ensures Filled(b, trace[..i], trace[i], maxBatch) {
      assert Filled(a, trace[..i], trace[i], maxBatch);
    }
  }

  lemma StartsLate(group: seq<Req>, before: seq<Step>, s: Step, cost: seq<nat> -> real)
    requires StepTimed(group, before, s, cost) && forall r :: r in group ==> r.at >= 0.0
    ensures if before == [] then s.start >= 0.0 else s.start >= before[|before| - 1].at
  {
  }

  /** Busy for no longer than up to the end of the last step. */
  lemma {:induction false} BusyUpTo(group: seq<Req>, trace: seq<Step>, busy: real, cost: seq<nat> -> real)
    requires Timed(group, trace, busy, cost) && forall r :: r in group ==> r.at >= 0.0
    ensures trace == [] ==> busy == 0.0
    ensures trace != [] ==> busy <= trace[|trace| - 1].at
  {
    if trace != [] {
      var init, s := trace[..|trace| - 1], trace[|trace| - 1];
      assert StepTimed(group, init, s, cost);
      StartsLate(group, init, s, cost);
      forall i | 0 <= i < |init| ensures StepTimed(group, init[..i], init[i], cost) {
        assert init[..i] == trace[..i];
        assert StepTimed(group, trace[..i], trace[i], cost);
      }
      hide StepTimed;
      BusyUpTo(group, init, BusyTime(init), cost);
    }
  }

  // ---- the step's loops

  method StepBatch(pending: seq<Req>, w: Worker, cost: seq<nat> -> real, maxBatch: nat) returns (w': Worker)
    requires WorkerOk(pending, w, maxBatch) && w.active != []
    ensures |w'.trace| == |w.trace| + 1 && Stepped(w, w', cost(w'.trace[|w.trace|].contexts))
  {
    BatchBound(pending, w, maxBatch);
    ActiveIds(pending, w, maxBatch);
    hide WorkerOk;
    var active := w.active;
    var contexts := seq(|active|, i requires 0 <= i < |active| && active[i].id in w.slots => w.slots[active[i].id].ctx);
    var duration := cost(contexts);
    var now := w.now + duration;
    var slots, done := CreditBatch(active, w.slots, now);
    var left := RemoveEach(active, done);
    w' := Worker(w.idx, left, slots, now, w.busy + duration, w.trace + [Step(Ids(active), contexts, w.now, now)]);
  }

  method RemoveEach(active: seq<Req>, gone: seq<Req>) returns (left: seq<Req>)
    requires NoDup(active)
    ensures NoDup(left) && |left| <= |active|
    ensures forall r :: r in left <==> r in active && r !in gone
  {
    left := active;
    for i := 0 to |gone|
      invariant NoDup(left) && |left| <= |active|
      invariant forall r :: r in left <==> r in active && r !in gone[..i]
    {
      RemoveNoDup(left, gone[i]);
      left := Remove(left, gone[i]);
    }
    assert gone[..|gone|] == gone;
  }

  method CreditBatch(active: seq<Req>, was: map<int, Slot>, now: real) returns (slots: map<int, Slot>, done: seq<Req>)
    requires NoDup(Ids(active)) && forall r :: r in active ==> r.id in was
    ensures slots.Keys == was.Keys
    ensures forall id :: id in was ==> slots[id] == if id in Ids(active) then Decoded(was[id], now) else was[id]
    ensures forall r :: r in done <==> r in active && slots[r.id].remaining <= 0
  {
    var ids := Ids(active);
    slots, done := was, [];
    for i := 0 to |active|
      invariant slots.Keys == was.Keys
      invariant forall id :: id in was ==> slots[id] == if id in ids[..i] then Decoded(was[id], now) else was[id]
      invariant forall r :: r in done <==> r in active[..i] && Decoded(was[r.id], now).remaining <= 0
    {
      var r := active[i];
      assert ids[i] == r.id && r.id !in ids[..i];
      var s := slots[r.id];
      if s.first < 0.0 {
        s := s.(first := now);
      }
      s := s.(remaining := s.remaining - 1, ctx := s.ctx + 1);
      if s.remaining <= 0 {
        s := s.(finish := now);
        done := done + [r];
      }
      slots := slots[r.id := s];
      assert ids[..i + 1] == ids[..i] + [r.id] && active[..i + 1] == active[..i] + [r];
    }
    assert ids[..|active|] == ids && active[..|active|] == active;
    forall r | r in active ensures r.id in ids {
      var k :| 0 <= k < |active| && active[k] == r;
      assert ids[k] == r.id;
    }
  }

  // ---- the worker

  /** Every request got exactly its tokens, was never started before it was
      ready, and its stamps are those of its first and last step. */
  ghost predicate Complete(group: seq<Req>, w: Worker) {
    forall x :: x in group ==>
      && x.id in w.slots
      && Emissions(w.trace, x.id) == Need(x)
      && w.slots[x.id].first == FirstAt(w.trace, x.id)
      && w.slots[x.id].finish == LastAt(w.trace, x.id)
      && x.at <= w.slots[x.id].first <= w.slots[x.id].finish <= w.now
  }

  lemma AllServed(pending: seq<Req>, w: Worker, maxBatch: nat)
    requires WorkerOk(pending, w, maxBatch) && w.idx == |pending| && w.active == []
    ensures Complete(pending, w)
  {
    forall x | x in pending ensures Admitted(x, w) && x !in w.active {
      var k :| 0 <= k < |pending| && pending[k] == x;
      assert ItemOk(pending, k, w);
    }
  }

  lemma JumpOk(pending: seq<Req>, w: Worker, maxBatch: nat)
    requires WorkerOk(pending, w, maxBatch) && w.idx < |pending| && w.now < pending[w.idx].at && w.active == []
    ensures WorkerOk(pending, w.(now := pending[w.idx].at), maxBatch)
  {
    hide Emissions, FirstAt, LastAt;
    var w' := w.(now := pending[w.idx].at);
    forall k: nat | k < |pending| ensures ItemOk(pending, k, w') {
      assert ItemOk(pending, k, w);
    }
  }

  lemma JumpWakes(pending: seq<Req>, w: Worker, maxBatch: nat)
    requires WorkerOk(pending, w, maxBatch) && TimeOrdered(pending)
    requires w.idx < |pending| && w.now < pending[w.idx].at && w.active == []
    ensures Woken(pending, w.trace, pending[w.idx].at)
  {
    hide Emissions, FirstAt, LastAt;
    var start := pending[w.idx].at;
    assert pending[w.idx] in pending;
    forall x | x in pending && x.at < start ensures Emissions(w.trace, x.id) == Need(x) {
      var k :| 0 <= k < |pending| && pending[k] == x;
      assert ItemOk(pending, k, w);
    }
  }

  predicate Asleep(pending: seq<Req>, w: Worker) {
    w.active == [] && w.idx < |pending| && w.now < pending[w.idx].at
  }

  lemma DistinctSorted(group: seq<Req>)
    requires DistinctIds(group)
    ensures DistinctIds(ByTime(group)) && |ByTime(group)| == |group|
    ensures forall r :: r in ByTime(group) <==> r in group
  {
    var sorted := ByTime(group);
    ByTimeOrdered(group);
    SameLength(group);
    forall r ensures r in sorted <==> r in group {
      assert r in sorted <==> r in multiset(sorted);
    }
    assert NoDup(group);
    forall r | r in sorted ensures multiset(sorted)[r] <= 1 {
      NoDupMultiplicity(group, r);
    }
    MultiplicityNoDup(sorted);
    forall i, j | 0 <= i < j < |sorted| ensures sorted[i].id != sorted[j].id {
      assert sorted[i] in group && sorted[j] in group;
      SameId(group, sorted[i], sorted[j]);
    }
  }

  /** The worker always finishes, whatever its steps cost, and takes the time they
      cost. */
  method DecodeWorker(group: seq<Req>, maxBatch: pos, cost: seq<nat> -> real) returns (w: Worker)
    requires DistinctIds(group) && forall r :: r in group ==> r.at >= 0.0
    requires forall c :: cost(c) >= 0.0
    ensures Complete(group, w)
    ensures TraceOk(w.trace, w.now, maxBatch)
    ensures Timed(group, w.trace, w.busy, cost)
    ensures InTurns(group, w.trace, maxBatch)
  {
    w := Worker(0, [], map[], 0.0, 0.0, []);
    if group == [] { return; }
    var pending := ByTime(group);
    DistinctSorted(group);
    ByTimeOrdered(group);
    w := w.(now := pending[0].at);
    assert pending[0] in pending;
    assert WorkerOk(pending, w, maxBatch);
    assert Woken(pending, w.trace, w.now);
    assert InTurns(pending, w.trace, maxBatch);
    hide WorkerOk, Stepped, Complete, Timed, ClockOk, TimeOrdered, InTurns;
    WorkerBacklog(pending, w, maxBatch);
    BatchBound(pending, w, maxBatch);
    while w.idx < |pending| || w.active != []
      invariant WorkerOk(pending, w, maxBatch) && w.idx <= |pending| && Backlog(pending, w.trace) >= 0
      invariant Timed(pending, w.trace, w.busy, cost) && ClockOk(pending, w)
      invariant InTurns(pending, w.trace, maxBatch)
      decreases Backlog(pending, w.trace), if Asleep(pending, w) then 1 else 0
    {
      w := Round(pending, w, maxBatch, cost);
    }
    AllServed(pending, w, maxBatch);
    TimedSame(pending, group, w, cost);
    InTurnsSame(pending, group, w.trace, maxBatch);
    CompleteSame(pending, group, w);
    assert TraceOk(w.trace, w.now, maxBatch) by {
      WorkerTrace(pending, w, maxBatch);
    }
  }

  lemma BatchSame(a: seq<Req>, b: seq<Req>, batch: seq<int>)
    requires BatchOf(a, batch) && forall r :: r in b <==> r in a
    ensures BatchOf(b, batch)
  {
    forall j | 0 <= j < |batch| ensures batch[j] in Ids(b) {
      assert batch[j] in Ids(a);
      var k :| 0 <= k < |a| && Ids(a)[k] == batch[j];
      IdIn(b, a[k]);
    }
  }

  lemma TimedSame(a: seq<Req>, b: seq<Req>, w: Worker, cost: seq<nat> -> real)
    requires Timed(a, w.trace, w.busy, cost) && forall r :: r in b <==> r in a
    ensures Timed(b, w.trace, w.busy, cost)
  {
    forall i | 0 <= i < |w.trace| ensures StepTimed(b, w.trace[..i], w.trace[i], cost) {
      assert StepTimed(a, w.trace[..i], w.trace[i], cost);
      BatchSame(a, b, w.trace[i].batch);
    }
  }

  /** The worker is busy for no longer than until one of its requests finishes. */
  lemma BusyUntilFinish(group: seq<Req>, w: Worker, cost: seq<nat> -> real, maxBatch: nat)
    requires Complete(group, w) && Timed(group, w.trace, w.busy, cost) && TraceOk(w.trace, w.now, maxBatch)
    requires forall r :: r in group ==> r.at >= 0.0
    ensures w.busy <= 0.0 || exists x :: x in group && x.id in w.slots && w.busy <= w.slots[x.id].finish
  {
    hide Emissions, FirstAt, BusyTime;
    BusyUpTo(group, w.trace, w.busy, cost);
    if w.trace != [] {
      var last := w.trace[|w.trace| - 1];
      assert StepTimed(group, w.trace[..|w.trace| - 1], last, cost);
      assert StepOk(last, maxBatch);
      assert last.batch[0] in last.batch && last.batch[0] in Ids(group);
      var k :| 0 <= k < |group| && Ids(group)[k] == last.batch[0];
      var x := group[k];
      assert w.slots[x.id].finish == LastAt(w.trace, x.id);
    }
  }

  lemma CompleteSame(a: seq<Req>, b: seq<Req>, w: Worker)
    requires Complete(a, w) && forall r :: r in b ==> r in a
    ensures Complete(b, w)
  {
  }

  lemma WorkerTrace(pending: seq<Req>, w: Worker, maxBatch: nat)
    requires WorkerOk(pending, w, maxBatch)
    ensures TraceOk(w.trace, w.now, maxBatch)
  {
  }

  /** One turn of the worker's loop: admit, then step the batch or sleep. */
  method Round(pending: seq<Req>, was: Worker, maxBatch: pos, cost: seq<nat> -> real) returns (w: Worker)
    requires WorkerOk(pending, was, maxBatch) && (was.idx < |pending| || was.active != [])
    requires Timed(pending, was.trace, was.busy, cost) && ClockOk(pending, was) && TimeOrdered(pending)
    requires InTurns(pending, was.trace, maxBatch) && forall c :: cost(c) >= 0.0
    ensures WorkerOk(pending, w, maxBatch) && w.idx <= |pending| && Backlog(pending, w.trace) >= 0
    ensures Timed(pending, w.trace, w.busy, cost) && ClockOk(pending, w)
    ensures InTurns(pending, w.trace, maxBatch)
    ensures Backlog(pending, w.trace) < Backlog(pending, was.trace)
         || (w.trace == was.trace && Asleep(pending, was) && !Asleep(pending, w))
  {
    hide WorkerOk, Stepped, Backlog, Timed, Woken, Follows, TimeOrdered, InTurns, Filled;
    BatchBound(pending, was, maxBatch);
    w := AdmitReady(pending, was, maxBatch);
    BatchBound(pending, w, maxBatch);
    if w.active == [] {
      JumpOk(pending, w, maxBatch);
      JumpWakes(pending, w, maxBatch);
      w := w.(now := pending[w.idx].at);
      WorkerBacklog(pending, w, maxBatch);
      BatchBound(pending, w, maxBatch);
      return;
    }
    ghost var before := w;
    w := StepBatch(pending, w, cost, maxBatch);
    ghost var duration := cost(w.trace[|before.trace|].contexts);
    SteppedOk(pending, before, w, duration, maxBatch);
    SteppedTimed(pending, before, w, cost, maxBatch);
    SteppedFilled(pending, before, w, duration, maxBatch);
    InTurnsSnoc(pending, before.trace, w.trace[|before.trace|], maxBatch);
    SteppedTrace(before, w, duration);
    SteppedProgress(pending, before, w, duration, maxBatch);
    WorkerBacklog(pending, w, maxBatch);
    BatchBound(pending, w, maxBatch);
  }
}
