/** The continuous-batching engine as values: one scheduler step, branch by
    branch, over both policies, both preemption modes and speculation. Step
    durations and accepted draft counts are inputs. */
module EngineSpec {
  import opened Lists
  import opened PagedSpec

  /** What synthesised token ids are derived from: bases hashed from the request's
      prefix group or session, its session, and its own id. */
  datatype TokenKeys = TokenKeys(
    sharedBase: Option<int>, sharedPrefixTokens: nat, sessionBase: Option<int>, hasGroup: bool, uniqueBase: int)

  datatype Request = Request(
    id: int, promptTokens: nat, outputTokens: nat, arrival: real, priority: int,
    tokenIds: seq<Token>, keys: TokenKeys)

  function Ramp(base: int, from: nat, n: nat): (r: seq<int>)
    ensures |r| == n
  {
    seq(n, i requires 0 <= i < n => base + from + i)
  }

  function Min(a: int, b: int): int {
    if a <= b then a else b
  }

  function SharedCount(r: Request): nat {
    if r.keys.sharedBase.Some? then Min(r.keys.sharedPrefixTokens, r.promptTokens) else 0
  }

  function SynthTokenIds(r: Request): (ids: seq<Token>)
    ensures |ids| == r.promptTokens
  {
    var n := SharedCount(r);
    var shared := if r.keys.sharedBase.Some? then Ramp(r.keys.sharedBase.value, 0, n) else [];
    if r.keys.sessionBase.Some? && !r.keys.hasGroup
    then shared + Ramp(r.keys.sessionBase.value, n, r.promptTokens - n)
    else shared + Ramp(r.keys.uniqueBase, 0, r.promptTokens - n)
  }

  datatype Status = Waiting | Running | Swapped | Finished

  /** Times are -1 until they are set. */
  datatype Sequence = Sequence(
    req: Request, status: Status, table: seq<nat>, prefilled: nat, generated: nat, cached: nat,
    firstToken: real, finish: real, tokenTimes: seq<real>,
    nPreemptions: nat, specAccepted: nat, specProposed: nat)
  {
    function TotalLen(): nat {
      req.promptTokens + generated
    }

    predicate PrefillDone() {
      prefilled >= req.promptTokens
    }

    predicate Done() {
      generated >= req.outputTokens
    }
  }

  function NewSequence(r: Request): Sequence {
    Sequence(r, Waiting, [], 0, 0, 0, -1.0, -1.0, [], 0, 0, 0)
  }

  /** `chunkCap` is the per-request chunk limit, 0 for none. */
  datatype Config = Config(
    maxNumSeqs: nat, maxBatchedTokens: int, chunked: bool, chunkCap: nat,
    swap: bool, byPriority: bool, draftTokens: nat)

  /** Sequences are objects shared by several lists in the source; here the lists
      hold request ids, and `seqs` holds the objects' fields. `pending` is the
      arrival queue in the order the heap pops it. `lost` counts the block
      references nobody can return any more. */
  datatype Engine = Engine(
    cfg: Config, kv: Pool, now: real, stepNo: nat, seqs: map<int, Sequence>, pending: seq<Request>,
    waiting: seq<int>, running: seq<int>, swapped: seq<int>, finished: seq<int>,
    totalPreemptions: nat, lost: multiset<nat>)
  {
    function Get(id: int): Sequence {
      if id in seqs then seqs[id] else NewSequence(Request(id, 0, 0, 0.0, 0, [], TokenKeys(None, 0, None, false, 0)))
    }

    function Put(id: int, s: Sequence): Engine {
      this.(seqs := seqs[id := s])
    }
  }

  function InitEngine(cfg: Config, kv: Pool): Engine {
    Engine(cfg, kv, 0.0, 0, map[], [], [], [], [], [], 0, multiset{})
  }

  // ---- arrivals

  /** Equal arrivals pop in submission order. */
  function InsertPending(q: seq<Request>, r: Request): seq<Request> {
    if q == [] || r.arrival < q[0].arrival then [r] + q
    else [q[0]] + InsertPending(q[1..], r)
  }

  function Submit(e: Engine, reqs: seq<Request>): Engine
    decreases |reqs|
  {
    if reqs == [] then e
    else Submit(e.(pending := InsertPending(e.pending, reqs[0])), reqs[1..])
  }

  function WithTokens(r: Request): Request {
    if r.tokenIds == [] then r.(tokenIds := SynthTokenIds(r)) else r
  }

  function AdmitArrivals(e: Engine): Engine
    decreases |e.pending|
  {
    if e.pending == [] || e.pending[0].arrival > e.now then e
    else
      var r := WithTokens(e.pending[0]);
      AdmitArrivals(e.Put(r.id, NewSequence(r)).(pending := e.pending[1..], waiting := e.waiting + [r.id]))
  }

  // ---- memory

  function CeilDiv(n: nat, size: pos): nat {
    (n + size - 1) / size
  }

  datatype Admission = Admission(engine: Engine, ok: bool)

  /** Give a waiting sequence its prompt blocks; false if memory is short. */
  function Allocate(e: Engine, id: int): Admission {
    var s := e.Get(id);
    if !e.kv.CanAllocate(CeilDiv(s.req.promptTokens, e.kv.blockSize)) then Admission(e, false)
    else
      var r := AllocatePrompt(e.kv, s.req.tokenIds);
      if !r.ok then Admission(e.(kv := r.pool, lost := e.lost + multiset(r.table)), false)
      else Admission(e.Put(id, s.(table := r.table, cached := r.cached, prefilled := r.cached)).(
                       kv := r.pool, lost := e.lost + multiset(s.table)), true)
  }

  function Restarted(s: Sequence): Sequence {
    s.(table := [], prefilled := 0, generated := 0, firstToken := -1.0, tokenTimes := [], status := Waiting)
  }

  /** Evict a running sequence. */
  function Preempt(e: Engine, v: int): Engine {
    var s := e.Get(v).(nPreemptions := e.Get(v).nPreemptions + 1);
    var freed := e.(kv := Free(e.kv, s.table), running := Remove(e.running, v),
                    totalPreemptions := e.totalPreemptions + 1);
    if e.cfg.swap
    then freed.Put(v, s.(table := [], status := Swapped)).(swapped := e.swapped + [v])
    else freed.Put(v, Restarted(s)).(waiting := [v] + e.waiting)
  }

  // ---- choosing the step's work

  /** Prefill work for one sequence. */
  datatype Chunk = Chunk(id: int, tokens: nat)

  predicate Before(a: Sequence, b: Sequence) {
    a.req.priority < b.req.priority
    || (a.req.priority == b.req.priority && a.req.arrival <= b.req.arrival)
  }

  /** Stable: `id` goes in front of the entries it is not after. */
  function InsertByPriority(e: Engine, id: int, sorted: seq<int>): seq<int> {
    if sorted == [] || Before(e.Get(id), e.Get(sorted[0])) then [id] + sorted
    else [sorted[0]] + InsertByPriority(e, id, sorted[1..])
  }

  function SortByPriority(e: Engine, ids: seq<int>): seq<int> {
    if ids == [] then [] else InsertByPriority(e, ids[0], SortByPriority(e, ids[1..]))
  }

  function SortWaiting(e: Engine): Engine {
    if e.cfg.byPriority then e.(waiting := SortByPriority(e, e.waiting)) else e
  }

  function FilterDone(e: Engine, ids: seq<int>, done: bool): seq<int> {
    if ids == [] then []
    else (if e.Get(ids[0]).PrefillDone() == done then [ids[0]] else []) + FilterDone(e, ids[1..], done)
  }

  /** min(remaining, budget, cap), where a cap of 0 means the budget itself. */
  function ChunkSize(cfg: Config, remaining: nat, budget: nat): nat {
    Min(remaining, Min(budget, if cfg.chunkCap != 0 then cfg.chunkCap else budget))
  }

  function Remaining(s: Sequence): nat {
    if s.prefilled >= s.req.promptTokens then 0 else s.req.promptTokens - s.prefilled
  }

  /** Chunks for running sequences still in prefill, while the budget lasts. */
  function PartialChunks(e: Engine, partial: seq<int>, budget: int): seq<Chunk> {
    if partial == [] || budget <= 0 then []
    else
      var chunk := ChunkSize(e.cfg, Remaining(e.Get(partial[0])), budget);
      (if chunk > 0 then [Chunk(partial[0], chunk)] else []) + PartialChunks(e, partial[1..], budget - chunk)
  }

  function TotalTokens(chunks: seq<Chunk>): nat {
    if chunks == [] then 0 else chunks[0].tokens + TotalTokens(chunks[1..])
  }

  datatype Work = Work(engine: Engine, prefills: seq<Chunk>, decodes: seq<int>) | WorkFailed

  /** The head of the waiting list starts running. */
  function StartHead(e: Engine): Engine
    requires e.waiting != []
  {
    var id := e.waiting[0];
    e.Put(id, e.Get(id).(status := Running)).(waiting := e.waiting[1..], running := e.running + [id])
  }

  function AdmitChunked(e: Engine, prefills: seq<Chunk>, budget: int): (Engine, seq<Chunk>)
    decreases |e.waiting|
  {
    if e.waiting == [] || budget <= 0 || |e.running| + |prefills| >= e.cfg.maxNumSeqs then (e, prefills)
    else
      var id := e.waiting[0];
      var a := Allocate(e, id);
      if !a.ok then (a.engine, prefills)
      else
        var e1 := StartHead(a.engine);
        var remaining := Remaining(e1.Get(id));
        if remaining == 0 then AdmitChunked(e1, prefills, budget)
        else
          var chunk := ChunkSize(e.cfg, remaining, budget);
          AdmitChunked(e1, prefills + [Chunk(id, chunk)], budget - chunk)
  }

  function ScheduleChunked(e: Engine): Work {
    var decodes := FilterDone(e, e.running, true);
    var budget := e.cfg.maxBatchedTokens - |decodes|;
    var first := PartialChunks(e, FilterDone(e, e.running, false), budget);
    var (e1, prefills) := AdmitChunked(e, first, budget - TotalTokens(first));
    Work(e1, prefills, decodes)
  }

  /** Prefill priority: whole prompts, until the budget or the memory is used up. */
  function AdmitWhole(e: Engine, prefills: seq<Chunk>, budget: int, admitted: bool): (Engine, seq<Chunk>)
    decreases |e.waiting|
  {
    if e.waiting == [] || |e.running| >= e.cfg.maxNumSeqs || budget <= 0 then (e, prefills)
    else
      var id := e.waiting[0];
      var s := e.Get(id);
      if s.req.promptTokens - s.cached > budget && admitted then (e, prefills)
      else
        var a := Allocate(e, id);
        if !a.ok then (a.engine, prefills)
        else
          var e1 := StartHead(a.engine);
          var chunk := Remaining(e1.Get(id));
          if chunk > 0 then AdmitWhole(e1, prefills + [Chunk(id, chunk)], budget - chunk, true)
          else AdmitWhole(e1, prefills, budget, true)
  }

  function Zeros(n: nat): seq<Token> {
    seq(n, i => 0)
  }

  /** The tokens a restored sequence allocates blocks for. */
  function RestoreTokens(s: Sequence): seq<Token> {
    var ids := s.req.tokenIds[..Min(|s.req.tokenIds|, s.TotalLen())];
    if ids == [] then Zeros(s.TotalLen()) else ids
  }

  /** Swapped sequences come back while there is room; None when the allocation
      raises OutOfBlocks, which nothing catches. */
  function RestoreSwapped(e: Engine): Option<Engine>
    decreases |e.swapped|
  {
    if e.swapped == [] || |e.running| >= e.cfg.maxNumSeqs then Some(e)
    else
      var id := e.swapped[0];
      var s := e.Get(id);
      if !e.kv.CanAllocate(CeilDiv(s.TotalLen(), e.kv.blockSize)) then Some(e)
      else
        var r := AllocatePrompt(e.kv, RestoreTokens(s));
        if !r.ok then None
        else RestoreSwapped(e.Put(id, s.(table := r.table, status := Running)).(
                              swapped := e.swapped[1..], running := e.running + [id],
                              kv := r.pool, lost := e.lost + multiset(s.table)))
  }

  function SchedulePriority(e: Engine): Work {
    var (e1, prefills) := AdmitWhole(e, [], e.cfg.maxBatchedTokens, false);
    if prefills != [] then Work(e1, prefills, [])
    else match RestoreSwapped(e1)
      case None => WorkFailed
      case Some(e2) => Work(e2, [], FilterDone(e2, e2.running, true))
  }

  function Schedule(e: Engine): Work {
    var e1 := SortWaiting(e);
    if e.cfg.chunked then ScheduleChunked(e1) else SchedulePriority(e1)
  }

  // ---- growing the decodes

  /** The newest running sequence other than `id`. */
  function Victim(running: seq<int>, id: int): (v: Option<int>)
    ensures v.Some? ==> v.value in running && v.value != id
    ensures v.None? ==> forall x :: x in running ==> x == id
  {
    if running == [] then None
    else if running[|running| - 1] != id then Some(running[|running| - 1])
    else
      assert running == running[..|running| - 1] + [running[|running| - 1]];
      Victim(running[..|running| - 1], id)
  }

  /** `GrowFailed` is an exception no caller handles: the tail of an empty table,
      or a sequence removed from a list it is not on. */
  datatype Growth = Growth(engine: Engine, survivors: seq<int>) | GrowFailed

  function GrowOne(e: Engine, id: int, survivors: seq<int>): Growth
    decreases |e.running|
  {
    var s := e.Get(id);
    match AppendToken(e.kv, s.table, s.TotalLen())
    case Grown(kv, table, _) => Growth(e.Put(id, s.(table := table)).(kv := kv), survivors + [id])
    case IndexError => GrowFailed
    case OutOfBlocks(kv) =>
      var e1 := e.(kv := kv);
      match Victim(e.running, id)
      case Some(v) => GrowOne(Preempt(e1, v), id, Remove(survivors, v))
      case None => if id in e.running then Growth(Preempt(e1, id), survivors) else GrowFailed
  }

  function GrowAll(e: Engine, decodes: seq<int>, survivors: seq<int>): Growth
    decreases |decodes|
  {
    if decodes == [] then Growth(e, survivors)
    else match GrowOne(e, decodes[0], survivors)
      case GrowFailed => GrowFailed
      case Growth(e1, survivors1) => GrowAll(e1, decodes[1..], survivors1)
  }

  // ---- applying the step

  function CountSpec(s: Sequence, k: nat, accepted: nat): Sequence {
    s.(specProposed := s.specProposed + k, specAccepted := s.specAccepted + accepted)
  }

  function Repeat(t: real, n: nat): (r: seq<real>)
    ensures |r| == n
  {
    seq(n, i => t)
  }

  function Emitted(s: Sequence, tokens: nat, now: real): Sequence {
    var emitted := if s.Done() then 0 else Min(tokens, s.req.outputTokens - s.generated);
    s.(tokenTimes := s.tokenTimes + Repeat(now, emitted), generated := s.generated + emitted,
       firstToken := if s.firstToken < 0.0 && s.generated + emitted > 0 then now else s.firstToken)
  }

  function AddPrefill(s: Sequence, tokens: nat): Sequence {
    s.(prefilled := s.prefilled + tokens)
  }

  /** A sequence that has just finished prefill emits its first token. */
  function FirstEmitted(s: Sequence, now: real): Sequence {
    if s.PrefillDone() && s.firstToken < 0.0
    then s.(generated := 1, firstToken := now, tokenTimes := s.tokenTimes + [now])
    else s
  }

  function ForEach(e: Engine, ids: seq<int>, f: Sequence -> Sequence): Engine
    decreases |ids|
  {
    if ids == [] then e else ForEach(e.Put(ids[0], f(e.Get(ids[0]))), ids[1..], f)
  }

  function ForChunks(e: Engine, chunks: seq<Chunk>, f: (Sequence, nat) -> Sequence): Engine
    decreases |chunks|
  {
    if chunks == [] then e
    else ForChunks(e.Put(chunks[0].id, f(e.Get(chunks[0].id), chunks[0].tokens)), chunks[1..], f)
  }

  function CountingSpec(k: nat, accepted: nat): Sequence -> Sequence {
    s => CountSpec(s, k, accepted)
  }

  function Emitting(tokens: nat, now: real): Sequence -> Sequence {
    s => Emitted(s, tokens, now)
  }

  function EmittingFirst(now: real): (Sequence, nat) -> Sequence {
    (s, n) => FirstEmitted(s, now)
  }

  function FinishOne(e: Engine, id: int): Engine {
    var s := e.Get(id);
    e.Put(id, s.(finish := e.now, status := Finished, table := [])).(
      kv := Free(e.kv, s.table), running := Remove(e.running, id), finished := e.finished + [id])
  }

  function FinishDone(e: Engine, ids: seq<int>): Engine
    decreases |ids|
  {
    if ids == [] then e
    else FinishDone(if e.Get(ids[0]).Done() then FinishOne(e, ids[0]) else e, ids[1..])
  }

  /** What the environment decides about a step: how long it takes, and how many
      draft tokens the target accepts. */
  datatype StepInput = StepInput(duration: real, accepted: nat)

  predicate Speculates(cfg: Config, prefills: seq<Chunk>, decodes: seq<int>) {
    cfg.draftTokens > 0 && decodes != [] && prefills == []
  }

  function TokensPerDecode(cfg: Config, prefills: seq<Chunk>, decodes: seq<int>, accepted: nat): nat {
    if Speculates(cfg, prefills, decodes) then accepted + 1 else 1
  }

  /** Draft counters, then the clock. */
  function Clocked(e: Engine, prefills: seq<Chunk>, decodes: seq<int>, input: StepInput): Engine {
    var e1 := if Speculates(e.cfg, prefills, decodes)
              then ForEach(e, decodes, CountingSpec(e.cfg.draftTokens, input.accepted)) else e;
    e1.(now := e1.now + input.duration, stepNo := e1.stepNo + 1)
  }

  /** Prefill progress, then decode tokens, then first tokens. */
  function Tokened(e: Engine, prefills: seq<Chunk>, decodes: seq<int>, tokens: nat): Engine {
    var e3 := ForChunks(e, prefills, AddPrefill);
    var e4 := ForEach(e3, decodes, Emitting(tokens, e.now));
    ForChunks(e4, prefills, EmittingFirst(e.now))
  }

  function Credited(e: Engine, prefills: seq<Chunk>, decodes: seq<int>, tokens: nat): Engine {
    var e5 := Tokened(e, prefills, decodes, tokens);
    FinishDone(e5, e5.running)
  }

  function ApplyWork(e: Engine, prefills: seq<Chunk>, decodes: seq<int>, input: StepInput): Engine {
    Credited(Clocked(e, prefills, decodes, input), prefills, decodes,
             TokensPerDecode(e.cfg, prefills, decodes, input.accepted))
  }

  // ---- steps and runs

  /** `Idle` is the step that returns None; `Crashed` is an escaping exception. */
  datatype StepResult =
    | Idle(engine: Engine)
    | Stalled(engine: Engine)
    | Worked(engine: Engine, prefills: seq<Chunk>, decodes: seq<int>)
    | Crashed

  const TICK := 0.1

  function StepWork(e: Engine, input: StepInput): StepResult {
    match Schedule(e)
    case WorkFailed => Crashed
    case Work(e1, prefills, decodes) =>
      match GrowAll(e1, decodes, [])
      case GrowFailed => Crashed
      case Growth(e2, survivors) =>
        if prefills == [] && survivors == [] then Stalled(e2.(now := e2.now + TICK, stepNo := e2.stepNo + 1))
        else Worked(ApplyWork(e2, prefills, survivors, input), prefills, survivors)
  }

  predicate InFlight(e: Engine) {
    e.running != [] || e.waiting != [] || e.swapped != []
  }

  /** Arrivals are admitted; an engine with nothing in flight jumps to the next one. */
  function Wake(e: Engine): Engine {
    var e1 := AdmitArrivals(e);
    if InFlight(e1) || e1.pending == [] then e1
    else AdmitArrivals(e1.(now := e1.pending[0].arrival))
  }

  function Step(e: Engine, input: StepInput): StepResult {
    var e1 := Wake(e);
    if !InFlight(e1) && e1.pending == [] then Idle(e1) else StepWork(e1, input)
  }

  /** At most `steps` more steps, until nothing is left or the clock reaches its
      limit; None if a step crashes. */
  function Run(e: Engine, env: nat -> StepInput, steps: nat, maxMs: real): Option<Engine>
    decreases steps
  {
    if steps == 0 || e.now >= maxMs then Some(e)
    else match Step(e, env(e.stepNo))
      case Idle(e1) => Some(e1)
      case Crashed => None
      case Stalled(e1) => Run(e1, env, steps - 1, maxMs)
      case Worked(e1, _, _) => Run(e1, env, steps - 1, maxMs)
  }
}
