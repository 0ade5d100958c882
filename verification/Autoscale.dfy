/** The autoscaler's fluid simulation: one loop over queue, replicas and timers.
    Traffic and start-up jitter are inputs. */
module Autoscale {
  import opened Lists

  datatype Status = Starting | Ready | Draining

  datatype Replica = Replica(id: nat, status: Status, readyAt: real, drainUntil: real)

  datatype Signal = QueueDepth | GpuUtil | RunningRequests | TtftP95

  datatype Config = Config(
    signal: Signal, target: real, minReplicas: int, maxReplicas: int, coldStart: real,
    upCooldown: real, downCooldown: real, stabilization: real, maxUpStep: int, maxDownStep: int,
    drain: real, headroom: real, horizon: real,
    dt: real, perReplica: real, maxQueue: real)

  /** What a tick decided. */
  datatype Action = Hold | Up(added: int) | Down(removed: int)

  /** One tick: `served` and `dropped` are totals so far, `signal` is what was measured. */
  datatype Tick = Tick(
    t: real, offered: real, queue: real, served: real, dropped: real, signal: real,
    want: int, ready: nat, starting: nat, action: Action)

  datatype Sim = Sim(
    t: real, replicas: seq<Replica>, nextId: nat, queue: real, served: real, dropped: real,
    lastUp: real, lastDown: real, lowSince: Option<real>, hist: seq<(real, real)>, trace: seq<Tick>)

  const NEVER := -1000000000.0

  function MaxReal(a: real, b: real): real {
    if a >= b then a else b
  }

  function MinReal(a: real, b: real): real {
    if a <= b then a else b
  }

  function MinInt(a: int, b: int): int {
    if a <= b then a else b
  }

  function Ceil(x: real): int {
    -((-x).Floor)
  }

  // ---- replicas

  predicate Serving(r: Replica, t: real) {
    r.status == Ready && t >= r.readyAt
  }

  function CountServing(replicas: seq<Replica>, t: real): nat {
    if replicas == [] then 0
    else CountServing(replicas[..|replicas| - 1], t) + if Serving(replicas[|replicas| - 1], t) then 1 else 0
  }

  function CountStarting(replicas: seq<Replica>): nat {
    if replicas == [] then 0
    else CountStarting(replicas[..|replicas| - 1]) + if replicas[|replicas| - 1].status == Starting then 1 else 0
  }

  /** A replica started at `t`; how long it takes varies from one to the next. */
  function Launched(id: nat, t: real, cfg: Config, jitter: nat -> real): Replica {
    Replica(id, Starting, t + cfg.coldStart * jitter(id), 0.0)
  }

  function StartReplicas(replicas: seq<Replica>, n: int, id: nat, t: real, cfg: Config, jitter: nat -> real)
    : seq<Replica>
    decreases n
  {
    if n <= 0 then replicas
    else StartReplicas(replicas + [Launched(id, t, cfg, jitter)], n - 1, id + 1, t, cfg, jitter)
  }

  /** How many of `n` the slice `[-k:]` takes: all of them when `k` is zero. */
  function SliceSize(n: nat, k: int): nat {
    if k > 0 then MinInt(k, n) else if k == 0 then n else if -k <= n then n + k else 0
  }

  /** The last `k` serving replicas start to drain. */
  function DrainLast(replicas: seq<Replica>, k: nat, t: real, until: real): (r: seq<Replica>)
    ensures |r| == |replicas|
  {
    if replicas == [] then []
    else
      var init, last := replicas[..|replicas| - 1], replicas[|replicas| - 1];
      if k > 0 && Serving(last, t)
      then DrainLast(init, k - 1, t, until) + [last.(status := Draining, drainUntil := until)]
      else DrainLast(init, k, t, until) + [last]
  }

  function Advanced(r: Replica, t: real): Replica {
    if r.status == Starting && t >= r.readyAt then r.(status := Ready) else r
  }

  /** Started replicas become ready; drained ones are gone. */
  function Lifecycle(replicas: seq<Replica>, t: real): seq<Replica> {
    if replicas == [] then []
    else
      var init, last := replicas[..|replicas| - 1], replicas[|replicas| - 1];
      Lifecycle(init, t) + if last.status == Draining && t >= last.drainUntil then [] else [Advanced(last, t)]
  }

  function Initial(n: int): seq<Replica> {
    if n <= 0 then [] else Initial(n - 1) + [Replica(n - 1, Ready, 0.0, 0.0)]
  }

  // ---- the signal

  function Desired(signal: real, cfg: Config, ready: int): int {
    var ratio := signal / MaxReal(cfg.target, 0.000000001);
    var want := Ceil((if ready > 1 then ready else 1) as real * ratio * cfg.headroom);
    var capped := MinInt(cfg.maxReplicas, want);
    if capped > cfg.minReplicas then capped else cfg.minReplicas
  }

  function PerReady(x: real, ready: nat): real {
    x / (if ready > 1 then ready else 1) as real
  }

  function SignalOf(cfg: Config, queue: real, done: real, offered: real, ready: nat): real {
    var capacity := ready as real * cfg.perReplica;
    match cfg.signal
    case GpuUtil =>
      var u := if capacity > 0.0 && offered > capacity * 0.35 then 1.0 else offered / MaxReal(capacity, 0.000000001);
      MinReal(u, 1.0) * 100.0
    case RunningRequests => PerReady(MinReal(queue + done, (ready * 64) as real), ready)
    case TtftP95 => 50.0 + PerReady(queue, ready) * 120.0
    case QueueDepth => PerReady(queue, ready)
  }

  function Window(hist: seq<(real, real)>, t: real): seq<(real, real)> {
    if hist == [] then []
    else (if hist[0].0 >= t - 120.0 then [hist[0]] else []) + Window(hist[1..], t)
  }

  /** Linear extrapolation over the last two minutes. */
  function Predicted(cfg: Config, sig: real, hist: seq<(real, real)>): real {
    if cfg.horizon > 0.0 && |hist| >= 4 then
      var slope := (hist[|hist| - 1].1 - hist[0].1) / MaxReal(hist[|hist| - 1].0 - hist[0].0, 0.000000001);
      MaxReal(sig, sig + slope * cfg.horizon)
    else sig
  }

  // ---- what is proved of a history

  function Arrived(trace: seq<Tick>, dt: real): real {
    if trace == [] then 0.0 else Arrived(trace[..|trace| - 1], dt) + trace[|trace| - 1].offered * dt
  }

  /** Every request is served, dropped or queued, and the queue is bounded. */
  ghost predicate Conserved(trace: seq<Tick>, cfg: Config) {
    forall k :: 0 <= k < |trace| ==>
      && Arrived(trace[..k + 1], cfg.dt) == trace[k].served + trace[k].dropped + trace[k].queue
      && 0.0 <= trace[k].queue <= cfg.maxQueue
  }

  /** Never below the minimum, never above the maximum. */
  ghost predicate Sized(trace: seq<Tick>, cfg: Config) {
    forall k :: 0 <= k < |trace| ==>
      cfg.minReplicas <= trace[k].ready && trace[k].ready + trace[k].starting <= cfg.maxReplicas
  }

  ghost predicate Spaced(trace: seq<Tick>, cfg: Config) {
    && (forall i, j :: 0 <= i < j < |trace| && trace[i].action.Up? && trace[j].action.Up? ==>
          trace[j].t - trace[i].t >= cfg.upCooldown)
    && (forall i, j :: 0 <= i < j < |trace| && trace[i].action.Down? && trace[j].action.Down? ==>
          trace[j].t - trace[i].t >= cfg.downCooldown)
  }

  /** From tick `i` up to `j`, fewer replicas were wanted than were ready, and
      before `j` nothing was done about it. */
  ghost predicate Low(trace: seq<Tick>, i: nat, j: nat) {
    j < |trace|
    && (forall k :: i <= k <= j ==> trace[k].want < trace[k].ready)
    && (forall k :: i <= k < j ==> trace[k].action == Hold)
  }

  ghost predicate LongLow(trace: seq<Tick>, j: nat, cfg: Config)
    requires j < |trace|
  {
    exists i: nat :: i <= j && Low(trace, i, j) && trace[j].t - trace[i].t >= cfg.stabilization
  }

  /** Every scale-down follows an unbroken low period of the required length. */
  ghost predicate Stabilised(trace: seq<Tick>, cfg: Config) {
    forall j: nat :: j < |trace| && trace[j].action.Down? ==> LongLow(trace, j, cfg)
  }

  ghost predicate Safe(trace: seq<Tick>, cfg: Config) {
    Conserved(trace, cfg) && Sized(trace, cfg) && Spaced(trace, cfg) && Stabilised(trace, cfg)
  }

  /** When a scale-down cannot cut below the minimum: the step is positive, or it is
      a slice bound that spares at least the minimum. */
  predicate StepOk(cfg: Config) {
    cfg.maxDownStep >= 1 || cfg.minReplicas <= -cfg.maxDownStep
  }

  predicate Sane(cfg: Config) {
    && cfg.minReplicas <= cfg.maxReplicas && 0 <= cfg.maxReplicas && StepOk(cfg)
    && cfg.dt > 0.0 && cfg.perReplica >= 0.0 && cfg.maxQueue >= 0.0
  }

  // ---- one tick

  /** Arrivals join the queue, the ready replicas serve it, the excess is dropped. */
  function Queued(s: Sim, cfg: Config, offered: real, ready: nat): (Sim, real) {
    var full := s.queue + offered * cfg.dt;
    var done := MinReal(full, ready as real * cfg.perReplica * cfg.dt);
    var left := full - done;
    (s.(served := s.served + done,
        dropped := if left > cfg.maxQueue then s.dropped + (left - cfg.maxQueue) else s.dropped,
        queue := if left > cfg.maxQueue then cfg.maxQueue else left), done)
  }

  function Decided(s: Sim, cfg: Config, want: int, ready: nat, starting: nat, jitter: nat -> real): (Sim, Action) {
    if want > ready + starting && s.t - s.lastUp >= cfg.upCooldown then
      var add := MinInt(want - (ready + starting), cfg.maxUpStep);
      (s.(replicas := StartReplicas(s.replicas, add, s.nextId, s.t, cfg, jitter),
          nextId := s.nextId + if add > 0 then add else 0, lastUp := s.t, lowSince := None), Up(add))
    else if want < ready then
      if s.lowSince.None? then (s.(lowSince := Some(s.t)), Hold)
      else if s.t - s.lowSince.value >= cfg.stabilization && s.t - s.lastDown >= cfg.downCooldown then
        var remove := MinInt(ready - want, cfg.maxDownStep);
        (s.(replicas := DrainLast(s.replicas, SliceSize(ready, remove), s.t, s.t + cfg.drain),
            lastDown := s.t, lowSince := None), Down(remove))
      else (s, Hold)
    else (s.(lowSince := None), Hold)
  }

  function TickOnce(s: Sim, cfg: Config, rate: real, jitter: nat -> real): Sim {
    var ready, starting := CountServing(s.replicas, s.t), CountStarting(s.replicas);
    var offered := MaxReal(rate, 0.0);
    var (q, done) := Queued(s, cfg, offered, ready);
    var sig := SignalOf(cfg, q.queue, done, offered, ready);
    var hist := Window(s.hist + [(s.t, sig)], s.t);
    var want := Desired(Predicted(cfg, sig, hist), cfg, ready);
    var (d, action) := Decided(q.(hist := hist), cfg, want, ready, starting, jitter);
    d.(replicas := Lifecycle(d.replicas, s.t), t := s.t + cfg.dt,
       trace := s.trace + [Tick(s.t, offered, q.queue, q.served, q.dropped, sig, want, ready, starting, action)])
  }

  // ---- counting lemmas

  /** A replica is marked ready only once its time has come. */
  ghost predicate AllServe(replicas: seq<Replica>, t: real) {
    forall r :: r in replicas && r.status == Ready ==> r.readyAt <= t
  }

  lemma CountSnoc(replicas: seq<Replica>, r: Replica, t: real)
    ensures CountServing(replicas + [r], t) == CountServing(replicas, t) + if Serving(r, t) then 1 else 0
    ensures CountStarting(replicas + [r]) == CountStarting(replicas) + if r.status == Starting then 1 else 0
  {
    assert (replicas + [r])[..|replicas|] == replicas;
  }

  lemma {:induction false} StartCounts(replicas: seq<Replica>, n: int, id: nat, t: real, cfg: Config,
                                       jitter: nat -> real)
    ensures CountServing(StartReplicas(replicas, n, id, t, cfg, jitter), t) == CountServing(replicas, t)
    ensures CountStarting(StartReplicas(replicas, n, id, t, cfg, jitter))
         == CountStarting(replicas) + if n > 0 then n else 0
    ensures AllServe(replicas, t) ==> AllServe(StartReplicas(replicas, n, id, t, cfg, jitter), t)
    decreases n
  {
    if n > 0 {
      var r := Launched(id, t, cfg, jitter);
      CountSnoc(replicas, r, t);
      StartCounts(replicas + [r], n - 1, id + 1, t, cfg, jitter);
    }
  }

  lemma {:induction false} DrainCounts(replicas: seq<Replica>, k: nat, t: real, until: real)
    ensures CountStarting(DrainLast(replicas, k, t, until)) == CountStarting(replicas)
    ensures CountServing(DrainLast(replicas, k, t, until), t)
         == if k <= CountServing(replicas, t) then CountServing(replicas, t) - k else 0
  {
    if replicas != [] {
      var init, last := replicas[..|replicas| - 1], replicas[|replicas| - 1];
      var down := last.(status := Draining, drainUntil := until);
      if k > 0 && Serving(last, t) {
        DrainCounts(init, k - 1, t, until);
        CountSnoc(DrainLast(init, k - 1, t, until), down, t);
      } else {
        DrainCounts(init, k, t, until);
        CountSnoc(DrainLast(init, k, t, until), last, t);
      }
    }
  }

  lemma {:induction false} DrainServes(replicas: seq<Replica>, k: nat, t: real, until: real)
    requires AllServe(replicas, t)
    ensures AllServe(DrainLast(replicas, k, t, until), t)
  {
    if replicas != [] {
      var init, last := replicas[..|replicas| - 1], replicas[|replicas| - 1];
      assert last in replicas && forall r :: r in init ==> r in replicas;
      DrainServes(init, if k > 0 && Serving(last, t) then k - 1 else k, t, until);
    }
  }

  /** Started replicas move from one count to the other; none is lost or gained. */
  lemma {:induction false} LifecycleCounts(replicas: seq<Replica>, t: real, next: real)
    requires AllServe(replicas, t) && t <= next
    ensures AllServe(Lifecycle(replicas, t), next)
    ensures CountServing(replicas, t) <= CountServing(Lifecycle(replicas, t), next)
    ensures CountServing(Lifecycle(replicas, t), next) + CountStarting(Lifecycle(replicas, t))
         == CountServing(replicas, t) + CountStarting(replicas)
  {
    if replicas != [] {
      var init, last := replicas[..|replicas| - 1], replicas[|replicas| - 1];
      assert last in replicas && forall r :: r in init ==> r in replicas;
      LifecycleCounts(init, t, next);
      CountSnoc(Lifecycle(init, t), Advanced(last, t), next);
      assert Lifecycle(init, t) + [] == Lifecycle(init, t);
    }
  }

  // ---- one tick keeps the books

  ghost predicate QueueOk(s: Sim, cfg: Config) {
    Arrived(s.trace, cfg.dt) == s.served + s.dropped + s.queue && 0.0 <= s.queue <= cfg.maxQueue
  }

  ghost predicate PoolOk(s: Sim, cfg: Config) {
    && AllServe(s.replicas, s.t)
    && cfg.minReplicas <= CountServing(s.replicas, s.t)
    && CountServing(s.replicas, s.t) + CountStarting(s.replicas) <= cfg.maxReplicas
  }

  /** The timers remember the latest events, and since when demand has been low. */
  ghost predicate TimersOk(s: Sim) {
    && (forall k :: 0 <= k < |s.trace| ==> s.trace[k].t <= s.t)
    && (forall k :: 0 <= k < |s.trace| && s.trace[k].action.Up? ==> s.trace[k].t <= s.lastUp)
    && (forall k :: 0 <= k < |s.trace| && s.trace[k].action.Down? ==> s.trace[k].t <= s.lastDown)
    && (s.lowSince.Some? ==> LowNow(s.trace, s.lowSince.value))
  }

  /** Demand has been low since time `l`, up to the latest tick. */
  ghost predicate LowNow(trace: seq<Tick>, l: real) {
    exists i: nat :: i < |trace| && trace[i].t == l && Low(trace, i, |trace| - 1) && trace[|trace| - 1].action == Hold
  }

  ghost predicate SimOk(s: Sim, cfg: Config) {
    QueueOk(s, cfg) && PoolOk(s, cfg) && TimersOk(s) && Safe(s.trace, cfg)
  }

  lemma DesiredBounds(signal: real, cfg: Config, ready: int)
    requires cfg.minReplicas <= cfg.maxReplicas
    ensures cfg.minReplicas <= Desired(signal, cfg, ready) <= cfg.maxReplicas
  {
  }

  lemma QueuedOk(s: Sim, cfg: Config, offered: real, ready: nat)
    requires Sane(cfg) && offered >= 0.0 && 0.0 <= s.queue
    ensures
      var q := Queued(s, cfg, offered, ready).0;
      && q.served + q.dropped + q.queue == s.served + s.dropped + s.queue + offered * cfg.dt
      && 0.0 <= q.queue <= cfg.maxQueue
      && q.trace == s.trace && q.replicas == s.replicas && q.t == s.t
      && q.lastUp == s.lastUp && q.lastDown == s.lastDown && q.lowSince == s.lowSince && q.nextId == s.nextId
  {
    assert offered * cfg.dt >= 0.0;
    assert ready as real * cfg.perReplica >= 0.0;
    assert ready as real * cfg.perReplica * cfg.dt >= 0.0;
  }

  /** Scaling keeps the pool between its bounds. */
  lemma DecidedPool(s: Sim, cfg: Config, want: int, ready: nat, starting: nat, jitter: nat -> real)
    requires Sane(cfg) && PoolOk(s, cfg) && cfg.minReplicas <= want <= cfg.maxReplicas
    requires ready == CountServing(s.replicas, s.t) && starting == CountStarting(s.replicas)
    ensures PoolOk(Decided(s, cfg, want, ready, starting, jitter).0, cfg)
    ensures Decided(s, cfg, want, ready, starting, jitter).0.t == s.t
  {
    hide StartReplicas, DrainLast, AllServe;
    StartCounts(s.replicas, MinInt(want - (ready + starting), cfg.maxUpStep), s.nextId, s.t, cfg, jitter);
    var k := SliceSize(ready, MinInt(ready - want, cfg.maxDownStep));
    DrainCounts(s.replicas, k, s.t, s.t + cfg.drain);
    DrainServes(s.replicas, k, s.t, s.t + cfg.drain);
  }

  lemma ArrivedSnoc(trace: seq<Tick>, tick: Tick, dt: real)
    ensures Arrived(trace + [tick], dt) == Arrived(trace, dt) + tick.offered * dt
  {
    assert (trace + [tick])[..|trace|] == trace;
  }

  lemma ConservedSnoc(trace: seq<Tick>, tick: Tick, cfg: Config)
    requires Conserved(trace, cfg)
    requires Arrived(trace, cfg.dt) + tick.offered * cfg.dt == tick.served + tick.dropped + tick.queue
    requires 0.0 <= tick.queue <= cfg.maxQueue
    ensures Conserved(trace + [tick], cfg)
  {
    ArrivedSnoc(trace, tick, cfg.dt);
    hide Arrived;
    var all := trace + [tick];
    forall k | 0 <= k < |all|
      ensures Arrived(all[..k + 1], cfg.dt) == all[k].served + all[k].dropped + all[k].queue
      ensures 0.0 <= all[k].queue <= cfg.maxQueue
    {
      assert all[..k + 1] == if k < |trace| then trace[..k + 1] else all;
    }
  }

  lemma LowSnoc(trace: seq<Tick>, tick: Tick, i: nat, j: nat)
    requires j < |trace| && Low(trace, i, j)
    ensures Low(trace + [tick], i, j)
    ensures j == |trace| - 1 && trace[j].action == Hold && tick.want < tick.ready ==> Low(trace + [tick], i, |trace|)
  {
  }

  lemma StabilisedSnoc(trace: seq<Tick>, tick: Tick, cfg: Config)
    requires Stabilised(trace, cfg)
    requires tick.action.Down? ==> LongLow(trace + [tick], |trace|, cfg)
    ensures Stabilised(trace + [tick], cfg)
  {
    hide Low;
    var all := trace + [tick];
    forall j: nat | j < |all| && all[j].action.Down? ensures LongLow(all, j, cfg) {
      if j < |trace| {
        assert LongLow(trace, j, cfg);
        var i: nat :| i <= j && Low(trace, i, j) && trace[j].t - trace[i].t >= cfg.stabilization;
        LowSnoc(trace, tick, i, j);
      }
    }
  }

  /** Timers after a decision, and what the decision itself had to respect. */
  lemma DecidedTimers(s: Sim, cfg: Config, want: int, ready: nat, starting: nat, jitter: nat -> real, tick: Tick)
    requires TimersOk(s)
    requires
      var d := Decided(s, cfg, want, ready, starting, jitter);
      tick.t == s.t && tick.want == want && tick.ready == ready && tick.action == d.1
    ensures
      var d := Decided(s, cfg, want, ready, starting, jitter).0;
      var all := s.trace + [tick];
      && (forall k :: 0 <= k < |all| && all[k].action.Up? ==> all[k].t <= d.lastUp)
      && (forall k :: 0 <= k < |all| && all[k].action.Down? ==> all[k].t <= d.lastDown)
      && (d.lowSince.Some? ==> LowNow(all, d.lowSince.value))
      && (tick.action.Up? ==> s.t - s.lastUp >= cfg.upCooldown)
      && (tick.action.Down? ==> s.t - s.lastDown >= cfg.downCooldown && LongLow(all, |s.trace|, cfg))
  {
    hide StartReplicas, DrainLast, Low;
    var all := s.trace + [tick];
    if tick.want < tick.ready {
      LowOne(all, |s.trace|);
      if s.lowSince.Some? {
        var i: nat :| i < |s.trace| && s.trace[i].t == s.lowSince.value && Low(s.trace, i, |s.trace| - 1)
                      && s.trace[|s.trace| - 1].action == Hold;
        LowSnoc(s.trace, tick, i, |s.trace| - 1);
        assert all[i].t == s.lowSince.value && Low(all, i, |s.trace|);
      }
    }
  }

  lemma LowOne(trace: seq<Tick>, j: nat)
    requires j < |trace| && trace[j].want < trace[j].ready
    ensures Low(trace, j, j)
  {
  }

  lemma SpacedSnoc(s: Sim, tick: Tick, cfg: Config)
    requires TimersOk(s) && Spaced(s.trace, cfg) && tick.t == s.t
    requires tick.action.Up? ==> s.t - s.lastUp >= cfg.upCooldown
    requires tick.action.Down? ==> s.t - s.lastDown >= cfg.downCooldown
    ensures Spaced(s.trace + [tick], cfg)
  {
    hide LowNow;
  }

  /** Every tick keeps all of it. */
  lemma TickOk(s: Sim, cfg: Config, rate: real, jitter: nat -> real)
    requires Sane(cfg) && SimOk(s, cfg)
    ensures SimOk(TickOnce(s, cfg, rate, jitter), cfg)
  {
    hide StartReplicas, DrainLast, Lifecycle, SignalOf, Predicted, Desired, Window, Arrived,
         CountServing, CountStarting, AllServe, LowNow, Conserved, Sized, Spaced, Stabilised, Queued, Decided;
    var ready, starting := CountServing(s.replicas, s.t), CountStarting(s.replicas);
    var offered := MaxReal(rate, 0.0);
    var (q, done) := Queued(s, cfg, offered, ready);
    var sig := SignalOf(cfg, q.queue, done, offered, ready);
    var hist := Window(s.hist + [(s.t, sig)], s.t);
    var want := Desired(Predicted(cfg, sig, hist), cfg, ready);
    var s1 := q.(hist := hist);
    var d := Decided(s1, cfg, want, ready, starting, jitter);
    var tick := Tick(s.t, offered, q.queue, q.served, q.dropped, sig, want, ready, starting, d.1);
    QueuedOk(s, cfg, offered, ready);
    DesiredBounds(Predicted(cfg, sig, hist), cfg, ready);
    DecidedPool(s1, cfg, want, ready, starting, jitter);
    DecidedTimers(s1, cfg, want, ready, starting, jitter, tick);
    ConservedSnoc(s.trace, tick, cfg);
    ArrivedSnoc(s.trace, tick, cfg.dt);
    SizedSnoc(s.trace, tick, cfg);
    SpacedSnoc(s1, tick, cfg);
    StabilisedSnoc(s.trace, tick, cfg);
    LifecycleCounts(d.0.replicas, s.t, s.t + cfg.dt);
    DecidedSame(s1, cfg, want, ready, starting, jitter);
  }

  lemma SizedSnoc(trace: seq<Tick>, tick: Tick, cfg: Config)
    requires Sized(trace, cfg) && cfg.minReplicas <= tick.ready && tick.ready + tick.starting <= cfg.maxReplicas
    ensures Sized(trace + [tick], cfg)
  {
  }

  lemma DecidedSame(s: Sim, cfg: Config, want: int, ready: nat, starting: nat, jitter: nat -> real)
    ensures
      var d := Decided(s, cfg, want, ready, starting, jitter).0;
      && d.queue == s.queue && d.served == s.served && d.dropped == s.dropped
      && d.trace == s.trace && d.t == s.t && d.hist == s.hist
  {
  }

  // ---- the simulation

  function Start(cfg: Config): Sim {
    Sim(0.0, Initial(cfg.minReplicas), if cfg.minReplicas > 0 then cfg.minReplicas else 0,
        0.0, 0.0, 0.0, NEVER, NEVER, None, [], [])
  }

  lemma {:induction false} InitialCounts(n: int)
    ensures CountServing(Initial(n), 0.0) == if n > 0 then n else 0
    ensures CountStarting(Initial(n)) == 0 && AllServe(Initial(n), 0.0)
  {
    if n > 0 {
      InitialCounts(n - 1);
      CountSnoc(Initial(n - 1), Replica(n - 1, Ready, 0.0, 0.0), 0.0);
    }
  }

  lemma StartOk(cfg: Config)
    requires Sane(cfg)
    ensures SimOk(Start(cfg), cfg)
  {
    InitialCounts(cfg.minReplicas);
  }

  /** Ticks left before the end. */
  function TicksLeft(t: real, duration: real, dt: real): int
    requires dt > 0.0
  {
    ((duration - t) / dt).Floor
  }

  lemma TickPasses(t: real, duration: real, dt: real)
    requires dt > 0.0 && t < duration
    ensures TicksLeft(t, duration, dt) >= 0
    ensures TicksLeft(t + dt, duration, dt) < TicksLeft(t, duration, dt)
  {
    var x := Quotient(duration - t, dt);
    var y := Quotient(duration - (t + dt), dt);
    Apart(x, y, dt, duration - t, duration - (t + dt));
    assert x < 0.0 ==> x * dt < 0.0;
  }

  lemma Quotient(a: real, dt: real) returns (q: real)
    requires dt > 0.0
    ensures q == a / dt && q * dt == a
  {
    q := a / dt;
  }

  lemma Apart(x: real, y: real, dt: real, a: real, b: real)
    requires dt > 0.0 && x * dt == a && y * dt == b && a - b == dt
    ensures y == x - 1.0 && y.Floor == x.Floor - 1
  {
    var z := x - y - 1.0;
    assert z * dt == x * dt - y * dt - dt;
    assert z > 0.0 ==> z * dt > 0.0;
    assert z < 0.0 ==> z * dt < 0.0;
  }

  /** The simulation after `n` ticks. */
  function After(cfg: Config, rate: real -> real, jitter: nat -> real, n: nat): Sim {
    if n == 0 then Start(cfg)
    else var s := After(cfg, rate, jitter, n - 1); TickOnce(s, cfg, rate(s.t), jitter)
  }

  /** Whatever the traffic and the start-up times, every tick of every run leaves the
      simulation sound: one record a tick, at the tick's time and with its traffic. */
  lemma {:induction false} EveryRunSafe(cfg: Config, rate: real -> real, jitter: nat -> real, n: nat)
    requires Sane(cfg)
    ensures
      var s := After(cfg, rate, jitter, n);
      && SimOk(s, cfg) && Safe(s.trace, cfg)
      && |s.trace| == n && s.t == n as real * cfg.dt
      && forall k :: 0 <= k < n ==>
           s.trace[k].t == k as real * cfg.dt && s.trace[k].offered == MaxReal(rate(s.trace[k].t), 0.0)
  {
    hide SimOk, Safe, TickOnce;
    if n == 0 {
      StartOk(cfg);
    } else {
      EveryRunSafe(cfg, rate, jitter, n - 1);
      var s := After(cfg, rate, jitter, n - 1);
      TickOk(s, cfg, rate(s.t), jitter);
      TickRecords(s, cfg, rate(s.t), jitter);
      assert n as real * cfg.dt == (n - 1) as real * cfg.dt + cfg.dt;
    }
    SafeTrace(After(cfg, rate, jitter, n), cfg);
  }

  lemma TickRecords(s: Sim, cfg: Config, rate: real, jitter: nat -> real)
    ensures
      var next := TickOnce(s, cfg, rate, jitter);
      && next.t == s.t + cfg.dt && |next.trace| == |s.trace| + 1 && next.trace[..|s.trace|] == s.trace
      && next.trace[|s.trace|].t == s.t && next.trace[|s.trace|].offered == MaxReal(rate, 0.0)
  {
    hide Queued, SignalOf, Predicted, Desired, Window, CountServing, CountStarting, Decided, Lifecycle;
  }

  lemma AfterUnfolds(cfg: Config, rate: real -> real, jitter: nat -> real, n: nat)
    ensures After(cfg, rate, jitter, 0) == Start(cfg)
    ensures
      var s, next := After(cfg, rate, jitter, n), After(cfg, rate, jitter, n + 1);
      next == TickOnce(s, cfg, rate(s.t), jitter) && next.t == s.t + cfg.dt
  {
    var s := After(cfg, rate, jitter, n);
    TickRecords(s, cfg, rate(s.t), jitter);
  }

  lemma SafeTrace(s: Sim, cfg: Config)
    requires SimOk(s, cfg)
    ensures Safe(s.trace, cfg)
  {
  }

  /** The body of the loop. */
  method TickLoop(s: Sim, cfg: Config, rate: real, jitter: nat -> real) returns (s': Sim)
    ensures s' == TickOnce(s, cfg, rate, jitter)
  {
    hide SignalOf, Predicted, Desired, Window, CountServing, CountStarting, Decided, Lifecycle;
    var ready, starting := CountServing(s.replicas, s.t), CountStarting(s.replicas);
    var offered := MaxReal(rate, 0.0);
    var queue, served, dropped := s.queue + offered * cfg.dt, s.served, s.dropped;
    var done := MinReal(queue, ready as real * cfg.perReplica * cfg.dt);
    queue, served := queue - done, served + done;
    if queue > cfg.maxQueue {
      dropped, queue := dropped + (queue - cfg.maxQueue), cfg.maxQueue;
    }
    var sig := SignalOf(cfg, queue, done, offered, ready);
    var hist := Window(s.hist + [(s.t, sig)], s.t);
    var want := Desired(Predicted(cfg, sig, hist), cfg, ready);
    var d, action := DecideOnce(
      s.(queue := queue, served := served, dropped := dropped, hist := hist), cfg, want, ready, starting, jitter);
    s' := d.(replicas := Lifecycle(d.replicas, s.t), t := s.t + cfg.dt,
             trace := s.trace + [Tick(s.t, offered, queue, served, dropped, sig, want, ready, starting, action)]);
  }

  /** Scale up, scale down, or wait. */
  method DecideOnce(s: Sim, cfg: Config, want: int, ready: nat, starting: nat, jitter: nat -> real)
    returns (d: Sim, action: Action)
    ensures (d, action) == Decided(s, cfg, want, ready, starting, jitter)
  {
    hide DrainLast;
    d, action := s, Hold;
    if want > ready + starting && s.t - s.lastUp >= cfg.upCooldown {
      var add := MinInt(want - (ready + starting), cfg.maxUpStep);
      var replicas, nextId := StartLoop(s.replicas, add, s.nextId, s.t, cfg, jitter);
      d := d.(replicas := replicas, nextId := nextId);
      d := d.(lastUp := s.t, lowSince := None);
      action := Up(add);
    } else if want < ready {
      if s.lowSince.None? {
        d := d.(lowSince := Some(s.t));
      } else if s.t - s.lowSince.value >= cfg.stabilization && s.t - s.lastDown >= cfg.downCooldown {
        var remove := MinInt(ready - want, cfg.maxDownStep);
        d := d.(replicas := DrainLast(s.replicas, SliceSize(ready, remove), s.t, s.t + cfg.drain));
        d := d.(lastDown := s.t, lowSince := None);
        action := Down(remove);
      }
    } else {
      d := d.(lowSince := None);
    }
  }

  method StartLoop(replicas: seq<Replica>, add: int, id: nat, t: real, cfg: Config, jitter: nat -> real)
    returns (r: seq<Replica>, nextId: nat)
    ensures r == StartReplicas(replicas, add, id, t, cfg, jitter)
    ensures nextId == id + if add > 0 then add else 0
  {
    r, nextId := replicas, id;
    var n := add;
    while n > 0
      invariant StartReplicas(r, n, nextId, t, cfg, jitter) == StartReplicas(replicas, add, id, t, cfg, jitter)
      invariant add > 0 ==> n >= 0 && nextId == id + add - n
      invariant add <= 0 ==> n == add && nextId == id && r == replicas
    {
      r := r + [Launched(nextId, t, cfg, jitter)];
      nextId := nextId + 1;
      n := n - 1;
    }
  }

  // ---- step sizes that are not positive

  /** What a scale-down leaves, for every step size: a positive step stops at what is
      wanted, a step of zero or less spares only as many as its negation. */
  lemma ScaleDownLeaves(s: Sim, cfg: Config, want: int, ready: nat, starting: nat, jitter: nat -> real)
    requires ready == CountServing(s.replicas, s.t) && cfg.minReplicas <= want && 0 <= want
    requires Decided(s, cfg, want, ready, starting, jitter).1.Down?
    ensures
      var left := CountServing(Decided(s, cfg, want, ready, starting, jitter).0.replicas, s.t);
      && left == (if cfg.maxDownStep >= 1 then ready - MinInt(ready - want, cfg.maxDownStep)
                  else MinInt(ready, -cfg.maxDownStep))
      && (left >= cfg.minReplicas <==> StepOk(cfg))
  {
    DrainCounts(s.replicas, SliceSize(ready, MinInt(ready - want, cfg.maxDownStep)), s.t, s.t + cfg.drain);
  }

  /** A minimum of one, a scale-down step of zero, and no delays. */
  function ZeroStep(): Config {
    Config(QueueDepth, 1.0, 1, 2, 0.0, 0.0, 0.0, 0.0, 1, 0, 0.0, 1.0, 0.0, 1.0, 1.0, 10.0)
  }

  /** Three requests arrive at the start and none after it. */
  function Burst(t: real): real {
    if t < 1.0 then 3.0 else 0.0
  }

  function NoJitter(id: nat): real {
    1.0
  }

  function Pool(n: nat, status: Status): seq<Replica> {
    if n == 0 then [] else Pool(n - 1, status) + [Replica(n - 1, status, 0.0, if status == Draining then 2.0 else 0.0)]
  }

  /** Two serving replicas and an empty queue. */
  function Idle(t: real, queue: real, served: real, lowSince: Option<real>, hist: seq<(real, real)>, trace: seq<Tick>)
    : Sim {
    Sim(t, Pool(2, Ready), 2, queue, served, 0.0, 0.0, NEVER, lowSince, hist, trace)
  }

  lemma Unrolled()
    ensures Pool(1, Ready) == [Replica(0, Ready, 0.0, 0.0)] && Pool(2, Ready)[..1] == Pool(1, Ready)
    ensures Pool(1, Draining) == [Replica(0, Draining, 0.0, 2.0)] && Pool(2, Draining)[..1] == Pool(1, Draining)
    ensures Pool(1, Ready)[..0] == [] && Pool(1, Draining)[..0] == []
  {
    assert Pool(0, Ready) == [] && Pool(0, Draining) == [];
  }

  lemma PoolCounts(t: real)
    requires t >= 0.0
    ensures CountServing(Pool(2, Ready), t) == 2 && CountStarting(Pool(2, Ready)) == 0
    ensures Lifecycle(Pool(2, Ready), t) == Pool(2, Ready)
  {
    Unrolled();
    assert CountServing(Pool(1, Ready), t) == 1;
    assert CountStarting(Pool(1, Ready)) == 0;
    assert Lifecycle(Pool(1, Ready), t) == Pool(1, Ready);
  }

  lemma PoolDrains()
    ensures DrainLast(Pool(2, Ready), 2, 2.0, 2.0) == Pool(2, Draining) && Lifecycle(Pool(2, Draining), 2.0) == []
  {
    Unrolled();
    assert DrainLast(Pool(1, Ready), 1, 2.0, 2.0) == Pool(1, Draining);
    assert Lifecycle(Pool(1, Draining), 2.0) == [];
  }

  lemma BurstPool(cfg: Config)
    requires cfg == ZeroStep()
    ensures Start(cfg).replicas == [Replica(0, Ready, 0.0, 0.0)]
    ensures CountServing(Start(cfg).replicas, 0.0) == 1 && CountStarting(Start(cfg).replicas) == 0
    ensures Lifecycle(StartReplicas(Start(cfg).replicas, 1, 1, 0.0, cfg, NoJitter), 0.0) == Pool(2, Ready)
  {
    var first, second := Replica(0, Ready, 0.0, 0.0), Replica(1, Starting, 0.0, 0.0);
    assert Initial(0) == [];
    assert [first][..0] == [] && [first, second][..1] == [first];
    assert StartReplicas([first], 1, 1, 0.0, cfg, NoJitter) == [first, second];
    assert Lifecycle([first], 0.0) == [first];
    assert Lifecycle([first, second], 0.0) == [first, Replica(1, Ready, 0.0, 0.0)];
    assert Pool(0, Ready) == [] && Pool(1, Ready) == [first];
  }

  lemma WindowOne(t: real, sig: real)
    ensures Window([(t, sig)], t) == [(t, sig)]
  {
    assert [(t, sig)][1..] == [];
  }

  /** One tick of the undelayed fleet, put together from its parts. */
  lemma TickParts(s: Sim, rate: real, ready: nat, done: real, q: Sim, hist: seq<(real, real)>, want: int,
                  d: Sim, action: Action)
    requires ready == CountServing(s.replicas, s.t) && CountStarting(s.replicas) == 0
    requires Queued(s, ZeroStep(), rate, ready) == (q, done) && rate >= 0.0
    requires Window(s.hist + [(s.t, PerReady(q.queue, ready))], s.t) == hist
    requires Desired(PerReady(q.queue, ready), ZeroStep(), ready) == want
    requires Decided(q.(hist := hist), ZeroStep(), want, ready, 0, NoJitter) == (d, action)
    ensures TickOnce(s, ZeroStep(), rate, NoJitter)
         == d.(replicas := Lifecycle(d.replicas, s.t), t := s.t + 1.0,
               trace := s.trace
                         + [Tick(s.t, rate, q.queue, q.served, q.dropped, PerReady(q.queue, ready), want, ready, 0,
                                 action)])
  {
    hide CountServing, CountStarting, Queued, Window, Desired, Decided, Lifecycle, PerReady;
  }

  lemma DesiredFor(signal: real, ready: pos)
    requires signal == 0.0 || (signal == 2.0 && ready == 1)
    ensures Desired(signal, ZeroStep(), ready) == if signal == 0.0 then 1 else 2
  {
    assert signal / MaxReal(1.0, 0.000000001) == signal;
    assert ready as real * 0.0 == 0.0;
    assert Ceil(0.0) == 0 && Ceil(2.0) == 2;
  }

  lemma QueuedFor(s: Sim, rate: real, ready: nat)
    requires (s.queue == 0.0 && rate == 3.0 && ready == 1) || (s.queue <= 2.0 && rate == 0.0 && ready == 2)
    requires s.queue >= 0.0
    ensures Queued(s, ZeroStep(), rate, ready)
         == (if ready == 1 then (s.(served := s.served + 1.0, queue := 2.0), 1.0)
             else (s.(served := s.served + s.queue, queue := 0.0), s.queue))
  {
    assert rate * 1.0 == rate && ready as real * 1.0 * 1.0 == ready as real;
  }

  lemma BurstDecided(s: Sim) returns (d: Sim)
    requires s.t == 0.0 && s.lastUp == NEVER && s.nextId == 1 && s.lowSince == None
    ensures d == s.(replicas := StartReplicas(s.replicas, 1, 1, 0.0, ZeroStep(), NoJitter), nextId := 2, lastUp := 0.0)
    ensures Decided(s, ZeroStep(), 2, 1, 0, NoJitter) == (d, Up(1))
  {
    hide StartReplicas;
    d := s.(replicas := StartReplicas(s.replicas, 1, 1, 0.0, ZeroStep(), NoJitter), nextId := 2, lastUp := 0.0);
  }

  /** The burst brings a second replica. */
  lemma BurstTick() returns (tick: Tick)
    ensures TickOnce(Start(ZeroStep()), ZeroStep(), 3.0, NoJitter)
         == Idle(1.0, 2.0, 1.0, None, [(0.0, 2.0)], [tick])
  {
    BurstPool(ZeroStep());
    var s, hist := Start(ZeroStep()), [(0.0, 2.0)];
    var q := s.(served := 1.0, queue := 2.0);
    QueuedFor(s, 3.0, 1);
    WindowOne(0.0, 2.0);
    DesiredFor(2.0, 1);
    hide TickOnce, Queued, Pool, CountServing, CountStarting, Lifecycle, Window, StartReplicas, Initial, Desired,
         Decided;
    assert [] + hist == hist && PerReady(2.0, 1) == 2.0;
    var d := BurstDecided(q.(hist := hist));
    TickParts(s, 3.0, 1, 1.0, q, hist, 2, d, Up(1));
    tick := Tick(0.0, 3.0, 2.0, 1.0, 0.0, 2.0, 2, 1, 0, Up(1));
    assert [] + [tick] == [tick];
  }

  lemma QuietDecided(s: Sim)
    requires s.lowSince == None
    ensures Decided(s, ZeroStep(), 1, 2, 0, NoJitter) == (s.(lowSince := Some(s.t)), Hold)
  {
    hide StartReplicas, DrainLast;
  }

  lemma DrainDecided(s: Sim)
    requires s.lowSince == Some(1.0) && s.t == 2.0 && s.lastDown == NEVER
    ensures Decided(s, ZeroStep(), 1, 2, 0, NoJitter)
         == (s.(replicas := DrainLast(s.replicas, 2, 2.0, 2.0), lastDown := 2.0, lowSince := None), Down(0))
  {
    hide StartReplicas, DrainLast;
  }

  /** With the queue served, one replica would do; nothing happens yet. */
  lemma QuietTick(before: Tick) returns (tick: Tick)
    ensures TickOnce(Idle(1.0, 2.0, 1.0, None, [(0.0, 2.0)], [before]), ZeroStep(), 0.0, NoJitter)
         == Idle(2.0, 0.0, 3.0, Some(1.0), [(0.0, 2.0), (1.0, 0.0)], [before, tick])
  {
    PoolCounts(1.0);
    var s, hist := Idle(1.0, 2.0, 1.0, None, [(0.0, 2.0)], [before]), [(0.0, 2.0), (1.0, 0.0)];
    var q := s.(served := 3.0, queue := 0.0);
    QueuedFor(s, 0.0, 2);
    WindowTwo();
    DesiredFor(0.0, 2);
    hide TickOnce, Queued, Pool, CountServing, CountStarting, Lifecycle, Window, Desired, Decided;
    assert PerReady(0.0, 2) == 0.0;
    var d := q.(hist := hist, lowSince := Some(1.0));
    QuietDecided(q.(hist := hist));
    TickParts(s, 0.0, 2, 2.0, q, hist, 1, d, Hold);
    tick := Tick(1.0, 0.0, 0.0, 3.0, 0.0, 0.0, 1, 2, 0, Hold);
    PairOf(before, tick);
  }

  lemma PairOf<T>(a: T, b: T)
    ensures [a] + [b] == [a, b]
  {
  }

  lemma WindowTwo()
    ensures Window([(0.0, 2.0)] + [(1.0, 0.0)], 1.0) == [(0.0, 2.0), (1.0, 0.0)]
  {
    assert [(0.0, 2.0)] + [(1.0, 0.0)] == [(0.0, 2.0), (1.0, 0.0)];
    assert [(0.0, 2.0), (1.0, 0.0)][1..] == [(1.0, 0.0)];
    WindowOne(1.0, 0.0);
  }

  /** Then the scale-down drains them both. */
  lemma DrainTick(before: seq<Tick>) returns (tick: Tick)
    ensures tick.action == Down(0) && tick.ready == 2
    ensures
      var s := TickOnce(Idle(2.0, 0.0, 3.0, Some(1.0), [(0.0, 2.0), (1.0, 0.0)], before), ZeroStep(), 0.0, NoJitter);
      s.trace == before + [tick] && s.replicas == [] && s.t == 3.0
  {
    PoolCounts(2.0);
    PoolDrains();
    var s := Idle(2.0, 0.0, 3.0, Some(1.0), [(0.0, 2.0), (1.0, 0.0)], before);
    var hist := Window(s.hist + [(2.0, 0.0)], 2.0);
    QueuedFor(s, 0.0, 2);
    DesiredFor(0.0, 2);
    hide TickOnce, Queued, Pool, CountServing, CountStarting, Lifecycle, Window, DrainLast, Desired,
         Decided;
    assert PerReady(0.0, 2) == 0.0;
    var d := s.(hist := hist, replicas := DrainLast(s.replicas, 2, 2.0, 2.0), lastDown := 2.0, lowSince := None);
    DrainDecided(s.(hist := hist));
    TickParts(s, 0.0, 2, 0.0, s, hist, 1, d, Down(0));
    tick := Tick(2.0, 0.0, 0.0, 3.0, 0.0, 0.0, 1, 2, 0, Down(0));
  }

  /** After a single burst the pool is drained below its minimum. */
  lemma ZeroStepRun()
    ensures
      var trace := After(ZeroStep(), Burst, NoJitter, 4).trace;
      |trace| == 4 && trace[2].action == Down(0) && trace[2].ready == 2 && trace[3].ready == 0 < ZeroStep().minReplicas
  {
    hide TickOnce, Pool;
    var burst := BurstTick();
    var quiet := QuietTick(burst);
    var drain := DrainTick([burst, quiet]);
    var s := After(ZeroStep(), Burst, NoJitter, 3);
    assert s.trace == [burst, quiet] + [drain] == [burst, quiet, drain];
    EmptyTick(s);
  }

  lemma EmptyTick(s: Sim)
    requires s.replicas == []
    ensures
      var trace := TickOnce(s, ZeroStep(), 0.0, NoJitter).trace;
      |trace| == |s.trace| + 1 && trace[..|s.trace|] == s.trace && trace[|s.trace|].ready == 0
  {
  }
}
