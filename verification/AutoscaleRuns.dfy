/** What every tick of a simulated run does, told from the ticks before it: how the
    queue flows, what is measured and wanted, what is decided, and how many replicas
    serve and start. */
module AutoscaleRuns {
  import opened Lists
  import opened Autoscale

  // ---- the queue

  function LastQueue(before: seq<Tick>): real {
    if before == [] then 0.0 else before[|before| - 1].queue
  }

  function LastServed(before: seq<Tick>): real {
    if before == [] then 0.0 else before[|before| - 1].served
  }

  function LastDropped(before: seq<Tick>): real {
    if before == [] then 0.0 else before[|before| - 1].dropped
  }

  /** The ready replicas serve all there is or all they can, and only what the queue
      cannot hold is dropped. */
  ghost predicate Flows(before: seq<Tick>, x: Tick, cfg: Config) {
    var there, able := LastQueue(before) + x.offered * cfg.dt, x.ready as real * cfg.perReplica * cfg.dt;
    var done, lost := x.served - LastServed(before), x.dropped - LastDropped(before);
    && done <= there && done <= able && (done == there || done == able)
    && there == done + lost + x.queue
    && lost >= 0.0 && x.queue <= cfg.maxQueue && (lost > 0.0 ==> x.queue == cfg.maxQueue)
  }

  lemma QueuedFlows(s: Sim, cfg: Config, x: Tick)
    requires s.queue == LastQueue(s.trace) && s.served == LastServed(s.trace) && s.dropped == LastDropped(s.trace)
    requires
      var q := Queued(s, cfg, x.offered, x.ready).0;
      x.queue == q.queue && x.served == q.served && x.dropped == q.dropped
    ensures Flows(s.trace, x, cfg)
    ensures Queued(s, cfg, x.offered, x.ready).1 == x.served - LastServed(s.trace)
  {
  }

  // ---- what is measured

  const TINY := 0.000000001

  function AtLeastOne(n: nat): (d: nat)
    ensures d >= 1 && d >= n && (d == 1 || d == n)
  {
    if n > 1 then n else 1
  }

  function AtLeastTiny(x: real): (r: real)
    ensures r >= TINY && r >= x && (r == TINY || r == x)
  {
    if x >= TINY then x else TINY
  }

  /** Full from 35% of the capacity on, and blind to the queue. */
  ghost predicate Utilised(x: Tick, cfg: Config) {
    var capacity := x.ready as real * cfg.perReplica;
    if capacity > 0.0 && x.offered > capacity * 0.35 then x.signal == 100.0
    else
      var c := AtLeastTiny(capacity);
      && x.signal <= 100.0 && x.signal * c <= 100.0 * x.offered
      && (x.signal == 100.0 || x.signal * c == 100.0 * x.offered)
  }

  ghost predicate IsLesser(x: real, a: real, b: real) {
    x <= a && x <= b && (x == a || x == b)
  }

  /** Queue depth and running requests are per ready replica; latency rises with the
      queue alone. */
  ghost predicate Measures(before: seq<Tick>, x: Tick, cfg: Config) {
    var per := AtLeastOne(x.ready) as real;
    match cfg.signal
    case QueueDepth => x.signal * per == x.queue
    case RunningRequests =>
      IsLesser(x.signal * per, x.queue + (x.served - LastServed(before)), 64.0 * x.ready as real)
    case TtftP95 => (x.signal - 50.0) * per == 120.0 * x.queue
    case GpuUtil => Utilised(x, cfg)
  }

  lemma Share(x: real, d: real) returns (q: real)
    requires d > 0.0
    ensures q == x / d && q * d == x
  {
    q := x / d;
  }

  lemma PerReadyTimes(x: real, ready: nat)
    ensures PerReady(x, ready) * AtLeastOne(ready) as real == x
  {
    var q := Share(x, AtLeastOne(ready) as real);
  }

  lemma UtilTimes(u: real, offered: real, c: real)
    requires c > 0.0 && u * c == offered
    ensures MinReal(u, 1.0) * 100.0 * c <= 100.0 * offered
    ensures u <= 1.0 ==> u * 100.0 * c == 100.0 * offered
  {
    assert u > 1.0 ==> (u - 1.0) * c > 0.0;
  }

  lemma UtilMeasures(x: Tick, cfg: Config, done: real)
    requires cfg.signal == GpuUtil && x.signal == SignalOf(cfg, x.queue, done, x.offered, x.ready)
    ensures Utilised(x, cfg)
  {
    var capacity := x.ready as real * cfg.perReplica;
    var c := AtLeastTiny(capacity);
    var u := Share(x.offered, c);
    UtilTimes(u, x.offered, c);
    assert MaxReal(capacity, TINY) == c;
  }

  lemma TtftTimes(q: real, d: real, queue: real)
    requires q * d == queue
    ensures (50.0 + q * 120.0 - 50.0) * d == 120.0 * queue
  {
  }

  lemma SignalMeasures(before: seq<Tick>, x: Tick, cfg: Config)
    requires x.signal == SignalOf(cfg, x.queue, x.served - LastServed(before), x.offered, x.ready)
    ensures Measures(before, x, cfg)
  {
    hide PerReady, AtLeastOne, AtLeastTiny, LastServed, Utilised;
    var done, per := x.served - LastServed(before), AtLeastOne(x.ready) as real;
    if cfg.signal == GpuUtil {
      UtilMeasures(x, cfg, done);
    } else if cfg.signal == RunningRequests {
      PerReadyTimes(MinReal(x.queue + done, (x.ready * 64) as real), x.ready);
    } else {
      PerReadyTimes(x.queue, x.ready);
      TtftTimes(PerReady(x.queue, x.ready), per, x.queue);
    }
  }

  // ---- what is wanted

  /** The first tick of the two minutes that end with tick k. */
  ghost predicate Opens(ticks: seq<Tick>, f: nat, k: nat)
    requires k < |ticks|
  {
    f <= k && ticks[f].t >= ticks[k].t - 120.0 && (f == 0 || ticks[f - 1].t < ticks[k].t - 120.0)
  }

  /** The signal a scaler with a horizon acts on: once four ticks fall within two
      minutes and the signal has risen over them, it is taken to rise on as fast. */
  ghost predicate Extrapolates(ticks: seq<Tick>, f: nat, k: nat, horizon: real, e: real)
    requires f <= k < |ticks|
  {
    var rise := ticks[k].signal - ticks[f].signal;
    if horizon > 0.0 && k - f >= 3 && rise > 0.0
    then (e - ticks[k].signal) * AtLeastTiny(ticks[k].t - ticks[f].t) == rise * horizon
    else e == ticks[k].signal
  }

  /** As many as keep the signal on target, and no more: the least number between the
      bounds at which the ready replicas' signal, with headroom, is within the target. */
  ghost predicate Wants(want: int, ready: nat, e: real, cfg: Config) {
    var demand, target := AtLeastOne(ready) as real * e * cfg.headroom, AtLeastTiny(cfg.target);
    && want >= cfg.minReplicas && (want <= cfg.maxReplicas || want == cfg.minReplicas)
    && (want < cfg.maxReplicas ==> want as real * target >= demand)
    && (want > cfg.minReplicas ==> (want - 1) as real * target < demand)
  }

  ghost predicate WantsAt(ticks: seq<Tick>, k: nat, cfg: Config)
    requires k < |ticks|
  {
    exists f: nat, e: real ::
      Opens(ticks, f, k) && Extrapolates(ticks, f, k, cfg.horizon, e) && Wants(ticks[k].want, ticks[k].ready, e, cfg)
  }

  lemma CeilOf(y: real)
    ensures Ceil(y) as real >= y > (Ceil(y) - 1) as real
  {
  }

  lemma CompareTimes(n: real, y: real, d: real)
    requires d > 0.0
    ensures n >= y <==> n * d >= y * d
  {
    assert n >= y ==> (n - y) * d >= 0.0;
    assert n < y ==> (y - n) * d > 0.0;
  }

  lemma Demand(r: real, ratio: real, h: real, e: real, d: real)
    requires ratio * d == e
    ensures r * ratio * h * d == r * e * h
  {
    assert r * ratio * h * d == r * (ratio * d) * h;
  }

  /** Clamping the least integer that is enough. */
  lemma Clamped(want: int, n: int, y: real, d: real, demand: real, ready: nat, e: real, cfg: Config)
    requires d == AtLeastTiny(cfg.target) && demand == AtLeastOne(ready) as real * e * cfg.headroom && y * d == demand
    requires n as real >= y > (n - 1) as real
    requires want == var capped := MinInt(cfg.maxReplicas, n);
                     if capped > cfg.minReplicas then capped else cfg.minReplicas
    ensures Wants(want, ready, e, cfg)
  {
    hide AtLeastTiny, AtLeastOne;
    Enough(want, n, y, d);
    Enough(want - 1, n, y, d);
  }

  lemma DesiredIs(e: real, cfg: Config, ready: nat, r: real, ratio: real)
    requires r == AtLeastOne(ready) as real && ratio == e / AtLeastTiny(cfg.target)
    ensures Desired(e, cfg, ready)
         == var capped := MinInt(cfg.maxReplicas, Ceil(r * ratio * cfg.headroom));
            if capped > cfg.minReplicas then capped else cfg.minReplicas
  {
    assert MaxReal(cfg.target, 0.000000001) == AtLeastTiny(cfg.target);
    assert e / MaxReal(cfg.target, 0.000000001) == ratio;
    assert (if ready > 1 then ready else 1) as real == r;
  }

  /** The arithmetic of the scaler: an integer is enough exactly when it is at least
      the quotient rounded up. */
  lemma DesiredWants(e: real, cfg: Config, ready: nat)
    ensures Wants(Desired(e, cfg, ready), ready, e, cfg)
  {
    hide Wants, Ceil;
    var d, r := AtLeastTiny(cfg.target), AtLeastOne(ready) as real;
    var ratio := Share(e, d);
    var y := r * ratio * cfg.headroom;
    Demand(r, ratio, cfg.headroom, e, d);
    CeilOf(y);
    DesiredIs(e, cfg, ready, r, ratio);
    Clamped(Desired(e, cfg, ready), Ceil(y), y, d, r * e * cfg.headroom, ready, e, cfg);
  }

  lemma Enough(k: int, n: int, y: real, d: real)
    requires d > 0.0 && n as real >= y > (n - 1) as real
    ensures k >= n <==> k as real * d >= y * d
  {
    CompareTimes(k as real, y, d);
    assert k >= n ==> k as real >= n as real;
    assert k < n ==> k as real <= (n - 1) as real;
  }

  /** A signal that, with headroom, is over the target never asks for fewer than are
      ready, unless the maximum is fewer. */
  lemma NeverFewer(want: int, ready: nat, e: real, cfg: Config)
    requires Wants(want, ready, e, cfg) && e * cfg.headroom >= AtLeastTiny(cfg.target)
    ensures want >= ready || want >= cfg.maxReplicas
  {
    if ready > 0 {
      var d, x := AtLeastTiny(cfg.target), e * cfg.headroom;
      assert ready as real * e * cfg.headroom == ready as real * x;
      CompareTimes(x, d, ready as real);
      CompareTimes(want as real, ready as real, d);
    }
  }

  lemma PredictedExtrapolates(ticks: seq<Tick>, f: nat, k: nat, cfg: Config, hist: seq<(real, real)>)
    requires f <= k < |ticks| && |hist| == k + 1 - f
    requires hist[0] == (ticks[f].t, ticks[f].signal) && hist[|hist| - 1] == (ticks[k].t, ticks[k].signal)
    ensures Extrapolates(ticks, f, k, cfg.horizon, Predicted(cfg, ticks[k].signal, hist))
  {
    if cfg.horizon > 0.0 && k - f >= 3 {
      var rise, span := ticks[k].signal - ticks[f].signal, AtLeastTiny(ticks[k].t - ticks[f].t);
      var slope := Share(rise, span);
      Slopes(slope, rise, span, cfg.horizon);
      assert MaxReal(ticks[k].t - ticks[f].t, TINY) == span;
    }
  }

  lemma Slopes(slope: real, rise: real, span: real, horizon: real)
    requires span > 0.0 && slope * span == rise && horizon > 0.0
    ensures slope * horizon * span == rise * horizon
    ensures slope * horizon > 0.0 <==> rise > 0.0
  {
    assert slope > 0.0 ==> slope * span > 0.0 && slope * horizon > 0.0;
    assert slope <= 0.0 ==> slope * span <= 0.0 && slope * horizon <= 0.0;
    assert slope * horizon * span == (slope * span) * horizon;
  }

  // ---- the window of the history

  /** What is kept of the ticks from f on. */
  function PairsFrom(ticks: seq<Tick>, f: nat): (r: seq<(real, real)>)
    requires f <= |ticks|
    ensures |r| == |ticks| - f
  {
    seq(|ticks| - f, i requires 0 <= i < |ticks| - f => (ticks[f + i].t, ticks[f + i].signal))
  }

  lemma PairsAt(ticks: seq<Tick>, f: nat, i: nat)
    requires f + i < |ticks|
    ensures PairsFrom(ticks, f)[i] == (ticks[f + i].t, ticks[f + i].signal)
  {
  }

  lemma PairsDrop(ticks: seq<Tick>, f: nat, n: nat)
    requires f + n <= |ticks|
    ensures PairsFrom(ticks, f)[n..] == PairsFrom(ticks, f + n)
  {
    var a, b := PairsFrom(ticks, f)[n..], PairsFrom(ticks, f + n);
    forall i | 0 <= i < |b| ensures a[i] == b[i] {
      PairsAt(ticks, f, n + i);
      PairsAt(ticks, f + n, i);
    }
    hide PairsFrom;
  }

  lemma PairsSnoc(ticks: seq<Tick>, x: Tick, f: nat)
    requires f <= |ticks|
    ensures PairsFrom(ticks + [x], f) == PairsFrom(ticks, f) + [(x.t, x.signal)]
  {
  }

  lemma PairsRise(ticks: seq<Tick>, f: nat)
    requires f <= |ticks| && Rising(ticks)
    ensures forall i, j :: 0 <= i < j < |PairsFrom(ticks, f)| ==> PairsFrom(ticks, f)[i].0 < PairsFrom(ticks, f)[j].0
  {
  }

  ghost predicate Rising(ticks: seq<Tick>) {
    forall i, j :: 0 <= i < j < |ticks| ==> ticks[i].t < ticks[j].t
  }

  /** On times in order the window drops a prefix. */
  lemma {:induction false} WindowIs(hist: seq<(real, real)>, t: real) returns (n: nat)
    requires forall i, j :: 0 <= i < j < |hist| ==> hist[i].0 < hist[j].0
    ensures n <= |hist| && Window(hist, t) == hist[n..]
    ensures (n < |hist| ==> hist[n].0 >= t - 120.0) && (n > 0 ==> hist[n - 1].0 < t - 120.0)
  {
    if hist == [] {
      n := 0;
    } else {
      var m := WindowIs(hist[1..], t);
      if hist[0].0 >= t - 120.0 {
        n := 0;
        assert hist[1..][0..] == hist[1..];
      } else {
        n := m + 1;
      }
    }
  }

  // ---- what is decided

  /** When the latest scale-up, or scale-down, was. */
  function LastAction(ticks: seq<Tick>, up: bool): real {
    if ticks == [] then NEVER
    else
      var last := ticks[|ticks| - 1];
      if (if up then last.action.Up? else last.action.Down?) then last.t else LastAction(ticks[..|ticks| - 1], up)
  }

  /** Since when, up to the last tick, fewer were wanted than were ready and nothing was
      done about it. */
  function LowSince(ticks: seq<Tick>): Option<real> {
    if ticks == [] then None
    else
      var last, init := ticks[|ticks| - 1], LowSince(ticks[..|ticks| - 1]);
      if last.want < last.ready && last.action == Hold then if init.Some? then init else Some(last.t) else None
  }

  ghost predicate LesserInt(x: int, a: int, b: int) {
    x <= a && x <= b && (x == a || x == b)
  }

  /** Up when more are wanted than there are and the last time is long enough ago; down
      when fewer are wanted than are ready, have been for long enough, and the last
      time is long enough ago; each by the difference or the step, the lesser. */
  ghost predicate Decides(before: seq<Tick>, x: Tick, cfg: Config) {
    var total, low := x.ready + x.starting, LowSince(before);
    if x.want > total && x.t - LastAction(before, true) >= cfg.upCooldown then
      x.action.Up? && LesserInt(x.action.added, x.want - total, cfg.maxUpStep)
    else if x.want < x.ready && low.Some? && x.t - low.value >= cfg.stabilization
            && x.t - LastAction(before, false) >= cfg.downCooldown then
      x.action.Down? && LesserInt(x.action.removed, x.ready - x.want, cfg.maxDownStep)
    else x.action == Hold
  }

  ghost predicate TimersAgree(s: Sim) {
    s.lastUp == LastAction(s.trace, true) && s.lastDown == LastAction(s.trace, false) && s.lowSince == LowSince(s.trace)
  }

  lemma ActionsSnoc(ticks: seq<Tick>, x: Tick)
    ensures LastAction(ticks + [x], true) == if x.action.Up? then x.t else LastAction(ticks, true)
    ensures LastAction(ticks + [x], false) == if x.action.Down? then x.t else LastAction(ticks, false)
    ensures LowSince(ticks + [x]) ==
            if x.want < x.ready && x.action == Hold
            then if LowSince(ticks).Some? then LowSince(ticks) else Some(x.t) else None
  {
    assert (ticks + [x])[..|ticks|] == ticks;
  }

  lemma DecidedDecides(s: Sim, cfg: Config, x: Tick, jitter: nat -> real)
    requires TimersAgree(s) && x.t == s.t && x.action == Decided(s, cfg, x.want, x.ready, x.starting, jitter).1
    ensures Decides(s.trace, x, cfg)
    ensures
      var d := Decided(s, cfg, x.want, x.ready, x.starting, jitter).0;
      TimersAgree(d.(trace := s.trace + [x]))
  {
    hide StartReplicas, DrainLast, LastAction, LowSince;
    ActionsSnoc(s.trace, x);
  }

  // ---- how many serve and start

  function Initially(cfg: Config): nat {
    if cfg.minReplicas > 0 then cfg.minReplicas else 0
  }

  /** When each replica started so far is to be ready, in the order they were started. */
  function Launches(ticks: seq<Tick>, cfg: Config, jitter: nat -> real): seq<real> {
    if ticks == [] then []
    else
      var x, init := ticks[|ticks| - 1], Launches(ticks[..|ticks| - 1], cfg, jitter);
      init + (if x.action.Up? then ReadyTimes(x.action.added, Initially(cfg) + |init|, x.t, cfg, jitter) else [])
  }

  /** A cold start each, drawn out by its own factor. */
  function ReadyTimes(n: int, id: nat, t: real, cfg: Config, jitter: nat -> real): (r: seq<real>)
    ensures |r| == if n > 0 then n else 0
    ensures forall i :: 0 <= i < |r| ==> r[i] == t + cfg.coldStart * jitter(id + i)
  {
    seq(if n > 0 then n else 0, i requires 0 <= i => t + cfg.coldStart * jitter(id + i))
  }

  /** The times after `t`. */
  function Later(times: seq<real>, t: real): seq<real> {
    if times == [] then [] else (if times[0] > t then [times[0]] else []) + Later(times[1..], t)
  }

  /** How many a scale-down by `r` takes of `n` in service, `r` at the end of a slice. */
  function Taken(r: int, n: nat): nat {
    if r == 0 || r >= n then n else if r > 0 then r else if n + r > 0 then n + r else 0
  }

  function Removed(ticks: seq<Tick>): nat {
    if ticks == [] then 0
    else
      var x := ticks[|ticks| - 1];
      Removed(ticks[..|ticks| - 1]) + if x.action.Down? then Taken(x.action.removed, x.ready) else 0
  }

  /** A replica is starting until the first tick at or after its time is over, and then
      serves until it is removed. */
  ghost predicate Counts(before: seq<Tick>, x: Tick, cfg: Config, jitter: nat -> real) {
    var launches := Launches(before, cfg, jitter);
    && x.starting == (if before == [] then 0 else |Later(launches, before[|before| - 1].t)|)
    && x.ready + x.starting + Removed(before) == Initially(cfg) + |launches|
  }

  // ---- the replicas count along

  function StartingAts(replicas: seq<Replica>): seq<real> {
    if replicas == [] then []
    else
      var last := replicas[|replicas| - 1];
      StartingAts(replicas[..|replicas| - 1]) + if last.status == Starting then [last.readyAt] else []
  }

  lemma {:induction false} StartingCount(replicas: seq<Replica>)
    ensures CountStarting(replicas) == |StartingAts(replicas)|
  {
    if replicas != [] {
      StartingCount(replicas[..|replicas| - 1]);
    }
  }

  lemma StartingSnoc(replicas: seq<Replica>, r: Replica)
    ensures StartingAts(replicas + [r]) == StartingAts(replicas) + if r.status == Starting then [r.readyAt] else []
  {
    assert (replicas + [r])[..|replicas|] == replicas;
  }

  lemma ReadyFirst(n: int, id: nat, t: real, cfg: Config, jitter: nat -> real)
    requires n > 0
    ensures ReadyTimes(n, id, t, cfg, jitter)
         == [Launched(id, t, cfg, jitter).readyAt] + ReadyTimes(n - 1, id + 1, t, cfg, jitter)
  {
    var all, rest := ReadyTimes(n, id, t, cfg, jitter), ReadyTimes(n - 1, id + 1, t, cfg, jitter);
    assert all[0] == t + cfg.coldStart * jitter(id + 0) && id + 0 == id;
    forall i | 0 <= i < n - 1 ensures all[i + 1] == rest[i] {
      assert id + (i + 1) == (id + 1) + i;
    }
    hide ReadyTimes;
    assert all == [all[0]] + rest;
  }

  lemma {:induction false} StartsAt(replicas: seq<Replica>, n: int, id: nat, t: real, cfg: Config, jitter: nat -> real)
    ensures StartingAts(StartReplicas(replicas, n, id, t, cfg, jitter))
         == StartingAts(replicas) + ReadyTimes(n, id, t, cfg, jitter)
    decreases n
  {
    if n > 0 {
      var r := Launched(id, t, cfg, jitter);
      StartingSnoc(replicas, r);
      StartsAt(replicas + [r], n - 1, id + 1, t, cfg, jitter);
      ReadyFirst(n, id, t, cfg, jitter);
    }
  }

  lemma {:induction false} DrainStarting(replicas: seq<Replica>, k: nat, t: real, until: real)
    ensures StartingAts(DrainLast(replicas, k, t, until)) == StartingAts(replicas)
  {
    if replicas != [] {
      var init, last := replicas[..|replicas| - 1], replicas[|replicas| - 1];
      if k > 0 && Serving(last, t) {
        DrainStarting(init, k - 1, t, until);
        StartingSnoc(DrainLast(init, k - 1, t, until), last.(status := Draining, drainUntil := until));
      } else {
        DrainStarting(init, k, t, until);
        StartingSnoc(DrainLast(init, k, t, until), last);
      }
    }
  }

  lemma {:induction false} LaterAppend(a: seq<real>, b: seq<real>, t: real)
    ensures Later(a + b, t) == Later(a, t) + Later(b, t)
  {
    if a == [] {
      assert a + b == b;
    } else {
      assert (a + b)[1..] == a[1..] + b;
      LaterAppend(a[1..], b, t);
    }
  }

  lemma {:induction false} LaterTwice(a: seq<real>, t: real, u: real)
    requires t <= u
    ensures Later(Later(a, t), u) == Later(a, u)
  {
    if a != [] {
      LaterTwice(a[1..], t, u);
      var rest := Later(a[1..], t);
      if a[0] > t {
        assert Later(a, t) == [a[0]] + rest && ([a[0]] + rest)[1..] == rest;
      } else {
        assert Later(a, t) == rest && Later(a, u) == Later(a[1..], u);
      }
    }
  }

  lemma {:induction false} LifecycleStarting(replicas: seq<Replica>, t: real)
    ensures StartingAts(Lifecycle(replicas, t)) == Later(StartingAts(replicas), t)
  {
    if replicas != [] {
      var init, last := replicas[..|replicas| - 1], replicas[|replicas| - 1];
      LifecycleStarting(init, t);
      LaterAppend(StartingAts(init), if last.status == Starting then [last.readyAt] else [], t);
      LaterOne(last.readyAt, t);
      if last.status == Draining && t >= last.drainUntil {
        assert Lifecycle(replicas, t) == Lifecycle(init, t);
      } else {
        StartingSnoc(Lifecycle(init, t), Advanced(last, t));
      }
    }
  }

  lemma LaterOne(x: real, t: real)
    ensures Later([x], t) == if x > t then [x] else []
    ensures Later([], t) == []
  {
    assert [x][1..] == [];
  }

  ghost predicate FleetAgrees(s: Sim, cfg: Config, jitter: nat -> real) {
    var launches := Launches(s.trace, cfg, jitter);
    && AllServe(s.replicas, s.t)
    && s.nextId == Initially(cfg) + |launches|
    && StartingAts(s.replicas) == (if s.trace == [] then [] else Later(launches, s.trace[|s.trace| - 1].t))
    && CountServing(s.replicas, s.t) + CountStarting(s.replicas) + Removed(s.trace) == Initially(cfg) + |launches|
  }

  lemma FleetCounts(s: Sim, cfg: Config, jitter: nat -> real, x: Tick)
    requires FleetAgrees(s, cfg, jitter)
    requires x.ready == CountServing(s.replicas, s.t) && x.starting == CountStarting(s.replicas)
    ensures Counts(s.trace, x, cfg, jitter)
  {
    StartingCount(s.replicas);
    hide StartingAts, CountStarting, CountServing, Later, Launches, Removed, AllServe;
  }

  lemma FleetSnoc(ticks: seq<Tick>, x: Tick, cfg: Config, jitter: nat -> real)
    ensures
      var launches := Launches(ticks, cfg, jitter);
      Launches(ticks + [x], cfg, jitter)
      == launches
         + if x.action.Up? then ReadyTimes(x.action.added, Initially(cfg) + |launches|, x.t, cfg, jitter) else []
    ensures Removed(ticks + [x]) == Removed(ticks) + if x.action.Down? then Taken(x.action.removed, x.ready) else 0
  {
    hide ReadyTimes, Taken, Initially;
    assert (ticks + [x])[..|ticks|] == ticks && (ticks + [x])[|ticks|] == x;
  }

  lemma TakenIs(r: int, n: nat)
    ensures Taken(r, n) == if SliceSize(n, r) <= n then SliceSize(n, r) else n
  {
  }

  /** What deciding does to the fleet. */
  lemma DecidedFleet(s: Sim, cfg: Config, x: Tick, jitter: nat -> real)
    requires FleetAgrees(s, cfg, jitter) && x.t == s.t && x.ready == CountServing(s.replicas, s.t)
    requires x.action == Decided(s, cfg, x.want, x.ready, x.starting, jitter).1
    ensures
      var d := Decided(s, cfg, x.want, x.ready, x.starting, jitter).0;
      var launches := Launches(s.trace + [x], cfg, jitter);
      && AllServe(d.replicas, s.t) && d.nextId == Initially(cfg) + |launches|
      && StartingAts(d.replicas) == StartingAts(s.replicas) + launches[|Launches(s.trace, cfg, jitter)|..]
      && CountServing(d.replicas, s.t) + CountStarting(d.replicas) + Removed(s.trace + [x])
         == Initially(cfg) + |launches|
  {
    FleetSnoc(s.trace, x, cfg, jitter);
    hide StartReplicas, DrainLast, AllServe, CountServing, CountStarting, StartingAts, Launches, Removed, ReadyTimes;
    if x.action.Up? {
      StartCounts(s.replicas, x.action.added, s.nextId, s.t, cfg, jitter);
      StartsAt(s.replicas, x.action.added, s.nextId, s.t, cfg, jitter);
    } else if x.action.Down? {
      var k := SliceSize(x.ready, x.action.removed);
      DrainCounts(s.replicas, k, s.t, s.t + cfg.drain);
      DrainServes(s.replicas, k, s.t, s.t + cfg.drain);
      DrainStarting(s.replicas, k, s.t, s.t + cfg.drain);
      TakenIs(x.action.removed, x.ready);
    }
  }

  /** ... and what the rest of the tick does. */
  lemma FleetMoves(was: Sim, cfg: Config, x: Tick, jitter: nat -> real, replicas: seq<Replica>, s: Sim)
    requires FleetAgrees(was, cfg, jitter) && x.t == was.t && cfg.dt > 0.0
    requires was.trace != [] ==> was.trace[|was.trace| - 1].t <= was.t
    requires s.trace == was.trace + [x] && s.t == was.t + cfg.dt && s.replicas == Lifecycle(replicas, was.t)
    requires
      var launches := Launches(s.trace, cfg, jitter);
      && AllServe(replicas, was.t) && s.nextId == Initially(cfg) + |launches|
      && StartingAts(replicas) == StartingAts(was.replicas) + launches[|Launches(was.trace, cfg, jitter)|..]
      && CountServing(replicas, was.t) + CountStarting(replicas) + Removed(s.trace) == Initially(cfg) + |launches|
    ensures FleetAgrees(s, cfg, jitter)
  {
    var old', launches := Launches(was.trace, cfg, jitter), Launches(s.trace, cfg, jitter);
    FleetSnoc(was.trace, x, cfg, jitter);
    hide AllServe, CountServing, CountStarting, StartingAts, Launches, Removed, ReadyTimes, Lifecycle, Later;
    LifecycleCounts(replicas, was.t, s.t);
    LifecycleStarting(replicas, was.t);
    assert launches == old' + launches[|old'|..];
    LaterAppend(StartingAts(was.replicas), launches[|old'|..], x.t);
    LaterAppend(old', launches[|old'|..], x.t);
    if was.trace == [] {
      assert old' == [] by { NoLaunches(cfg, jitter); }
    } else {
      LaterTwice(old', was.trace[|was.trace| - 1].t, x.t);
    }
  }

  lemma NoLaunches(cfg: Config, jitter: nat -> real)
    ensures Launches([], cfg, jitter) == []
  {
  }

  /** A scale-down takes the latest of the replicas in service, and marks no other. */
  lemma {:induction false} DrainsLatest(replicas: seq<Replica>, k: nat, t: real, until: real, i: nat)
    requires i < |replicas|
    ensures DrainLast(replicas, k, t, until)[i]
         == if Serving(replicas[i], t) && CountServing(replicas[i + 1..], t) < k
            then replicas[i].(status := Draining, drainUntil := until) else replicas[i]
  {
    var n := |replicas| - 1;
    var init, last := replicas[..n], replicas[n];
    if i < n {
      DrainsLatest(init, if k > 0 && Serving(last, t) then k - 1 else k, t, until, i);
      assert replicas[i + 1..] == init[i + 1..] + [last];
      CountSnoc(init[i + 1..], last, t);
    }
  }

  /** A replica is gone once its drain is over, and ready once its time has come. */
  lemma {:induction false} LifecycleMembers(replicas: seq<Replica>, t: real, r: Replica)
    ensures r in Lifecycle(replicas, t) ==>
              (r.status == Starting ==> t < r.readyAt) && (r.status == Draining ==> t < r.drainUntil)
    ensures r in replicas && r.status == Ready ==> r in Lifecycle(replicas, t)
    ensures r in replicas && r.status == Draining && t < r.drainUntil ==> r in Lifecycle(replicas, t)
  {
    if replicas != [] {
      var init, last := replicas[..|replicas| - 1], replicas[|replicas| - 1];
      assert replicas == init + [last];
      LifecycleMembers(init, t, r);
    }
  }

  // ---- a tick, and a run

  /** Everything a tick does. */
  ghost predicate Ticked(ticks: seq<Tick>, k: nat, cfg: Config, jitter: nat -> real)
    requires k < |ticks|
  {
    var before, x := ticks[..k], ticks[k];
    && Flows(before, x, cfg) && Measures(before, x, cfg) && WantsAt(ticks, k, cfg) && Decides(before, x, cfg)
    && Counts(before, x, cfg, jitter)
  }

  ghost predicate AllTicked(ticks: seq<Tick>, cfg: Config, jitter: nat -> real) {
    forall k: nat :: k < |ticks| ==> Ticked(ticks, k, cfg, jitter)
  }

  /** What comes before f is more than two minutes before the last tick. */
  ghost predicate Dropped(ticks: seq<Tick>, f: nat)
    requires f <= |ticks|
  {
    f > 0 ==> f < |ticks| && ticks[f - 1].t < ticks[|ticks| - 1].t - 120.0
  }

  /** The history kept is that of the last two minutes up to the last tick. */
  ghost predicate HistAgrees(s: Sim) {
    exists f: nat :: f <= |s.trace| && s.hist == PairsFrom(s.trace, f) && Dropped(s.trace, f)
  }

  ghost predicate Agrees(s: Sim, cfg: Config, jitter: nat -> real) {
    && s.queue == LastQueue(s.trace) && s.served == LastServed(s.trace) && s.dropped == LastDropped(s.trace)
    && (forall k :: 0 <= k < |s.trace| ==> s.trace[k].t < s.t) && Rising(s.trace)
    && HistAgrees(s) && TimersAgree(s) && FleetAgrees(s, cfg, jitter)
  }

  lemma StartAgrees(cfg: Config, jitter: nat -> real)
    ensures Agrees(Start(cfg), cfg, jitter)
  {
    InitialCounts(cfg.minReplicas);
    InitialStarting(cfg.minReplicas);
    hide Initial, CountServing, CountStarting, StartingAts, AllServe, PairsFrom;
    StartKept(cfg);
    NoLaunches(cfg, jitter);
  }

  lemma StartKept(cfg: Config)
    ensures HistAgrees(Start(cfg))
  {
    hide Initial;
    assert PairsFrom(Start(cfg).trace, 0) == [] && Dropped(Start(cfg).trace, 0);
  }

  lemma {:induction false} InitialStarting(n: int)
    ensures StartingAts(Initial(n)) == []
  {
    if n > 0 {
      InitialStarting(n - 1);
      StartingSnoc(Initial(n - 1), Replica(n - 1, Ready, 0.0, 0.0));
    }
  }

  /** The new window, and the first tick in it. */
  lemma HistMovesFrom(ticks: seq<Tick>, g: nat) returns (f: nat)
    requires g < |ticks| && Rising(ticks) && (g > 0 ==> ticks[g - 1].t < ticks[|ticks| - 1].t - 120.0)
    ensures
      var k := |ticks| - 1;
      f <= k && Window(PairsFrom(ticks, g), ticks[k].t) == PairsFrom(ticks, f) && Opens(ticks, f, k)
  {
    hide Window, Rising, PairsFrom;
    var k, hist := |ticks| - 1, PairsFrom(ticks, g);
    PairsRise(ticks, g);
    var n := WindowIs(hist, ticks[k].t);
    PairsAt(ticks, g, k - g);
    f := g + n;
    PairsDrop(ticks, g, n);
    PairsAt(ticks, g, if n <= k - g then n else 0);
    PairsAt(ticks, g, if n > 0 then n - 1 else 0);
  }

  lemma HistMoves(s: Sim, x: Tick) returns (f: nat)
    requires HistAgrees(s) && Rising(s.trace + [x]) && x.t == s.t
    ensures
      var ticks := s.trace + [x];
      f < |ticks| && Window(s.hist + [(x.t, x.signal)], s.t) == PairsFrom(ticks, f) && Opens(ticks, f, |s.trace|)
  {
    var ticks := s.trace + [x];
    var g: nat :| g <= |s.trace| && s.hist == PairsFrom(s.trace, g) && Dropped(s.trace, g);
    PairsSnoc(s.trace, x, g);
    if g > 0 {
      assert ticks[|s.trace| - 1].t < ticks[|s.trace|].t;
    }
    hide Window, PairsFrom, Rising, Opens;
    f := HistMovesFrom(ticks, g);
  }

  lemma RisingSnoc(s: Sim, x: Tick)
    requires Rising(s.trace) && x.t == s.t && forall k :: 0 <= k < |s.trace| ==> s.trace[k].t < s.t
    ensures Rising(s.trace + [x])
  {
  }

  /** What one tick records, and why. */
  lemma TickRecorded(s: Sim, cfg: Config, rate: real, jitter: nat -> real, x: Tick, hist: seq<(real, real)>, e: real)
    requires Agrees(s, cfg, jitter) && x.t == s.t
    requires x.ready == CountServing(s.replicas, s.t) && x.starting == CountStarting(s.replicas)
    requires
      var (q, done) := Queued(s, cfg, x.offered, x.ready);
      && x.queue == q.queue && x.served == q.served && x.dropped == q.dropped
      && x.signal == SignalOf(cfg, q.queue, done, x.offered, x.ready)
    requires hist == Window(s.hist + [(x.t, x.signal)], s.t) && e == Predicted(cfg, x.signal, hist)
    requires x.want == Desired(e, cfg, x.ready)
    requires x.action == Decided(s, cfg, x.want, x.ready, x.starting, jitter).1
    ensures Ticked(s.trace + [x], |s.trace|, cfg, jitter) && Rising(s.trace + [x])
    ensures exists f: nat ::
              f < |s.trace + [x]| && hist == PairsFrom(s.trace + [x], f) && Opens(s.trace + [x], f, |s.trace|)
  {
    hide SignalOf, Predicted, Desired, Window, CountServing, CountStarting, Queued, Decided, Flows, Measures, Decides,
         Counts, FleetAgrees, TimersAgree, HistAgrees, Rising, Opens, Extrapolates, Wants, PairsFrom;
    var ticks, k := s.trace + [x], |s.trace|;
    QueuedFlows(s, cfg, x);
    SignalMeasures(s.trace, x, cfg);
    RisingSnoc(s, x);
    var f := HistMoves(s, x);
    PairsAt(ticks, f, 0);
    PairsAt(ticks, f, k - f);
    PredictedExtrapolates(ticks, f, k, cfg, hist);
    DesiredWants(e, cfg, x.ready);
    assert WantsAt(ticks, k, cfg);
    DecidedDecides(s, cfg, x, jitter);
    FleetCounts(s, cfg, jitter, x);
    assert ticks[..k] == s.trace;
  }

  /** A decision does not look at the queue or the history. */
  lemma SameDecision(s: Sim, q: Sim, cfg: Config, want: int, ready: nat, starting: nat, jitter: nat -> real)
    requires q == s.(queue := q.queue, served := q.served, dropped := q.dropped, hist := q.hist)
    ensures
      var a, b := Decided(s, cfg, want, ready, starting, jitter), Decided(q, cfg, want, ready, starting, jitter);
      && b.1 == a.1
      && b.0 == a.0.(queue := q.queue, served := q.served, dropped := q.dropped, hist := q.hist)
  {
    hide StartReplicas, DrainLast;
  }

  lemma QueuedKeeps(s: Sim, cfg: Config, offered: real, ready: nat)
    ensures
      var q := Queued(s, cfg, offered, ready).0;
      q == s.(queue := q.queue, served := q.served, dropped := q.dropped)
  {
  }

  /** The state after the tick agrees with what is recorded. */
  lemma TickAgrees(s: Sim, s': Sim, cfg: Config, jitter: nat -> real, x: Tick, hist: seq<(real, real)>, d: Sim)
    requires Agrees(s, cfg, jitter) && cfg.dt > 0.0 && x.t == s.t && Rising(s.trace + [x])
    requires x.ready == CountServing(s.replicas, s.t)
    requires (d, x.action) == Decided(s, cfg, x.want, x.ready, x.starting, jitter)
    requires exists f: nat ::
               f < |s.trace + [x]| && hist == PairsFrom(s.trace + [x], f) && Opens(s.trace + [x], f, |s.trace|)
    requires
      s' == d.(queue := x.queue, served := x.served, dropped := x.dropped, hist := hist, t := s.t + cfg.dt,
               replicas := Lifecycle(d.replicas, s.t), trace := s.trace + [x])
    ensures Agrees(s', cfg, jitter)
  {
    hide Decided, Decides, FleetAgrees, LastAction, LowSince, PairsFrom, Lifecycle, CountServing, CountStarting,
         AllServe,
         StartingAts, Launches, Removed, TimersAgree, HistAgrees;
    DecidedDecides(s, cfg, x, jitter);
    TimersCarry(d.(trace := s.trace + [x]), s');
    DecidedFleet(s, cfg, x, jitter);
    FleetMoves(s, cfg, x, jitter, d.replicas, s');
    var f: nat :| f < |s'.trace| && hist == PairsFrom(s'.trace, f) && Opens(s'.trace, f, |s.trace|);
    HistCarry(s', f);
  }

  lemma TimersCarry(s: Sim, s': Sim)
    requires TimersAgree(s) && s'.trace == s.trace
    requires s'.lastUp == s.lastUp && s'.lastDown == s.lastDown && s'.lowSince == s.lowSince
    ensures TimersAgree(s')
  {
    hide LastAction, LowSince;
  }

  lemma HistCarry(s: Sim, f: nat)
    requires f < |s.trace| && s.hist == PairsFrom(s.trace, f) && Opens(s.trace, f, |s.trace| - 1)
    ensures HistAgrees(s)
  {
    hide PairsFrom;
    assert Dropped(s.trace, f);
  }

  /** Every tick does all that a tick should. */
  lemma TickTicks(s: Sim, cfg: Config, rate: real, jitter: nat -> real)
    requires Agrees(s, cfg, jitter) && cfg.dt > 0.0
    ensures
      var s' := TickOnce(s, cfg, rate, jitter);
      && |s'.trace| == |s.trace| + 1 && s'.trace[..|s.trace|] == s.trace
      && Ticked(s'.trace, |s.trace|, cfg, jitter) && Agrees(s', cfg, jitter)
  {
    hide SignalOf, Predicted, Desired, Window, CountServing, CountStarting, Queued, Decided, Ticked, Agrees, Lifecycle,
         Rising, Opens, PairsFrom;
    var ready, starting := CountServing(s.replicas, s.t), CountStarting(s.replicas);
    var offered := MaxReal(rate, 0.0);
    var (q, done) := Queued(s, cfg, offered, ready);
    var sig := SignalOf(cfg, q.queue, done, offered, ready);
    var hist := Window(s.hist + [(s.t, sig)], s.t);
    QueuedKeeps(s, cfg, offered, ready);
    var e := Predicted(cfg, sig, hist);
    var want := Desired(e, cfg, ready);
    SameDecision(s, q.(hist := hist), cfg, want, ready, starting, jitter);
    var (d, action) := Decided(s, cfg, want, ready, starting, jitter);
    var x := Tick(s.t, offered, q.queue, q.served, q.dropped, sig, want, ready, starting, action);
    TickRecorded(s, cfg, rate, jitter, x, hist, e);
    KeepsT(s, cfg, want, ready, starting, jitter);
    TickAgrees(s, TickOnce(s, cfg, rate, jitter), cfg, jitter, x, hist, d);
  }

  lemma KeepsT(s: Sim, cfg: Config, want: int, ready: nat, starting: nat, jitter: nat -> real)
    ensures
      var d := Decided(s, cfg, want, ready, starting, jitter).0;
      d.t == s.t && d.trace == s.trace
  {
    hide StartReplicas, DrainLast;
  }

  /** In every run each tick does all of it: the flow, the measure, the number wanted,
      the decision and the fleet. */
  lemma {:induction false} EveryRunTicks(cfg: Config, rate: real -> real, jitter: nat -> real, n: nat)
    requires cfg.dt > 0.0
    ensures Agrees(After(cfg, rate, jitter, n), cfg, jitter)
    ensures AllTicked(After(cfg, rate, jitter, n).trace, cfg, jitter)
  {
    hide TickOnce, Agrees, Ticked;
    if n == 0 {
      StartAgrees(cfg, jitter);
    } else {
      EveryRunTicks(cfg, rate, jitter, n - 1);
      var s := After(cfg, rate, jitter, n - 1);
      TickTicks(s, cfg, rate(s.t), jitter);
      TickedSnoc(s.trace, After(cfg, rate, jitter, n).trace, cfg, jitter);
    }
  }

  lemma TickedSnoc(ticks: seq<Tick>, all: seq<Tick>, cfg: Config, jitter: nat -> real)
    requires AllTicked(ticks, cfg, jitter) && |all| == |ticks| + 1 && all[..|ticks|] == ticks
    requires Ticked(all, |ticks|, cfg, jitter)
    ensures AllTicked(all, cfg, jitter)
  {
    hide Flows, Measures, Decides, Counts;
    forall k: nat | k < |all| ensures Ticked(all, k, cfg, jitter) {
      if k < |ticks| {
        assert Ticked(ticks, k, cfg, jitter);
        assert all[..k] == ticks[..k] && all[k] == ticks[k];
        WantsEarlier(ticks, all, k, cfg);
      }
    }
  }

  lemma WantsEarlier(ticks: seq<Tick>, all: seq<Tick>, k: nat, cfg: Config)
    requires k < |ticks| <= |all| && all[..|ticks|] == ticks && WantsAt(ticks, k, cfg)
    ensures WantsAt(all, k, cfg)
  {
    hide Wants;
    var f: nat, e: real :| Opens(ticks, f, k) && Extrapolates(ticks, f, k, cfg.horizon, e)
                           && Wants(ticks[k].want, ticks[k].ready, e, cfg);
    assert forall i :: 0 <= i <= k ==> all[i] == ticks[i];
    assert Opens(all, f, k) && Extrapolates(all, f, k, cfg.horizon, e);
  }

  /** The whole run: as many ticks as fit before the end, each of them safe and
      doing all that a tick should. */
  method Simulate(cfg: Config, rate: real -> real, jitter: nat -> real, duration: real) returns (trace: seq<Tick>)
    requires Sane(cfg)
    ensures trace == After(cfg, rate, jitter, |trace|).trace && Safe(trace, cfg)
    ensures AllTicked(trace, cfg, jitter)
    ensures |trace| as real * cfg.dt >= duration && (|trace| > 0 ==> (|trace| - 1) as real * cfg.dt < duration)
    ensures forall k :: 0 <= k < |trace| ==>
              trace[k].t == k as real * cfg.dt && trace[k].offered == MaxReal(rate(trace[k].t), 0.0)
  {
    hide SimOk, Safe, TickOnce, After, TicksLeft, AllTicked, Agrees;
    var s := Start(cfg);
    AfterUnfolds(cfg, rate, jitter, 0);
    ghost var n := 0;
    while s.t < duration
      invariant s == After(cfg, rate, jitter, n) && s.t == n as real * cfg.dt
      invariant n > 0 ==> (n - 1) as real * cfg.dt < duration
      decreases TicksLeft(s.t, duration, cfg.dt)
    {
      TickPasses(s.t, duration, cfg.dt);
      AfterUnfolds(cfg, rate, jitter, n);
      EveryRunSafe(cfg, rate, jitter, n + 1);
      s := TickLoop(s, cfg, rate(s.t), jitter);
      n := n + 1;
    }
    trace := s.trace;
    EveryRunSafe(cfg, rate, jitter, n);
    EveryRunTicks(cfg, rate, jitter, n);
  }
}
