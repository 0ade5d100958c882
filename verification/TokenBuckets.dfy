/** The token bucket behind every rate limit. Clock readings are inputs. */
module TokenBuckets {

  datatype Bucket = Bucket(rate: real, capacity: real, tokens: real, last: real)

  function Min(a: real, b: real): real {
    if a <= b then a else b
  }

  function Max(a: real, b: real): real {
    if a >= b then a else b
  }

  /** An unset or negative level starts full. */
  function NewBucket(rate: real, capacity: real, tokens: real, now: real): Bucket {
    Bucket(rate, capacity, if tokens <= 0.0 then capacity else tokens, now)
  }

  /** What the elapsed time is worth; a clock reading in the past is worth nothing. */
  function Credit(b: Bucket, now: real): real {
    Max(now - b.last, 0.0) * b.rate
  }

  function Refill(b: Bucket, now: real): Bucket {
    b.(tokens := Min(b.capacity, b.tokens + Credit(b, now)), last := now)
  }

  predicate Greater(x: real, a: real, b: real) {
    x >= a && x >= b && (x == a || x == b)
  }

  predicate Lesser(x: real, a: real, b: real) {
    x <= a && x <= b && (x == a || x == b)
  }

  /** The level at `now`: what there was and what the elapsed time earns at the rate, up
      to the capacity; time that runs back earns nothing. */
  predicate LevelOk(b: Bucket, now: real, level: real) {
    var earned := if now > b.last then (now - b.last) * b.rate else 0.0;
    Lesser(level, b.tokens + earned, b.capacity)
  }

  /** Asked for `n` at that level: granted and taken off exactly when the level suffices. */
  predicate Tried(b: Bucket, n: real, now: real, level: real, ok: bool, left: real) {
    LevelOk(b, now, level) && (ok <==> level >= n) && left == if ok then level - n else level
  }

  lemma RefillLevel(b: Bucket, now: real)
    ensures LevelOk(b, now, Refill(b, now).tokens) && Refill(b, now) == b.(tokens := Refill(b, now).tokens, last := now)
    ensures forall level :: LevelOk(b, now, level) ==> level == Refill(b, now).tokens
  {
  }

  lemma DividedOut(a: real, d: real, w: real)
    requires d > 0.0 && w == a / d
    ensures w * d == a
  {
  }

  /** Refilling on the way makes no difference. */
  lemma RefillsCompose(b: Bucket, mid: real, now: real)
    requires InBounds(b) && b.last <= mid <= now
    ensures Refill(Refill(b, mid), now) == Refill(b, now)
  {
    var x, y := mid - b.last, now - mid;
    assert (x + y) * b.rate == x * b.rate + y * b.rate;
    assert y * b.rate >= 0.0;
  }

  /** Would `n` be admitted at `now`? */
  predicate Admits(b: Bucket, n: real, now: real) {
    Refill(b, now).tokens >= n
  }

  function Consume(b: Bucket, n: real, now: real): Bucket {
    var r := Refill(b, now);
    if r.tokens >= n then r.(tokens := r.tokens - n) else r
  }

  const SLOWEST := 0.000000001

  function RetryAfter(b: Bucket, n: real, now: real): real {
    var r := Refill(b, now);
    if r.tokens >= n then 0.0 else (n - r.tokens) / Max(b.rate, SLOWEST)
  }

  /** Reconcile an estimate: a debit may overdraw down to minus the capacity, a
      refund never overfills. */
  function Settle(b: Bucket, delta: real): Bucket {
    b.(tokens := if delta > 0.0 then Max(b.tokens - delta, -b.capacity) else Min(b.capacity, b.tokens - delta))
  }

  predicate InBounds(b: Bucket) {
    b.rate >= 0.0 && -b.capacity <= b.tokens <= b.capacity
  }

  lemma RefillInBounds(b: Bucket, now: real)
    requires InBounds(b)
    ensures InBounds(Refill(b, now)) && Refill(b, now).tokens >= b.tokens
  {
    CreditBasics(b, now);
  }

  lemma CreditBasics(b: Bucket, now: real)
    requires b.rate >= 0.0
    ensures Credit(b, now) >= 0.0
    ensures now <= b.last ==> Credit(b, now) == 0.0
  {
  }

  /** The level stays between minus the capacity and the capacity, whatever is asked. */
  lemma StaysInBounds(b: Bucket, n: real, delta: real, now: real)
    requires InBounds(b) && n >= 0.0
    ensures InBounds(Consume(b, n, now)) && InBounds(Settle(b, delta))
  {
    RefillInBounds(b, now);
  }

  // ---- the waiting time

  /** Would `n` be admitted `d` after `now`, if nothing else happens? */
  predicate AdmitsAfter(b: Bucket, n: real, now: real, d: real) {
    Admits(Refill(b, now), n, now + d)
  }

  /** `w` is exactly the time after which an undisturbed bucket admits `n`. */
  ghost predicate EarliestWait(b: Bucket, n: real, now: real, w: real) {
    forall d :: d >= 0.0 ==> (AdmitsAfter(b, n, now, d) <==> d >= w)
  }

  lemma AdmitsLater(b: Bucket, n: real, now: real, d: real)
    requires d >= 0.0
    ensures AdmitsAfter(b, n, now, d) <==> n <= b.capacity && Refill(b, now).tokens + d * b.rate >= n
  {
    assert Credit(Refill(b, now), now + d) == d * b.rate;
  }

  lemma Waiting(w: real, x: real, m: real)
    requires x > 0.0 && m > 0.0 && w == x / m
    ensures w > 0.0 && w * m == x
  {
    assert w <= 0.0 ==> w * m <= 0.0;
  }

  lemma Enough(level: real, n: real, rate: real, w: real, d: real)
    requires rate > 0.0 && w * rate == n - level
    ensures level + d * rate >= n <==> d >= w
  {
    assert d >= w ==> (d - w) * rate >= 0.0;
    assert d < w ==> (w - d) * rate > 0.0;
  }

  lemma TooLittle(level: real, n: real, rate: real, floor: real, w: real)
    requires w > 0.0 && rate < floor && w * floor == n - level
    ensures level + w * rate < n
  {
    assert w * (floor - rate) > 0.0;
  }

  /** The advertised wait is exact precisely when the request fits the bucket and
      the bucket is not slower than the floor; otherwise waiting it out fails. */
  lemma RetryAfterExact(b: Bucket, n: real, now: real)
    requires b.rate >= 0.0 && !Admits(b, n, now)
    ensures EarliestWait(b, n, now, RetryAfter(b, n, now)) <==> n <= b.capacity && b.rate >= SLOWEST
    ensures !(n <= b.capacity && b.rate >= SLOWEST) ==> !AdmitsAfter(b, n, now, RetryAfter(b, n, now))
  {
    hide AdmitsAfter, Refill;
    if n <= b.capacity && b.rate >= SLOWEST {
      WaitExact(b, n, now);
    } else {
      WaitFails(b, n, now);
    }
  }

  lemma WaitExact(b: Bucket, n: real, now: real)
    requires !Admits(b, n, now) && n <= b.capacity && b.rate >= SLOWEST
    ensures EarliestWait(b, n, now, RetryAfter(b, n, now))
  {
    hide AdmitsAfter, Refill;
    var w, level := RetryAfter(b, n, now), Refill(b, now).tokens;
    Waiting(w, n - level, b.rate);
    forall d | d >= 0.0 ensures AdmitsAfter(b, n, now, d) <==> d >= w {
      AdmitsLater(b, n, now, d);
      Enough(level, n, b.rate, w, d);
    }
  }

  lemma WaitFails(b: Bucket, n: real, now: real)
    requires b.rate >= 0.0 && !Admits(b, n, now) && !(n <= b.capacity && b.rate >= SLOWEST)
    ensures RetryAfter(b, n, now) > 0.0 && !AdmitsAfter(b, n, now, RetryAfter(b, n, now))
  {
    hide AdmitsAfter, Refill;
    var w, level, floor := RetryAfter(b, n, now), Refill(b, now).tokens, Max(b.rate, SLOWEST);
    Waiting(w, n - level, floor);
    AdmitsLater(b, n, now, w);
    if b.rate < SLOWEST {
      TooLittle(level, n, b.rate, floor, w);
    }
  }

  // ---- the rate over any interval

  datatype Event = Ask(n: real, at: real) | Reconcile(delta: real, at: real)

  function Apply(b: Bucket, e: Event): Bucket {
    match e
    case Ask(n, at) => Consume(b, n, at)
    case Reconcile(delta, _) => Settle(b, delta)
  }

  /** Admitted estimates less refunds. */
  function Charge(b: Bucket, e: Event): real {
    match e
    case Ask(n, at) => if Admits(b, n, at) then n else 0.0
    case Reconcile(delta, _) => if delta > 0.0 then 0.0 else delta
  }

  function TotalCharge(b: Bucket, events: seq<Event>): real
    decreases |events|
  {
    if events == [] then 0.0 else Charge(b, events[0]) + TotalCharge(Apply(b, events[0]), events[1..])
  }

  function ApplyAll(b: Bucket, events: seq<Event>): Bucket
    decreases |events|
  {
    if events == [] then b else ApplyAll(Apply(b, events[0]), events[1..])
  }

  /** Readings never go back, from `from` up to `until`. */
  ghost predicate Monotone(events: seq<Event>, from: real, until: real)
    decreases |events|
  {
    if events == [] then from <= until
    else from <= events[0].at && Monotone(events[1..], events[0].at, until)
  }

  ghost predicate Sensible(events: seq<Event>) {
    forall e :: e in events && e.Ask? ==> e.n >= 0.0
  }

  /** What the bucket could still give out at time `at`. */
  function Available(b: Bucket, at: real): real {
    Max(0.0, Refill(b, at).tokens)
  }

  lemma CreditGrows(b: Bucket, from: real, at: real)
    requires b.last <= from <= at
    ensures Credit(b, at) == Credit(b, from) + b.rate * (at - from)
  {
    var x, y := from - b.last, at - from;
    assert (x + y) * b.rate == x * b.rate + y * b.rate;
  }

  /** Time alone adds at most its share. */
  lemma AvailableGrows(b: Bucket, from: real, at: real)
    requires b.rate >= 0.0 && b.last <= from <= at
    ensures Available(b, at) <= Available(b, from) + b.rate * (at - from)
  {
    CreditGrows(b, from, at);
    assert b.rate * (at - from) >= 0.0;
    hide Credit;
  }

  /** An event charges no more than it takes from what is available. */
  lemma EventCharge(b: Bucket, e: Event)
    requires InBounds(b) && b.last <= e.at && (e.Ask? ==> e.n >= 0.0)
    ensures InBounds(Apply(b, e)) && Apply(b, e).last <= e.at && Apply(b, e).rate == b.rate
    ensures Apply(b, e).capacity == b.capacity
    ensures Charge(b, e) + Available(Apply(b, e), e.at) <= Available(b, e.at)
  {
    RefillInBounds(b, e.at);
    CreditBasics(b, e.at);
    CreditBasics(Apply(b, e), e.at);
    assert e.Reconcile? ==> Credit(Apply(b, e), e.at) == Credit(b, e.at);
    hide Credit;
  }

  /** What is charged and what is left never exceed what there was and what time adds. */
  lemma {:induction false} ChargeWithin(b: Bucket, events: seq<Event>, from: real, until: real)
    requires InBounds(b) && b.last <= from && Monotone(events, from, until) && Sensible(events)
    ensures
      var after := ApplyAll(b, events);
      && TotalCharge(b, events) + Available(after, until) <= Available(b, from) + b.rate * (until - from)
      && InBounds(after) && after.last <= until && after.rate == b.rate && after.capacity == b.capacity
    decreases |events|
  {
    hide Available, Credit, Apply, Charge, InBounds;
    Rate(b);
    if events == [] {
      AvailableGrows(b, from, until);
    } else {
      var e, rest := events[0], events[1..];
      assert e in events && forall x :: x in rest ==> x in events;
      AvailableGrows(b, from, e.at);
      EventCharge(b, e);
      ChargeWithin(Apply(b, e), rest, e.at, until);
      Spans(b.rate, from, e.at, until);
    }
  }

  lemma Rate(b: Bucket)
    requires InBounds(b)
    ensures b.rate >= 0.0
  {
  }

  lemma AvailablePositive(b: Bucket, at: real)
    ensures Available(b, at) >= 0.0
  {
  }

  lemma Spans(rate: real, a: real, b: real, c: real)
    ensures rate * (b - a) + rate * (c - b) == rate * (c - a)
    ensures rate >= 0.0 && c >= a ==> rate * (c - a) >= 0.0
  {
  }

  /** Over any interval, from any state: what is admitted, less what is refunded,
      is at most the burst plus the rate times the interval. */
  lemma IntervalBound(b: Bucket, events: seq<Event>, from: real, until: real)
    requires InBounds(b) && b.last <= from && Monotone(events, from, until) && Sensible(events)
    ensures TotalCharge(b, events) <= b.capacity + b.rate * (until - from)
  {
    ChargeWithin(b, events, from, until);
    AvailablePositive(ApplyAll(b, events), until);
    assert Refill(b, from).tokens <= b.capacity;
  }

  // ---- the bucket object

  class TokenBucket {
    const rate: real
    const capacity: real
    var tokens: real
    var last: real

    function State(): Bucket
      reads this
    {
      Bucket(rate, capacity, tokens, last)
    }

    constructor (rate: real, capacity: real, tokens: real, now: real)
      ensures State() == NewBucket(rate, capacity, tokens, now)
      ensures this.rate == rate && this.capacity == capacity && this.last == now
      ensures this.tokens == if tokens > 0.0 then tokens else capacity
    {
      this.rate := rate;
      this.capacity := capacity;
      this.tokens := if tokens <= 0.0 then capacity else tokens;
      this.last := now;
    }

    method RefillTo(now: real)
      modifies this
      ensures State() == Refill(old(State()), now)
      ensures last == now && LevelOk(old(State()), now, tokens)
    {
      var dt := Max(now - last, 0.0);
      tokens := Min(capacity, tokens + dt * rate);
      last := now;
    }

    method TryConsume(n: real, now: real) returns (ok: bool)
      modifies this
      ensures ok == Admits(old(State()), n, now)
      ensures State() == Consume(old(State()), n, now)
      ensures last == now
      ensures exists level :: Tried(old(State()), n, now, level, ok, tokens)
    {
      RefillTo(now);
      ghost var level := tokens;
      assert LevelOk(old(State()), now, level);
      assert Tried(old(State()), n, now, level, level >= n, if level >= n then level - n else level);
      if tokens >= n {
        tokens := tokens - n;
        return true;
      }
      return false;
    }

    method RetryAfterS(n: real, now: real) returns (w: real)
      modifies this
      ensures w == RetryAfter(old(State()), n, now)
      ensures State() == Refill(old(State()), now)
      ensures if tokens >= n then w == 0.0
              else w * (if rate >= 0.000000001 then rate else 0.000000001) == n - tokens
    {
      RefillTo(now);
      if tokens >= n { return 0.0; }
      w := (n - tokens) / Max(rate, SLOWEST);
      DividedOut(n - tokens, Max(rate, SLOWEST), w);
    }

    method SettleBy(delta: real)
      modifies this`tokens
      ensures State() == Settle(old(State()), delta)
      ensures if delta > 0.0 then Greater(tokens, old(tokens) - delta, -capacity)
              else Lesser(tokens, old(tokens) - delta, capacity)
    {
      if delta > 0.0 {
        tokens := Max(tokens - delta, -capacity);
      } else {
        tokens := Min(capacity, tokens - delta);
      }
    }
  }
}
