/** A tenant's limits: concurrency, spend, requests and tokens. */
module TenantLimits {
  import opened Lists
  import opened TokenBuckets

  datatype Tenant = Tenant(
    req: Bucket, tok: Bucket, maxConcurrent: int, budget: Option<real>,
    inflight: int, spent: real, windowStart: real)

  /** The clock is read afresh at each point that needs it. */
  datatype Readings = Readings(budget: real, req: real, reqRetry: real, tok: real, tokRetry: real)

  datatype Reason = TooManyConcurrent | BudgetExhausted | Rpm | Tpm

  datatype Decision = Allowed | Refused(reason: Reason, retryAfter: real)

  const HOUR := 3600.0

  /** A spend window older than an hour starts over. */
  function Rolled(t: Tenant, now: real): Tenant {
    if t.budget.Some? && now - t.windowStart >= HOUR then t.(spent := 0.0, windowStart := now) else t
  }

  predicate OverBudget(t: Tenant) {
    t.budget.Some? && t.spent >= t.budget.value
  }

  /** The request bucket's debit given back. */
  function Refunded(b: Bucket): Bucket {
    b.(tokens := Min(b.capacity, b.tokens + 1.0))
  }

  function Check(t: Tenant, est: real, c: Readings): (Tenant, Decision) {
    if t.inflight >= t.maxConcurrent then (t, Refused(TooManyConcurrent, 1.0))
    else
      var t1 := Rolled(t, c.budget);
      if OverBudget(t1) then (t1, Refused(BudgetExhausted, HOUR - (c.budget - t1.windowStart)))
      else
        var req := Consume(t1.req, 1.0, c.req);
        if !Admits(t1.req, 1.0, c.req)
        then (t1.(req := Refill(req, c.reqRetry)), Refused(Rpm, RetryAfter(req, 1.0, c.reqRetry)))
        else
          var tok := Consume(t1.tok, est, c.tok);
          if !Admits(t1.tok, est, c.tok)
          then (t1.(req := Refunded(req), tok := Refill(tok, c.tokRetry)),
                Refused(Tpm, RetryAfter(tok, est, c.tokRetry)))
          else (t1.(req := req, tok := tok), Allowed)
  }

  function SettleTenant(t: Tenant, actual: real, est: real, usd: real): Tenant {
    t.(tok := Settle(t.tok, actual - est), spent := t.spent + usd)
  }

  // ---- what the limits mean

  /** A request is let in exactly when no limit stands against it, and the first
      limit that does is the one reported. */
  lemma CheckDecides(t: Tenant, est: real, c: Readings)
    ensures
      var d := Check(t, est, c).1;
      var full := t.inflight >= t.maxConcurrent;
      var broke := t.budget.Some? && (if c.budget - t.windowStart >= 3600.0 then 0.0 else t.spent) >= t.budget.value;
      var noReq, noTok := Refill(t.req, c.req).tokens < 1.0, Refill(t.tok, c.tok).tokens < est;
      && (d == Allowed <==> !full && !broke && !noReq && !noTok)
      && (d.Refused? ==> (d.reason == TooManyConcurrent <==> full))
      && (d.Refused? ==> (d.reason == BudgetExhausted <==> !full && broke))
      && (d.Refused? ==> (d.reason == Rpm <==> !full && !broke && noReq))
      && (d.Refused? ==> (d.reason == Tpm <==> !full && !broke && !noReq && noTok))
  {
  }

  /** A request let in is charged once, at one request and its estimate; whether it is let
      in or not, a spend window an hour old starts over. */
  lemma CheckCharges(t: Tenant, est: real, c: Readings)
    ensures
      var r := Check(t, est, c);
      var rolls := t.inflight < t.maxConcurrent && t.budget.Some? && c.budget - t.windowStart >= 3600.0;
      && r.0.spent == (if rolls then 0.0 else t.spent) && r.0.windowStart == (if rolls then c.budget else t.windowStart)
      && r.0.inflight == t.inflight && r.0.maxConcurrent == t.maxConcurrent && r.0.budget == t.budget
      && (r.1 == Allowed ==>
            && r.0.req == Refill(t.req, c.req).(tokens := Refill(t.req, c.req).tokens - 1.0)
            && r.0.tok == Refill(t.tok, c.tok).(tokens := Refill(t.tok, c.tok).tokens - est))
  {
    hide Credit;
  }

  /** How long a refusal says to wait: a second for a place; up to the end of the hour for
      the budget; and for a bucket the time its rate takes to make up what it lacks. */
  lemma CheckWaits(t: Tenant, est: real, c: Readings)
    requires Check(t, est, c).1.Refused?
    ensures
      var r := Check(t, est, c);
      && (r.1.reason == TooManyConcurrent ==> r.1.retryAfter == 1.0)
      && (r.1.reason == BudgetExhausted ==> c.budget + r.1.retryAfter == r.0.windowStart + 3600.0)
      && (r.1.reason == Rpm ==> r.1.retryAfter == RetryAfter(Refill(t.req, c.req), 1.0, c.reqRetry))
      && (r.1.reason == Tpm ==> r.1.retryAfter == RetryAfter(Refill(t.tok, c.tok), est, c.tokRetry))
  {
    hide Credit;
  }

  /** Waiting out a spent budget is exactly enough: with nothing else spent, before that the
      tenant is refused for it, from then on it is not. */
  lemma BudgetWaitExact(t: Tenant, est: real, c: Readings, est': real, c': Readings)
    requires Check(t, est, c).1.Refused? && Check(t, est, c).1.reason == BudgetExhausted && t.budget.value > 0.0
    ensures
      var r, again := Check(t, est, c), Check(Check(t, est, c).0, est', c');
      again.1.Refused? && again.1.reason == BudgetExhausted <==> c'.budget < c.budget + r.1.retryAfter
  {
    hide Refill, Consume, Admits, RetryAfter;
  }

  /** A refusal consumes nothing: a refusal for tokens leaves the request bucket at
      its refilled level, and no refusal touches the tokens beyond refilling them. */
  lemma RefusalIsFree(t: Tenant, est: real, c: Readings)
    requires Check(t, est, c).1.Refused?
    ensures
      var r := Check(t, est, c);
      && (r.1.reason == Tpm ==> r.0.req == Refill(t.req, c.req) && r.0.tok == Refill(Refill(t.tok, c.tok), c.tokRetry))
      && (r.1.reason == Rpm ==> r.0.req == Refill(Refill(t.req, c.req), c.reqRetry) && r.0.tok == t.tok)
      && (r.1.reason != Tpm && r.1.reason != Rpm ==> r.0.req == t.req && r.0.tok == t.tok)
      && (r.1.reason != Tpm ==> r.0.tok == t.tok)
  {
    hide Credit;
  }

  /** Admission and settlement together charge what was actually used, down to the
      overdraft limit; the estimate cancels out. */
  lemma SettledExactly(t: Tenant, est: real, actual: real, usd: real, c: Readings)
    requires Check(t, est, c).1 == Allowed && actual >= 0.0 && t.tok.capacity >= 0.0
    ensures
      var level := Refill(t.tok, c.tok).tokens;
      var after := SettleTenant(Check(t, est, c).0, actual, est, usd);
      after.tok.tokens == Max(level - actual, -t.tok.capacity)
  {
    hide Credit;
  }

  /** No one is let in on a spent budget, and within the hour nothing but the
      window's end lifts the refusal. */
  lemma BudgetHolds(t: Tenant, est: real, c: Readings)
    requires t.budget.Some? && t.spent >= t.budget.value && c.budget - t.windowStart < HOUR
    ensures Check(t, est, c).1.Refused?
    ensures Check(t, est, c).0.spent == t.spent && Check(t, est, c).0.windowStart == t.windowStart
  {
  }

  lemma CheckInBounds(t: Tenant, est: real, actual: real, usd: real, c: Readings)
    requires InBounds(t.req) && InBounds(t.tok) && est >= 0.0
    ensures InBounds(Check(t, est, c).0.req) && InBounds(Check(t, est, c).0.tok)
    ensures InBounds(SettleTenant(t, actual, est, usd).tok)
  {
    hide Credit, Refill, Consume;
    StaysInBounds(t.req, 1.0, 0.0, c.req);
    StaysInBounds(t.tok, est, actual - est, c.tok);
    RefillInBounds(Consume(t.req, 1.0, c.req), c.reqRetry);
    RefillInBounds(Consume(t.tok, est, c.tok), c.tokRetry);
  }

  // ---- any number of calls

  /** What happens to a tenant: a request is checked, a finished one is settled, and
      the gateway keeps the number in flight. */
  datatype Call =
    | Request(est: real, c: Readings)
    | Settlement(actual: real, est: real, usd: real, at: real)
    | Load(n: int)

  function Perform(t: Tenant, call: Call): Tenant {
    match call
    case Request(est, c) => Check(t, est, c).0
    case Settlement(actual, est, usd, _) => SettleTenant(t, actual, est, usd)
    case Load(n) => t.(inflight := n)
  }

  predicate LetIn(t: Tenant, call: Call) {
    call.Request? && Check(t, call.est, call.c).1 == Allowed
  }

  /** The requests let in. */
  function CountLetIn(t: Tenant, calls: seq<Call>): nat
    decreases |calls|
  {
    if calls == [] then 0
    else (if LetIn(t, calls[0]) then 1 else 0) + CountLetIn(Perform(t, calls[0]), calls[1..])
  }

  /** The tokens charged to the requests let in, less what settlements give back. */
  function TokensLetIn(t: Tenant, calls: seq<Call>): real
    decreases |calls|
  {
    if calls == [] then 0.0
    else TokensOf(t, calls[0]) + TokensLetIn(Perform(t, calls[0]), calls[1..])
  }

  function TokensOf(t: Tenant, call: Call): real {
    match call
    case Request(est, _) => if LetIn(t, call) then est else 0.0
    case Settlement(actual, est, _, _) => if actual < est then actual - est else 0.0
    case Load(_) => 0.0
  }

  /** The readings of a call, in the order in which they are taken. */
  ghost predicate CallIn(call: Call, from: real, until: real) {
    match call
    case Request(_, c) => from <= c.req <= c.reqRetry <= c.tok <= c.tokRetry <= until
    case Settlement(_, _, _, at) => from <= at <= until
    case Load(_) => from <= until
  }

  /** When a call is over. */
  function End(call: Call, from: real): real {
    match call
    case Request(_, c) => c.tokRetry
    case Settlement(_, _, _, at) => at
    case Load(_) => from
  }

  ghost predicate CallsIn(calls: seq<Call>, from: real, until: real)
    decreases |calls|
  {
    if calls == [] then from <= until
    else
      var end := End(calls[0], from);
      CallIn(calls[0], from, end) && CallsIn(calls[1..], end, until)
  }

  ghost predicate Estimates(calls: seq<Call>) {
    forall call :: call in calls && call.Request? ==> call.est >= 0.0
  }

  /** What a call does to the request bucket. */
  function ReqEvents(t: Tenant, call: Call): seq<Event> {
    if !call.Request? then []
    else
      var c := call.c;
      match Check(t, call.est, c).1
      case Allowed => [Ask(1.0, c.req)]
      case Refused(Rpm, _) => [Ask(1.0, c.req), Ask(0.0, c.reqRetry)]
      case Refused(Tpm, _) => [Ask(1.0, c.req), Reconcile(-1.0, c.tok)]
      case Refused(_, _) => []
  }

  /** What a call does to the token bucket. */
  function TokEvents(t: Tenant, call: Call): seq<Event> {
    match call
    case Request(est, c) =>
      (match Check(t, est, c).1
       case Allowed => [Ask(est, c.tok)]
       case Refused(Tpm, _) => [Ask(est, c.tok), Ask(0.0, c.tokRetry)]
       case Refused(_, _) => [])
    case Settlement(actual, est, _, at) => [Reconcile(actual - est, at)]
    case Load(_) => []
  }

  lemma Two(b: Bucket, x: Event, y: Event)
    ensures ApplyAll(b, [x, y]) == Apply(Apply(b, x), y)
    ensures TotalCharge(b, [x, y]) == Charge(b, x) + Charge(Apply(b, x), y)
  {
    assert [x, y][1..] == [y] && [y][1..] == [];
    assert ApplyAll(Apply(b, x), [y]) == Apply(Apply(b, x), y);
    assert TotalCharge(Apply(b, x), [y]) == Charge(Apply(b, x), y);
  }

  lemma One(b: Bucket, x: Event)
    ensures ApplyAll(b, [x]) == Apply(b, x) && TotalCharge(b, [x]) == Charge(b, x)
  {
    assert [x][1..] == [];
  }

  lemma Zero(b: Bucket)
    ensures ApplyAll(b, []) == b && TotalCharge(b, []) == 0.0
  {
  }

  lemma InOrder(x: Event, y: Event, from: real, until: real)
    requires from <= x.at <= y.at <= until
    ensures Monotone([x], from, until) && Monotone([x, y], from, until)
  {
    assert [x][1..] == [] && [x, y][1..] == [y] && [y][1..] == [];
    assert Monotone([y], x.at, until);
  }

  /** A request let in is charged once; one refused for its tokens gets its charge back. */
  lemma ReqCharged(t: Tenant, call: Call)
    ensures ApplyAll(t.req, ReqEvents(t, call)) == Perform(t, call).req
    ensures TotalCharge(t.req, ReqEvents(t, call)) == if LetIn(t, call) then 1.0 else 0.0
  {
    hide ApplyAll, TotalCharge, Credit;
    Zero(t.req);
    if call.Request? {
      var c := call.c;
      One(t.req, Ask(1.0, c.req));
      Two(t.req, Ask(1.0, c.req), Ask(0.0, c.reqRetry));
      Two(t.req, Ask(1.0, c.req), Reconcile(-1.0, c.tok));
    }
  }

  lemma TokCharged(t: Tenant, call: Call)
    ensures ApplyAll(t.tok, TokEvents(t, call)) == Perform(t, call).tok
    ensures TotalCharge(t.tok, TokEvents(t, call)) == TokensOf(t, call)
  {
    hide ApplyAll, TotalCharge, Credit;
    Zero(t.tok);
    if call.Request? {
      var c := call.c;
      One(t.tok, Ask(call.est, c.tok));
      Two(t.tok, Ask(call.est, c.tok), Ask(0.0, c.tokRetry));
    } else if call.Settlement? {
      One(t.tok, Reconcile(call.actual - call.est, call.at));
    }
  }

  lemma EventsIn(t: Tenant, call: Call, from: real, until: real)
    requires CallIn(call, from, until) && (call.Request? ==> call.est >= 0.0)
    ensures Monotone(ReqEvents(t, call), from, until) && Sensible(ReqEvents(t, call))
    ensures Monotone(TokEvents(t, call), from, until) && Sensible(TokEvents(t, call))
  {
    hide Check, Monotone;
    NoEvents(from, until);
    if call.Request? {
      var c := call.c;
      InOrder(Ask(1.0, c.req), Ask(0.0, c.reqRetry), from, until);
      InOrder(Ask(1.0, c.req), Reconcile(-1.0, c.tok), from, until);
      InOrder(Ask(call.est, c.tok), Ask(0.0, c.tokRetry), from, until);
    } else if call.Settlement? {
      var e := Reconcile(call.actual - call.est, call.at);
      InOrder(e, e, from, until);
    }
  }

  lemma NoEvents(from: real, until: real)
    requires from <= until
    ensures Monotone([], from, until)
  {
  }

  /** Both buckets within their bounds, and read no later than `from`. */
  ghost predicate Sound(t: Tenant, from: real) {
    InBounds(t.req) && InBounds(t.tok) && t.req.last <= from && t.tok.last <= from
  }

  /** One call's part in both bounds. */
  lemma CallWithin(t: Tenant, call: Call, from: real, until: real)
    requires Sound(t, from) && CallIn(call, from, until) && (call.Request? ==> call.est >= 0.0)
    ensures
      var t1 := Perform(t, call);
      && Sound(t1, until) && t1.req.rate == t.req.rate && t1.tok.rate == t.tok.rate
      && (if LetIn(t, call) then 1.0 else 0.0) + Available(t1.req, until)
           <= Available(t.req, from) + t.req.rate * (until - from)
      && TokensOf(t, call) + Available(t1.tok, until) <= Available(t.tok, from) + t.tok.rate * (until - from)
  {
    hide Available, Credit, InBounds, ApplyAll, TotalCharge, ReqEvents, TokEvents, Perform, LetIn, TokensOf, Monotone,
         Sensible;
    EventsIn(t, call, from, until);
    ReqCharged(t, call);
    TokCharged(t, call);
    ChargeWithin(t.req, ReqEvents(t, call), from, until);
    ChargeWithin(t.tok, TokEvents(t, call), from, until);
  }

  lemma {:induction false} RequestsWithin(t: Tenant, calls: seq<Call>, from: real, until: real)
    requires Sound(t, from) && CallsIn(calls, from, until) && Estimates(calls)
    ensures CountLetIn(t, calls) as real <= Available(t.req, from) + t.req.rate * (until - from)
    decreases |calls|
  {
    hide Available, Sound, Perform, LetIn, TokensOf;
    if calls == [] {
      Idle(t, from, until);
    } else {
      var call, end := calls[0], End(calls[0], from);
      assert call in calls && forall x :: x in calls[1..] ==> x in calls;
      CallWithin(t, call, from, end);
      var t1 := Perform(t, call);
      RequestsWithin(t1, calls[1..], end, until);
      var here := if LetIn(t, call) then 1.0 else 0.0;
      assert CountLetIn(t, calls) as real == here + CountLetIn(t1, calls[1..]) as real;
      Chained(here, CountLetIn(t1, calls[1..]) as real, Available(t.req, from),
              Available(t1.req, end), t.req.rate, t1.req.rate, from, end, until);
    }
  }

  lemma {:induction false} TokensWithin(t: Tenant, calls: seq<Call>, from: real, until: real)
    requires Sound(t, from) && CallsIn(calls, from, until) && Estimates(calls)
    ensures TokensLetIn(t, calls) <= Available(t.tok, from) + t.tok.rate * (until - from)
    decreases |calls|
  {
    hide Available, Sound, Perform, LetIn, TokensOf;
    if calls == [] {
      Idle(t, from, until);
    } else {
      var call, end := calls[0], End(calls[0], from);
      assert call in calls && forall x :: x in calls[1..] ==> x in calls;
      CallWithin(t, call, from, end);
      var t1 := Perform(t, call);
      TokensWithin(t1, calls[1..], end, until);
      assert TokensLetIn(t, calls) == TokensOf(t, call) + TokensLetIn(t1, calls[1..]);
      Chained(TokensOf(t, call), TokensLetIn(t1, calls[1..]), Available(t.tok, from),
              Available(t1.tok, end), t.tok.rate, t1.tok.rate, from, end, until);
    }
  }

  lemma Idle(t: Tenant, from: real, until: real)
    requires Sound(t, from) && from <= until
    ensures 0.0 <= Available(t.req, from) + t.req.rate * (until - from)
    ensures 0.0 <= Available(t.tok, from) + t.tok.rate * (until - from)
  {
    Spans(t.req.rate, from, from, until);
    Spans(t.tok.rate, from, from, until);
    AvailablePositive(t.req, from);
    AvailablePositive(t.tok, from);
  }

  lemma Chained(x: real, y: real, before: real, after: real, rate: real, same: real, from: real, end: real, until: real)
    requires same == rate && x + after <= before + rate * (end - from) && y <= after + same * (until - end)
    ensures x + y <= before + rate * (until - from)
  {
    Spans(rate, from, end, until);
  }

  /** However calls are mixed: over any interval the requests let in are at most the
      burst plus the rate times the interval, and so are the tokens charged to them
      less what is given back. */
  lemma LimitsHold(t: Tenant, calls: seq<Call>, from: real, until: real)
    requires Sound(t, from) && CallsIn(calls, from, until) && Estimates(calls)
    ensures CountLetIn(t, calls) as real <= t.req.capacity + t.req.rate * (until - from)
    ensures TokensLetIn(t, calls) <= t.tok.capacity + t.tok.rate * (until - from)
  {
    RequestsWithin(t, calls, from, until);
    TokensWithin(t, calls, from, until);
    hide CountLetIn, TokensLetIn, Credit;
    assert Refill(t.req, from).tokens <= t.req.capacity && Refill(t.tok, from).tokens <= t.tok.capacity;
  }

  // ---- the limits object

  class TenantLimits {
    const maxConcurrent: int
    const budget: Option<real>
    const req: TokenBucket
    const tok: TokenBucket
    var inflight: int
    var spent: real
    var windowStart: real

    function State(): Tenant
      reads this, req, tok
    {
      Tenant(req.State(), tok.State(), maxConcurrent, budget, inflight, spent, windowStart)
    }

    ghost predicate Valid() {
      req != tok
    }

    constructor (rpm: real, tpm: real, burstRequests: real, burstTokens: real, maxConcurrent: int,
                 budget: Option<real>, now: real)
      ensures Valid() && fresh(req) && fresh(tok)
      ensures State() == Tenant(NewBucket(rpm / 60.0, burstRequests, 0.0, now),
                                NewBucket(tpm / 60.0, burstTokens, 0.0, now),
                                maxConcurrent, budget, 0, 0.0, now)
      ensures req.rate * 60.0 == rpm && req.capacity == req.tokens == burstRequests && req.last == now
      ensures tok.rate * 60.0 == tpm && tok.capacity == tok.tokens == burstTokens && tok.last == now
    {
      this.maxConcurrent := maxConcurrent;
      this.budget := budget;
      var r := new TokenBucket(rpm / 60.0, burstRequests, 0.0, now);
      var k := new TokenBucket(tpm / 60.0, burstTokens, 0.0, now);
      req := r;
      tok := k;
      inflight := 0;
      spent := 0.0;
      windowStart := now;
    }

    method CheckRequest(est: real, c: Readings) returns (d: Decision)
      requires Valid()
      modifies this, req, tok
      ensures Valid() && (State(), d) == Check(old(State()), est, c)
    {
      hide Credit;
      if inflight >= maxConcurrent { return Refused(TooManyConcurrent, 1.0); }
      if budget.Some? {
        if c.budget - windowStart >= HOUR {
          spent := 0.0;
          windowStart := c.budget;
        }
        if spent >= budget.value { return Refused(BudgetExhausted, HOUR - (c.budget - windowStart)); }
      }
      var ok := req.TryConsume(1.0, c.req);
      if !ok {
        var w := req.RetryAfterS(1.0, c.reqRetry);
        return Refused(Rpm, w);
      }
      ok := tok.TryConsume(est, c.tok);
      if !ok {
        req.tokens := Min(req.capacity, req.tokens + 1.0);
        var w := tok.RetryAfterS(est, c.tokRetry);
        return Refused(Tpm, w);
      }
      return Allowed;
    }

    method SettleRequest(actual: real, est: real, usd: real)
      requires Valid()
      modifies this, tok
      ensures Valid() && State() == SettleTenant(old(State()), actual, est, usd)
      ensures spent == old(spent) + usd && tok.last == old(tok.last)
      ensures if actual > est then Greater(tok.tokens, old(tok.tokens) - (actual - est), -tok.capacity)
              else Lesser(tok.tokens, old(tok.tokens) - (actual - est), tok.capacity)
    {
      tok.SettleBy(actual - est);
      spent := spent + usd;
    }
  }
}
