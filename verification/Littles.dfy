/** The load summary's cross-check: concurrency measured by an event sweep
    against throughput times mean latency. Times are nanoseconds, -1 if unset. */
module Littles {
  import opened Lists

  datatype Record = Record(send: int, done: int, ok: bool)

  /** +1 when a request is sent, -1 when it is done. */
  datatype Event = Event(t: int, delta: int)

  function Clamp(t: int, lo: int, hi: int): int {
    var a := if t >= lo then t else lo;
    if a <= hi then a else hi
  }

  /** A request still running counts until the window closes. */
  function Done(r: Record, tEnd: int): int {
    if r.done >= 0 then r.done else tEnd
  }

  // ---- events in time order

  predicate EventLeq(a: Event, b: Event) {
    a.t < b.t || (a.t == b.t && a.delta <= b.delta)
  }

  function Insert(e: Event, sorted: seq<Event>): seq<Event> {
    if sorted == [] || EventLeq(e, sorted[0]) then [e] + sorted else [sorted[0]] + Insert(e, sorted[1..])
  }

  function Sorted(events: seq<Event>): seq<Event> {
    if events == [] then [] else Insert(events[0], Sorted(events[1..]))
  }

  function Events(records: seq<Record>, tEnd: int): seq<Event> {
    if records == [] then []
    else if records[0].send < 0 then Events(records[1..], tEnd)
    else [Event(records[0].send, 1), Event(Done(records[0], tEnd), -1)] + Events(records[1..], tEnd)
  }

  // ---- what the sweep measures

  /** Time the requests spent inside the window. */
  function Residence(records: seq<Record>, lo: int, hi: int): int {
    if records == [] then 0
    else (if records[0].send < 0 then 0 else Clamp(Done(records[0], hi), lo, hi) - Clamp(records[0].send, lo, hi))
         + Residence(records[1..], lo, hi)
  }

  /** Change in concurrency, and its moment about the clamped event times. */
  function Total(events: seq<Event>): int {
    if events == [] then 0 else events[0].delta + Total(events[1..])
  }

  function Moment(events: seq<Event>, lo: int, hi: int): int {
    if events == [] then 0 else events[0].delta * Clamp(events[0].t, lo, hi) + Moment(events[1..], lo, hi)
  }

  lemma {:induction false} InsertMoment(e: Event, sorted: seq<Event>, lo: int, hi: int)
    ensures Moment(Insert(e, sorted), lo, hi) == e.delta * Clamp(e.t, lo, hi) + Moment(sorted, lo, hi)
    ensures Total(Insert(e, sorted)) == e.delta + Total(sorted)
    ensures Insert(e, sorted) != []
  {
    if sorted != [] && !EventLeq(e, sorted[0]) {
      InsertMoment(e, sorted[1..], lo, hi);
      assert Insert(e, sorted)[1..] == Insert(e, sorted[1..]);
    } else {
      assert ([e] + sorted)[1..] == sorted;
    }
  }

  lemma {:induction false} SortedMoment(events: seq<Event>, lo: int, hi: int)
    ensures Moment(Sorted(events), lo, hi) == Moment(events, lo, hi)
    ensures Total(Sorted(events)) == Total(events)
    ensures Sorted(events) == [] <==> events == []
  {
    if events != [] {
      SortedMoment(events[1..], lo, hi);
      InsertMoment(events[0], Sorted(events[1..]), lo, hi);
    }
  }

  lemma PairMoment(up: Event, down: Event, rest: seq<Event>, lo: int, hi: int)
    ensures Moment([up, down] + rest, lo, hi)
         == up.delta * Clamp(up.t, lo, hi) + down.delta * Clamp(down.t, lo, hi) + Moment(rest, lo, hi)
    ensures Total([up, down] + rest) == up.delta + down.delta + Total(rest)
  {
    hide Clamp;
    assert ([up, down] + rest)[1..] == [down] + rest && ([down] + rest)[1..] == rest;
  }

  lemma {:induction false} EventsMoment(records: seq<Record>, lo: int, hi: int)
    ensures Moment(Events(records, hi), lo, hi) == -Residence(records, lo, hi)
    ensures Total(Events(records, hi)) == 0
    ensures Events(records, hi) == [] <==> forall r :: r in records ==> r.send < 0
  {
    hide Clamp, Moment, Total;
    if records == [] {
      SweepEnds([], lo, hi);
    } else {
      EventsMoment(records[1..], lo, hi);
      assert records == [records[0]] + records[1..];
      assert records[0] in records;
      PairMoment(Event(records[0].send, 1), Event(Done(records[0], hi), -1), Events(records[1..], hi), lo, hi);
    }
  }

  /** Mean number of requests in flight, by sweeping over the events; none when
      nothing was sent or the window is empty. */
  method IntegrateConcurrency(records: seq<Record>, tStart: int, tEnd: int) returns (n: Option<real>)
    ensures n.Some? <==> tEnd > tStart && exists r :: r in records && r.send >= 0
    ensures n.Some? ==> n.value == Residence(records, tStart, tEnd) as real / (tEnd - tStart) as real
  {
    var events := Sorted(Events(records, tEnd));
    EventsMoment(records, tStart, tEnd);
    SortedMoment(Events(records, tEnd), tStart, tEnd);
    if events == [] { return None; }
    var span := tEnd - tStart;
    if span <= 0 { return None; }
    hide Moment, Total, Residence, Clamp;
    var area, cur, prev := 0, 0, tStart;
    SweepEnds(events, tStart, tEnd);
    for i := 0 to |events|
      invariant area - cur * prev - Moment(events[i..], tStart, tEnd) == -Moment(events, tStart, tEnd)
      invariant cur + Total(events[i..]) == 0
    {
      SweepTail(events, i, tStart, tEnd);
      var t := Clamp(events[i].t, tStart, tEnd);
      area, cur, prev := SweepStep(area, cur, prev, t, events[i].delta);
    }
    assert cur == 0;
    area := area + cur * (tEnd - prev);
    return Some(area as real / span as real);
  }

  lemma SweepTail(events: seq<Event>, i: nat, lo: int, hi: int)
    requires i < |events|
    ensures Total(events[i..]) == events[i].delta + Total(events[i + 1..])
    ensures Moment(events[i..], lo, hi)
         == events[i].delta * Clamp(events[i].t, lo, hi) + Moment(events[i + 1..], lo, hi)
  {
    assert events[i..][0] == events[i] && events[i..][1..] == events[i + 1..];
  }

  lemma SweepEnds(events: seq<Event>, lo: int, hi: int)
    ensures events[0..] == events
    ensures Total(events[|events|..]) == 0 && Moment(events[|events|..], lo, hi) == 0
  {
  }

  method SweepStep(area: int, cur: int, prev: int, t: int, delta: int) returns (area': int, cur': int, prev': int)
    ensures cur' == cur + delta && prev' == t
    ensures area' - cur' * prev' == area - cur * prev - delta * t
  {
    area' := area + cur * (t - prev);
    prev' := t;
    cur' := cur + delta;
    assert cur' * t == cur * t + delta * t && cur * (t - prev) == cur * t - cur * prev;
  }

  // ---- the sweep counts what is in flight

  predicate InFlight(r: Record, t: int, tEnd: int) {
    0 <= r.send <= t < Done(r, tEnd)
  }

  function InFlightCount(records: seq<Record>, t: int, tEnd: int): nat {
    if records == [] then 0
    else (if InFlight(records[0], t, tEnd) then 1 else 0) + InFlightCount(records[1..], t, tEnd)
  }

  /** The concurrency at every instant from `from` to the window's end. */
  function Integral(records: seq<Record>, from: int, tEnd: int): nat
    decreases tEnd - from
  {
    if from >= tEnd then 0 else InFlightCount(records, from, tEnd) + Integral(records, from + 1, tEnd)
  }

  ghost predicate Sane(records: seq<Record>, tEnd: int) {
    forall r :: r in records && r.send >= 0 ==> r.send <= Done(r, tEnd)
  }

  lemma {:induction false} ResidenceStep(records: seq<Record>, lo: int, hi: int)
    requires Sane(records, hi) && lo < hi
    ensures Residence(records, lo, hi) == InFlightCount(records, lo, hi) + Residence(records, lo + 1, hi)
  {
    if records != [] {
      assert records[0] in records;
      assert Sane(records[1..], hi) by {
        assert forall r :: r in records[1..] ==> r in records;
      }
      ResidenceStep(records[1..], lo, hi);
    }
  }

  lemma {:induction false} EmptyWindow(records: seq<Record>, t: int)
    ensures Residence(records, t, t) == 0
  {
    if records != [] {
      EmptyWindow(records[1..], t);
    }
  }

  /** The sweep's area is the integral of the number of requests in flight. */
  lemma {:induction false} ResidenceIsIntegral(records: seq<Record>, lo: int, hi: int)
    requires Sane(records, hi) && lo <= hi
    ensures Residence(records, lo, hi) == Integral(records, lo, hi)
    decreases hi - lo
  {
    if lo == hi {
      EmptyWindow(records, lo);
    } else {
      ResidenceStep(records, lo, hi);
      ResidenceIsIntegral(records, lo + 1, hi);
    }
  }

  // ---- the window and the law

  function MinSend(records: seq<Record>): (t: int)
    requires records != []
    ensures forall r :: r in records ==> t <= r.send
    ensures exists r :: r in records && r.send == t
  {
    if |records| == 1 then records[0].send
    else
      var rest := MinSend(records[1..]);
      assert records == [records[0]] + records[1..];
      if records[0].send <= rest then records[0].send else rest
  }

  /** The latest completion, or `start` when nothing completed. */
  function MaxDone(records: seq<Record>, start: int): (t: int)
    ensures forall r :: r in records && r.done >= 0 ==> r.done <= t
    ensures (forall r :: r in records ==> r.done < 0) ==> t == start
    ensures (exists r :: r in records && r.done >= 0) ==> exists r :: r in records && r.done == t
  {
    if records == [] then start
    else
      var rest := MaxDone(records[1..], start);
      assert records == [records[0]] + records[1..];
      if records[0].done >= 0 && ((forall r :: r in records[1..] ==> r.done < 0) || records[0].done > rest)
      then records[0].done else rest
  }

  function WindowS(tStart: int, tEnd: int): real {
    var s := (tEnd - tStart) as real / 1000000000.0;
    if s >= 0.000000001 then s else 0.000000001
  }

  /** A successful request with both its stamps; the mean latency skips the others. */
  predicate Measured(r: Record) {
    r.ok && r.send >= 0 && r.done >= 0
  }

  function MeasuredOf(records: seq<Record>): seq<Record> {
    if records == [] then []
    else (if Measured(records[0]) then [records[0]] else []) + MeasuredOf(records[1..])
  }

  function OthersOf(records: seq<Record>): seq<Record> {
    if records == [] then []
    else (if Measured(records[0]) then [] else [records[0]]) + OthersOf(records[1..])
  }

  function CountOk(records: seq<Record>): nat {
    if records == [] then 0 else (if records[0].ok then 1 else 0) + CountOk(records[1..])
  }

  function E2eMs(r: Record): real {
    (r.done - r.send) as real / 1000000.0
  }

  function SumE2e(records: seq<Record>): real {
    if records == [] then 0.0 else E2eMs(records[0]) + SumE2e(records[1..])
  }

  /** Throughput of all successful requests times the mean latency of the measured. */
  function Predicted(n: nat, measured: seq<Record>, windowS: real): real
    requires measured != [] && windowS > 0.0
  {
    (n as real / windowS) * (SumE2e(measured) / |measured| as real / 1000.0)
  }

  /** No request is done before it is sent. */
  ghost predicate Ordered(records: seq<Record>) {
    forall r :: r in records && Measured(r) ==> r.send <= r.done
  }

  lemma {:induction false} SplitResidence(records: seq<Record>, lo: int, hi: int)
    ensures Residence(records, lo, hi)
         == Residence(MeasuredOf(records), lo, hi) + Residence(OthersOf(records), lo, hi)
  {
    if records != [] {
      SplitResidence(records[1..], lo, hi);
      if Measured(records[0]) {
        assert MeasuredOf(records)[1..] == MeasuredOf(records[1..]) && OthersOf(records) == OthersOf(records[1..]);
      } else {
        assert OthersOf(records)[1..] == OthersOf(records[1..]) && MeasuredOf(records) == MeasuredOf(records[1..]);
      }
    }
  }

  lemma {:induction false} MeasuredResidence(measured: seq<Record>, lo: int, hi: int)
    requires forall r :: r in measured ==> lo <= r.send <= r.done <= hi && 0 <= r.send
    ensures Residence(measured, lo, hi) as real == SumE2e(measured) * 1000000.0
  {
    if measured != [] {
      assert measured[0] in measured;
      assert forall r :: r in measured[1..] ==> r in measured;
      MeasuredResidence(measured[1..], lo, hi);
      assert E2eMs(measured[0]) * 1000000.0 == (measured[0].done - measured[0].send) as real;
    }
  }

  lemma {:induction false} SplitMembers(records: seq<Record>)
    ensures forall r :: r in MeasuredOf(records) <==> r in records && Measured(r)
    ensures forall r :: r in OthersOf(records) <==> r in records && !Measured(r)
    ensures |MeasuredOf(records)| <= CountOk(records)
    ensures |MeasuredOf(records)| == CountOk(records) <==> forall r :: r in records && r.ok ==> Measured(r)
  {
    if records != [] {
      SplitMembers(records[1..]);
      assert records == [records[0]] + records[1..];
    }
  }

  /** The prediction, cleared of its divisions. */
  lemma PredictedIs(n: nat, measured: seq<Record>, span: int)
    requires measured != [] && span > 0
    ensures WindowS(0, span) > 0.0
    ensures |measured| as real * (Predicted(n, measured, WindowS(0, span)) * span as real)
         == n as real * (SumE2e(measured) * 1000000.0)
  {
    var w := span as real / 1000000000.0;
    assert WindowS(0, span) == w;
    hide SumE2e, WindowS;
    Cleared(n as real, |measured| as real, SumE2e(measured), w, span as real);
  }

  lemma Cleared(n: real, m: real, s: real, w: real, span: real)
    requires m > 0.0 && w > 0.0 && span == w * 1000000000.0
    ensures m * ((n / w) * (s / m / 1000.0) * span) == n * (s * 1000000.0)
  {
    var a, b := n / w, s / m;
    var c := b / 1000.0;
    assert a * w == n && b * m == s && c * 1000.0 == b;
    Shuffled(a, c, w, m, span);
    assert c * m * 1000.0 == s;
  }

  lemma Shuffled(a: real, c: real, w: real, m: real, span: real)
    requires span == w * 1000000000.0
    ensures m * (a * c * span) == (a * w) * (c * m * 1000.0 * 1000000.0)
  {
    var x, y := a * w, c * m;
    assert a * c * span == a * c * w * 1000000000.0;
    assert m * (a * c * w) == x * y;
  }

  /** Little's law, with its exact error: `m` of `n` successful requests were
      measured. The measured concurrency exceeds throughput times mean latency by
      the time all others spent in the window, less what the mean credits to the
      successful ones it skips. */
  lemma LittlesLaw(records: seq<Record>)
    requires records != [] && Ordered(records)
    requires MaxDone(records, MinSend(records)) > MinSend(records) && exists r :: r in records && Measured(r)
    ensures
      var lo, hi := MinSend(records), MaxDone(records, MinSend(records));
      var measured, n, span := MeasuredOf(records), CountOk(records), (hi - lo) as real;
      && 0 < |measured| <= n && WindowS(lo, hi) > 0.0
      && |measured| as real
         * ((Residence(records, lo, hi) as real / span - Predicted(n, measured, WindowS(lo, hi))) * span)
         == |measured| as real * Residence(OthersOf(records), lo, hi) as real
            - (n - |measured|) as real * Residence(measured, lo, hi) as real
  {
    hide MinSend, MaxDone, MeasuredOf, OthersOf, Residence, SumE2e, Predicted, Ordered, CountOk;
    var lo, hi := MinSend(records), MaxDone(records, MinSend(records));
    SplitResidence(records, lo, hi);
    SplitMembers(records);
    MeasuredInWindow(records);
    assert WindowS(lo, hi) == WindowS(0, hi - lo);
    PredictedIs(CountOk(records), MeasuredOf(records), hi - lo);
    hide WindowS;
    Differ(Residence(records, lo, hi) as real, Residence(MeasuredOf(records), lo, hi) as real,
           Residence(OthersOf(records), lo, hi) as real, (hi - lo) as real, |MeasuredOf(records)| as real,
           CountOk(records) as real, Predicted(CountOk(records), MeasuredOf(records), WindowS(lo, hi)));
  }

  lemma MeasuredInWindow(records: seq<Record>)
    requires records != [] && Ordered(records) && exists r :: r in records && Measured(r)
    ensures MeasuredOf(records) != []
    ensures Residence(MeasuredOf(records), MinSend(records), MaxDone(records, MinSend(records))) as real
         == SumE2e(MeasuredOf(records)) * 1000000.0
  {
    hide MinSend, MaxDone, MeasuredOf, Residence, SumE2e;
    SplitMembers(records);
    MeasuredResidence(MeasuredOf(records), MinSend(records), MaxDone(records, MinSend(records)));
  }

  lemma Differ(all: real, x: real, y: real, span: real, m: real, n: real, predicted: real)
    requires span > 0.0 && all == x + y && m * (predicted * span) == n * x
    ensures m * ((all / span - predicted) * span) == m * y - (n - m) * x
  {
    var q := all / span;
    assert q * span == all;
    assert (q - predicted) * span == all - predicted * span;
    assert m * (all - predicted * span) == m * all - m * (predicted * span);
    assert m * all == m * x + m * y && (n - m) * x == n * x - m * x;
  }

  /** The two figures agree exactly when the time the others spent in the window is
      what the mean credits to the successful ones it skips. */
  lemma LawHoldsExactly(records: seq<Record>)
    requires records != [] && Ordered(records)
    requires MaxDone(records, MinSend(records)) > MinSend(records) && exists r :: r in records && Measured(r)
    ensures
      var lo, hi := MinSend(records), MaxDone(records, MinSend(records));
      var measured, n := MeasuredOf(records), CountOk(records);
      && 0 < |measured| <= n && WindowS(lo, hi) > 0.0
      && (Residence(records, lo, hi) as real / (hi - lo) as real == Predicted(n, measured, WindowS(lo, hi))
          <==> |measured| as real * Residence(OthersOf(records), lo, hi) as real
               == (n - |measured|) as real * Residence(measured, lo, hi) as real)
  {
    hide MinSend, MaxDone, MeasuredOf, OthersOf, Residence, SumE2e, Predicted, Ordered, CountOk, WindowS;
    LittlesLaw(records);
    var lo, hi := MinSend(records), MaxDone(records, MinSend(records));
    var measured, n := MeasuredOf(records), CountOk(records);
    ZeroProduct(Residence(records, lo, hi) as real / (hi - lo) as real - Predicted(n, measured, WindowS(lo, hi)),
                (hi - lo) as real, |measured| as real);
  }

  lemma ZeroProduct(d: real, span: real, m: real)
    requires span > 0.0 && m > 0.0
    ensures m * (d * span) == 0.0 <==> d == 0.0
  {
    var x := d * span;
    assert d > 0.0 ==> x > 0.0;
    assert d < 0.0 ==> x < 0.0;
    assert x > 0.0 ==> m * x > 0.0;
    assert x < 0.0 ==> m * x < 0.0;
  }

  /** Never sent, sent once the window had closed, or gone the moment it was sent. */
  predicate Absent(r: Record, hi: int) {
    r.send < 0 || r.send >= hi || Done(r, hi) == r.send
  }

  lemma {:induction false} AbsentResidence(records: seq<Record>, lo: int, hi: int)
    requires Sane(records, hi) && lo <= hi && forall r :: r in records ==> lo <= r.send
    ensures Residence(records, lo, hi) >= 0
    ensures Residence(records, lo, hi) == 0 <==> forall r :: r in records ==> Absent(r, hi)
  {
    if records != [] {
      assert records[0] in records;
      assert records == [records[0]] + records[1..];
      AbsentResidence(records[1..], lo, hi);
    }
  }

  /** With every successful request measured they agree exactly when the failed ones
      spent no time in the window; so always when none failed. */
  lemma LawWhenMeasured(records: seq<Record>)
    requires records != [] && Sane(records, MaxDone(records, MinSend(records)))
    requires MaxDone(records, MinSend(records)) > MinSend(records) && exists r :: r in records && r.ok
    requires forall r :: r in records && r.ok ==> Measured(r)
    ensures
      var lo, hi := MinSend(records), MaxDone(records, MinSend(records));
      var measured, n := MeasuredOf(records), CountOk(records);
      && 0 < |measured| == n && WindowS(lo, hi) > 0.0
      && (Residence(records, lo, hi) as real / (hi - lo) as real == Predicted(n, measured, WindowS(lo, hi))
          <==> forall r :: r in records && !r.ok ==> Absent(r, hi))
  {
    hide MinSend, MaxDone, MeasuredOf, OthersOf, Residence, SumE2e, Predicted, CountOk, WindowS, Absent;
    var lo, hi := MinSend(records), MaxDone(records, MinSend(records));
    LawHoldsExactly(records);
    SplitMembers(records);
    var m, rest := |MeasuredOf(records)| as real, Residence(OthersOf(records), lo, hi);
    AbsentResidence(OthersOf(records), lo, hi);
    ZeroTimes(m, rest as real, Residence(MeasuredOf(records), lo, hi) as real);
  }

  lemma ZeroTimes(m: real, y: real, x: real)
    requires m > 0.0
    ensures m * y == 0.0 * x <==> y == 0.0
  {
    assert y > 0.0 ==> m * y > 0.0;
    assert y < 0.0 ==> m * y < 0.0;
  }
}
