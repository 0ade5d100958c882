/** The retry budget: two trimmed queues against the complete history. */
module RetryBudgets {
  import opened Lists

  /** Every call so far: a request, or a retry and the answer it got. */
  datatype Entry = Asked(at: real) | Retried(at: real, granted: bool)

  datatype Config = Config(ratio: real, window: real, minPerS: real)

  // ---- the rule, on the complete history

  function Requests(log: seq<Entry>): seq<real> {
    if log == [] then []
    else
      var e := log[|log| - 1];
      Requests(log[..|log| - 1]) + if e.Asked? then [e.at] else []
  }

  function Retries(log: seq<Entry>): seq<real> {
    if log == [] then []
    else
      var e := log[|log| - 1];
      Retries(log[..|log| - 1]) + if e.Retried? && e.granted then [e.at] else []
  }

  /** The times no earlier than the cutoff. */
  function Recent(xs: seq<real>, cutoff: real): seq<real> {
    if xs == [] then [] else (if xs[0] >= cutoff then [xs[0]] else []) + Recent(xs[1..], cutoff)
  }

  function Allowance(cfg: Config, requests: nat): real {
    var share, trickle := requests as real * cfg.ratio, cfg.minPerS * cfg.window;
    if share >= trickle then share else trickle
  }

  /** A retry is granted while those in the window are below the allowance. */
  predicate Decide(cfg: Config, log: seq<Entry>, at: real) {
    |Recent(Retries(log), at - cfg.window)| as real < Allowance(cfg, |Recent(Requests(log), at - cfg.window)|)
  }

  ghost predicate Faithful(cfg: Config, log: seq<Entry>) {
    forall i :: 0 <= i < |log| && log[i].Retried? ==> log[i].granted == Decide(cfg, log[..i], log[i].at)
  }

  ghost predicate Monotone(log: seq<Entry>) {
    forall i, j :: 0 <= i < j < |log| ==> log[i].at <= log[j].at
  }

  lemma {:induction false} RecentAppend(xs: seq<real>, ys: seq<real>, cutoff: real)
    ensures Recent(xs + ys, cutoff) == Recent(xs, cutoff) + Recent(ys, cutoff)
  {
    if xs == [] {
      assert xs + ys == ys;
    } else {
      assert (xs + ys)[1..] == xs[1..] + ys;
      RecentAppend(xs[1..], ys, cutoff);
      var first := if xs[0] >= cutoff then [xs[0]] else [];
      assert first + (Recent(xs[1..], cutoff) + Recent(ys, cutoff)) == Recent(xs, cutoff) + Recent(ys, cutoff);
    }
  }

  // ---- counted over the history itself

  /** The requests of the history from the cutoff on, and the retries granted. */
  ghost function AskedSince(log: seq<Entry>, cutoff: real): set<nat> {
    set k: nat | k < |log| && log[k].Asked? && log[k].at >= cutoff
  }

  ghost function GrantedSince(log: seq<Entry>, cutoff: real): set<nat> {
    set k: nat | k < |log| && log[k].Retried? && log[k].granted && log[k].at >= cutoff
  }

  lemma OneKept(at: real, cutoff: real)
    ensures |Recent([at], cutoff)| == if at >= cutoff then 1 else 0
    ensures Recent([], cutoff) == []
  {
    assert [at][1..] == [];
  }

  /** The latest entry adds its time if it is kept. */
  lemma KeptSnoc(log: seq<Entry>, cutoff: real)
    requires log != []
    ensures
      var init, e := log[..|log| - 1], log[|log| - 1];
      && |Recent(Requests(log), cutoff)|
         == |Recent(Requests(init), cutoff)| + (if e.Asked? && e.at >= cutoff then 1 else 0)
      && |Recent(Retries(log), cutoff)|
         == |Recent(Retries(init), cutoff)| + if e.Retried? && e.granted && e.at >= cutoff then 1 else 0
  {
    var init, e := log[..|log| - 1], log[|log| - 1];
    RecentAppend(Requests(init), if e.Asked? then [e.at] else [], cutoff);
    RecentAppend(Retries(init), if e.Retried? && e.granted then [e.at] else [], cutoff);
    OneKept(e.at, cutoff);
    hide Recent;
  }

  lemma AskedSnoc(log: seq<Entry>, cutoff: real)
    requires log != []
    ensures
      var init, e := log[..|log| - 1], log[|log| - 1];
      |AskedSince(log, cutoff)| == |AskedSince(init, cutoff)| + if e.Asked? && e.at >= cutoff then 1 else 0
  {
    var n, init, e := |log| - 1, log[..|log| - 1], log[|log| - 1];
    assert AskedSince(log, cutoff) == AskedSince(init, cutoff) + if e.Asked? && e.at >= cutoff then {n} else {};
  }

  lemma GrantedSnoc(log: seq<Entry>, cutoff: real)
    requires log != []
    ensures
      var init, e := log[..|log| - 1], log[|log| - 1];
      |GrantedSince(log, cutoff)|
      == |GrantedSince(init, cutoff)| + if e.Retried? && e.granted && e.at >= cutoff then 1 else 0
  {
    var n, init, e := |log| - 1, log[..|log| - 1], log[|log| - 1];
    assert GrantedSince(log, cutoff)
        == GrantedSince(init, cutoff) + if e.Retried? && e.granted && e.at >= cutoff then {n} else {};
  }

  /** The times kept are those of these entries. */
  lemma {:induction false} RecentCounts(log: seq<Entry>, cutoff: real)
    ensures |Recent(Requests(log), cutoff)| == |AskedSince(log, cutoff)|
    ensures |Recent(Retries(log), cutoff)| == |GrantedSince(log, cutoff)|
  {
    if log == [] {
      assert AskedSince(log, cutoff) == {} && GrantedSince(log, cutoff) == {};
    } else {
      hide AskedSince, GrantedSince, Recent, Requests, Retries;
      RecentCounts(log[..|log| - 1], cutoff);
      KeptSnoc(log, cutoff);
      AskedSnoc(log, cutoff);
      GrantedSnoc(log, cutoff);
    }
  }

  /** A retry is granted exactly while the retries in the window are below a share of
      its requests or below a trickle. */
  lemma DecidesByCount(cfg: Config, log: seq<Entry>, at: real)
    ensures
      var n, m := |GrantedSince(log, at - cfg.window)|, |AskedSince(log, at - cfg.window)|;
      Decide(cfg, log, at) <==> n as real < m as real * cfg.ratio || n as real < cfg.minPerS * cfg.window
  {
    hide GrantedSince, AskedSince, Recent, Requests, Retries;
    RecentCounts(log, at - cfg.window);
  }

  /** At every grant, the retries in the window, this one included, number less than
      one more than the share of its requests, or than one more than the trickle. */
  lemma GrantBound(cfg: Config, log: seq<Entry>, i: nat)
    requires Faithful(cfg, log) && cfg.window >= 0.0
    requires i < |log| && log[i].Retried? && log[i].granted
    ensures
      var cutoff := log[i].at - cfg.window;
      var n, m := |GrantedSince(log[..i + 1], cutoff)|, |AskedSince(log[..i], cutoff)|;
      n as real < m as real * cfg.ratio + 1.0 || n as real < cfg.minPerS * cfg.window + 1.0
  {
    hide GrantedSince, AskedSince, Decide;
    var cutoff, before := log[i].at - cfg.window, log[..i];
    DecidesByCount(cfg, before, log[i].at);
    GrantedSnoc(log[..i + 1], cutoff);
    assert log[..i + 1][..i] == before;
  }

  // ---- trimming

  function Trim(xs: seq<real>, cutoff: real): seq<real> {
    if xs == [] || xs[0] >= cutoff then xs else Trim(xs[1..], cutoff)
  }

  ghost predicate Ascending(xs: seq<real>) {
    forall i, j :: 0 <= i < j < |xs| ==> xs[i] <= xs[j]
  }

  lemma {:induction false} AllRecent(xs: seq<real>, cutoff: real)
    requires forall x :: x in xs ==> x >= cutoff
    ensures Recent(xs, cutoff) == xs
  {
    if xs != [] {
      assert xs[0] in xs && forall x :: x in xs[1..] ==> x in xs;
      AllRecent(xs[1..], cutoff);
    }
  }

  /** On an ordered queue, dropping from the front keeps exactly the recent times. */
  lemma {:induction false} TrimIsRecent(xs: seq<real>, cutoff: real)
    requires Ascending(xs)
    ensures Trim(xs, cutoff) == Recent(xs, cutoff)
  {
    if xs != [] {
      if xs[0] >= cutoff {
        forall x | x in xs ensures x >= cutoff {
          var k :| 0 <= k < |xs| && xs[k] == x;
          assert k > 0 ==> xs[0] <= xs[k];
        }
        AllRecent(xs, cutoff);
      } else {
        TrimIsRecent(xs[1..], cutoff);
      }
    }
  }

  lemma {:induction false} RecentAscending(xs: seq<real>, cutoff: real)
    requires Ascending(xs)
    ensures Ascending(Recent(xs, cutoff)) && forall x :: x in Recent(xs, cutoff) ==> x in xs
  {
    if xs != [] {
      RecentAscending(xs[1..], cutoff);
      var rest := Recent(xs[1..], cutoff);
      forall k | 0 <= k < |rest| ensures xs[0] <= rest[k] {
        assert rest[k] in rest;
        var m :| 0 <= m < |xs[1..]| && xs[1..][m] == rest[k];
        assert xs[0] <= xs[m + 1];
      }
    }
  }

  lemma {:induction false} RecentTwice(xs: seq<real>, c: real, d: real)
    requires c <= d
    ensures Recent(Recent(xs, c), d) == Recent(xs, d)
  {
    if xs != [] {
      RecentTwice(xs[1..], c, d);
      var rest := Recent(xs[1..], c);
      if xs[0] >= c {
        assert Recent(xs, c) == [xs[0]] + rest && ([xs[0]] + rest)[1..] == rest;
      } else {
        assert Recent(xs, c) == rest && Recent(xs, d) == Recent(xs[1..], d);
      }
    }
  }

  /** A trimmed queue, trimmed again later, is the history trimmed once. */
  lemma TrimLater(history: seq<real>, c: real, d: real)
    requires Ascending(history) && c <= d
    ensures Trim(Recent(history, c), d) == Recent(history, d)
  {
    RecentAscending(history, c);
    TrimIsRecent(Recent(history, c), d);
    RecentTwice(history, c, d);
  }

  lemma {:induction false} HistoryAscending(log: seq<Entry>)
    requires Monotone(log)
    ensures Ascending(Requests(log)) && Ascending(Retries(log))
    ensures log != [] ==> forall x :: x in Requests(log) || x in Retries(log) ==> x <= log[|log| - 1].at
  {
    if log != [] {
      var init, last := log[..|log| - 1], log[|log| - 1];
      HistoryAscending(init);
      assert |init| > 0 ==> init[|init| - 1].at <= last.at;
      AscendingSnoc(Requests(init), last.at);
      AscendingSnoc(Retries(init), last.at);
    }
  }

  lemma AscendingSnoc(xs: seq<real>, x: real)
    requires Ascending(xs) && forall y :: y in xs ==> y <= x
    ensures Ascending(xs + [x]) && Ascending(xs + []) && xs + [] == xs
  {
    assert forall k :: 0 <= k < |xs| ==> xs[k] in xs;
  }

  lemma Logged(log: seq<Entry>, e: Entry)
    ensures Requests(log + [e]) == Requests(log) + if e.Asked? then [e.at] else []
    ensures Retries(log + [e]) == Retries(log) + if e.Retried? && e.granted then [e.at] else []
  {
    assert (log + [e])[..|log|] == log;
  }

  lemma LogGrows(cfg: Config, log: seq<Entry>, e: Entry)
    requires Monotone(log) && Faithful(cfg, log) && (log != [] ==> log[|log| - 1].at <= e.at)
    requires e.Retried? ==> e.granted == Decide(cfg, log, e.at)
    ensures Monotone(log + [e]) && Faithful(cfg, log + [e])
  {
    hide Decide;
    var all := log + [e];
    assert Monotone(all) by {
      hide Faithful;
      assert forall i :: 0 <= i < |log| ==> log[i].at <= log[|log| - 1].at || i == |log| - 1;
    }
    forall i | 0 <= i < |all| && all[i].Retried? ensures all[i].granted == Decide(cfg, all[..i], all[i].at) {
      assert all[..i] == if i < |log| then log[..i] else log;
    }
  }

  // ---- the queues between calls

  /** The queues hold the history from the last cutoff on. */
  ghost predicate Holds(cfg: Config, log: seq<Entry>, requests: seq<real>, retries: seq<real>, cutoff: real) {
    && Monotone(log)
    && (log != [] ==> cutoff <= log[|log| - 1].at - cfg.window)
    && requests == Recent(Requests(log), cutoff)
    && retries == Recent(Retries(log), cutoff)
  }

  /** A cutoff no later than the coming one; the history is in order. */
  lemma Earlier(cfg: Config, log: seq<Entry>, requests: seq<real>, retries: seq<real>, cutoff: real, now: real)
    returns (c: real)
    requires Holds(cfg, log, requests, retries, cutoff) && (log != [] ==> log[|log| - 1].at <= now)
    ensures c <= now - cfg.window && requests == Recent(Requests(log), c) && retries == Recent(Retries(log), c)
    ensures Ascending(Requests(log)) && Ascending(Retries(log))
    ensures forall x :: x in Requests(log) ==> x <= now
  {
    HistoryAscending(log);
    hide Ascending, Recent, Monotone;
    c := if log == [] then now - cfg.window else cutoff;
  }

  lemma AfterTrim(cfg: Config, log: seq<Entry>, requests: seq<real>, retries: seq<real>, cutoff: real, now: real)
    requires Holds(cfg, log, requests, retries, cutoff) && (log != [] ==> log[|log| - 1].at <= now)
    ensures Trim(requests, now - cfg.window) == Recent(Requests(log), now - cfg.window)
    ensures Trim(retries, now - cfg.window) == Recent(Retries(log), now - cfg.window)
  {
    hide Holds, Recent, Requests, Retries, Trim, Ascending, Monotone;
    var c := Earlier(cfg, log, requests, retries, cutoff, now);
    TrimLater(Requests(log), c, now - cfg.window);
    TrimLater(Retries(log), c, now - cfg.window);
  }

  lemma AfterRequest(cfg: Config, log: seq<Entry>, requests: seq<real>, retries: seq<real>, cutoff: real, now: real)
    requires Holds(cfg, log, requests, retries, cutoff) && (log != [] ==> log[|log| - 1].at <= now) && cfg.window >= 0.0
    ensures Trim(requests + [now], now - cfg.window) == Recent(Requests(log + [Asked(now)]), now - cfg.window)
    ensures Trim(retries, now - cfg.window) == Recent(Retries(log + [Asked(now)]), now - cfg.window)
  {
    hide Holds, Requests, Retries, Trim, Monotone, Recent, Ascending;
    var c := Earlier(cfg, log, requests, retries, cutoff, now);
    Logged(log, Asked(now));
    RecentAppend(Requests(log), [now], c);
    OneRecent(now, c);
    AscendingSnoc(Requests(log), now);
    TrimLater(Requests(log) + [now], c, now - cfg.window);
    TrimLater(Retries(log), c, now - cfg.window);
    assert Retries(log) + [] == Retries(log);
  }

  lemma OneRecent(now: real, c: real)
    requires c <= now
    ensures Recent([now], c) == [now]
  {
  }

  lemma AfterRetry(cfg: Config, log: seq<Entry>, now: real, ok: bool)
    requires cfg.window >= 0.0
    ensures Requests(log + [Retried(now, ok)]) == Requests(log)
    ensures Recent(Retries(log + [Retried(now, ok)]), now - cfg.window)
         == Recent(Retries(log), now - cfg.window) + if ok then [now] else []
  {
    hide Requests, Retries, Recent;
    Logged(log, Retried(now, ok));
    assert Requests(log) + [] == Requests(log) && Retries(log) + [] == Retries(log);
    RecentAppend(Retries(log), [now], now - cfg.window);
    OneRecent(now, now - cfg.window);
  }

  // ---- the budget object

  class RetryBudget {
    const cfg: Config
    var requests: seq<real>
    var retries: seq<real>
    var denied: nat
    /** The complete history, and the last cutoff the queues were trimmed to. */
    ghost var log: seq<Entry>
    ghost var cutoff: real

    ghost predicate Valid()
      reads this
    {
      Faithful(cfg, log) && Holds(cfg, log, requests, retries, cutoff)
    }

    constructor (cfg: Config)
      ensures Valid() && this.cfg == cfg && log == [] && denied == 0
    {
      this.cfg := cfg;
      requests, retries, denied := [], [], 0;
      log, cutoff := [], 0.0;
    }

    method TrimTo(now: real)
      modifies this`requests, this`retries
      ensures requests == Trim(old(requests), now - cfg.window)
      ensures retries == Trim(old(retries), now - cfg.window)
    {
      var c := now - cfg.window;
      while requests != [] && requests[0] < c
        invariant Trim(requests, c) == Trim(old(requests), c) && retries == old(retries)
        decreases |requests|
      {
        requests := requests[1..];
      }
      while retries != [] && retries[0] < c
        invariant Trim(retries, c) == Trim(old(retries), c) && requests == Trim(old(requests), c)
        decreases |retries|
      {
        retries := retries[1..];
      }
    }

    method RecordRequest(now: real)
      requires Valid() && cfg.window >= 0.0 && (log != [] ==> log[|log| - 1].at <= now)
      modifies this
      ensures Valid() && log == old(log) + [Asked(now)] && denied == old(denied)
      ensures requests == Recent(Requests(log), now - cfg.window) && retries == Recent(Retries(log), now - cfg.window)
    {
      hide Faithful, Recent, Requests, Retries, Trim, Monotone;
      LogGrows(cfg, log, Asked(now));
      AfterRequest(cfg, log, requests, retries, cutoff, now);
      requests := requests + [now];
      TrimTo(now);
      log, cutoff := log + [Asked(now)], now - cfg.window;
    }

    /** The queues decide exactly as the complete history would. */
    method TryRetry(now: real) returns (ok: bool)
      requires Valid() && cfg.window >= 0.0 && (log != [] ==> log[|log| - 1].at <= now)
      modifies this
      ensures Valid() && ok == Decide(cfg, old(log), now)
      ensures
        var n, m := |GrantedSince(old(log), now - cfg.window)|, |AskedSince(old(log), now - cfg.window)|;
        ok <==> n as real < m as real * cfg.ratio || n as real < cfg.minPerS * cfg.window
      ensures log == old(log) + [Retried(now, ok)]
      ensures denied == old(denied) + if ok then 0 else 1
      ensures requests == Recent(Requests(log), now - cfg.window) && retries == Recent(Retries(log), now - cfg.window)
    {
      hide Faithful, Recent, Requests, Retries, Trim, Monotone;
      AfterTrim(cfg, log, requests, retries, cutoff, now);
      DecidesByCount(cfg, log, now);
      TrimTo(now);
      ok := |retries| as real < Allowance(cfg, |requests|);
      LogGrows(cfg, log, Retried(now, ok));
      AfterRetry(cfg, log, now, ok);
      if ok {
        retries := retries + [now];
      } else {
        denied := denied + 1;
      }
      log, cutoff := log + [Retried(now, ok)], now - cfg.window;
    }
  }
}
