/** A fixed-window limiter: what it lets through, window by window and in any interval. */
module RateWindows {
  import opened Prelude

  type Positive = n: nat | n > 0 witness 1

  datatype Counter = Counter(count: Positive, expires: real)

  /** INCR on an expired counter starts a new window. */
  function Hit(window: real, c: Option<Counter>, now: real): Counter {
    if c.Some? && now < c.value.expires then Counter(c.value.count + 1, c.value.expires) else Counter(1, now + window)
  }

  /** A message that passed, and the start of the fixed window it was counted in. */
  datatype Pass = Pass(start: real, at: real)

  function InWindow(passes: seq<Pass>, start: real): nat {
    if passes == [] then 0
    else InWindow(passes[..|passes| - 1], start) + if passes[|passes| - 1].start == start then 1 else 0
  }

  function InInterval(passes: seq<Pass>, from: real, to: real): nat {
    if passes == [] then 0
    else InInterval(passes[..|passes| - 1], from, to) + if from <= passes[|passes| - 1].at <= to then 1 else 0
  }

  predicate Before(passes: seq<Pass>, start: real, window: real) {
    forall i :: 0 <= i < |passes| ==> passes[i].start == start || passes[i].start + window <= start
  }

  /** Windows do not overlap, and every pass lies in its own. */
  predicate Apart(window: real, passes: seq<Pass>) {
    passes == []
    || (var before, p := passes[..|passes| - 1], passes[|passes| - 1];
        Apart(window, before) && Before(before, p.start, window) && p.start <= p.at < p.start + window)
  }

  /** The counter against the messages that passed in the window it counts. */
  predicate CounterOk(window: real, c: Counter, passes: seq<Pass>, now: real) {
    var start := c.expires - window;
    start <= now && Before(passes, start, window) && InWindow(passes, start) <= c.count
  }

  ghost predicate Bounded(limit: nat, passes: seq<Pass>) {
    forall start :: InWindow(passes, start) <= limit
  }

  ghost predicate RateOk(window: real, limit: nat, c: Option<Counter>, passes: seq<Pass>, now: real) {
    && Apart(window, passes)
    && Bounded(limit, passes)
    && (if c.Some? then CounterOk(window, c.value, passes, now) else passes == [])
  }

  /** The passes after a hit: it passes while the count is within the limit. */
  function Limited(window: real, limit: nat, hit: Counter, passes: seq<Pass>, now: real): seq<Pass> {
    if hit.count <= limit then passes + [Pass(hit.expires - window, now)] else passes
  }

  lemma {:induction false} NoneLater(passes: seq<Pass>, start: real)
    requires forall i :: 0 <= i < |passes| ==> passes[i].start != start
    ensures InWindow(passes, start) == 0
  {
    if passes != [] {
      NoneLater(passes[..|passes| - 1], start);
    }
  }

  lemma OneMorePass(passes: seq<Pass>, p: Pass, start: real)
    ensures InWindow(passes + [p], start) == InWindow(passes, start) + if p.start == start then 1 else 0
  {
    assert (passes + [p])[..|passes|] == passes;
  }

  lemma PassIsApart(window: real, start: real, passes: seq<Pass>, at: real)
    requires Apart(window, passes) && Before(passes, start, window) && start <= at < start + window
    ensures Apart(window, passes + [Pass(start, at)]) && Before(passes + [Pass(start, at)], start, window)
  {
    var more := passes + [Pass(start, at)];
    assert more[..|more| - 1] == passes;
  }

  lemma PassIsBounded(limit: nat, count: nat, passes: seq<Pass>, p: Pass)
    requires Bounded(limit, passes) && InWindow(passes, p.start) < count <= limit
    ensures Bounded(limit, passes + [p]) && InWindow(passes + [p], p.start) <= count
  {
    forall start ensures InWindow(passes + [p], start) <= limit {
      OneMorePass(passes, p, start);
    }
    OneMorePass(passes, p, p.start);
  }

  /** A hit that passes extends its window, which is the last one. */
  lemma PassKeepsRate(window: real, limit: nat, c: Counter, passes: seq<Pass>, at: real)
    requires Apart(window, passes) && Bounded(limit, passes) && Before(passes, c.expires - window, window)
    requires InWindow(passes, c.expires - window) < c.count <= limit
    requires c.expires - window <= at < c.expires
    ensures RateOk(window, limit, Some(c), passes + [Pass(c.expires - window, at)], at)
  {
    PassIsApart(window, c.expires - window, passes, at);
    PassIsBounded(limit, c.count, passes, Pass(c.expires - window, at));
  }

  /** A hit is counted in a window that is the last so far, on top of those that passed. */
  lemma HitIsCounted(window: real, limit: nat, c: Option<Counter>, passes: seq<Pass>, before: real, at: real)
    requires window > 0.0 && before <= at && RateOk(window, limit, c, passes, before)
    ensures var hit := Hit(window, c, at);
            var start := hit.expires - window;
            && start <= at < hit.expires
            && Before(passes, start, window)
            && InWindow(passes, start) < hit.count
            && CounterOk(window, hit, passes, at)
  {
    var hit := Hit(window, c, at);
    if !(c.Some? && at < c.value.expires) {
      assert hit.expires - window == at;
      NoneLater(passes, at);
    }
  }

  /** Every hit keeps each window's passes within the limit. */
  lemma HitKeepsRate(window: real, limit: nat, c: Option<Counter>, passes: seq<Pass>, before: real, at: real)
    requires window > 0.0 && before <= at && RateOk(window, limit, c, passes, before)
    ensures var hit := Hit(window, c, at); RateOk(window, limit, Some(hit), Limited(window, limit, hit, passes, at), at)
  {
    HitIsCounted(window, limit, c, passes, before, at);
    var hit := Hit(window, c, at);
    if hit.count <= limit {
      PassKeepsRate(window, limit, hit, passes, at);
    }
  }

  lemma LaterKeepsRate(window: real, limit: nat, c: Option<Counter>, passes: seq<Pass>, before: real, at: real)
    requires before <= at && RateOk(window, limit, c, passes, before)
    ensures RateOk(window, limit, c, passes, at)
  {
  }

  // ---- Any interval as long as a window ----

  lemma {:induction false} SomePass(passes: seq<Pass>, from: real, to: real) returns (i: nat)
    requires InInterval(passes, from, to) > 0
    ensures i < |passes| && from <= passes[i].at <= to
  {
    i := |passes| - 1;
    if !(from <= passes[i].at <= to) {
      i := SomePass(passes[..i], from, to);
    }
  }

  /** Passes in an interval that touches at most two windows are passes in those windows. */
  lemma {:induction false} TwoWindows(passes: seq<Pass>, from: real, to: real, s: real, t: real)
    requires forall i :: 0 <= i < |passes| && from <= passes[i].at <= to ==> passes[i].start == s || passes[i].start == t
    ensures InInterval(passes, from, to) <= InWindow(passes, s) + InWindow(passes, t)
  {
    if passes != [] {
      var before := passes[..|passes| - 1];
      assert forall i :: 0 <= i < |before| ==> before[i] == passes[i];
      TwoWindows(before, from, to, s, t);
    }
  }

  lemma {:induction false} PairApart(window: real, passes: seq<Pass>, i: nat, j: nat)
    requires Apart(window, passes) && i < j < |passes|
    ensures passes[i].start == passes[j].start || passes[i].start + window <= passes[j].start
    ensures passes[i].start <= passes[i].at < passes[i].start + window && passes[j].start <= passes[j].at < passes[j].start + window
  {
    if j < |passes| - 1 {
      PairApart(window, passes[..|passes| - 1], i, j);
    } else if i < |passes| - 2 {
      PairApart(window, passes[..|passes| - 1], i, |passes| - 2);
    } else {
      assert Apart(window, passes[..|passes| - 1]);
    }
  }

  /** A closed interval no longer than a window touches at most two. */
  lemma AtMostTwo(window: real, passes: seq<Pass>, from: real, to: real, i: nat, j: nat, k: nat)
    requires Apart(window, passes) && to <= from + window
    requires i < |passes| && j < |passes| && k < |passes|
    requires from <= passes[i].at <= to && from <= passes[j].at <= to && from <= passes[k].at <= to
    ensures passes[i].start == passes[j].start || passes[j].start == passes[k].start || passes[i].start == passes[k].start
  {
    if i < j { PairApart(window, passes, i, j); } else if j < i { PairApart(window, passes, j, i); }
    if j < k { PairApart(window, passes, j, k); } else if k < j { PairApart(window, passes, k, j); }
    if i < k { PairApart(window, passes, i, k); } else if k < i { PairApart(window, passes, k, i); }
  }

  lemma IntervalBound(window: real, limit: nat, passes: seq<Pass>, from: real, to: real)
    requires Apart(window, passes) && to <= from + window
    requires Bounded(limit, passes)
    ensures InInterval(passes, from, to) <= 2 * limit
  {
    if InInterval(passes, from, to) > 0 {
      var i := SomePass(passes, from, to);
      var s := passes[i].start;
      if j :| 0 <= j < |passes| && from <= passes[j].at <= to && passes[j].start != s {
        forall k | 0 <= k < |passes| && from <= passes[k].at <= to ensures passes[k].start == s || passes[k].start == passes[j].start {
          AtMostTwo(window, passes, from, to, i, j, k);
        }
        TwoWindows(passes, from, to, s, passes[j].start);
      } else {
        TwoWindows(passes, from, to, s, s);
      }
    }
  }
}
