/** The data provider's watchdog: after enough stale checks in a row it forces a resync. */
module Watchdog {
  import opened Contracts

  const U32_MAX: int := 0xffff_ffff

  /** The counter's type; its addition saturates. */
  type uint32 = i: int | 0 <= i <= 0xffff_ffff

  function SaturatingInc(n: uint32): uint32 {
    if n == U32_MAX then n else n + 1
  }

  /** One look at the feeds: ages in seconds since the last tick, if there was one. A first feed that
      never ticked is stale, a second one is not. */
  predicate Stale(firstAge: Option<nat>, secondAge: Option<nat>, firstMax: nat, secondMax: nat) {
    (firstAge.None? || firstAge.value > firstMax) || (secondAge.Some? && secondAge.value > secondMax)
  }

  /** Counter and resyncs after one check. */
  function Check(count: uint32, stale: bool, threshold: uint32): (uint32, bool) {
    if !stale then (0, false)
    else
      var bumped := SaturatingInc(count);
      if bumped >= threshold then (0, true) else (bumped, false)
  }

  class FeedWatchdog {
    var staleCount: uint32
    var resyncs: nat
    const threshold: uint32
    ghost var history: seq<bool>

    /** Counter and resyncs are what the history of checks says. */
    ghost predicate Valid()
      reads this
    {
      threshold >= 1 && (staleCount, resyncs) == Watch(history, threshold)
    }

    /** A configured threshold of zero counts as one. */
    constructor (configured: uint32)
      ensures threshold == (if configured < 1 then 1 else configured) && history == [] && Valid()
    {
      threshold := if configured < 1 then 1 else configured;
      staleCount, resyncs, history := 0, 0, [];
    }

    method Look(firstAge: Option<nat>, secondAge: Option<nat>, firstMax: nat, secondMax: nat)
      requires Valid()
      modifies this
      ensures Valid()
      ensures history == old(history) + [firstAge.None? || firstAge.value > firstMax || (secondAge.Some? && secondAge.value > secondMax)]
      ensures staleCount == CurrentRun(history) % threshold && resyncs == RunQuotients(history, threshold)
    {
      history := history + [Stale(firstAge, secondAge, firstMax, secondMax)];
      assert history[..|history| - 1] == old(history);
      WatchdogCounts(history, threshold);
      var firstStale := if firstAge.Some? then firstAge.value > firstMax else true;
      var secondStale := if secondAge.Some? then secondAge.value > secondMax else false;
      if firstStale || secondStale {
        staleCount := SaturatingInc(staleCount);
        if staleCount >= threshold {
          resyncs := resyncs + 1;
          staleCount := 0;
        }
      } else {
        staleCount := 0;
      }
    }
  }

  // ---------------------------------------------------------------- whole histories

  /** Counter and number of resyncs after a history of checks. */
  function Watch(history: seq<bool>, threshold: uint32): (uint32, nat) {
    if history == [] then (0, 0)
    else
      var n := |history| - 1;
      var (count, resyncs) := Watch(history[..n], threshold);
      var (count', resync) := Check(count, history[n], threshold);
      (count', resyncs + if resync then 1 else 0)
  }

  /** `history[i..j]` is a stale run that cannot be made longer. */
  predicate MaximalRun(history: seq<bool>, i: int, j: int) {
    && 0 <= i < j <= |history|
    && (forall k :: i <= k < j ==> history[k])
    && (i > 0 ==> !history[i - 1])
    && (j < |history| ==> !history[j])
  }

  /** Length of the stale run the history ends in; zero if the last check was not stale. */
  function CurrentRun(history: seq<bool>): (n: nat)
    ensures n <= |history|
    ensures forall k :: |history| - n <= k < |history| ==> history[k]
    ensures n < |history| ==> !history[|history| - n - 1]
  {
    if history == [] || !history[|history| - 1] then 0 else CurrentRun(history[..|history| - 1]) + 1
  }

  /** Sum over the maximal stale runs that end at or before `n` of the quotients of their lengths. */
  ghost function QuotientsTo(history: seq<bool>, n: nat, threshold: uint32): nat
    requires n <= |history| && threshold >= 1
  {
    if n == 0 then 0
    else
      QuotientsTo(history, n - 1, threshold)
      + (if exists i :: MaximalRun(history, i, n) then (var i :| MaximalRun(history, i, n); (n - i) / threshold) else 0)
  }

  ghost function RunQuotients(history: seq<bool>, threshold: uint32): nat
    requires threshold >= 1
  {
    QuotientsTo(history, |history|, threshold)
  }

  lemma RunStartUnique(history: seq<bool>, i: int, i': int, n: nat)
    requires MaximalRun(history, i, n) && MaximalRun(history, i', n)
    ensures i == i'
  {
  }

  /** A run ends at `n` exactly when check `n - 1` was stale and check `n` was not, or there is none. */
  lemma RunEndsAt(history: seq<bool>, n: nat)
    requires 0 < n <= |history|
    ensures
      var r := CurrentRun(history[..n]);
      (exists i :: MaximalRun(history, i, n)) <==> r > 0 && (n < |history| ==> !history[n])
    ensures forall i :: MaximalRun(history, i, n) ==> n - i == CurrentRun(history[..n])
  {
    var r := CurrentRun(history[..n]);
    assert forall k :: 0 <= k < n ==> history[..n][k] == history[k];
    if r > 0 && (n < |history| ==> !history[n]) {
      assert forall k :: n - r <= k < n ==> history[..n][k];
      assert MaximalRun(history, n - r, n);
    }
    forall i | MaximalRun(history, i, n) ensures n - i == r {
      assert r > 0 by { assert history[n - 1]; }
      assert MaximalRun(history, n - r, n);
      RunStartUnique(history, i, n - r, n);
    }
  }

  lemma NextMultiple(k: nat, t: nat)
    requires t >= 1
    ensures (k + 1) % t == if k % t + 1 == t then 0 else k % t + 1
    ensures (k + 1) / t == k / t + if k % t + 1 == t then 1 else 0
  {
    var q, r := k / t, k % t;
    assert k == q * t + r;
    if r + 1 == t {
      assert k + 1 == (q + 1) * t + 0;
      DivModIs(k + 1, t, q + 1, 0);
    } else {
      DivModIs(k + 1, t, q, r + 1);
    }
  }

  lemma Scaled(d: int, t: int)
    requires t >= 1
    ensures d >= 1 ==> d * t >= t
    ensures d <= -1 ==> d * t <= -t
  {
    if d >= 1 { assert (d - 1) * t >= 0; }
    if d <= -1 { assert (-d - 1) * t >= 0; }
  }

  lemma SameDivision(t: nat, q: int, r: int, q': int, r': int)
    requires t >= 1 && 0 <= r < t && 0 <= r' < t && q * t + r == q' * t + r'
    ensures q == q' && r == r'
  {
    Scaled(q - q', t);
    assert (q - q') * t == q * t - q' * t;
  }

  lemma DivModIs(n: nat, t: nat, q: nat, r: nat)
    requires t >= 1 && r < t && n == q * t + r
    ensures n / t == q && n % t == r
  {
    assert n == (n / t) * t + n % t;
    SameDivision(t, q, r, n / t, n % t);
  }

  /** Quotients of the runs that ended before `n` do not depend on what comes from `n + 1` on. */
  lemma {:induction false} EarlierRuns(a: seq<bool>, b: seq<bool>, n: nat, threshold: uint32)
    requires threshold >= 1 && n < |a| && n < |b|
    requires forall k :: 0 <= k <= n ==> a[k] == b[k]
    ensures QuotientsTo(a, n, threshold) == QuotientsTo(b, n, threshold)
  {
    if n > 0 {
      EarlierRuns(a, b, n - 1, threshold);
      assert forall i :: MaximalRun(a, i, n) <==> MaximalRun(b, i, n);
      forall i, j | MaximalRun(a, i, n) && MaximalRun(b, j, n) ensures i == j { RunStartUnique(a, i, j, n); }
    }
  }

  /** The last run of the history, split off from the ones before. */
  lemma LastRun(history: seq<bool>, threshold: uint32)
    requires threshold >= 1 && history != []
    ensures RunQuotients(history, threshold)
         == QuotientsTo(history, |history| - 1, threshold) + CurrentRun(history) / threshold
  {
    var n := |history|;
    assert history[..n] == history;
    RunEndsAt(history, n);
    if CurrentRun(history) == 0 { assert 0 / threshold == 0; }
  }

  /** Runs up to the check before the last: one more check either continues the last run or ends it. */
  lemma {:induction false} OneMoreCheck(history: seq<bool>, stale: bool, threshold: uint32)
    requires threshold >= 1
    ensures QuotientsTo(history + [stale], |history|, threshold)
         == RunQuotients(history, threshold) - if stale then CurrentRun(history) / threshold else 0
  {
    var n, longer := |history|, history + [stale];
    if n == 0 {
      assert CurrentRun(history) == 0;
      assert 0 / threshold == 0;
    } else {
      EarlierRuns(longer, history, n - 1, threshold);
      LastRun(history, threshold);
      assert longer[..n] == history;
      RunEndsAt(longer, n);
      if CurrentRun(history) == 0 { assert 0 / threshold == 0; }
    }
  }

  /** Over any history of checks the counter is the current stale run's length modulo the threshold,
      and the resyncs are the sum over the maximal stale runs of length divided by threshold. */
  lemma {:induction false} WatchdogCounts(history: seq<bool>, threshold: uint32)
    requires threshold >= 1
    ensures Watch(history, threshold) == (CurrentRun(history) % threshold, RunQuotients(history, threshold))
  {
    if history == [] {
      assert 0 % threshold == 0;
    } else {
      var n := |history| - 1;
      var init, stale := history[..n], history[n];
      assert history == init + [stale];
      WatchdogCounts(init, threshold);
      OneMoreCheck(init, stale, threshold);
      LastRun(history, threshold);
      NextMultiple(CurrentRun(init), threshold);
      assert 0 % threshold == 0 && 0 / threshold == 0;
    }
  }
}
