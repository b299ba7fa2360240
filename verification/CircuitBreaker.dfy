/** The Redis circuit breaker: three failures open it, half a minute later it lets a trial through. */
module CircuitBreaker {
  import opened Contracts

  const FAILURE_THRESHOLD: nat := 3
  const COOLDOWN_SECS: nat := 30

  datatype State = Closed | Open(until: nat) | HalfOpen

  datatype Circuit = Circuit(state: State, failures: nat)

  /** One call, at a time of the clock in seconds. */
  datatype Call = Request(now: nat) | Success(now: nat) | Failure(now: nat)

  function Allows(c: Circuit, now: nat): bool {
    c.state.Open? ==> now >= c.state.until
  }

  function Next(c: Circuit, call: Call): Circuit {
    match call
    case Request(now) => if c.state.Open? && now >= c.state.until then c.(state := HalfOpen) else c
    case Success(_) => Circuit(if c.state.HalfOpen? then Closed else c.state, 0)
    case Failure(now) =>
      if c.failures + 1 >= FAILURE_THRESHOLD then Circuit(Open(now + COOLDOWN_SECS), 0) else c.(failures := c.failures + 1)
  }

  class Breaker {
    var state: State
    var failureCount: nat

    ghost function View(): Circuit
      reads this
    {
      Circuit(state, failureCount)
    }

    constructor ()
      ensures View() == Circuit(Closed, 0)
    {
      state, failureCount := Closed, 0;
    }

    method AllowRequest(now: nat) returns (allowed: bool)
      modifies this
      ensures allowed == Allows(old(View()), now)
      ensures View() == Next(old(View()), Request(now))
    {
      match state
      case Closed => allowed := true;
      case Open(until) =>
        if now >= until {
          state := HalfOpen;
          allowed := true;
        } else {
          allowed := false;
        }
      case HalfOpen => allowed := true;
    }

    method RecordSuccess(now: nat)
      modifies this
      ensures View() == Next(old(View()), Success(now))
    {
      failureCount := 0;
      if state.HalfOpen? { state := Closed; }
    }

    method RecordFailure(now: nat)
      modifies this
      ensures View() == Next(old(View()), Failure(now))
    {
      var prev := failureCount;
      failureCount := failureCount + 1;
      var count := prev + 1;
      if count >= FAILURE_THRESHOLD {
        state := Open(now + COOLDOWN_SECS);
        failureCount := 0;
      }
    }
  }

  // ---------------------------------------------------------------- runs

  const FRESH := Circuit(Closed, 0)

  /** The circuit after the first `n` calls. */
  function After(calls: seq<Call>, n: nat): Circuit
    requires n <= |calls|
  {
    if n == 0 then FRESH else Next(After(calls, n - 1), calls[n - 1])
  }

  predicate Monotone(calls: seq<Call>) {
    forall i, j :: 0 <= i <= j < |calls| ==> calls[i].now <= calls[j].now
  }

  /** Call `i` opens the circuit, or opens it anew. */
  predicate Opens(calls: seq<Call>, i: nat)
    requires i < |calls|
  {
    calls[i].Failure? && After(calls, i).failures + 1 >= FAILURE_THRESHOLD
  }

  predicate AllowedAt(calls: seq<Call>, i: nat)
    requires i < |calls|
  {
    calls[i].Request? && Allows(After(calls, i), calls[i].now)
  }

  /** Whatever comes after an opening, the circuit stays open at least until its cooldown is over. */
  lemma {:induction false} StaysOpen(calls: seq<Call>, i: nat, n: nat)
    requires Monotone(calls) && i < n <= |calls| && Opens(calls, i)
    requires forall k :: i < k < n ==> calls[k].now < calls[i].now + COOLDOWN_SECS
    ensures After(calls, n).state.Open? && After(calls, n).state.until >= calls[i].now + COOLDOWN_SECS
  {
    if n > i + 1 { StaysOpen(calls, i, n - 1); }
  }

  /** What the circuit is open until was set by some opening. */
  lemma {:induction false} OpenedBy(calls: seq<Call>, n: nat) returns (i: nat)
    requires n <= |calls| && After(calls, n).state.Open?
    ensures i < n && Opens(calls, i) && After(calls, n).state.until == calls[i].now + COOLDOWN_SECS
  {
    if After(calls, n - 1).state.Open? && !Opens(calls, n - 1) {
      i := OpenedBy(calls, n - 1);
    } else {
      i := n - 1;
    }
  }

  /** A request is let through exactly if it comes thirty seconds or more after every opening before it. */
  lemma AllowedIff(calls: seq<Call>, j: nat)
    requires Monotone(calls) && j < |calls| && calls[j].Request?
    ensures AllowedAt(calls, j) <==> forall i :: 0 <= i < j && Opens(calls, i) ==> calls[j].now >= calls[i].now + 30
  {
    if i :| 0 <= i < j && Opens(calls, i) && calls[j].now < calls[i].now + 30 {
      StaysOpen(calls, i, j);
    } else if !AllowedAt(calls, j) {
      var i := OpenedBy(calls, j);
    }
  }

  /** `a < b < c` are three failures with no success anywhere between the first and the last, and no
      failure but these. */
  predicate ThreeInARow(calls: seq<Call>, a: nat, b: nat, c: nat) {
    && a < b < c < |calls|
    && calls[a].Failure? && calls[b].Failure? && calls[c].Failure?
    && forall k :: a < k < c && k != b ==> calls[k].Request?
  }

  /** The failures on count at call `n`, told from the calls: `b` is the last of them, `a` the one before. */
  lemma {:induction false} CountExplained(calls: seq<Call>, n: nat) returns (a: nat, b: nat)
    requires n <= |calls|
    ensures After(calls, n).failures < FAILURE_THRESHOLD
    ensures After(calls, n).failures >= 1 ==>
      b < n && calls[b].Failure? && forall k :: b < k < n ==> calls[k].Request?
    ensures After(calls, n).failures == 2 ==>
      a < b && calls[a].Failure? && forall k :: a < k < b ==> calls[k].Request?
  {
    a, b := 0, 0;
    if n > 0 {
      a, b := CountExplained(calls, n - 1);
      if calls[n - 1].Failure? && After(calls, n).failures >= 1 {
        a, b := b, n - 1;
      }
    }
  }

  /** Between calls fewer than three failures are on count, and every opening ends three failures with
      no success and no other failure between them. */
  lemma OpeningEndsThreeFailures(calls: seq<Call>, i: nat)
    requires i < |calls|
    ensures After(calls, i).failures < 3
    ensures Opens(calls, i) ==> exists a, b :: ThreeInARow(calls, a, b, i)
  {
    var a, b := CountExplained(calls, i);
    if Opens(calls, i) {
      assert ThreeInARow(calls, a, b, i);
    }
  }

  /** Requests leave the count alone. */
  lemma {:induction false} CountKept(calls: seq<Call>, m: nat, n: nat)
    requires m <= n <= |calls|
    requires forall k :: m <= k < n ==> calls[k].Request?
    ensures After(calls, n).failures == After(calls, m).failures
  {
    if n > m { CountKept(calls, m, n - 1); }
  }

  /** Of three failures in a row with nothing but requests between them exactly one opens the circuit, so
      it never takes more than three. */
  lemma OneOfThreeOpens(calls: seq<Call>, a: nat, b: nat, c: nat)
    requires c < |calls| && ThreeInARow(calls, a, b, c)
    ensures Opens(calls, a) || Opens(calls, b) || Opens(calls, c)
    ensures !(Opens(calls, a) && Opens(calls, b)) && !(Opens(calls, b) && Opens(calls, c)) && !(Opens(calls, a) && Opens(calls, c))
  {
    CountKept(calls, a + 1, b);
    CountKept(calls, b + 1, c);
    assert After(calls, a + 1) == Next(After(calls, a), calls[a]) && After(calls, b + 1) == Next(After(calls, b), calls[b]);
    var x, y := CountExplained(calls, a);
  }

  lemma {:induction false} HalfOpenKept(calls: seq<Call>, m: nat, n: nat)
    requires m <= n <= |calls| && After(calls, m).state.HalfOpen?
    requires forall k :: m <= k < n ==> !calls[k].Success? && !Opens(calls, k)
    ensures After(calls, n).state.HalfOpen?
  {
    if n > m { HalfOpenKept(calls, m, n - 1); }
  }

  /** A request let through while the circuit is open starts a trial, and the next success, if nothing opens
      the circuit before it, closes it. */
  lemma TrialCloses(calls: seq<Call>, t: nat, s: nat)
    requires t < s < |calls| && AllowedAt(calls, t) && After(calls, t).state.Open? && calls[s].Success?
    requires forall k :: t < k < s ==> !calls[k].Success? && !Opens(calls, k)
    ensures After(calls, s).state.HalfOpen? && After(calls, s + 1) == Circuit(Closed, 0)
  {
    assert After(calls, t + 1).state.HalfOpen?;
    HalfOpenKept(calls, t + 1, s);
  }

  /** From open to closed there is only one way: an allowed request makes it half-open, and a later
      success closes it. */
  lemma {:induction false} ClosesThroughTrial(calls: seq<Call>, i: nat, n: nat)
    requires i < n <= |calls| && Opens(calls, i) && After(calls, n).state.Closed?
    ensures exists t, s :: i < t < s < n && AllowedAt(calls, t) && After(calls, t).state.Open?
              && calls[s].Success? && After(calls, s).state.HalfOpen?
  {
    var s := LastNotClosed(calls, i + 1, n);
    var t := BecameHalfOpen(calls, i + 1, s);
  }

  lemma {:induction false} LastNotClosed(calls: seq<Call>, m: nat, n: nat) returns (s: nat)
    requires m <= n <= |calls| && !After(calls, m).state.Closed? && After(calls, n).state.Closed?
    ensures m <= s < n && calls[s].Success? && After(calls, s).state.HalfOpen?
  {
    if !After(calls, n - 1).state.Closed? { s := n - 1; } else { s := LastNotClosed(calls, m, n - 1); }
  }

  lemma {:induction false} BecameHalfOpen(calls: seq<Call>, m: nat, n: nat) returns (t: nat)
    requires m <= n <= |calls| && After(calls, m).state.Open? && After(calls, n).state.HalfOpen?
    ensures m <= t < n && AllowedAt(calls, t) && After(calls, t).state.Open?
  {
    if After(calls, n - 1).state.HalfOpen? {
      t := BecameHalfOpen(calls, m, n - 1);
    } else {
      assert After(calls, n) == Next(After(calls, n - 1), calls[n - 1]);
      t := n - 1;
    }
  }
}
