/** Tiered leverage: which rung of a symbol's ladder applies to a notional, clamped to the
    user's bounds. The rule exists twice in the program, once in the risk crate and once in
    the web client; both loops are proved against the one declarative rule `Rung`. */
module EffectiveLeverage {
  import opened Contracts

  /** A rung's lower bound as parsed from text. */
  datatype Bound = Malformed | Num(x: real)

  /** A rung's upper bound: absent or blank, unparsable, or an exclusive limit. */
  datatype Upper = Open | BadUpper | Below(x: real)

  datatype Tier = Tier(from: Bound, to: Upper, maxLeverage: int32)

  // ---------------------------------------------------------------- the rule

  predicate Contains(t: Tier, n: real) {
    t.from.Num? && t.from.x <= n && (t.to.Open? || (t.to.Below? && n < t.to.x))
  }

  /** Among the rungs that contain `n`, rung `i` starts highest; ties go to the first listed. */
  ghost predicate IsBest(ts: seq<Tier>, n: real, i: int) {
    && 0 <= i < |ts|
    && Contains(ts[i], n)
    && forall j :: 0 <= j < |ts| && Contains(ts[j], n) ==>
         ts[j].from.x < ts[i].from.x || (ts[j].from.x == ts[i].from.x && i <= j)
  }

  /** Rung `i` starts lowest of all rungs with a readable start; ties go to the first listed. */
  ghost predicate IsFloor(ts: seq<Tier>, i: int) {
    && 0 <= i < |ts|
    && ts[i].from.Num?
    && forall j :: 0 <= j < |ts| && ts[j].from.Num? ==>
         ts[i].from.x < ts[j].from.x || (ts[j].from.x == ts[i].from.x && i <= j)
  }

  /** The leverage the ladder grants to `n`: the highest containing rung, or the lowest rung
      when a positive notional lies below all of them. */
  ghost function Rung(ts: seq<Tier>, n: real): Option<int32> {
    if exists i :: IsBest(ts, n, i) then
      var i :| IsBest(ts, n, i); Some(ts[i].maxLeverage)
    else if n > 0.0 && exists i :: IsFloor(ts, i) && n < ts[i].from.x then
      var i :| IsFloor(ts, i) && n < ts[i].from.x; Some(ts[i].maxLeverage)
    else
      None
  }

  /** Every bound the engine has to read for `n` is readable. */
  ghost predicate Readable(ts: seq<Tier>, n: real) {
    forall i :: 0 <= i < |ts| ==> ts[i].from.Num? && (ts[i].from.x <= n ==> !ts[i].to.BadUpper?)
  }

  ghost predicate WellFormed(ts: seq<Tier>) {
    forall i :: 0 <= i < |ts| ==> ts[i].from.Num? && !ts[i].to.BadUpper?
  }

  /** Below `lo` becomes `lo`, above `hi` becomes `hi`. */
  function Clamp(x: real, lo: real, hi: real): real {
    if x < lo then lo else if hi < x then hi else x
  }

  ghost predicate BoundsOk(min: Option<int32>, max: Option<int32>) {
    min.Some? && max.Some? && 1 <= min.value <= max.value
  }

  /** What the engine must answer: nothing on any configuration error, otherwise the clamped rung. */
  ghost function Effective(n: real, min: Option<int32>, max: Option<int32>, tiers: Option<seq<Tier>>): Option<real> {
    if !BoundsOk(min, max) || tiers.None? || n < 0.0 || !Readable(tiers.value, n) then None
    else
      var rung := Rung(tiers.value, n);
      if rung.None? || rung.value < 1 then None
      else Some(Clamp(rung.value as real, min.value as real, max.value as real))
  }

  // ---------------------------------------------------------------- the two loops

  /** One more rung: the best so far stays unless the new one contains `n` and starts higher. */
  lemma BestGrows(ts: seq<Tier>, n: real, k: nat, best: int)
    requires k < |ts| && IsBest(ts[..k], n, best)
    ensures if Contains(ts[k], n) && ts[best].from.x < ts[k].from.x then IsBest(ts[..k + 1], n, k) else IsBest(ts[..k + 1], n, best)
  {
  }

  lemma FloorGrows(ts: seq<Tier>, k: nat, floor: int)
    requires k < |ts| && IsFloor(ts[..k], floor)
    ensures if ts[k].from.Num? && ts[k].from.x < ts[floor].from.x then IsFloor(ts[..k + 1], k) else IsFloor(ts[..k + 1], floor)
  {
  }

  /** crates/risk: three loops over the rungs, then the clamp. The second loop (an open-ended
      rung, scanned backwards) never finds anything: its branch is unreachable. */
  method ComputeEffectiveLeverage(n: real, minLeverage: Option<int32>, maxLeverage: Option<int32>, tiers: Option<seq<Tier>>)
    returns (r: Option<real>)
    ensures r == Effective(n, minLeverage, maxLeverage, tiers)
  {
    if minLeverage.None? || maxLeverage.None? { return None; }
    var minL, maxL := minLeverage.value, maxLeverage.value;
    if minL < 1 || maxL < 1 || minL > maxL { return None; }
    if tiers.None? { return None; }
    var ts := tiers.value;
    if |ts| == 0 {
      return None;
    }
    if n < 0.0 { return None; }

    var bestLev: Option<int32> := None;
    var bestFrom: Option<real> := None;
    ghost var best := -1;
    for k := 0 to |ts|
      invariant forall j :: 0 <= j < k ==> ts[j].from.Num? && (ts[j].from.x <= n ==> !ts[j].to.BadUpper?)
      invariant bestLev.Some? == bestFrom.Some?
      invariant bestFrom.None? ==> forall j :: 0 <= j < k ==> !Contains(ts[j], n)
      invariant bestFrom.Some? ==> 0 <= best < k && IsBest(ts[..k], n, best)
                                   && bestFrom.value == ts[best].from.x && bestLev == Some(ts[best].maxLeverage)
    {
      var t := ts[k];
      if bestFrom.Some? { BestGrows(ts, n, k, best); }
      if t.from.Malformed? { return None; }
      var from := t.from.x;
      if n < from { continue; }
      if t.to.BadUpper? { return None; }
      var inTier := t.to.Open? || n < t.to.x;
      if inTier {
        if bestFrom.None? || from > bestFrom.value {
          bestFrom := Some(from);
          bestLev := Some(t.maxLeverage);
          best := k;
        }
      }
    }
    assert ts[..|ts|] == ts;
    var symbolLev := bestLev;

    if symbolLev.None? {
      var k := |ts|;
      while k > 0
        invariant 0 <= k <= |ts|
        invariant symbolLev.None?
      {
        k := k - 1;
        var t := ts[k];
        if !t.to.Open? { continue; }
        assert !Contains(t, n);
        if n >= t.from.x {
          symbolLev := Some(t.maxLeverage);
          break;
        }
      }
    }

    ghost var floor := -1;
    if symbolLev.None? && n > 0.0 {
      var bestFloor: Option<(real, int32)> := None;
      for k := 0 to |ts|
        invariant bestFloor.None? ==> k == 0
        invariant bestFloor.Some? ==> 0 <= floor < k && IsFloor(ts[..k], floor)
                                      && bestFloor.value == (ts[floor].from.x, ts[floor].maxLeverage)
      {
        var t := ts[k];
        if bestFloor.Some? { FloorGrows(ts, k, floor); }
        if bestFloor.None? || t.from.x < bestFloor.value.0 {
          bestFloor := Some((t.from.x, t.maxLeverage));
          floor := k;
        }
      }
      if bestFloor.Some? && n < bestFloor.value.0 {
        symbolLev := Some(bestFloor.value.1);
      }
    }

    if symbolLev.None? { return None; }
    var s := symbolLev.value;
    if s < 1 { return None; }
    var sym, lo, hi := s as real, minL as real, maxL as real;
    var raised := if sym < lo then lo else sym;
    r := Some(if hi < raised then hi else raised);
  }

  /** src/shared/api/auth.api.ts: the client's copy. It skips unreadable rungs instead of
      giving up, rejects a zero notional, and clamps from the other side first. */
  method EffectiveLeverageFromTiers(n: real, ts: seq<Tier>, userMin: real, userMax: real) returns (r: Option<real>)
    ensures r == ClientEffective(n, ts, userMin, userMax)
  {
    if n < 0.0 { return None; }
    if userMin < 1.0 || userMax < 1.0 || userMin > userMax { return None; }
    if |ts| == 0 {
      return None;
    }
    if n == 0.0 { return None; }

    var bestLev: Option<int32> := None;
    var bestFrom: Option<real> := None;
    ghost var best := -1;
    for k := 0 to |ts|
      invariant bestLev.Some? == bestFrom.Some?
      invariant bestFrom.None? ==> forall j :: 0 <= j < k ==> !Contains(ts[j], n)
      invariant bestFrom.Some? ==> 0 <= best < k && IsBest(ts[..k], n, best)
                                   && bestFrom.value == ts[best].from.x && bestLev == Some(ts[best].maxLeverage)
    {
      var t := ts[k];
      if bestFrom.Some? { BestGrows(ts, n, k, best); }
      if t.from.Malformed? || n < t.from.x { continue; }
      if t.to.BadUpper? { continue; }
      var inTier := t.to.Open? || n < t.to.x;
      if inTier {
        if bestFrom.None? || t.from.x > bestFrom.value {
          bestFrom := Some(t.from.x);
          bestLev := Some(t.maxLeverage);
          best := k;
        }
      }
    }
    assert ts[..|ts|] == ts;
    var symbolLev := bestLev;

    if symbolLev.None? {
      var k := |ts|;
      while k > 0
        invariant 0 <= k <= |ts|
        invariant symbolLev.None?
      {
        k := k - 1;
        var t := ts[k];
        if !t.to.Open? { continue; }
        if t.from.Malformed? { continue; }
        assert !Contains(t, n);
        if n >= t.from.x {
          symbolLev := Some(t.maxLeverage);
          break;
        }
      }
    }

    ghost var floor := -1;
    if symbolLev.None? && n > 0.0 {
      var bestFloor: Option<(real, int32)> := None;
      for k := 0 to |ts|
        invariant bestFloor.None? ==> forall j :: 0 <= j < k ==> ts[j].from.Malformed?
        invariant bestFloor.Some? ==> 0 <= floor < k && IsFloor(ts[..k], floor)
                                      && bestFloor.value == (ts[floor].from.x, ts[floor].maxLeverage)
      {
        var t := ts[k];
        if bestFloor.Some? { FloorGrows(ts, k, floor); }
        if t.from.Malformed? { continue; }
        if bestFloor.None? || t.from.x < bestFloor.value.0 {
          bestFloor := Some((t.from.x, t.maxLeverage));
          floor := k;
        }
      }
      if bestFloor.Some? && n < bestFloor.value.0 {
        symbolLev := Some(bestFloor.value.1);
      }
    }

    if symbolLev.None? || symbolLev.value < 1 { return None; }
    var lev := symbolLev.value as real;
    var lowered := if userMax < lev then userMax else lev;
    r := Some(if userMin > lowered then userMin else lowered);
  }

  /** What the client must answer: unreadable rungs count for nothing, a zero notional has no leverage. */
  ghost function ClientEffective(n: real, ts: seq<Tier>, userMin: real, userMax: real): Option<real> {
    if n <= 0.0 || userMin < 1.0 || userMin > userMax then None
    else
      var rung := Rung(ts, n);
      if rung.None? || rung.value < 1 then None else Some(Clamp(rung.value as real, userMin, userMax))
  }

  /** src/shared/api/auth.api.ts: the client shows a default wherever it finds no leverage. */
  method GetEffectiveLeverage(n: real, tiers: Option<seq<Tier>>, userMin: Option<real>, userMax: Option<real>, default: real)
    returns (r: real)
    ensures r == Displayed(n, tiers, userMin, userMax, default)
  {
    if n < 0.0 { return default; }
    if tiers.None? || |tiers.value| == 0 { return default; }
    var min := if userMin.Some? then userMin.value else 1.0;
    var max := if userMax.Some? then userMax.value else 500.0;
    var found := EffectiveLeverageFromTiers(n, tiers.value, min, max);
    r := if found.Some? then found.value else default;
  }

  ghost function Displayed(n: real, tiers: Option<seq<Tier>>, userMin: Option<real>, userMax: Option<real>, default: real): real {
    var min, max := if userMin.Some? then userMin.value else 1.0, if userMax.Some? then userMax.value else 500.0;
    var found := if tiers.Some? then ClientEffective(n, tiers.value, min, max) else None;
    if found.Some? then found.value else default
  }

  // ---------------------------------------------------------------- the rule decides every case

  lemma {:induction false} BestExists(ts: seq<Tier>, n: real, k: nat)
    requires k < |ts| && Contains(ts[k], n)
    ensures exists i :: IsBest(ts, n, i)
    decreases |ts|
  {
    var init, last := ts[..|ts| - 1], ts[|ts| - 1];
    if j :| 0 <= j < |init| && Contains(init[j], n) {
      BestExists(init, n, j);
      var i :| IsBest(init, n, i);
      if Contains(last, n) && last.from.x > ts[i].from.x {
        assert IsBest(ts, n, |ts| - 1);
      } else {
        assert IsBest(ts, n, i);
      }
    } else {
      assert forall j :: 0 <= j < |init| ==> !Contains(ts[j], n) by {
        forall j | 0 <= j < |init| ensures !Contains(ts[j], n) { assert ts[j] == init[j]; }
      }
      assert IsBest(ts, n, k);
    }
  }

  lemma {:induction false} FloorExists(ts: seq<Tier>, k: nat)
    requires k < |ts| && ts[k].from.Num?
    ensures exists i :: IsFloor(ts, i)
    decreases |ts|
  {
    var init, last := ts[..|ts| - 1], ts[|ts| - 1];
    if j :| 0 <= j < |init| && init[j].from.Num? {
      FloorExists(init, j);
      var i :| IsFloor(init, i);
      if last.from.Num? && last.from.x < ts[i].from.x {
        assert IsFloor(ts, |ts| - 1);
      } else {
        assert IsFloor(ts, i);
      }
    } else {
      assert forall j :: 0 <= j < |init| ==> ts[j].from.Malformed? by {
        forall j | 0 <= j < |init| ensures ts[j].from.Malformed? { assert ts[j] == init[j]; }
      }
      assert IsFloor(ts, k);
    }
  }

  /** From its start on, and short of its end if it has one. */
  predicate Spans(t: Tier, n: real) {
    t.from.Num? && t.from.x <= n && (t.to.Below? ==> n < t.to.x)
  }

  /** The rule, read off for well-formed ladders: some rung spans `n` and the answer is the first of those
      that start highest; or none does, and the answer exists exactly for positive notionals below every
      rung, where it is the first of those that start lowest. */
  lemma RungMeaning(ts: seq<Tier>, n: real) returns (i: int)
    requires WellFormed(ts) && |ts| > 0
    ensures if exists k :: 0 <= k < |ts| && Spans(ts[k], n) then
              && 0 <= i < |ts| && Spans(ts[i], n) && Rung(ts, n) == Some(ts[i].maxLeverage)
              && forall j :: 0 <= j < |ts| && Spans(ts[j], n) ==>
                   ts[j].from.x <= ts[i].from.x && (j < i ==> ts[j].from.x < ts[i].from.x)
            else if n > 0.0 && forall k :: 0 <= k < |ts| ==> n < ts[k].from.x then
              && 0 <= i < |ts| && Rung(ts, n) == Some(ts[i].maxLeverage)
              && forall j :: 0 <= j < |ts| ==> ts[i].from.x <= ts[j].from.x && (j < i ==> ts[i].from.x < ts[j].from.x)
            else Rung(ts, n) == None
  {
    assert forall k :: 0 <= k < |ts| ==> (Spans(ts[k], n) <==> Contains(ts[k], n));
    if k :| 0 <= k < |ts| && Spans(ts[k], n) {
      BestExists(ts, n, k);
      i :| IsBest(ts, n, i) && Rung(ts, n) == Some(ts[i].maxLeverage);
    } else {
      FloorExists(ts, 0);
      i :| IsFloor(ts, i);
      if n > 0.0 && forall k :: 0 <= k < |ts| ==> n < ts[k].from.x {
        i :| IsFloor(ts, i) && n < ts[i].from.x && Rung(ts, n) == Some(ts[i].maxLeverage);
      }
    }
  }

  /** What the engine makes of the rung: nothing unless the bounds are at least one and in order, the notional
      is not negative, every bound it reads is readable, and the rung's leverage is at least one; else that
      leverage, or the bound it would overstep. */
  lemma EffectiveMeaning(n: real, min: Option<int32>, max: Option<int32>, tiers: Option<seq<Tier>>)
    ensures
      var r := Effective(n, min, max, tiers);
      && (r.Some? <==> min.Some? && max.Some? && 1 <= min.value <= max.value && tiers.Some? && n >= 0.0
                       && (forall i :: 0 <= i < |tiers.value| ==>
                             tiers.value[i].from.Num? && (tiers.value[i].from.x <= n ==> !tiers.value[i].to.BadUpper?))
                       && Rung(tiers.value, n).Some? && Rung(tiers.value, n).value >= 1)
      && (r.Some? ==>
            var leverage := Rung(tiers.value, n).value;
            r.value == (if leverage < min.value then min.value else if leverage > max.value then max.value else leverage) as real)
  {
  }

  /** No two rungs share a starting point. */
  ghost predicate DistinctFroms(ts: seq<Tier>) {
    forall i, j :: 0 <= i < j < |ts| ==> ts[i].from != ts[j].from
  }

  /** Two listings of the same rungs, no two of which share a starting point. */
  ghost predicate SameRungs(ts: seq<Tier>, us: seq<Tier>) {
    DistinctFroms(ts) && DistinctFroms(us) && forall t :: t in ts <==> t in us
  }

  lemma BestTransfers(ts: seq<Tier>, us: seq<Tier>, n: real, i: int) returns (k: nat)
    requires SameRungs(ts, us) && IsBest(ts, n, i)
    ensures IsBest(us, n, k) && us[k] == ts[i]
  {
    assert ts[i] in us;
    k :| 0 <= k < |us| && us[k] == ts[i];
    forall j | 0 <= j < |us| && Contains(us[j], n)
      ensures us[j].from.x < us[k].from.x || (us[j].from.x == us[k].from.x && k <= j)
    {
      assert us[j] in ts;
    }
  }

  lemma FloorTransfers(ts: seq<Tier>, us: seq<Tier>, i: int) returns (k: nat)
    requires SameRungs(ts, us) && IsFloor(ts, i)
    ensures IsFloor(us, k) && us[k] == ts[i]
  {
    assert ts[i] in us;
    k :| 0 <= k < |us| && us[k] == ts[i];
    forall j | 0 <= j < |us| && us[j].from.Num?
      ensures us[k].from.x < us[j].from.x || (us[j].from.x == us[k].from.x && k <= j)
    {
      assert us[j] in ts;
    }
  }

  /** The order in which the rungs are listed does not matter. */
  lemma ListingOrderIrrelevant(ts: seq<Tier>, us: seq<Tier>, n: real)
    requires SameRungs(ts, us)
    ensures Rung(ts, n) == Rung(us, n)
  {
    if i :| IsBest(ts, n, i) {
      var k := BestTransfers(ts, us, n, i);
    } else if i :| IsBest(us, n, i) {
      var k := BestTransfers(us, ts, n, i);
    } else if i :| IsFloor(ts, i) {
      var k := FloorTransfers(ts, us, i);
    } else if i :| IsFloor(us, i) {
      var k := FloorTransfers(us, ts, i);
    }
  }

  // ---------------------------------------------------------------- engine and client agree

  /** Both copies give the same answer on every readable ladder and every pair of user bounds,
      ties, gaps and notionals below the first rung included; they part at a zero notional the
      engine resolves, and nowhere else. */
  lemma ClientAgrees(n: real, min: int32, max: int32, ts: seq<Tier>)
    requires Readable(ts, n)
    ensures ClientEffective(n, ts, min as real, max as real) == Effective(n, Some(min), Some(max), Some(ts))
            <==> n != 0.0 || Effective(n, Some(min), Some(max), Some(ts)).None?
  {
  }

  /** Some rung serves the notional, unreadable rungs left aside, with a leverage of at least one. */
  ghost predicate Served(ts: seq<Tier>, n: real) {
    var rung := Rung(ts, n);
    rung.Some? && rung.value >= 1
  }

  /** On every list of rungs, readable or not, and all bounds: the two disagree exactly when the bounds are
      in order, some rung serves the notional, and it is zero on a readable list or positive on one the
      engine cannot read. */
  lemma ClientDisagreesIff(n: real, min: int32, max: int32, ts: seq<Tier>)
    ensures ClientEffective(n, ts, min as real, max as real) != Effective(n, Some(min), Some(max), Some(ts))
            <==> BoundsOk(Some(min), Some(max)) && Served(ts, n)
                 && ((n == 0.0 && Readable(ts, n)) || (n > 0.0 && !Readable(ts, n)))
  {
    if n > 0.0 && Readable(ts, n) { ClientAgrees(n, min, max, ts); }
  }

  /** What the client displays for a positive notional on a readable ladder is the engine's leverage
      whenever the engine has one, and the default otherwise. */
  lemma DisplayedIsEngines(n: real, min: int32, max: int32, ts: seq<Tier>, default: real)
    requires Readable(ts, n) && n > 0.0
    ensures
      var engine := Effective(n, Some(min), Some(max), Some(ts));
      Displayed(n, Some(ts), Some(min as real), Some(max as real), default) == if engine.Some? then engine.value else default
  {
    ClientAgrees(n, min, max, ts);
  }

  /** On a ladder the engine cannot read it answers nothing, while the client may still answer. */
  lemma ClientReadsOnPastBadRungs()
    ensures
      var ts := [Tier(Malformed, Open, 5), Tier(Num(0.0), Open, 20)];
      && Effective(100.0, Some(1), Some(50), Some(ts)) == None
      && ClientEffective(100.0, ts, 1.0, 50.0) == Some(20.0)
  {
    var ts := [Tier(Malformed, Open, 5), Tier(Num(0.0), Open, 20)];
    assert ts[0].from.Malformed?;
    assert Contains(ts[1], 100.0);
    assert IsBest(ts, 100.0, 1);
  }

  // ---------------------------------------------------------------- contiguous ladders

  /** Rungs in order, each ending where the next begins, the top one open, leverage never rising. */
  ghost predicate Ladder(ts: seq<Tier>) {
    && |ts| > 0
    && (forall i :: 0 <= i < |ts| ==> ts[i].from.Num?)
    && (forall i, j :: 0 <= i < j < |ts| ==> ts[i].from.x < ts[j].from.x)
    && (forall i :: 0 <= i < |ts| - 1 ==> ts[i].to == Below(ts[i + 1].from.x))
    && ts[|ts| - 1].to.Open?
    && (forall i, j :: 0 <= i < j < |ts| ==> ts[i].maxLeverage >= ts[j].maxLeverage)
  }

  /** The rung of a ladder that serves a positive notional. */
  ghost predicate Serves(ts: seq<Tier>, n: real, i: int)
    requires Ladder(ts)
  {
    && 0 <= i < |ts|
    && (i == 0 || ts[i].from.x <= n)
    && (i + 1 < |ts| ==> n < ts[i + 1].from.x)
  }

  /** Every positive notional is served by some rung, and that rung decides the answer. */
  lemma {:induction false} LadderServes(ts: seq<Tier>, n: real, k: nat) returns (i: nat)
    requires Ladder(ts) && n > 0.0
    requires k < |ts| && (k + 1 < |ts| ==> n < ts[k + 1].from.x)
    ensures Serves(ts, n, i) && Rung(ts, n) == Some(ts[i].maxLeverage)
  {
    if k == 0 || ts[k].from.x <= n {
      i := k;
      if ts[i].from.x <= n {
        assert Contains(ts[i], n);
        assert IsBest(ts, n, i);
      } else {
        assert forall j :: 0 <= j < |ts| ==> ts[0].from.x <= ts[j].from.x;
        assert IsFloor(ts, 0);
        assert forall j :: 0 <= j < |ts| ==> !Contains(ts[j], n);
      }
    } else {
      i := LadderServes(ts, n, k - 1);
    }
  }

  lemma LadderWellFormed(ts: seq<Tier>)
    requires Ladder(ts)
    ensures WellFormed(ts)
  {
    forall k | 0 <= k < |ts| ensures !ts[k].to.BadUpper? {
      assert k < |ts| - 1 ==> ts[k].to == Below(ts[k + 1].from.x);
    }
  }

  /** On a ladder the engine's answer is the serving rung's leverage, clamped. */
  lemma EffectiveOnLadder(ts: seq<Tier>, min: int32, max: int32, n: real) returns (i: nat)
    requires Ladder(ts) && BoundsOk(Some(min), Some(max)) && n > 0.0
    ensures Serves(ts, n, i)
    ensures Effective(n, Some(min), Some(max), Some(ts))
            == if ts[i].maxLeverage < 1 then None else Some(Clamp(ts[i].maxLeverage as real, min as real, max as real))
  {
    i := LadderServes(ts, n, |ts| - 1);
    LadderWellFormed(ts);
  }

  lemma ServesMonotone(ts: seq<Tier>, n: real, n': real, i: nat, i': nat)
    requires Ladder(ts) && n <= n' && Serves(ts, n, i) && Serves(ts, n', i')
    ensures i <= i' && ts[i].maxLeverage >= ts[i'].maxLeverage
  {
    if i > 0 && i' + 1 < |ts| {
      assert ts[i].from.x < ts[i' + 1].from.x;
    }
  }

  lemma QuotientOrder(a: real, b: real, x: real, y: real)
    requires 0.0 < a <= b && 0.0 < y <= x
    ensures 0.0 < a / x <= b / y
  {
    SameQuotient(a, x);
    SameQuotient(b, y);
    var u, v := a / x, b / y;
    assert u * x <= v * y <= v * x;
    assert (v - u) * x >= 0.0;
  }

  lemma SameQuotient(a: real, x: real)
    requires 0.0 < a && 0.0 < x
    ensures 0.0 < a / x && a / x * x == a
  {
  }

  /** As a position grows, its leverage never rises and its margin never falls. */
  lemma MarginMonotone(ts: seq<Tier>, min: int32, max: int32, n: real, n': real)
    requires Ladder(ts) && BoundsOk(Some(min), Some(max)) && 0.0 < n <= n'
    ensures
      var small := Effective(n, Some(min), Some(max), Some(ts));
      var large := Effective(n', Some(min), Some(max), Some(ts));
      large.Some? ==>
        && small.Some?
        && 0.0 < large.value <= small.value
        && n / small.value <= n' / large.value
  {
    var i := EffectiveOnLadder(ts, min, max, n);
    var i' := EffectiveOnLadder(ts, min, max, n');
    ServesMonotone(ts, n, n', i, i');
    var lo, hi := min as real, max as real;
    if ts[i'].maxLeverage >= 1 {
      QuotientOrder(n, n', Clamp(ts[i].maxLeverage as real, lo, hi), Clamp(ts[i'].maxLeverage as real, lo, hi));
    }
  }

  /** The user's bounds bracket the margin of every resolvable position, on any list of rungs. */
  lemma MarginBracketed(tiers: Option<seq<Tier>>, min: int32, max: int32, n: real)
    requires BoundsOk(Some(min), Some(max)) && 0.0 < n
    ensures
      var eff := Effective(n, Some(min), Some(max), tiers);
      eff.Some? ==> 0.0 < n / max as real <= n / eff.value <= n / min as real
  {
    var eff := Effective(n, Some(min), Some(max), tiers);
    if eff.Some? {
      assert min as real <= eff.value <= max as real;
      QuotientOrder(n, n, max as real, eff.value);
      QuotientOrder(n, n, eff.value, min as real);
    }
  }
}
