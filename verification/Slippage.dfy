/** Market-order price protection: the rounded-up basis-point test of the risk crate. */
module Slippage {
  import opened Contracts

  datatype CheckResult = CheckResult(passed: bool, referencePrice: real, slippageBps: int32, maxBps: int32)

  datatype Outcome = NotApplicable | Passed(result: CheckResult) | Exceeded(result: CheckResult)

  /** Round up to a whole number and saturate into `0 ..= i32::MAX`. */
  function BpsCeiling(d: real): int32 {
    var ceiled := -((-d).Floor);
    if ceiled > I32_MAX then I32_MAX else if ceiled < 0 then 0 else ceiled
  }

  function CheckSlippage(side: Side, fillPrice: real, requestedBid: Option<real>, requestedAsk: Option<real>,
                         maxSlippageBps: Option<int32>): Outcome
  {
    if requestedBid.None? || requestedAsk.None? || maxSlippageBps.None? then NotApplicable
    else
      var reference := SidePrice(side, Quote(requestedBid.value, requestedAsk.value));
      if reference <= 0.0 then NotApplicable
      else
        var raw := Abs(fillPrice - reference) / reference * 10000.0;
        var bps := BpsCeiling(raw);
        var maxBps := if maxSlippageBps.value < 0 then 0 else maxSlippageBps.value;
        var result := CheckResult(bps <= maxBps, reference, bps, maxBps);
        if bps <= maxBps then Passed(result) else Exceeded(result)
  }

  lemma ScaledQuotient(d: real, reference: real, cap: real)
    requires reference > 0.0
    ensures d / reference * 10000.0 <= cap <==> d * 10000.0 <= cap * reference
  {
    var q := d / reference;
    assert q * reference == d;
    assert d * 10000.0 == q * 10000.0 * reference;
    var gap := cap - q * 10000.0;
    assert cap * reference - d * 10000.0 == gap * reference;
    assert gap >= 0.0 <==> gap * reference >= 0.0;
  }

  /** Rounding up and saturating lose nothing: a checked order is refused exactly when its deviation
      exceeds the tolerance, except that the largest representable tolerance refuses nothing. */
  lemma SlippageExact(side: Side, fillPrice: real, bid: real, ask: real, tolerance: int32)
    requires (if side.Buy? then ask else bid) > 0.0
    ensures
      var reference := if side.Buy? then ask else bid;
      var allowed := (if tolerance < 0 then 0 else tolerance) as real * reference;
      CheckSlippage(side, fillPrice, Some(bid), Some(ask), Some(tolerance)).Passed?
      <==> tolerance == 0x7fff_ffff || -allowed <= (fillPrice - reference) * 10000.0 <= allowed
  {
    var reference := if side.Buy? then ask else bid;
    var cap := if tolerance < 0 then 0 else tolerance;
    ScaledQuotient(Abs(fillPrice - reference), reference, cap as real);
  }

  /** An order is checked exactly if its snapshot and tolerance are there and the side it trades at was
      quoted above zero; what it is checked against is that side. */
  lemma CheckedIff(side: Side, fillPrice: real, bid: Option<real>, ask: Option<real>, tolerance: Option<int32>)
    ensures
      var outcome := CheckSlippage(side, fillPrice, bid, ask, tolerance);
      && (!outcome.NotApplicable? <==>
            bid.Some? && ask.Some? && tolerance.Some? && (if side.Buy? then ask.value else bid.value) > 0.0)
      && (!outcome.NotApplicable? ==> outcome.result.referencePrice == if side.Buy? then ask.value else bid.value)
      && (outcome.Exceeded? <==> !outcome.NotApplicable? && outcome.result.slippageBps > outcome.result.maxBps)
  {
  }
}
