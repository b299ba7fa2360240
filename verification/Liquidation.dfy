/** Margin and liquidation arithmetic of the risk crate. */
module Liquidation {
  import opened Contracts

  function CalculateMargin(size: real, entryPrice: real, leverage: real): real
    requires leverage != 0.0
  {
    size * entryPrice / leverage
  }

  predicate HasSufficientMargin(freeMargin: real, requiredMargin: real) {
    freeMargin >= requiredMargin
  }

  function CalculateLiquidationPrice(entryPrice: real, side: PositionSide, leverage: real, maintenance: real): real
    requires leverage != 0.0
  {
    match side
    case Long => entryPrice * (1.0 - 1.0 / leverage + maintenance)
    case Short => entryPrice * (1.0 + 1.0 / leverage - maintenance)
  }

  predicate ShouldLiquidate(currentPrice: real, liquidationPrice: real, side: PositionSide) {
    match side
    case Long => currentPrice <= liquidationPrice
    case Short => currentPrice >= liquidationPrice
  }

  /** What the liquidation price is for: it separates exactly the prices at which the position's
      margin plus its loss or profit, before any swap or fee, has fallen to the maintenance requirement. */
  lemma LiquidationExact(entry: real, size: real, leverage: real, maintenance: real, side: PositionSide, p: real)
    requires entry > 0.0 && size > 0.0 && leverage > 0.0
    ensures
      var profit := if side.Long? then (p - entry) * size else (entry - p) * size;
      ShouldLiquidate(p, CalculateLiquidationPrice(entry, side, leverage, maintenance), side)
      <==> size * entry / leverage + profit <= maintenance * (entry * size)
  {
    var inv := 1.0 / leverage;
    assert CalculateMargin(size, entry, leverage) == size * entry * inv;
    var perUnit := match side
      case Long => entry * inv + (p - entry) - maintenance * entry
      case Short => entry * inv + (entry - p) - maintenance * entry;
    var profit := if side.Long? then (p - entry) * size else (entry - p) * size;
    assert size * entry / leverage + profit - maintenance * (entry * size) == perUnit * size;
    assert perUnit <= 0.0 <==> perUnit * size <= 0.0;
  }

  /** Raising leverage moves the liquidation price up for a long and down for a short. Whether that
      brings it closer to the entry price depends on the maintenance ratio: it does not move away
      exactly when the ratio is at most the mean of the two initial margin ratios. */
  lemma LeverageMovesLiquidation(entry: real, low: real, high: real, maintenance: real, side: PositionSide)
    requires entry > 0.0 && 0.0 < low < high
    ensures
      var before := CalculateLiquidationPrice(entry, side, low, maintenance);
      var after := CalculateLiquidationPrice(entry, side, high, maintenance);
      && (side.Long? ==> before < after)
      && (side.Short? ==> after < before)
      && (Abs(after - entry) <= Abs(before - entry) <==> 2.0 * maintenance <= 1.0 / low + 1.0 / high)
  {
    InverseOrder(low, high);
    LiquidationOffset(entry, low, maintenance, side);
    LiquidationOffset(entry, high, maintenance, side);
    ScaledAbs(entry, 1.0 / low - maintenance, 1.0 / high - maintenance);
  }

  /** With a 5% maintenance ratio, going from 50x to 100x moves a long's liquidation price
      further above its entry. */
  lemma LeverageMayMoveLiquidationAway()
    ensures CalculateLiquidationPrice(100.0, Long, 50.0, 0.05) == 103.0
    ensures CalculateLiquidationPrice(100.0, Long, 100.0, 0.05) == 104.0
  {
    assert 1.0 / 50.0 == 0.02 && 1.0 / 100.0 == 0.01;
  }

  lemma InverseOrder(low: real, high: real)
    requires 0.0 < low < high
    ensures 0.0 < 1.0 / high < 1.0 / low
  {
    var a, b := 1.0 / low, 1.0 / high;
    assert a * low == 1.0 && b * high == 1.0;
    assert (a - b) * (low * high) == high - low by {
      assert a * low * high == high;
      assert b * high * low == low;
    }
  }

  lemma LiquidationOffset(entry: real, leverage: real, maintenance: real, side: PositionSide)
    requires entry > 0.0 && leverage > 0.0
    ensures
      var offset := entry * (1.0 / leverage - maintenance);
      CalculateLiquidationPrice(entry, side, leverage, maintenance)
        == if side.Long? then entry - offset else entry + offset
  {
  }

  lemma ScaledAbs(k: real, x: real, y: real)
    requires k > 0.0 && y < x
    ensures k * y < k * x
    ensures Abs(k * y) <= Abs(k * x) <==> x + y >= 0.0
  {
    assert x >= 0.0 <==> k * x >= 0.0;
    assert y >= 0.0 <==> k * y >= 0.0;
    assert k * x + k * y == k * (x + y);
    assert x + y >= 0.0 <==> k * (x + y) >= 0.0;
    assert k * x - k * y == k * (x - y);
  }
}
