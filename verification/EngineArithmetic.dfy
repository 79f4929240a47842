/** Rounding bounds of one position's arithmetic: averaged entry, realized PnL and isolated margin. */
module EngineArithmetic {
  import opened Outcomes
  import opened FixedPoint
  import opened EngineState
  import opened EngineSpec

  /**
   The averaged entry never overstates cost, and understates it by less than two
   units plus one price unit per unit of size.
   */
  lemma AveragedEntryNear(p: Position, sizeDelta: int, price: int)
    requires p.size > 0 && p.entryPrice >= 0 && sizeDelta > 0 && price > 0
    requires AveragedEntry(p, sizeDelta, price).Ok?
    ensures var entry := AveragedEntry(p, sizeDelta, price).value;
      var loss := p.size * p.entryPrice + sizeDelta * price - (p.size + sizeDelta) * entry;
      entry >= 0 && 0 <= loss <= 2 * (PRECISION - 1) + (p.size + sizeDelta - 1)
  {
    hide TruncDiv;
    ProductNonNegative(p.size, p.entryPrice);
    ProductNonNegative(sizeDelta, price);
    AverageNear(p.size * p.entryPrice, sizeDelta * price, p.size + sizeDelta);
  }

  lemma AverageNear(held: int, added: int, size: int)
    requires held >= 0 && added >= 0 && size > 0
    ensures var entry := TruncDiv((TruncDiv(held, PRECISION) + TruncDiv(added, PRECISION)) * PRECISION, size);
      entry >= 0 && 0 <= held + added - size * entry <= 2 * (PRECISION - 1) + (size - 1)
  {
    TruncDivBounds(held, PRECISION);
    TruncDivBounds(added, PRECISION);
    TruncDivBounds((TruncDiv(held, PRECISION) + TruncDiv(added, PRECISION)) * PRECISION, size);
  }

  /** Realized PnL is the exact price move on the closed size, less than one unit closer to zero. */
  lemma RealizedPnlNear(p: Position, sizeDelta: int, price: int)
    requires RealizedPnl(p, sizeDelta, price).Ok?
    ensures var gain := sizeDelta * price - sizeDelta * p.entryPrice;
      var exact := if p.isLong then gain else -gain;
      Abs(PRECISION * RealizedPnl(p, sizeDelta, price).value - exact) <= PRECISION - 1
  {
    var move := if p.isLong then price - p.entryPrice else p.entryPrice - price;
    TruncDivBounds(sizeDelta * move, PRECISION);
    assert sizeDelta * (price - p.entryPrice) == sizeDelta * price - sizeDelta * p.entryPrice;
    assert sizeDelta * (p.entryPrice - price) == sizeDelta * p.entryPrice - sizeDelta * price;
  }

  /**
   Margin `left` after closing part of `size`: per unit of size it has not
   fallen and an isolated one rose by less than one unit; a full close leaves none.
   */
  predicate MarginKept(mode: MarginMode, margin: int, size: int, left: int, leftSize: int) {
    && 0 <= left <= margin
    && margin * leftSize <= left * size
    && (mode == Isolated ==> left * size < margin * leftSize + size)
    && (mode == Isolated && leftSize == 0 ==> left == 0)
  }

  lemma MarginAfterReduceKept(mode: MarginMode, margin: int, size: int, sizeDelta: int)
    requires margin >= 0 && 0 < sizeDelta <= size
    requires MarginAfterReduce(mode, margin, size, sizeDelta).Ok?
    ensures MarginKept(mode, margin, size, MarginAfterReduce(mode, margin, size, sizeDelta).value, size - sizeDelta)
  {
    hide TruncDiv;
    ProductOfDifference(margin, size, sizeDelta);
    ProductNonNegative(margin, sizeDelta);
    if mode == Isolated && margin > 0 {
      ReleaseNear(margin, size, sizeDelta);
      ProductOfDifference(size, margin, TruncDiv(margin * sizeDelta, size));
    }
  }

  /** The margin released is the closed share, rounded down, and all of it on a full close. */
  lemma ReleaseNear(margin: int, size: int, sizeDelta: int)
    requires margin >= 0 && 0 < sizeDelta <= size
    ensures var release := TruncDiv(margin * sizeDelta, size);
      && 0 <= release <= margin
      && size * release <= margin * sizeDelta < size * release + size
      && (sizeDelta == size ==> release == margin)
  {
    hide TruncDiv;
    ProductNonNegative(margin, sizeDelta);
    ProductNonNegative(margin, size - sizeDelta);
    ProductOfDifference(margin, size, sizeDelta);
    TruncDivBounds(margin * sizeDelta, size);
    ScaleReflectsOrder(TruncDiv(margin * sizeDelta, size), margin, size);
    if sizeDelta == size {
      TruncDivUnique(margin * sizeDelta, size, margin);
    }
  }

  /** Initial margin is the rate times the notional, both rounded down. */
  lemma InitialMarginNear(size: int, price: int, bps: nat)
    requires size > 0 && price > 0
    ensures var notional := TruncDiv(size * price, PRECISION);
      var margin := TruncDiv(notional * bps, BPS_DENOMINATOR);
      && notional >= 0 && margin >= 0
      && BPS_DENOMINATOR * margin <= notional * bps < BPS_DENOMINATOR * (margin + 1)
  {
    var exact := size * price;
    assert exact >= 0;
    TruncDivBounds(exact, PRECISION);
    var scaled := TruncDiv(exact, PRECISION) * bps;
    assert scaled >= 0;
    TruncDivBounds(scaled, BPS_DENOMINATOR);
  }
}
