/** The liquidation price and unrealized PnL that the client shows. Floating-point inputs are reals. */
module LiquidationPrice {
  import opened Outcomes
  import opened Numbers
  import opened FixedPoint

  const SCALE: int := 1_000_000

  /** The maintenance margin rate in millionths. */
  function MaintenanceRate(maintenanceMarginBps: real): int {
    Round(maintenanceMarginBps / 10_000.0 * SCALE as real)
  }

  function LeverageScaled(leverage: real): int {
    Round(leverage * SCALE as real)
  }

  /** None stands for the division by zero that a leverage under half a millionth causes. */
  function CalcLiqPrice(isLong: bool, entryPrice: int, leverage: real, maintenanceMarginBps: real): Option<int> {
    if leverage <= 0.0 || entryPrice <= 0 then Some(0)
    else
      var mmRate := MaintenanceRate(maintenanceMarginBps);
      var leverageScaled := LeverageScaled(leverage);
      if leverageScaled == 0 then None
      else if isLong then
        var factor := SCALE - TruncDiv(SCALE * SCALE, leverageScaled) + mmRate;
        Some(if factor <= 0 then 0 else TruncDiv(entryPrice * factor, SCALE))
      else
        var factor := SCALE + TruncDiv(SCALE * SCALE, leverageScaled) - mmRate;
        Some(TruncDiv(entryPrice * factor, SCALE))
  }

  function CalcUnrealizedPnl(isLong: bool, size: int, entryPrice: int, markPrice: int): int {
    if markPrice <= 0 || entryPrice <= 0 || size <= 0 then 0
    else TruncDiv(size * (if isLong then markPrice - entryPrice else entryPrice - markPrice), PRECISION)
  }

  /** What a long gains a short of the same size loses, to the last unit. */
  lemma LongAndShortCancel(size: int, entryPrice: int, markPrice: int)
    ensures CalcUnrealizedPnl(true, size, entryPrice, markPrice)
      == -CalcUnrealizedPnl(false, size, entryPrice, markPrice)
  {
    var gain := size * (markPrice - entryPrice);
    assert size * (entryPrice - markPrice) == -gain;
    TruncDivNegates(gain, PRECISION);
  }

  /** The margin rate in millionths: the reciprocal of the leverage, rounded down. */
  function MarginRate(leverage: real): int
    requires LeverageScaled(leverage) != 0
  {
    TruncDiv(SCALE * SCALE, LeverageScaled(leverage))
  }

  /** Margin at the margin rate, plus PnL at the mark, less maintenance margin, scaled by SCALE and PRECISION. */
  function Cushion(isLong: bool, size: int, entryPrice: int, leverage: real, maintenanceMarginBps: real, mark: int): int
    requires LeverageScaled(leverage) != 0
  {
    size * entryPrice * (MarginRate(leverage) - MaintenanceRate(maintenanceMarginBps))
      + SCALE * (PRECISION * CalcUnrealizedPnl(isLong, size, entryPrice, mark))
  }

  /** The distance from the liquidation price to the mark, in the direction that helps the position. */
  function Headroom(isLong: bool, mark: int, liq: int): int {
    if isLong then mark - liq else liq - mark
  }

  /**
   At every mark the cushion is the size times the distance to the liquidation
   price, within one price unit per unit of size and one unit of PnL: positive
   on the safe side, gone at the liquidation price, negative beyond.
   */
  lemma CushionIsHeadroom(isLong: bool, size: int, entryPrice: int, leverage: real, maintenanceMarginBps: real,
                          mark: int)
    requires size > 0 && entryPrice > 0 && mark > 0 && leverage > 0.0
    requires CalcLiqPrice(isLong, entryPrice, leverage, maintenanceMarginBps).Some?
    requires CalcLiqPrice(isLong, entryPrice, leverage, maintenanceMarginBps).value > 0
    ensures var liq := CalcLiqPrice(isLong, entryPrice, leverage, maintenanceMarginBps).value;
      Abs(Cushion(isLong, size, entryPrice, leverage, maintenanceMarginBps, mark)
          - SCALE * (size * Headroom(isLong, mark, liq)))
      < SCALE * size + SCALE * PRECISION
  {
    var liq := CalcLiqPrice(isLong, entryPrice, leverage, maintenanceMarginBps).value;
    var q, mm := MarginRate(leverage), MaintenanceRate(maintenanceMarginBps);
    var pnl := CalcUnrealizedPnl(isLong, size, entryPrice, mark);
    if isLong {
      LongCushion(size, entryPrice, q, mm, mark, liq, pnl);
    } else {
      ShortCushion(size, entryPrice, q, mm, mark, liq, pnl);
    }
  }

  lemma LongCushion(size: int, entry: int, q: int, mm: int, mark: int, liq: int, pnl: int)
    requires size > 0 && entry > 0
    requires liq == TruncDiv(entry * (SCALE - q + mm), SCALE) && pnl == TruncDiv(size * (mark - entry), PRECISION)
    ensures Abs(size * entry * (q - mm) + SCALE * (PRECISION * pnl) - SCALE * (size * (mark - liq)))
         < SCALE * size + SCALE * PRECISION
  {
    PriceRounding(size, entry, SCALE - q + mm, liq);
    PnlRounding(size, mark - entry, pnl);
    Times(size, mark, entry);
    Times(size, mark, liq);
    RateIsFactor(size * entry, SCALE - q + mm, q - mm);
    hide TruncDiv;
    Combine(size, size * entry, size * entry * (SCALE - q + mm), size * liq, size * mark,
            size * entry * (q - mm), PRECISION * pnl, size * (mark - liq));
  }

  lemma ShortCushion(size: int, entry: int, q: int, mm: int, mark: int, liq: int, pnl: int)
    requires size > 0 && entry > 0
    requires liq == TruncDiv(entry * (SCALE + q - mm), SCALE) && pnl == TruncDiv(size * (entry - mark), PRECISION)
    ensures Abs(size * entry * (q - mm) + SCALE * (PRECISION * pnl) - SCALE * (size * (liq - mark)))
         < SCALE * size + SCALE * PRECISION
  {
    PriceRounding(size, entry, SCALE + q - mm, liq);
    PnlRounding(size, entry - mark, pnl);
    Times(size, entry, mark);
    Times(size, liq, mark);
    RateIsFactor(size * entry, SCALE + q - mm, mm - q);
    Times(size * entry, mm, q);
    Times(size * entry, q, mm);
    hide TruncDiv;
    Combine(size, -(size * entry), -(size * entry * (SCALE + q - mm)), -(size * liq), -(size * mark),
            size * entry * (q - mm), PRECISION * pnl, size * (liq - mark));
  }

  lemma Times(k: int, a: int, b: int)
    ensures k * (a - b) == k * a - k * b
  {
  }

  lemma RateIsFactor(x: int, factor: int, rate: int)
    requires factor == SCALE - rate
    ensures x * rate == SCALE * x - x * factor
  {
    Times(x, SCALE, rate);
  }

  /** What rounding the liquidation price loses over the whole size. */
  lemma PriceRounding(size: int, entry: int, factor: int, liq: int)
    requires size > 0 && liq == TruncDiv(entry * factor, SCALE)
    ensures -(size * SCALE) < size * entry * factor - SCALE * (size * liq) < size * SCALE
  {
    Remainder(entry * factor, SCALE, size);
    hide TruncDiv;
    Spread(size, entry, factor, SCALE, liq);
  }

  /** What rounding the PnL loses. */
  lemma PnlRounding(size: int, move: int, pnl: int)
    requires pnl == TruncDiv(size * move, PRECISION)
    ensures -PRECISION < size * move - PRECISION * pnl < PRECISION
  {
    Remainder(size * move, PRECISION, 1);
  }

  /** The two roundings put together: x is the notional, xf the notional times the price factor. */
  lemma Combine(size: int, x: int, xf: int, atLiq: int, atMark: int, margin: int, paid: int, headroom: int)
    requires -(size * SCALE) < xf - SCALE * atLiq < size * SCALE
    requires -PRECISION < atMark - x - paid < PRECISION
    requires margin == SCALE * x - xf && headroom == atMark - atLiq
    ensures Abs(margin + SCALE * paid - SCALE * headroom) < SCALE * size + SCALE * PRECISION
  {
  }

  /** What a truncated quotient leaves, times a positive factor. */
  lemma Remainder(a: int, d: int, k: int)
    requires d > 0 && k > 0
    ensures -(k * d) < k * (a - d * TruncDiv(a, d)) < k * d
  {
    TruncDivBounds(a, d);
    var r := a - d * TruncDiv(a, d);
    assert -d < r < d;
    ScaledBounds(r, d, k);
  }

  lemma ScaledBounds(r: int, d: int, k: int)
    requires -d < r < d && k > 0
    ensures -(k * d) < k * r < k * d
  {
    assert k * (d - r) > 0 && k * (d + r) > 0;
  }

  lemma Spread(size: int, entry: int, factor: int, d: int, liq: int)
    ensures size * (entry * factor - d * liq) == size * entry * factor - d * (size * liq)
  {
    assert size * (d * liq) == d * (size * liq);
  }
}
