/** The matcher's oracle band, and how it nests inside the engine's. */
module PriceBand {
  import opened Outcomes
  import opened FixedPoint
  import opened Matching
  import opened EngineState
  import EngineSpec

  /**
   The band is the oracle price give or take `bps`, the width rounded down.
   Prices loaded as zero or less count as no price.
   */
  predicate WithinOracleBand(price: int, oracle: int, bps: nat) {
    var delta := TruncDiv(oracle * bps, BPS_DENOMINATOR);
    oracle - delta <= price <= oracle + delta
  }

  /** Resting orders that may be matched: none without an oracle price. */
  function InBand(orders: seq<Order>, oracle: Option<int>, bps: nat): (r: seq<Order>)
    ensures forall o | o in r :: o in orders && oracle.Some? && WithinOracleBand(o.limitPrice, oracle.value, bps)
    ensures forall o | o in orders && oracle.Some? && WithinOracleBand(o.limitPrice, oracle.value, bps) :: o in r
    ensures IdsDistinct(orders) ==> IdsDistinct(r)
  {
    if orders == [] then []
    else
      var rest, last := orders[..|orders| - 1], orders[|orders| - 1];
      InBand(rest, oracle, bps)
        + if oracle.Some? && WithinOracleBand(last.limitPrice, oracle.value, bps) then [last] else []
  }

  /** Fills of in-band resting orders are at in-band prices, so checking each fill again refuses none. */
  lemma FillsAreInBand(limits: seq<Order>, oracle: Option<int>, bps: nat, markets: seq<Order>, fills: seq<Match>,
                       k: nat)
    requires k < |fills| && FillSound(InBand(limits, oracle, bps), markets, fills, k)
    ensures oracle.Some? && WithinOracleBand(fills[k].fillPrice, oracle.value, bps)
  {
    assert fills[k].maker in InBand(limits, oracle, bps);
  }

  /** A band no wider than the market's nests inside it: the engine accepts the price at the same oracle price. */
  lemma EngineAcceptsInBand(price: int, oracle: int, bps: nat, market: EngineMarketConfig)
    requires oracle > 0 && WithinOracleBand(price, oracle, bps)
    requires bps <= market.maxExecutionDeviationBps <= BPS_DENOMINATOR
    requires IsI128(2 * oracle)
    ensures EngineSpec.ValidateExecutionPrice(market, Ok(oracle), price) == Ok(())
  {
    var wide := market.maxExecutionDeviationBps;
    Widens(oracle, bps, wide);
    var narrow, delta := TruncDiv(oracle * bps, BPS_DENOMINATOR), TruncDiv(oracle * wide, BPS_DENOMINATOR);
    hide TruncDiv, WithinOracleBand;
    assert narrow <= delta && 0 <= delta <= oracle;
    BandMeans(price, oracle, bps);
  }

  lemma BandMeans(price: int, oracle: int, bps: nat)
    requires WithinOracleBand(price, oracle, bps)
    ensures var delta := TruncDiv(oracle * bps, BPS_DENOMINATOR); oracle - delta <= price <= oracle + delta
  {
  }

  lemma Widens(oracle: int, bps: nat, wide: nat)
    requires oracle > 0 && bps <= wide <= BPS_DENOMINATOR
    ensures TruncDiv(oracle * bps, BPS_DENOMINATOR) <= TruncDiv(oracle * wide, BPS_DENOMINATOR)
    ensures 0 <= TruncDiv(oracle * wide, BPS_DENOMINATOR) <= oracle
  {
    hide TruncDiv;
    Narrower(oracle, bps, wide);
    Narrower(oracle, wide, BPS_DENOMINATOR);
    ProductNonNegative(oracle, wide);
    TruncDivBounds(oracle * wide, BPS_DENOMINATOR);
    TruncDivUnique(oracle * BPS_DENOMINATOR, BPS_DENOMINATOR, oracle);
  }

  lemma Narrower(oracle: int, bps: nat, wide: nat)
    requires oracle > 0 && bps <= wide
    ensures TruncDiv(oracle * bps, BPS_DENOMINATOR) <= TruncDiv(oracle * wide, BPS_DENOMINATOR)
  {
    hide TruncDiv;
    ProductOfDifference(oracle, wide, bps);
    ProductNonNegative(oracle, wide - bps);
    TruncDivMonotone(oracle * bps, oracle * wide, BPS_DENOMINATOR);
  }

  /** The engine's own band is the same interval at the market's width, ends included. */
  lemma EngineBandExact(price: int, oracle: int, market: EngineMarketConfig)
    requires oracle > 0 && market.maxExecutionDeviationBps <= BPS_DENOMINATOR && IsI128(2 * oracle)
    ensures EngineSpec.ValidateExecutionPrice(market, Ok(oracle), price)
      == if WithinOracleBand(price, oracle, market.maxExecutionDeviationBps) then Ok(()) else Err(PriceOutsideBand)
  {
    Widens(oracle, market.maxExecutionDeviationBps, market.maxExecutionDeviationBps);
    hide TruncDiv;
  }
}
