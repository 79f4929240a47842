/** What a successful call guarantees about limits and rates, whatever the caller asked for. */
module EngineGuards {
  import opened Outcomes
  import opened FixedPoint
  import opened EngineState
  import opened EngineSpec
  import opened EngineInvariant
  import opened EngineSafety
  import opened PriceBand

  /** The market a trade acts on. */
  function MarketOf(s: State, op: Op): Option<nat>
    requires IsTrade(op)
  {
    if op.OpOpen? then Some(op.market)
    else
      var index := FindIndex(s.Positions(op.user), op.id);
      if index.Err? then None else Some(s.Positions(op.user)[index.value].marketId)
  }

  /** The call's price is inside the market's band around the oracle's. */
  predicate InBandOf(s: State, e: CallEnv, m: nat, price: int) {
    && m in s.store.markets && e.Price(m).Ok?
    && ValidateExecutionPrice(s.store.markets[m], e.Price(m), price).Ok?
  }

  lemma ValidatedIsPriced(market: EngineMarketConfig, oracle: Result<int>, price: int)
    ensures ValidateExecutionPrice(market, oracle, price).Ok? ==> oracle.Ok?
  {
  }

  lemma OpenGuards(s: State, e: CallEnv, user: Address, m: nat, size: int, isLong: bool, price: int, mode: MarginMode)
    requires MarketsKeyed(s)
    requires OpenTrade(s, e, user, m, size, isLong, price, mode).Ok?
    ensures m in s.store.markets && InBandOf(s, e, m, price)
          && s.OpenInterest(m) + size <= s.store.markets[m].market.maxOpenInterest
  {
    hide InitialMargin, ValidateExecutionPrice, CheckedAdd;
    AddIs(s.OpenInterest(m), size);
    ValidatedIsPriced(s.store.markets[m], e.Price(m), price);
  }

  lemma AddIs(a: int, b: int)
    ensures CheckedAdd(a, b).Ok? ==> CheckedAdd(a, b).value == a + b
  {
  }

  lemma IncreaseGuards(s: State, e: CallEnv, user: Address, id: nat, size: int, price: int)
    requires MarketsKeyed(s)
    requires IncreaseTrade(s, e, user, id, size, price).Ok?
    ensures var m := s.Positions(user)[FindIndex(s.Positions(user), id).value].marketId;
      m in s.store.markets && InBandOf(s, e, m, price)
        && s.OpenInterest(m) + size <= s.store.markets[m].market.maxOpenInterest
  {
    hide SettleFunding, AveragedEntry, ValidateExecutionPrice, CheckedAdd;
    var m := s.Positions(user)[FindIndex(s.Positions(user), id).value].marketId;
    AddIs(s.OpenInterest(m), size);
    ValidatedIsPriced(s.store.markets[m], e.Price(m), price);
    SettleOnlyMovesIndex(s, user, s.Positions(user)[FindIndex(s.Positions(user), id).value]);
  }

  lemma ReduceGuards(s: State, e: CallEnv, user: Address, id: nat, size: int, price: int)
    requires MarketsKeyed(s)
    requires ReduceTrade(s, e, user, id, size, price).Ok?
    ensures InBandOf(s, e, s.Positions(user)[FindIndex(s.Positions(user), id).value].marketId, price)
  {
    hide SettleFunding, RealizedPnl, MarginAfterReduce, ValidateExecutionPrice;
    var m := s.Positions(user)[FindIndex(s.Positions(user), id).value].marketId;
    ValidatedIsPriced(s.store.markets[m], e.Price(m), price);
  }

  lemma MovedInterest(store: Storage, m: nat, isLong: bool, delta: int)
    requires MoveInterest(store, m, isLong, delta).Ok?
    ensures Lookup(MoveInterest(store, m, isLong, delta).value.openInterest, m) == Lookup(store.openInterest, m) + delta
  {
  }

  /** After an open or an increase the market's open interest is within its limit. */
  lemma InterestIsCapped(s: State, e: CallEnv, op: Op)
    requires Invariant(s) && (op.OpOpen? || op.OpIncrease?) && Apply(s, e, op).Ok?
    ensures MarketOf(s, op).Some? && MarketOf(s, op).value in s.store.markets
    ensures Apply(s, e, op).value.OpenInterest(MarketOf(s, op).value)
      <= s.store.markets[MarketOf(s, op).value].market.maxOpenInterest
  {
    hide Invariant, Open, Increase;
    if op.OpOpen? {
      OpenIsCapped(s, e, op.user, op.market, op.size, op.isLong, op.price, op.mode);
    } else {
      IncreaseIsCapped(s, e, op.user, op.id, op.size, op.price);
    }
  }

  lemma OpenIsCapped(s: State, e: CallEnv, user: Address, m: nat, size: int, isLong: bool, price: int, mode: MarginMode)
    requires Invariant(s) && Open(s, e, user, m, size, isLong, price, mode).Ok?
    ensures m in s.store.markets
    ensures Open(s, e, user, m, size, isLong, price, mode).value.0.OpenInterest(m)
         <= s.store.markets[m].market.maxOpenInterest
  {
    assert MarketsKeyed(s);
    hide Invariant, MarketsKeyed, MoveInterest, Commit, OpenTrade, InBandOf, PreparedOpen;
    OpenGuards(s, e, user, m, size, isLong, price, mode);
    var trade := OpenDoes(s, e, user, m, size, isLong, price, mode);
    PreparedOpenMoves(s, user, trade);
    MovedInterest(s.store, trade.interestIn, trade.after.isLong, trade.sizeMove);
  }

  lemma IncreaseIsCapped(s: State, e: CallEnv, user: Address, id: nat, size: int, price: int)
    requires Invariant(s) && Increase(s, e, user, id, size, price).Ok?
    ensures var found := FindIndex(s.Positions(user), id);
      found.Ok? && s.Positions(user)[found.value].marketId in s.store.markets
    ensures var m := s.Positions(user)[FindIndex(s.Positions(user), id).value].marketId;
      Increase(s, e, user, id, size, price).value.0.OpenInterest(m) <= s.store.markets[m].market.maxOpenInterest
  {
    assert MarketsKeyed(s);
    hide Invariant, MarketsKeyed, MoveInterest, Commit, IncreaseTrade, InBandOf, Prepared;
    IncreaseTradeIs(s, e, user, id, size, price);
    IncreaseGuards(s, e, user, id, size, price);
    var index, trade := IncreaseDoes(s, e, user, id, size, price);
    PreparedTradeMoves(s, user, index, trade);
    MovedInterest(s.store, trade.interestIn, trade.after.isLong, trade.sizeMove);
    SameIndex(s, user, id, index);
  }

  lemma PreparedOpenMoves(s: State, user: Address, trade: Trade)
    requires PreparedOpen(s, user, trade)
    ensures trade.sizeMove == trade.after.size && trade.interestIn == trade.after.marketId
  {
  }

  lemma PreparedTradeMoves(s: State, user: Address, index: nat, trade: Trade)
    requires Prepared(s, user, index, trade)
    ensures trade.sizeMove == trade.after.size - s.Positions(user)[index].size
          && trade.interestIn == s.Positions(user)[index].marketId
  {
  }

  lemma SameIndex(s: State, user: Address, id: nat, index: nat)
    requires Invariant(s) && index < |s.Positions(user)| && s.Positions(user)[index].id == id
          && FindIndex(s.Positions(user), id).Ok?
    ensures index == FindIndex(s.Positions(user), id).value
  {
    assert s.Positions(user)[index].id == s.Positions(user)[FindIndex(s.Positions(user), id).value].id;
  }

  /** No trade, liquidations included, executes outside the market's band. */
  lemma TradeIsInBand(s: State, e: CallEnv, op: Op)
    requires Invariant(s) && IsTrade(op) && Apply(s, e, op).Ok?
    ensures MarketOf(s, op).Some? && InBandOf(s, e, MarketOf(s, op).value, op.price)
  {
    hide Invariant, Open, Increase, Reduce, InBandOf, MarketsKeyed;
    match op
    case OpOpen(user, m, size, isLong, price, mode) => OpenInBand(s, e, user, m, size, isLong, price, mode);
    case OpIncrease(user, id, size, price) => IncreaseInBand(s, e, user, id, size, price);
    case OpClose(user, id, price) =>
      ReduceInBand(s, e, user, id, s.Positions(user)[FindIndex(s.Positions(user), id).value].size, price, true);
    case OpReduce(user, id, size, price) => ReduceInBand(s, e, user, id, size, price, true);
    case OpLiquidate(user, id, size, price) => ReduceInBand(s, e, user, id, size, price, false);
  }

  lemma OpenInBand(s: State, e: CallEnv, user: Address, m: nat, size: int, isLong: bool, price: int, mode: MarginMode)
    requires Invariant(s) && Open(s, e, user, m, size, isLong, price, mode).Ok?
    ensures InBandOf(s, e, m, price)
  {
    assert MarketsKeyed(s);
    hide Invariant, Commit, OpenTrade, InBandOf, RequireInitialMargin;
    OpenGuards(s, e, user, m, size, isLong, price, mode);
  }

  lemma IncreaseInBand(s: State, e: CallEnv, user: Address, id: nat, size: int, price: int)
    requires Invariant(s) && Increase(s, e, user, id, size, price).Ok?
    ensures var found := FindIndex(s.Positions(user), id);
      found.Ok? && InBandOf(s, e, s.Positions(user)[found.value].marketId, price)
  {
    assert MarketsKeyed(s);
    hide Invariant, Commit, IncreaseTrade, InBandOf, RequireInitialMargin;
    IncreaseTradeIs(s, e, user, id, size, price);
    IncreaseGuards(s, e, user, id, size, price);
  }

  lemma ReduceInBand(s: State, e: CallEnv, user: Address, id: nat, size: int, price: int, requireMargin: bool)
    requires Invariant(s) && Reduce(s, e, user, id, size, price, requireMargin).Ok?
    ensures var found := FindIndex(s.Positions(user), id);
      found.Ok? && InBandOf(s, e, s.Positions(user)[found.value].marketId, price)
  {
    assert MarketsKeyed(s);
    hide Invariant, Commit, ReduceTrade, InBandOf, RequireInitialMargin, Equity;
    ReduceTradeIs(s, e, user, id, size, price);
    ReduceGuards(s, e, user, id, size, price);
  }

  // ----- The funding rate

  /** The rate the imbalance asks for, before clamping, with both quotients rounded toward zero. */
  lemma RawRateNear(oiLong: int, oiShort: int, coeff: int)
    requires oiLong >= 0 && oiShort >= 0 && oiLong + oiShort > 0 && coeff >= 0
    ensures var total := oiLong + oiShort;
      var raw := TruncDiv(TruncDiv((oiLong - oiShort) * PRECISION, total) * coeff, PRECISION);
      && Abs(total * PRECISION * raw - (oiLong - oiShort) * PRECISION * coeff) < total * coeff + total * PRECISION
      && (oiLong >= oiShort ==> raw >= 0) && (oiLong <= oiShort ==> raw <= 0)
  {
    var total := oiLong + oiShort;
    var exact := (oiLong - oiShort) * PRECISION;
    var imbalance := TruncDiv(exact, total);
    TruncDivBounds(exact, total);
    var raw := TruncDiv(imbalance * coeff, PRECISION);
    TruncDivBounds(imbalance * coeff, PRECISION);
    SignOfProduct(imbalance, coeff);
    hide TruncDiv;
    ChainRoundings(exact, total, imbalance, coeff, raw);
  }

  lemma SignOfProduct(x: int, k: int)
    requires k >= 0
    ensures (x >= 0 ==> x * k >= 0) && (x <= 0 ==> x * k <= 0)
  {
  }

  lemma BoundedTimes(x: int, bound: int, k: int)
    requires -bound < x < bound && k >= 0
    ensures -(k * bound) <= k * x <= k * bound
    ensures k > 0 ==> -(k * bound) < k * x < k * bound
  {
    assert k * (bound - x) == k * bound - k * x && k * (bound + x) == k * bound + k * x;
    ProductSign(k, bound - x);
    ProductSign(k, bound + x);
  }

  lemma ProductSign(k: int, d: int)
    requires k >= 0 && d > 0
    ensures k * d >= 0 && (k > 0 ==> k * d > 0)
  {
  }

  lemma ChainRoundings(exact: int, total: int, imbalance: int, coeff: int, raw: int)
    requires total > 0 && coeff >= 0
    requires -total < total * imbalance - exact < total
    requires -PRECISION < PRECISION * raw - imbalance * coeff < PRECISION
    ensures Abs(total * PRECISION * raw - exact * coeff) < total * coeff + total * PRECISION
  {
    var e, f := total * imbalance - exact, PRECISION * raw - imbalance * coeff;
    BoundedTimes(e, total, coeff);
    BoundedTimes(f, PRECISION, total);
    Recompose(exact, total, imbalance, coeff, raw);
  }

  lemma Recompose(exact: int, total: int, imbalance: int, coeff: int, raw: int)
    ensures total * PRECISION * raw - exact * coeff
         == coeff * (total * imbalance - exact) + total * (PRECISION * raw - imbalance * coeff)
  {
    assert coeff * (total * imbalance - exact) == coeff * (total * imbalance) - exact * coeff;
    assert total * (PRECISION * raw - imbalance * coeff) == total * (PRECISION * raw) - total * (imbalance * coeff);
    assert coeff * (total * imbalance) == total * (imbalance * coeff);
    assert total * (PRECISION * raw) == total * PRECISION * raw;
  }

  /** The crowded side pays: its index move has the sign of the imbalance and is bounded by the maximum rate. */
  lemma CrowdedSidePays(cfg: FundingConfig, state: FundingState, oiLong: int, oiShort: int, now: nat)
    requires oiLong >= 0 && oiShort >= 0
    requires UpdateFromImbalance(cfg, state, oiLong, oiShort, now).Ok? && now > state.lastUpdate
    ensures var next := UpdateFromImbalance(cfg, state, oiLong, oiShort, now).value;
      var paid := next.longIndex - state.longIndex;
      && next.lastUpdate == now && -cfg.maxRatePerHour <= next.ratePerHour <= cfg.maxRatePerHour
      && (oiLong >= oiShort
        ==> 0 <= SECS_PER_HOUR * paid <= next.ratePerHour * (now - state.lastUpdate) < SECS_PER_HOUR * (paid + 1))
      && (oiLong <= oiShort
        ==> SECS_PER_HOUR * (paid - 1) < next.ratePerHour * (now - state.lastUpdate) <= SECS_PER_HOUR * paid <= 0)
  {
    var next := UpdateFromImbalance(cfg, state, oiLong, oiShort, now).value;
    var elapsed := now - state.lastUpdate;
    RateSign(cfg, oiLong, oiShort, state, now);
    SignOfProduct(next.ratePerHour, elapsed);
    TruncDivBounds(next.ratePerHour * elapsed, SECS_PER_HOUR);
    MoveIsQuotient(cfg, state, oiLong, oiShort, now);
  }

  lemma MoveIsQuotient(cfg: FundingConfig, state: FundingState, oiLong: int, oiShort: int, now: nat)
    requires UpdateFromImbalance(cfg, state, oiLong, oiShort, now).Ok? && now > state.lastUpdate
    ensures var next := UpdateFromImbalance(cfg, state, oiLong, oiShort, now).value;
      && next.longIndex - state.longIndex == TruncDiv(next.ratePerHour * (now - state.lastUpdate), SECS_PER_HOUR)
      && next.lastUpdate == now && -cfg.maxRatePerHour <= next.ratePerHour <= cfg.maxRatePerHour
  {
    hide DivPrecision, MulPrecision, TruncDiv;
  }

  lemma RateSign(cfg: FundingConfig, oiLong: int, oiShort: int, state: FundingState, now: nat)
    requires oiLong >= 0 && oiShort >= 0
    requires UpdateFromImbalance(cfg, state, oiLong, oiShort, now).Ok? && now > state.lastUpdate
    ensures var rate := UpdateFromImbalance(cfg, state, oiLong, oiShort, now).value.ratePerHour;
      (oiLong >= oiShort ==> rate >= 0) && (oiLong <= oiShort ==> rate <= 0)
  {
    if oiLong + oiShort > 0 {
      RawRateNear(oiLong, oiShort, cfg.imbalanceCoeff);
    }
    hide TruncDiv;
  }
}
