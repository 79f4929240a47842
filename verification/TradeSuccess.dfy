/** Exactly when each trade call succeeds, in plain arithmetic over the state before it. */
module TradeSuccess {
  import opened Outcomes
  import opened FixedPoint
  import opened EngineState
  import opened Accounting
  import opened VaultHealth
  import opened EngineSpec
  import opened EngineArithmetic
  import opened EngineInvariant
  import opened EngineSafety
  import opened EngineRuns
  import opened EngineGuards
  import opened AccountMargin
  import opened HealthReports
  import opened TradeSafety

  // ----- What the calls ask for

  /** The price is within the market's width of the oracle's, ends included. */
  predicate InsideBand(s: State, e: CallEnv, m: nat, price: int) {
    && m in s.store.markets && e.Price(m).Ok?
    && var oracle := e.Price(m).value;
       var delta := TruncDiv(oracle * s.store.markets[m].maxExecutionDeviationBps, BPS_DENOMINATOR);
    && IsI128(delta) && IsI128(oracle - delta) && IsI128(oracle + delta)
    && oracle - delta <= price <= oracle + delta
  }

  /** What the position is owed in funding, rounded toward zero. */
  function FundingDue(s: State, q: Position): int {
    -TruncDiv(q.size * (s.FundingIndex(q.marketId, q.isLong) - q.lastFundingIndex), PRECISION)
  }

  predicate FundingFits(s: State, q: Position) {
    IsI128(s.FundingIndex(q.marketId, q.isLong) - q.lastFundingIndex)
    && IsI128(-FundingDue(s, q)) && IsI128(FundingDue(s, q))
  }

  /** The vault can apply the PnL. */
  predicate Payable(v: VaultState, balance: int, pnl: int) {
    !v.paused && IsI128(balance + pnl) && (pnl < 0 ==> IsI128(-pnl))
  }

  function PriceMove(q: Position, price: int): int {
    if q.isLong then price - q.entryPrice else q.entryPrice - price
  }

  /** PnL of closing `size` at the price, rounded toward zero. */
  function PnlOf(q: Position, size: int, price: int): int {
    TruncDiv(size * PriceMove(q, price), PRECISION)
  }

  /** Isolated margin of the closed part, rounded down. */
  function Released(q: Position, size: int): int
    requires q.size != 0
  {
    if q.mode == Isolated && q.margin > 0 then TruncDiv(q.margin * size, q.size) else 0
  }

  predicate ReleaseFits(q: Position, size: int)
    requires q.size != 0
  {
    q.mode == Isolated && q.margin > 0 ==> IsI128(Released(q, size)) && IsI128(q.margin - Released(q, size))
  }

  predicate InterestFits(s: State, m: nat, isLong: bool, delta: int) {
    IsI128(s.OpenInterest(m) + delta) && IsI128(s.SideInterest(m, isLong) + delta)
  }

  function ReducedTo(s: State, q: Position, size: int): Position
    requires q.size != 0
  {
    q.(size := q.size - size, margin := q.margin - Released(q, size),
       lastFundingIndex := s.FundingIndex(q.marketId, q.isLong))
  }

  /** Everything a reduction asks for, the account's report and margin afterwards included. */
  ghost predicate Reducible(s: State, e: CallEnv, user: Address, index: nat, id: nat, size: int, price: int,
                            checkMargin: bool) {
    var list, balance := s.Positions(user), Balance(s.vault.balances, user);
    && index < |list| && list[index].id == id
    && 0 < size <= list[index].size && 0 < price
    && var q := list[index];
    var due, realized := FundingDue(s, q), PnlOf(q, size, price);
    var after, paid := Replaced(list, index, ReducedTo(s, q, size)), balance + due + realized;
    && InsideBand(s, e, q.marketId, price)
    && FundingFits(s, q) && IsI128(PriceMove(q, price)) && IsI128(realized) && ReleaseFits(q, size)
    && InterestFits(s, q.marketId, q.isLong, -size)
    && (due != 0 ==> Payable(s.vault, balance, due)) && Payable(s.vault, balance + due, realized)
    && Reportable(s, e, after, paid) && (checkMargin ==> Covered(s, e, after, paid))
  }

  // ----- The steps

  lemma InsideBandIff(s: State, e: CallEnv, m: nat, price: int)
    requires MarketsKeyed(s)
    ensures InBandOf(s, e, m, price) <==> InsideBand(s, e, m, price)
  {
    hide TruncDiv;
    if m in s.store.markets {
      assert EngineAcceptsMarket(s.store.markets[m]);
    }
  }

  lemma FundingPnlIff(s: State, q: Position)
    ensures FundingPnl(q, s.FundingIndex(q.marketId, q.isLong))
         == if FundingFits(s, q) then Ok(FundingDue(s, q)) else Err(MathOverflow)
  {
    hide TruncDiv;
  }

  lemma PayableIff(v: VaultState, user: Address, pnl: int)
    ensures ApplyPnl(v, user, pnl).Ok? <==> Payable(v, Balance(v.balances, user), pnl)
  {
  }

  lemma RealizedIff(q: Position, size: int, price: int)
    ensures RealizedPnl(q, size, price).Ok? <==> IsI128(PriceMove(q, price)) && IsI128(PnlOf(q, size, price))
    ensures RealizedPnl(q, size, price).Ok? ==> RealizedPnl(q, size, price).value == PnlOf(q, size, price)
  {
    hide TruncDiv;
  }

  lemma ReleasedIff(q: Position, size: int)
    requires q.size > 0
    ensures MarginAfterReduce(q.mode, q.margin, q.size, size).Ok? <==> ReleaseFits(q, size)
    ensures ReleaseFits(q, size) ==>
      MarginAfterReduce(q.mode, q.margin, q.size, size).value == q.margin - Released(q, size)
  {
    hide TruncDiv;
  }

  lemma SettlesIff(s: State, user: Address, q: Position)
    ensures SettleFunding(s, user, q).Ok?
       <==> FundingFits(s, q)
            && (FundingDue(s, q) != 0 ==> Payable(s.vault, Balance(s.vault.balances, user), FundingDue(s, q)))
  {
    hide FundingPnl, FundingFits, FundingDue, ApplyPnl, Payable;
    FundingPnlIff(s, q);
    PayableIff(s.vault, user, FundingDue(s, q));
  }

  lemma MovesIff(s: State, store: Storage, m: nat, isLong: bool, delta: int)
    requires store == s.store.(nextPositionId := store.nextPositionId)
    ensures MoveInterest(store, m, isLong, delta).Ok? <==> InterestFits(s, m, isLong, delta)
  {
  }

  lemma FoundAt(s: State, user: Address, index: nat, id: nat)
    requires Invariant(s) && index < |s.Positions(user)| && s.Positions(user)[index].id == id
    ensures FindIndex(s.Positions(user), id) == Ok(index)
    ensures MarketsKeyed(s) && s.Positions(user)[index].size > 0
    ensures forall i | 0 <= i < |s.Positions(user)| && s.Positions(user)[i].id == id :: i == index
  {
    assert ListSound(s, user);
  }

  // ----- Reductions

  /** What is asked for before anything is stored. */
  predicate Startable(s: State, e: CallEnv, user: Address, q: Position, size: int, price: int) {
    && 0 < size <= q.size && 0 < price && InsideBand(s, e, q.marketId, price)
    && FundingFits(s, q)
    && (FundingDue(s, q) != 0 ==> Payable(s.vault, Balance(s.vault.balances, user), FundingDue(s, q)))
    && IsI128(PriceMove(q, price)) && IsI128(PnlOf(q, size, price)) && ReleaseFits(q, size)
  }

  lemma ReduceTradeIff(s: State, e: CallEnv, user: Address, index: nat, id: nat, size: int, price: int)
    requires Invariant(s) && index < |s.Positions(user)| && s.Positions(user)[index].id == id
    ensures ReduceTrade(s, e, user, id, size, price).Ok?
       <==> Startable(s, e, user, s.Positions(user)[index], size, price)
  {
    hide Invariant, ValidateExecutionPrice, SettleFunding, RealizedPnl, MarginAfterReduce, InsideBand, FundingFits,
      FundingDue, Payable, PriceMove, PnlOf, ReleaseFits, MarketsKeyed;
    FoundAt(s, user, index, id);
    var q := s.Positions(user)[index];
    InsideBandIff(s, e, q.marketId, price);
    BandOf(s, e, q.marketId, price);
    SettlesIff(s, user, q);
    if SettleFunding(s, user, q).Ok? {
      SettleOnlyMovesIndex(s, user, q);
      var p := SettleFunding(s, user, q).value.1;
      RealizedIff(q, size, price);
      SameMove(q, p, size, price);
      ReleasedIff(q, size);
    }
  }

  lemma SameMove(q: Position, p: Position, size: int, price: int)
    requires p == q.(lastFundingIndex := p.lastFundingIndex)
    ensures RealizedPnl(p, size, price) == RealizedPnl(q, size, price)
  {
    hide MulPrecision;
  }

  /** A market is loaded and its band checked under its own id. */
  lemma BandOf(s: State, e: CallEnv, m: nat, price: int)
    requires MarketsKeyed(s)
    ensures InBandOf(s, e, m, price)
       <==> LoadMarket(s.store.markets, m).Ok?
            && ValidateExecutionPrice(s.store.markets[m], e.Price(s.store.markets[m].market.marketId), price).Ok?
  {
    if m in s.store.markets {
      ValidatedIsPriced(s.store.markets[m], e.Price(m), price);
    }
    hide ValidateExecutionPrice;
  }

  lemma PreparedCommitsIff(s: State, user: Address, index: nat, trade: Trade)
    requires Invariant(s) && Prepared(s, user, index, trade)
    ensures Commit(trade, user).Ok?
       <==> InterestFits(s, trade.interestIn, trade.after.isLong, trade.sizeMove)
            && (trade.realized.Some? ==>
                  Payable(s.vault, Balance(s.vault.balances, user) + trade.funding, trade.realized.value))
  {
    hide Invariant, MoveInterest, InterestFits, FundingPnl, CashSound, ApplyPnl, Replaced, PositionSound;
    MovesIff(s, trade.settled.store, trade.interestIn, trade.after.isLong, trade.sizeMove);
    if trade.realized.Some? {
      PayableIff(trade.settled.vault, user, trade.realized.value);
    }
    ReplacedOwned(s, user, index, trade.after);
  }

  lemma ReplacedOwned(s: State, user: Address, index: nat, p: Position)
    requires Invariant(s) && index < |s.Positions(user)| && p.owner == user
    ensures AllOwnedBy(Replaced(s.Positions(user), index, p), user)
  {
    InvariantOwns(s, user);
    ReplacedEntries(s.Positions(user), index, p);
  }

  // ----- Reports on the state before

  lemma SumsAlike(f: Figure, s: State, t: State, e: CallEnv, list: seq<Position>)
    requires SameRates(s, t)
    ensures SumsFit(f, t, e, list) <==> SumsFit(f, s, e, list)
  {
    hide SameRates;
    TotalAlike(f, s, t, e, list);
    if list != [] {
      SumsAlike(f, s, t, e, list[..|list| - 1]);
    }
  }

  lemma ReadableAlike(s: State, t: State, e: CallEnv, p: Position)
    requires SameRates(s, t)
    ensures Readable(t, e, p) <==> Readable(s, e, p)
  {
    hide TruncDiv;
    assert Unrealized(t, e, p) == Unrealized(s, e, p);
    assert t.FundingIndex(p.marketId, p.isLong) == s.FundingIndex(p.marketId, p.isLong);
  }

  lemma ReportableAlike(s: State, t: State, e: CallEnv, list: seq<Position>, balance: int)
    requires SameRates(s, t)
    ensures Reportable(t, e, list, balance) <==> Reportable(s, e, list, balance)
    ensures Covered(t, e, list, balance) <==> Covered(s, e, list, balance)
  {
    hide SameRates, SumsFit, FigureTotal, Readable, Collateral, Valuable;
    forall f ensures SumsFit(f, t, e, list) <==> SumsFit(f, s, e, list) {
      SumsAlike(f, s, t, e, list);
    }
    forall p ensures Readable(t, e, p) <==> Readable(s, e, p) {
      ReadableAlike(s, t, e, p);
    }
    TotalAlike(LockedMargin, s, t, e, list);
    TotalAlike(CrossPnl, s, t, e, list);
    TotalAlike(IsolatedEquity, s, t, e, list);
    TotalAlike(RequiredMargin, s, t, e, list);
    TotalAlike(Maintained, s, t, e, list);
  }

  lemma ReportedIff(s: State, t: State, e: CallEnv, user: Address)
    requires Invariant(t) && SameRates(s, t)
    ensures var list, balance := t.Positions(user), Balance(t.vault.balances, user);
      && (Health(t.vault, e, user).Ok? <==> Reportable(s, e, list, balance))
      && (RequireInitialMargin(Health(t.vault, e, user)).Ok?
          <==> Reportable(s, e, list, balance) && Covered(s, e, list, balance))
  {
    hide Invariant, Health, Reportable, Covered, SameRates;
    HealthReportsIff(t, e, user);
    ReportableAlike(s, t, e, t.Positions(user), Balance(t.vault.balances, user));
  }

  /** A reduction at a position succeeds exactly when the position can be reduced. */
  lemma ReduceAtIff(s: State, e: CallEnv, user: Address, index: nat, id: nat, size: int, price: int, checkMargin: bool)
    requires Invariant(s) && index < |s.Positions(user)| && s.Positions(user)[index].id == id
    ensures Reduce(s, e, user, id, size, price, checkMargin).Ok?
       <==> Reducible(s, e, user, index, id, size, price, checkMargin)
  {
    hide Invariant, ReduceTrade, Commit, Health, InsideBand, FundingFits, FundingDue, Payable, PriceMove, PnlOf,
      Released, ReleaseFits, InterestFits, Reportable, Covered, SameRates, Replaced, Prepared, Committed, Carried;
    ReduceTradeIff(s, e, user, index, id, size, price);
    if ReduceTrade(s, e, user, id, size, price).Ok? {
      var trade := ReduceTrade(s, e, user, id, size, price).value;
      ReduceTradeShape(s, e, user, index, id, size, price);
      PreparedCommitsIff(s, user, index, trade);
      if Commit(trade, user).Ok? {
        var t := Commit(trade, user).value;
        CommitDoes(s, user, trade);
        TradeKeeps(s, t, user, index, trade);
        PreparedCarries(s, t, user, index, trade);
        CarriedMeans(s, t, user, index, trade);
        ReportedIff(s, t, e, user);
      }
    }
  }

  /** What the trade of a reduction is, in terms of the state before. */
  lemma ReduceTradeShape(s: State, e: CallEnv, user: Address, index: nat, id: nat, size: int, price: int)
    requires Invariant(s) && index < |s.Positions(user)| && s.Positions(user)[index].id == id
    requires ReduceTrade(s, e, user, id, size, price).Ok?
    ensures var trade, q := ReduceTrade(s, e, user, id, size, price).value, s.Positions(user)[index];
      && Prepared(s, user, index, trade) && q.size > 0
      && trade.after == ReducedTo(s, q, size)
      && trade.funding == FundingDue(s, q) && trade.realized == Some(PnlOf(q, size, price))
      && trade.interestIn == q.marketId && trade.sizeMove == -size
      && trade.settled.store == s.store.(nextPositionId := trade.settled.store.nextPositionId)
      && trade.settled.vault == s.vault.(balances := trade.settled.vault.balances)
  {
    hide Invariant, ReduceTrade, FundingPnl, RealizedPnl, MarginAfterReduce, Prepared, Released, ReleaseFits, PnlOf,
      PriceMove, FundingDue, FundingFits, Holds;
    FoundAt(s, user, index, id);
    FoundHolds(s, user, id);
    var trade, q := ReduceTrade(s, e, user, id, size, price).value, s.Positions(user)[index];
    ReduceTradeIs(s, e, user, id, size, price);
    ReducePrepares(s, e, user, id, size, price);
    PreparedSettled(s, user, index, trade);
    PreparedSettles(s, user, index, trade);
    PreparedInterest(s, user, index, trade);
    FundingPnlIff(s, q);
    RealizedIff(q, size, price);
    ReleasedIff(q, size);
  }

  lemma PreparedInterest(s: State, user: Address, index: nat, trade: Trade)
    requires Prepared(s, user, index, trade)
    ensures trade.interestIn == s.Positions(user)[index].marketId
    ensures trade.sizeMove == trade.after.size - s.Positions(user)[index].size
  {
  }

  lemma CarriedMeans(s: State, t: State, user: Address, index: nat, trade: Trade)
    requires index < |s.Positions(user)|
    requires var paid := trade.funding + trade.realized.GetOr(0);
      Carried(s, t, user, index,
              Projection(Without(s.Positions(user), index), trade.after, Balance(s.vault.balances, user) + paid))
    ensures SameRates(s, t) && t.Positions(user) == Replaced(s.Positions(user), index, trade.after)
    ensures Balance(t.vault.balances, user)
         == Balance(s.vault.balances, user) + trade.funding + trade.realized.GetOr(0)
  {
  }

  /**
   A reduction or liquidation succeeds if and only if the user has a position of
   that id which can be reduced by the size at the price.
   */
  lemma ReduceSucceedsIff(s: State, e: CallEnv, user: Address, id: nat, size: int, price: int, checkMargin: bool)
    requires Invariant(s)
    ensures Reduce(s, e, user, id, size, price, checkMargin).Ok?
       <==> exists index: nat :: Reducible(s, e, user, index, id, size, price, checkMargin)
  {
    var list := s.Positions(user);
    if index: nat :| index < |list| && list[index].id == id {
      FoundAt(s, user, index, id);
      ReduceAtIff(s, e, user, index, id, size, price, checkMargin);
      hide Invariant, Reduce, Reportable, Covered, InsideBand, Payable;
      assert forall i: nat | Reducible(s, e, user, i, id, size, price, checkMargin) :: i == index;
    } else {
      NoneFound(s, e, user, id, size, price, checkMargin);
      hide Invariant, Reduce, Reportable, Covered, InsideBand, Payable;
    }
  }

  lemma NoneFound(s: State, e: CallEnv, user: Address, id: nat, size: int, price: int, checkMargin: bool)
    requires forall i | 0 <= i < |s.Positions(user)| :: s.Positions(user)[i].id != id
    ensures Reduce(s, e, user, id, size, price, checkMargin).Err? && FindIndex(s.Positions(user), id).Err?
  {
    hide Commit, SettleFunding, ValidateExecutionPrice;
  }

  /** A close succeeds if and only if some position of that id can be reduced by its whole size. */
  lemma CloseSucceedsIff(s: State, e: CallEnv, user: Address, id: nat, price: int)
    requires Invariant(s)
    ensures Close(s, e, user, id, price).Ok?
       <==> exists index: nat | index < |s.Positions(user)| ::
              Reducible(s, e, user, index, id, s.Positions(user)[index].size, price, true)
  {
    var list := s.Positions(user);
    if index: nat :| index < |list| && list[index].id == id {
      FoundAt(s, user, index, id);
      ReduceAtIff(s, e, user, index, id, list[index].size, price, true);
      hide Invariant, Reduce, Reportable, Covered, InsideBand, Payable;
      assert forall i: nat | i < |list| && Reducible(s, e, user, i, id, list[i].size, price, true) :: i == index;
    } else {
      NoneFound(s, e, user, id, 1, price, true);
      hide Invariant, Reduce, Reportable, Covered, InsideBand, Payable;
    }
  }

  // ----- Opens

  /** Margin an opened position locks: the initial rate of its notional if it is isolated. */
  function LockedAt(mode: MarginMode, size: int, price: int, bps: nat): int {
    if mode == Isolated then TruncDiv(TruncDiv(size * price, PRECISION) * bps, BPS_DENOMINATOR) else 0
  }

  function OpenedAt(s: State, user: Address, m: nat, size: int, isLong: bool, price: int, mode: MarginMode): Position {
    Position(s.store.nextPositionId, user, m, size, price, LockedAt(mode, size, price, InitialRate(s, m)), isLong,
             s.FundingIndex(m, isLong), mode)
  }

  /** There is room under the market's cap. */
  predicate UnderCap(s: State, m: nat, size: int)
    requires m in s.store.markets
  {
    s.OpenInterest(m) + size <= s.store.markets[m].market.maxOpenInterest
  }

  ghost predicate Openable(s: State, e: CallEnv, user: Address, m: nat, size: int, isLong: bool, price: int,
                           mode: MarginMode) {
    var after := s.Positions(user) + [OpenedAt(s, user, m, size, isLong, price, mode)];
    && 0 < size && 0 < price && InsideBand(s, e, m, price) && UnderCap(s, m, size)
    && |s.Positions(user)| < MAX_POSITIONS_PER_USER && s.store.nextPositionId < U64_MAX
    && IsI128(TruncDiv(size * price, PRECISION)) && (mode == Isolated ==> InitialRate(s, m) <= BPS_DENOMINATOR)
    && InterestFits(s, m, isLong, size)
    && Reportable(s, e, after, Balance(s.vault.balances, user)) && Covered(s, e, after, Balance(s.vault.balances, user))
  }

  lemma InitialMarginIff(mode: MarginMode, size: int, price: int, bps: nat)
    requires 0 < size && 0 < price
    ensures InitialMargin(mode, size, price, bps).Ok?
       <==> IsI128(TruncDiv(size * price, PRECISION)) && (mode == Isolated ==> bps <= BPS_DENOMINATOR)
    ensures InitialMargin(mode, size, price, bps).Ok? ==>
      InitialMargin(mode, size, price, bps).value == LockedAt(mode, size, price, bps)
  {
    hide TruncDiv;
    ProductNonNegative(size, price);
    TruncDivBounds(size * price, PRECISION);
    var notional := TruncDiv(size * price, PRECISION);
    if bps <= BPS_DENOMINATOR {
      HaircutGrows(notional, notional, bps);
      ProductNonNegative(notional, bps);
      TruncDivBounds(notional * bps, BPS_DENOMINATOR);
    }
  }

  /** What an open asks for before anything is stored. */
  predicate OpenStartable(s: State, e: CallEnv, user: Address, m: nat, size: int, price: int, mode: MarginMode) {
    && 0 < size && 0 < price && InsideBand(s, e, m, price)
    && IsI128(s.OpenInterest(m) + size) && UnderCap(s, m, size)
    && |s.Positions(user)| < MAX_POSITIONS_PER_USER && s.store.nextPositionId < U64_MAX
    && IsI128(TruncDiv(size * price, PRECISION)) && (mode == Isolated ==> InitialRate(s, m) <= BPS_DENOMINATOR)
  }

  lemma OpenTradeIff(s: State, e: CallEnv, user: Address, m: nat, size: int, isLong: bool, price: int, mode: MarginMode)
    requires MarketsKeyed(s)
    ensures OpenTrade(s, e, user, m, size, isLong, price, mode).Ok? <==> OpenStartable(s, e, user, m, size, price, mode)
  {
    hide ValidateExecutionPrice, InsideBand, MarketsKeyed, InitialMargin, TruncDiv;
    InsideBandIff(s, e, m, price);
    BandOf(s, e, m, price);
    if 0 < size && 0 < price {
      InitialMarginIff(mode, size, price, InitialRate(s, m));
    }
  }

  lemma OpenCommitsIff(s: State, user: Address, trade: Trade)
    requires Invariant(s) && PreparedOpen(s, user, trade)
    ensures Commit(trade, user).Ok? <==> InterestFits(s, trade.interestIn, trade.after.isLong, trade.sizeMove)
  {
    hide Invariant, MoveInterest, InterestFits, CashSound, PositionSound;
    InvariantOwns(s, user);
    MovesIff(s, trade.settled.store, trade.interestIn, trade.after.isLong, trade.sizeMove);
  }

  /** What the trade of an open is, in terms of the state before. */
  lemma OpenTradeShape(s: State, e: CallEnv, user: Address, m: nat, size: int, isLong: bool, price: int,
                       mode: MarginMode)
    requires Invariant(s) && OpenTrade(s, e, user, m, size, isLong, price, mode).Ok?
    ensures var trade := OpenTrade(s, e, user, m, size, isLong, price, mode).value;
      && PreparedOpen(s, user, trade) && trade.after == OpenedAt(s, user, m, size, isLong, price, mode)
      && trade.interestIn == m && trade.sizeMove == size
      && trade.settled.store == s.store.(nextPositionId := trade.settled.store.nextPositionId)
      && trade.settled.vault == s.vault
  {
    hide OpenTrade, InitialMargin, PreparedOpen, LockedAt;
    OpenTradeIs(s, e, user, m, size, isLong, price, mode);
    OpenPrepares(s, e, user, m, size, isLong, price, mode);
    PreparedOpenSettled(s, user, OpenTrade(s, e, user, m, size, isLong, price, mode).value);
    PreparedOpenMoves(s, user, OpenTrade(s, e, user, m, size, isLong, price, mode).value);
    OpenIsPositive(s, e, user, m, size, isLong, price, mode);
    InitialMarginIff(mode, size, price, InitialRate(s, m));
  }

  lemma OpenIsPositive(s: State, e: CallEnv, user: Address, m: nat, size: int, isLong: bool, price: int,
                       mode: MarginMode)
    requires OpenTrade(s, e, user, m, size, isLong, price, mode).Ok?
    ensures 0 < size && 0 < price
  {
    hide InitialMargin, ValidateExecutionPrice;
  }

  lemma OpenCarries(s: State, t: State, user: Address, trade: Trade)
    requires PreparedOpen(s, user, trade) && Committed(s, t, user, trade)
    ensures SameRates(s, t) && t.Positions(user) == s.Positions(user) + [trade.after]
    ensures Balance(t.vault.balances, user) == Balance(s.vault.balances, user)
  {
    hide MoveInterest, CashSound, PositionSound;
  }

  /** An open succeeds if and only if the position can be opened. */
  lemma OpenSucceedsIff(s: State, e: CallEnv, user: Address, m: nat, size: int, isLong: bool, price: int,
                        mode: MarginMode)
    requires Invariant(s)
    ensures Open(s, e, user, m, size, isLong, price, mode).Ok?
       <==> Openable(s, e, user, m, size, isLong, price, mode)
  {
    InvariantOwns(s, user);
    hide Invariant, OpenTrade, Commit, Health, InsideBand, InterestFits, Reportable, Covered, SameRates, PreparedOpen,
      Committed, OpenedAt, MarketsKeyed;
    OpenTradeIff(s, e, user, m, size, isLong, price, mode);
    FitsFirst(s, m, isLong, size);
    if OpenTrade(s, e, user, m, size, isLong, price, mode).Ok? {
      var trade := OpenTrade(s, e, user, m, size, isLong, price, mode).value;
      OpenTradeShape(s, e, user, m, size, isLong, price, mode);
      OpenCommitsIff(s, user, trade);
      OpenSide(s, user, m, size, isLong, price, mode);
      if Commit(trade, user).Ok? {
        var t := Commit(trade, user).value;
        CommitDoes(s, user, trade);
        OpeningKeeps(s, t, user, trade);
        OpenCarries(s, t, user, trade);
        ReportedIff(s, t, e, user);
      }
    }
  }

  lemma OpenSide(s: State, user: Address, m: nat, size: int, isLong: bool, price: int, mode: MarginMode)
    ensures OpenedAt(s, user, m, size, isLong, price, mode).isLong == isLong
  {
  }

  lemma FitsFirst(s: State, m: nat, isLong: bool, size: int)
    ensures InterestFits(s, m, isLong, size) ==> IsI128(s.OpenInterest(m) + size)
  {
  }

  // ----- Increases

  /** The volume-weighted entry over two notionals rounded down, itself rounded down. */
  function EntryAfter(q: Position, size: int, price: int): int
    requires q.size + size != 0
  {
    TruncDiv((TruncDiv(q.size * q.entryPrice, PRECISION) + TruncDiv(size * price, PRECISION)) * PRECISION,
             q.size + size)
  }

  predicate EntryFits(q: Position, size: int, price: int)
    requires q.size + size != 0
  {
    && IsI128(TruncDiv(q.size * q.entryPrice, PRECISION)) && IsI128(TruncDiv(size * price, PRECISION))
    && IsI128(q.size + size)
    && IsI128(TruncDiv(q.size * q.entryPrice, PRECISION) + TruncDiv(size * price, PRECISION))
    && IsI128(EntryAfter(q, size, price))
  }

  function GrownTo(s: State, q: Position, size: int, price: int): Position
    requires q.size + size != 0
  {
    q.(size := q.size + size, entryPrice := EntryAfter(q, size, price),
       lastFundingIndex := s.FundingIndex(q.marketId, q.isLong))
  }

  ghost predicate Increasable(s: State, e: CallEnv, user: Address, index: nat, id: nat, size: int, price: int) {
    var list, balance := s.Positions(user), Balance(s.vault.balances, user);
    && index < |list| && list[index].id == id && 0 < list[index].size
    && 0 < size && 0 < price
    && var q := list[index];
    var due, after := FundingDue(s, q), list[index := GrownTo(s, q, size, price)];
    && InsideBand(s, e, q.marketId, price) && UnderCap(s, q.marketId, size)
    && FundingFits(s, q) && EntryFits(q, size, price)
    && InterestFits(s, q.marketId, q.isLong, size)
    && (due != 0 ==> Payable(s.vault, balance, due))
    && Reportable(s, e, after, balance + due) && Covered(s, e, after, balance + due)
  }

  lemma AveragedIff(q: Position, size: int, price: int)
    requires q.size + size != 0
    ensures AveragedEntry(q, size, price).Ok? <==> EntryFits(q, size, price)
    ensures AveragedEntry(q, size, price).Ok? ==> AveragedEntry(q, size, price).value == EntryAfter(q, size, price)
  {
    hide TruncDiv;
  }

  predicate IncreaseStartable(s: State, e: CallEnv, user: Address, q: Position, size: int, price: int)
    requires 0 < q.size
  {
    && 0 < size && 0 < price && InsideBand(s, e, q.marketId, price)
    && FundingFits(s, q)
    && (FundingDue(s, q) != 0 ==> Payable(s.vault, Balance(s.vault.balances, user), FundingDue(s, q)))
    && IsI128(s.OpenInterest(q.marketId) + size) && UnderCap(s, q.marketId, size) && EntryFits(q, size, price)
  }

  lemma IncreaseTradeIff(s: State, e: CallEnv, user: Address, index: nat, id: nat, size: int, price: int)
    requires Invariant(s) && index < |s.Positions(user)| && s.Positions(user)[index].id == id
    ensures 0 < s.Positions(user)[index].size
    ensures IncreaseTrade(s, e, user, id, size, price).Ok?
       <==> IncreaseStartable(s, e, user, s.Positions(user)[index], size, price)
  {
    hide Invariant, ValidateExecutionPrice, SettleFunding, AveragedEntry, InsideBand, FundingFits, FundingDue, Payable,
      EntryFits, EntryAfter, MarketsKeyed;
    FoundAt(s, user, index, id);
    var q := s.Positions(user)[index];
    InsideBandIff(s, e, q.marketId, price);
    BandOf(s, e, q.marketId, price);
    SettlesIff(s, user, q);
    if SettleFunding(s, user, q).Ok? && 0 < size {
      SettleOnlyMovesIndex(s, user, q);
      AveragedIff(q, size, price);
      SameAverage(q, SettleFunding(s, user, q).value.1, size, price);
    }
  }

  lemma SameAverage(q: Position, p: Position, size: int, price: int)
    requires p == q.(lastFundingIndex := p.lastFundingIndex)
    ensures AveragedEntry(p, size, price) == AveragedEntry(q, size, price)
  {
    hide MulPrecision, DivPrecision;
  }

  /** What the trade of an increase is, in terms of the state before. */
  lemma IncreaseTradeShape(s: State, e: CallEnv, user: Address, index: nat, id: nat, size: int, price: int)
    requires Invariant(s) && index < |s.Positions(user)| && s.Positions(user)[index].id == id
    requires IncreaseTrade(s, e, user, id, size, price).Ok?
    ensures var trade, q := IncreaseTrade(s, e, user, id, size, price).value, s.Positions(user)[index];
      && Prepared(s, user, index, trade) && q.size > 0 && 0 < size
      && trade.after == GrownTo(s, q, size, price)
      && trade.funding == FundingDue(s, q) && trade.realized.None?
      && trade.interestIn == q.marketId && trade.sizeMove == size
      && trade.settled.store == s.store.(nextPositionId := trade.settled.store.nextPositionId)
      && trade.settled.vault == s.vault.(balances := trade.settled.vault.balances)
  {
    hide Invariant, IncreaseTrade, FundingPnl, AveragedEntry, Prepared, EntryAfter, FundingDue, FundingFits, Holds;
    FoundAt(s, user, index, id);
    FoundHolds(s, user, id);
    var trade, q := IncreaseTrade(s, e, user, id, size, price).value, s.Positions(user)[index];
    IncreaseTradeIs(s, e, user, id, size, price);
    IncreasePrepares(s, e, user, id, size, price);
    PreparedSettled(s, user, index, trade);
    PreparedSettles(s, user, index, trade);
    PreparedInterest(s, user, index, trade);
    FundingPnlIff(s, q);
    AveragedIff(q, size, price);
  }

  lemma IncreaseAtIff(s: State, e: CallEnv, user: Address, index: nat, id: nat, size: int, price: int)
    requires Invariant(s) && index < |s.Positions(user)| && s.Positions(user)[index].id == id
    ensures Increase(s, e, user, id, size, price).Ok? <==> Increasable(s, e, user, index, id, size, price)
  {
    hide Invariant, IncreaseTrade, Commit, Health, InsideBand, FundingFits, FundingDue, Payable, EntryFits, EntryAfter,
      InterestFits, Reportable, Covered, SameRates, Prepared, Committed, Carried;
    IncreaseTradeIff(s, e, user, index, id, size, price);
    FitsFirst(s, s.Positions(user)[index].marketId, s.Positions(user)[index].isLong, size);
    if IncreaseTrade(s, e, user, id, size, price).Ok? {
      var trade := IncreaseTrade(s, e, user, id, size, price).value;
      IncreaseTradeShape(s, e, user, index, id, size, price);
      PreparedCommitsIff(s, user, index, trade);
      if Commit(trade, user).Ok? {
        var t := Commit(trade, user).value;
        CommitDoes(s, user, trade);
        TradeKeeps(s, t, user, index, trade);
        PreparedCarries(s, t, user, index, trade);
        CarriedMeans(s, t, user, index, trade);
        ReportedIff(s, t, e, user);
      }
    }
  }

  /** An increase succeeds if and only if the user has a position of that id which can be increased. */
  lemma IncreaseSucceedsIff(s: State, e: CallEnv, user: Address, id: nat, size: int, price: int)
    requires Invariant(s)
    ensures Increase(s, e, user, id, size, price).Ok?
       <==> exists index: nat :: Increasable(s, e, user, index, id, size, price)
  {
    var list := s.Positions(user);
    if index: nat :| index < |list| && list[index].id == id {
      FoundAt(s, user, index, id);
      IncreaseAtIff(s, e, user, index, id, size, price);
      hide Invariant, Increase, Reportable, Covered, InsideBand, Payable;
      assert forall i: nat | Increasable(s, e, user, i, id, size, price) :: i == index;
    } else {
      NoneFound(s, e, user, id, size, price, true);
      hide Invariant, Reduce, Reportable, Covered, InsideBand, Payable, Commit, SettleFunding, ValidateExecutionPrice;
    }
  }
}
