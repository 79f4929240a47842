/**
 What each engine call does to the state, as a function. An error means the
 whole invocation, vault calls included, is rolled back.
 */
module EngineSpec {
  import opened Outcomes
  import opened FixedPoint
  import opened EngineState
  import opened Accounting
  import opened VaultHealth

  // ----- Vault calls

  function ApplyPnl(v: VaultState, user: Address, pnl: int): Result<VaultState> {
    if v.paused then Err(Unauthorized)
    else if pnl >= 0 then
      var next :- CheckedAdd(Balance(v.balances, user), pnl);
      Ok(v.(balances := v.balances[user := next]))
    else
      var amount :- CheckedSub(0, pnl);
      var next :- CheckedSub(Balance(v.balances, user), amount);
      Ok(v.(balances := v.balances[user := next]))
  }

  predicate AllOwnedBy(positions: seq<Position>, user: Address) {
    forall p | p in positions :: p.owner == user
  }

  function SyncPositions(v: VaultState, user: Address, positions: seq<Position>): Result<VaultState> {
    if AllOwnedBy(positions, user) then Ok(v.(positions := v.positions[user := positions])) else Err(Unauthorized)
  }

  predicate VaultAcceptsMarket(config: MarketConfig) {
    && config.marketId != 0
    && config.initialMarginBps != 0
    && config.maintenanceMarginBps != 0
    && config.maintenanceMarginBps <= config.initialMarginBps
    && config.maxLeverageBps != 0
    && config.maxOracleAgeSecs != 0
    && config.maxOracleConfidenceBps <= 10_000
    && config.maxOpenInterest > 0
  }

  function SetVaultMarket(v: VaultState, config: MarketConfig): Result<VaultState> {
    if VaultAcceptsMarket(config) then Ok(v.(markets := v.markets[config.marketId := config])) else Err(InvalidConfig)
  }

  // ----- Guards

  function LoadMarket(markets: map<nat, EngineMarketConfig>, m: nat): Result<EngineMarketConfig> {
    if m in markets then Ok(markets[m]) else Err(InvalidConfig)
  }

  /** The price must be within the market's band around the oracle price. */
  function ValidateExecutionPrice(market: EngineMarketConfig, oraclePrice: Result<int>, price: int): Result<()> {
    var oracle :- oraclePrice;
    var maxDelta :- ApplyBps(oracle, market.maxExecutionDeviationBps);
    var lower :- CheckedSub(oracle, maxDelta);
    var upper :- CheckedAdd(oracle, maxDelta);
    if price < lower || price > upper then Err(PriceOutsideBand) else Ok(())
  }

  /** Equity, provided it covers initial margin. */
  function RequireInitialMargin(health: Result<AccountHealth>): Result<int> {
    var h :- health;
    if h.equity < h.initialMarginRequired then Err(InsufficientCollateral) else Ok(h.equity)
  }

  function Equity(health: Result<AccountHealth>): Result<int> {
    var h :- health;
    Ok(h.equity)
  }

  predicate EngineAcceptsMarket(config: EngineMarketConfig) {
    && config.market.marketId != 0
    && config.market.active
    && config.market.initialMarginBps != 0
    && config.market.maintenanceMarginBps != 0
    && config.market.maintenanceMarginBps <= config.market.initialMarginBps
    && config.market.maxOpenInterest > 0
    && config.market.maxOracleAgeSecs != 0
    && config.market.maxOracleConfidenceBps <= 10_000
    && config.maxExecutionDeviationBps <= 10_000
  }

  // ----- Arithmetic of one position

  function RealizedPnl(p: Position, sizeDelta: int, price: int): Result<int> {
    var priceDelta :- if p.isLong then CheckedSub(price, p.entryPrice) else CheckedSub(p.entryPrice, price);
    MulPrecision(sizeDelta, priceDelta)
  }

  /** Volume-weighted entry price after adding `sizeDelta` at `price`. */
  function AveragedEntry(p: Position, sizeDelta: int, price: int): Result<int> {
    var oldNotional :- MulPrecision(p.size, p.entryPrice);
    var addedNotional :- MulPrecision(sizeDelta, price);
    var newSize :- CheckedAdd(p.size, sizeDelta);
    var total :- CheckedAdd(oldNotional, addedNotional);
    DivPrecision(total, newSize)
  }

  /** Isolated margin left after closing `sizeDelta` of `size`. */
  function MarginAfterReduce(mode: MarginMode, margin: int, size: int, sizeDelta: int): Result<int> {
    if mode == Isolated && margin > 0 then
      var release :- MulDiv(margin, sizeDelta, size);
      CheckedSub(margin, release)
    else
      Ok(margin)
  }

  function Clamp(value: int, min: int, max: int): int {
    if value < min then min else if value > max then max else value
  }

  function UpdateFromImbalance(cfg: FundingConfig, state: FundingState, oiLong: int, oiShort: int, now: nat)
    : Result<FundingState>
  {
    if cfg.imbalanceCoeff < 0 || cfg.maxRatePerHour <= 0 then Err(InvalidConfig)
    else if now <= state.lastUpdate then Ok(state)
    else
      var totalOi :- CheckedAdd(oiLong, oiShort);
      var difference :- if totalOi == 0 then Ok(0) else CheckedSub(oiLong, oiShort);
      var imbalance :- if totalOi == 0 then Ok(0) else DivPrecision(difference, totalOi);
      var rawRate :- MulPrecision(imbalance, cfg.imbalanceCoeff);
      var rate := Clamp(rawRate, -cfg.maxRatePerHour, cfg.maxRatePerHour);
      var delta :- MulDiv(rate, now - state.lastUpdate, SECS_PER_HOUR);
      var longIndex :- CheckedAdd(state.longIndex, delta);
      var shortIndex :- CheckedSub(state.shortIndex, delta);
      Ok(FundingState(longIndex, shortIndex, rate, now))
  }

  // ----- Shared steps

  /** First index holding the id. */
  function FindIndex(positions: seq<Position>, id: nat): (r: Result<nat>)
    ensures r.Ok? ==> r.value < |positions| && positions[r.value].id == id
    ensures r.Ok? ==> forall k | 0 <= k < r.value :: positions[k].id != id
    ensures r.Err? ==> r == Err(PositionNotFound) && forall p | p in positions :: p.id != id
  {
    FindIndexFrom(positions, id, 0)
  }

  function FindIndexFrom(positions: seq<Position>, id: nat, i: nat): (r: Result<nat>)
    requires i <= |positions|
    ensures r.Ok? ==> i <= r.value < |positions| && positions[r.value].id == id
    ensures r.Ok? ==> forall k | i <= k < r.value :: positions[k].id != id
    ensures r.Err? ==> r == Err(PositionNotFound) && forall k | i <= k < |positions| :: positions[k].id != id
    decreases |positions| - i
  {
    if i == |positions| then Err(PositionNotFound)
    else if positions[i].id == id then Ok(i)
    else FindIndexFrom(positions, id, i + 1)
  }

  /** Pays the position its accrued funding and moves it to the current index. */
  function SettleFunding(s: State, user: Address, p: Position): Result<(State, Position, int)> {
    var index := s.FundingIndex(p.marketId, p.isLong);
    var pnl :- FundingPnl(p, index);
    var vault :- if pnl != 0 then ApplyPnl(s.vault, user, pnl) else Ok(s.vault);
    var book := s.BookOf(p.marketId);
    var settled := book.(paid := book.paid + pnl, roundings := book.roundings + 1);
    Ok((s.(vault := vault, books := s.books.(funding := s.books.funding[p.marketId := settled])),
        p.(lastFundingIndex := index), pnl))
  }

  /** Adds `delta` (negative when reducing) to the market's total and to one side. */
  function MoveInterest(store: Storage, m: nat, isLong: bool, delta: int): Result<Storage> {
    var total :- CheckedAdd(Lookup(store.openInterest, m), delta);
    var side :- CheckedAdd(Lookup(if isLong then store.longOpenInterest else store.shortOpenInterest, m), delta);
    var moved := store.(openInterest := store.openInterest[m := total]);
    Ok(if isLong then moved.(longOpenInterest := store.longOpenInterest[m := side])
       else moved.(shortOpenInterest := store.shortOpenInterest[m := side]))
  }

  // ----- Calls

  function SetMarket(s: State, config: EngineMarketConfig): Result<State> {
    if !EngineAcceptsMarket(config) then Err(InvalidConfig)
    else
      var vault :- SetVaultMarket(s.vault, config.market);
      Ok(s.(store := s.store.(markets := s.store.markets[config.market.marketId := config]), vault := vault))
  }

  function SetFeeConfig(s: State, m: nat, config: FeeConfig): Result<State> {
    if m == 0 || config.makerFeeBps > 10_000 || config.takerFeeBps > 10_000 then Err(InvalidConfig)
    else Ok(s.(store := s.store.(feeConfigs := s.store.feeConfigs[m := config])))
  }

  function SetFundingConfig(s: State, now: nat, m: nat, config: FundingConfig): Result<State> {
    if m == 0 || config.imbalanceCoeff < 0 || config.maxRatePerHour <= 0 then Err(InvalidConfig)
    else
      var restarted := s.FundingAt(m, now).(lastUpdate := now);
      Ok(s.(store := s.store.(fundingConfigs := s.store.fundingConfigs[m := config],
                              fundingStates := s.store.fundingStates[m := restarted])))
  }

  /** Moves the indexes, tells the vault, and routes what longs pay beyond what shorts receive. */
  function UpdateFunding(s: State, now: nat, m: nat): Result<(State, FundingState)> {
    if m !in s.store.fundingConfigs then Err(InvalidConfig)
    else
      var current := s.FundingAt(m, now);
      var oiLong, oiShort := s.SideInterest(m, true), s.SideInterest(m, false);
      var next :- UpdateFromImbalance(s.store.fundingConfigs[m], current, oiLong, oiShort, now);
      var delta :- CheckedSub(next.longIndex, current.longIndex);
      var surplus :- NetSurplus(delta, oiLong, oiShort);
      var told := s.vault.(fundingLong := s.vault.fundingLong[m := next.longIndex],
                           fundingShort := s.vault.fundingShort[m := next.shortIndex]);
      var vault :- RouteSurplus(told, s.store.insurance, surplus);
      var booked := BookFunding(s.BookOf(m), s.store.insurance.Some?, delta * (oiLong - oiShort), surplus);
      var routed := if s.store.insurance.Some? then Credit(s.books.routed, s.store.insurance.value, surplus)
                    else s.books.routed;
      Ok((State(s.store.(fundingStates := s.store.fundingStates[m := next]), vault,
                s.books.(funding := s.books.funding[m := booked], routed := routed)), next))
  }

  /** What longs pay beyond what shorts receive, rounded toward zero. */
  function NetSurplus(delta: int, oiLong: int, oiShort: int): Result<int> {
    if delta == 0 then Ok(0)
    else
      var imbalance :- CheckedSub(oiLong, oiShort);
      if imbalance == 0 then Ok(0) else MulDiv(delta, imbalance, PRECISION)
  }

  function RouteSurplus(v: VaultState, insurance: Option<Address>, surplus: int): Result<VaultState> {
    if surplus != 0 && insurance.Some? then ApplyPnl(v, insurance.value, surplus) else Ok(v)
  }

  function BookFunding(book: FundingBook, insured: bool, exact: int, surplus: int): FundingBook {
    if insured then book.(routed := book.routed + surplus, roundings := book.roundings + 1)
    else book.(unrouted := book.unrouted + exact)
  }

  function ChargeTradeFee(s: State, e: CallEnv, user: Address, m: nat, size: int, price: int, isMaker: bool)
    : Result<(State, int)>
  {
    if size <= 0 || price <= 0 then Err(InvalidAmount)
    else
      var config := FeesOf(s.store.feeConfigs, m);
      var feeBps := if isMaker then config.makerFeeBps else config.takerFeeBps;
      if feeBps == 0 then Ok((s, 0))
      else
        var notional :- MulPrecision(size, price);
        var fee :- ApplyBps(notional, feeBps);
        var debit :- CheckedSub(0, fee);
        var debited :- ApplyPnl(s.vault, user, debit);
        var _ :- RequireInitialMargin(Health(debited, e, user));
        var credited :- ApplyPnl(debited, s.store.feeRecipient, fee);
        Ok((s.(vault := credited,
               books := s.books.(fees := Credit(Credit(s.books.fees, user, -fee), s.store.feeRecipient, fee))), fee))
  }

  /**
   A trade worked out but not yet stored: the user's new list, the position it
   changed and that position's ledger entry.
   */
  datatype Trade = Trade(
    settled: State,       // after funding was settled
    list: seq<Position>,
    after: Position,
    sizeMove: int,
    interestIn: nat,      // market whose open interest moves
    funding: int,
    realized: Option<int>,
    book: CashBook)

  /** Stores the list, moves open interest, realizes PnL and tells the vault. */
  function Commit(t: Trade, user: Address): Result<State> {
    var s := t.settled;
    var moved :- MoveInterest(s.store, t.interestIn, t.after.isLong, t.sizeMove);
    var paid :- if t.realized.Some? then ApplyPnl(s.vault, user, t.realized.value) else Ok(s.vault);
    var synced :- SyncPositions(paid, user, t.list);
    Ok(State(moved.(positions := moved.positions[user := t.list]), synced,
             s.books.(cash := s.books.cash[t.after.id := t.book])))
  }

  /** An isolated position locks initial margin on its notional. */
  function InitialMargin(mode: MarginMode, size: int, price: int, bps: nat): Result<int> {
    var notional :- MulPrecision(size, price);
    if mode == Isolated then ApplyBps(notional, bps) else Ok(0)
  }

  function OpenTrade(s: State, e: CallEnv, user: Address, m: nat, size: int, isLong: bool, price: int, mode: MarginMode)
    : Result<Trade>
  {
    if size <= 0 || price <= 0 then Err(InvalidAmount)
    else
      var market :- LoadMarket(s.store.markets, m);
      var _ :- ValidateExecutionPrice(market, e.Price(market.market.marketId), price);
      var nextOi :- CheckedAdd(s.OpenInterest(m), size);
      if nextOi > market.market.maxOpenInterest then Err(OpenInterestExceeded)
      else if |s.Positions(user)| >= MAX_POSITIONS_PER_USER then Err(TooManyPositions)
      else
        var margin :- InitialMargin(mode, size, price, market.market.initialMarginBps);
        if s.store.nextPositionId >= U64_MAX then Err(MathOverflow)
        else
          var id := s.store.nextPositionId;
          var p := Position(id, user, m, size, price, margin, isLong, s.FundingIndex(m, isLong), mode);
          Ok(Trade(s.(store := s.store.(nextPositionId := id + 1)), s.Positions(user) + [p], p, size, m, 0, None,
                   CashBook(p, size, size * price, 0, 0, 0, 0, 0)))
  }

  function Open(s: State, e: CallEnv, user: Address, m: nat, size: int, isLong: bool, price: int, mode: MarginMode)
    : Result<(State, TradeResult)>
  {
    var trade :- OpenTrade(s, e, user, m, size, isLong, price, mode);
    var t :- Commit(trade, user);
    var equity :- RequireInitialMargin(Health(t.vault, e, user));
    Ok((t, TradeResult(trade.after.id, size, price, 0, 0, price, equity)))
  }

  function IncreaseTrade(s: State, e: CallEnv, user: Address, id: nat, sizeDelta: int, price: int): Result<Trade> {
    if sizeDelta <= 0 || price <= 0 then Err(InvalidAmount)
    else
      var index :- FindIndex(s.Positions(user), id);
      var found := s.Positions(user)[index];
      var market :- LoadMarket(s.store.markets, found.marketId);
      var _ :- ValidateExecutionPrice(market, e.Price(market.market.marketId), price);
      var (settled, p, funding) :- SettleFunding(s, user, found);
      var nextOi :- CheckedAdd(s.OpenInterest(p.marketId), sizeDelta);
      if nextOi > market.market.maxOpenInterest then Err(OpenInterestExceeded)
      else
        var entry :- AveragedEntry(p, sizeDelta, price);
        var grown := p.(size := p.size + sizeDelta, entryPrice := entry);
        Ok(Trade(settled, s.Positions(user)[index := grown], grown, sizeDelta, p.marketId, funding, None,
                 BookAdd(CashOf(s.books.cash, p), grown, sizeDelta, price, funding)))
  }

  function Increase(s: State, e: CallEnv, user: Address, id: nat, sizeDelta: int, price: int)
    : Result<(State, TradeResult)>
  {
    var trade :- IncreaseTrade(s, e, user, id, sizeDelta, price);
    var t :- Commit(trade, user);
    var equity :- RequireInitialMargin(Health(t.vault, e, user));
    Ok((t, TradeResult(id, trade.after.size, trade.after.entryPrice, 0, trade.funding, price, equity)))
  }

  /** The list with entry `index` replaced, or removed when nothing of it is left. */
  function Replaced(list: seq<Position>, index: nat, p: Position): seq<Position>
    requires index < |list|
  {
    if p.size == 0 then list[..index] + list[index + 1..] else list[index := p]
  }

  function ReduceTrade(s: State, e: CallEnv, user: Address, id: nat, sizeDelta: int, price: int): Result<Trade> {
    if sizeDelta <= 0 || price <= 0 then Err(InvalidAmount)
    else
      var index :- FindIndex(s.Positions(user), id);
      var found := s.Positions(user)[index];
      if sizeDelta > found.size then Err(InvalidAmount)
      else
        var market :- LoadMarket(s.store.markets, found.marketId);
        var _ :- ValidateExecutionPrice(market, e.Price(market.market.marketId), price);
        var (settled, p, funding) :- SettleFunding(s, user, found);
        var realized :- RealizedPnl(p, sizeDelta, price);
        var margin :- MarginAfterReduce(p.mode, p.margin, p.size, sizeDelta);
        var shrunk := p.(size := p.size - sizeDelta, margin := margin);
        Ok(Trade(settled, Replaced(s.Positions(user), index, shrunk), shrunk, -sizeDelta, market.market.marketId,
                 funding, Some(realized),
                 BookReduce(CashOf(s.books.cash, p), shrunk, sizeDelta, price, realized, funding)))
  }

  function Reduce(s: State, e: CallEnv, user: Address, id: nat, sizeDelta: int, price: int, requireMargin: bool)
    : Result<(State, TradeResult)>
  {
    var trade :- ReduceTrade(s, e, user, id, sizeDelta, price);
    var t :- Commit(trade, user);
    var health := Health(t.vault, e, user);
    var equity :- if requireMargin then RequireInitialMargin(health) else Equity(health);
    Ok((t, TradeResult(id, trade.after.size, trade.after.entryPrice, trade.realized.GetOr(0), trade.funding, price,
                       equity)))
  }

  function Close(s: State, e: CallEnv, user: Address, id: nat, price: int): Result<(State, TradeResult)> {
    var index :- FindIndex(s.Positions(user), id);
    Reduce(s, e, user, id, s.Positions(user)[index].size, price, true)
  }

  /** An add may lose part of a unit in each of two notionals and part of a price unit per unit of the new size. */
  function BookAdd(book: CashBook, p: Position, sizeDelta: int, price: int, funding: int): CashBook {
    book.(position := p, addedSize := book.addedSize + sizeDelta, addedValue := book.addedValue + sizeDelta * price,
          funding := book.funding + funding, slack := book.slack + 2 * (PRECISION - 1) + (p.size - 1))
  }

  /** A reduce may lose part of one unit of PnL. */
  function BookReduce(book: CashBook, p: Position, sizeDelta: int, price: int, realized: int, funding: int): CashBook {
    book.(position := p, reducedSize := book.reducedSize + sizeDelta,
          reducedValue := book.reducedValue + sizeDelta * price, realized := book.realized + realized,
          funding := book.funding + funding, slack := book.slack + (PRECISION - 1))
  }

  function CashOf(cash: map<nat, CashBook>, p: Position): CashBook {
    if p.id in cash then cash[p.id] else CashBook(p, 0, 0, 0, 0, 0, 0, 0)
  }

  // ----- Runs

  datatype Op =
    | OpSetMarket(config: EngineMarketConfig)
    | OpSetFeeConfig(market: nat, fees: FeeConfig)
    | OpSetFundingConfig(market: nat, funding: FundingConfig)
    | OpSetInsurance(insurance: Address)
    | OpSetFeeRecipient(recipient: Address)
    | OpSetPaused(paused: bool)                       // the vault's emergency pause
    | OpExternal(user: Address, amount: int)          // a deposit, withdrawal or debt absorption at the vault
    | OpUpdateFunding(market: nat)
    | OpChargeTradeFee(user: Address, market: nat, size: int, price: int, isMaker: bool)
    | OpOpen(user: Address, market: nat, size: int, isLong: bool, price: int, mode: MarginMode)
    | OpIncrease(user: Address, id: nat, size: int, price: int)
    | OpReduce(user: Address, id: nat, size: int, price: int)
    | OpLiquidate(user: Address, id: nat, size: int, price: int)
    | OpClose(user: Address, id: nat, price: int)

  function First<A, B>(r: Result<(A, B)>): Result<A> {
    match r
    case Ok(v) => Ok(v.0)
    case Err(error) => Err(error)
  }

  function Apply(s: State, e: CallEnv, op: Op): Result<State> {
    match op
    case OpSetMarket(config) => SetMarket(s, config)
    case OpSetFeeConfig(m, fees) => SetFeeConfig(s, m, fees)
    case OpSetFundingConfig(m, funding) => SetFundingConfig(s, e.now, m, funding)
    case OpSetInsurance(insurance) => Ok(s.(store := s.store.(insurance := Some(insurance))))
    case OpSetFeeRecipient(recipient) => Ok(s.(store := s.store.(feeRecipient := recipient)))
    case OpSetPaused(paused) => Ok(s.(vault := s.vault.(paused := paused)))
    case OpExternal(user, amount) =>
      Ok(s.(vault := s.vault.(balances := Credit(s.vault.balances, user, amount)),
            books := s.books.(external := Credit(s.books.external, user, amount))))
    case OpUpdateFunding(m) => First(UpdateFunding(s, e.now, m))
    case OpChargeTradeFee(user, m, size, price, isMaker) => First(ChargeTradeFee(s, e, user, m, size, price, isMaker))
    case OpOpen(user, m, size, isLong, price, mode) => First(Open(s, e, user, m, size, isLong, price, mode))
    case OpIncrease(user, id, size, price) => First(Increase(s, e, user, id, size, price))
    case OpReduce(user, id, size, price) => First(Reduce(s, e, user, id, size, price, true))
    case OpLiquidate(user, id, size, price) => First(Reduce(s, e, user, id, size, price, false))
    case OpClose(user, id, price) => First(Close(s, e, user, id, price))
  }

  /** One invocation: an error leaves the state as it was. */
  function Next(s: State, e: CallEnv, op: Op): State {
    var r := Apply(s, e, op);
    if r.Ok? then r.value else s
  }

  function Run(s: State, calls: seq<(CallEnv, Op)>): State {
    if calls == [] then s
    else
      var last := calls[|calls| - 1];
      Next(Run(s, calls[..|calls| - 1]), last.0, last.1)
  }
}
