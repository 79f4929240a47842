/** What the vault's health report means in terms of the engine's own state, and what every trade leaves behind. */
module AccountMargin {
  import opened Outcomes
  import opened FixedPoint
  import opened EngineState
  import opened Accounting
  import opened VaultHealth
  import opened EngineSpec
  import opened EngineInvariant
  import opened EngineSafety
  import opened EngineRuns

  // ----- Plain sums over a user's positions

  /** A figure that an account's equity or margin requirement is a sum of. */
  datatype Figure =
    | CrossPnl
    | AnyPnl
    | IsolatedEquity
    | LockedMargin
    | RequiredMargin
    | CrossMaintained
    | Maintained

  function Mark(e: CallEnv, m: nat): int {
    if e.Price(m).Ok? then e.Price(m).value else 0
  }

  /** Price move and unsettled funding of a position, each rounded toward zero. */
  function Unrealized(s: State, e: CallEnv, p: Position): int {
    var mark := Mark(e, p.marketId);
    TruncDiv(p.size * (if p.isLong then mark - p.entryPrice else p.entryPrice - mark), PRECISION)
      - TruncDiv(p.size * (s.FundingIndex(p.marketId, p.isLong) - p.lastFundingIndex), PRECISION)
  }

  function InitialRate(s: State, m: nat): nat {
    if m in s.store.markets then s.store.markets[m].market.initialMarginBps else 0
  }

  function MaintenanceRate(s: State, m: nat): nat {
    if m in s.store.markets then s.store.markets[m].market.maintenanceMarginBps else 0
  }

  /** A rate of the position's notional, both rounded down. */
  function Share(e: CallEnv, p: Position, bps: nat): int {
    TruncDiv(TruncDiv(p.size * Mark(e, p.marketId), PRECISION) * bps, BPS_DENOMINATOR)
  }

  /** An isolated position that cannot cover its own maintenance margin. */
  predicate IsolatedShort(s: State, e: CallEnv, p: Position) {
    var needed := Share(e, p, MaintenanceRate(s, p.marketId));
    p.mode == Isolated && 0 < needed && p.margin + Unrealized(s, e, p) < needed
  }

  function FigureOf(f: Figure, s: State, e: CallEnv, p: Position): int {
    match f
    case CrossPnl => if p.mode == Cross then Unrealized(s, e, p) else 0
    case AnyPnl => Unrealized(s, e, p)
    case IsolatedEquity =>
      if p.mode == Isolated && p.margin + Unrealized(s, e, p) > 0 then p.margin + Unrealized(s, e, p) else 0
    case LockedMargin => if p.mode == Isolated then p.margin else 0
    case RequiredMargin => Share(e, p, InitialRate(s, p.marketId))
    case CrossMaintained => if p.mode == Cross then Share(e, p, MaintenanceRate(s, p.marketId)) else 0
    case Maintained => Share(e, p, MaintenanceRate(s, p.marketId))
  }

  function FigureTotal(f: Figure, s: State, e: CallEnv, list: seq<Position>): int {
    if list == [] then 0 else FigureTotal(f, s, e, list[..|list| - 1]) + FigureOf(f, s, e, list[|list| - 1])
  }

  // ----- The vault's passes compute them

  /** The vault sees the engine's indexes and configurations. */
  ghost predicate Mirrored(s: State) {
    && (forall p: Position :: IndexOf(s.vault, p) == s.FundingIndex(p.marketId, p.isLong))
    && (forall m :: m in s.vault.markets <==> m in s.store.markets)
    && (forall m | m in s.vault.markets :: s.vault.markets[m] == s.store.markets[m].market)
  }

  lemma InvariantMirrors(s: State)
    requires Invariant(s)
    ensures Mirrored(s) && forall u :: PositionsOf(s.vault.positions, u) == s.Positions(u)
  {
    forall p: Position ensures IndexOf(s.vault, p) == s.FundingIndex(p.marketId, p.isLong) {
      assert Lookup(s.vault.fundingLong, p.marketId) == s.FundingIndex(p.marketId, true);
      assert Lookup(s.vault.fundingShort, p.marketId) == s.FundingIndex(p.marketId, false);
    }
  }

  lemma UnrealizedIs(s: State, e: CallEnv, p: Position)
    requires Mirrored(s) && e.Price(p.marketId).Ok?
    requires UnrealizedPnl(s.vault, p, e.Price(p.marketId).value).Ok?
    ensures UnrealizedPnl(s.vault, p, e.Price(p.marketId).value).value == Unrealized(s, e, p)
  {
    assert IndexOf(s.vault, p) == s.FundingIndex(p.marketId, p.isLong);
  }

  lemma TallyOneIs(s: State, e: CallEnv, t: Tally, p: Position)
    requires Mirrored(s) && TallyOne(s.vault, e, t, p).Ok?
    ensures var r := TallyOne(s.vault, e, t, p).value;
      && r.pnls == t.pnls + [Unrealized(s, e, p)]
      && r.initial == t.initial + FigureOf(RequiredMargin, s, e, p)
      && r.maintenance == t.maintenance + FigureOf(Maintained, s, e, p)
      && r.locked == t.locked + FigureOf(LockedMargin, s, e, p)
      && (r.isolatedLow <==> t.isolatedLow || IsolatedShort(s, e, p))
  {
    UnrealizedIs(s, e, p);
    hide UnrealizedPnl, Unrealized, TruncDiv;
  }

  lemma CrossOneIs(s: State, e: CallEnv, sum: int, p: Position)
    requires Mirrored(s) && AddCrossMaintenance(s.vault, e, sum, p).Ok?
    ensures AddCrossMaintenance(s.vault, e, sum, p).value == sum + FigureOf(CrossMaintained, s, e, p)
  {
    hide TruncDiv;
  }

  lemma {:induction false} CrossIs(s: State, e: CallEnv, list: seq<Position>)
    requires Mirrored(s) && CrossMaintenance(s.vault, e, list).Ok?
    ensures CrossMaintenance(s.vault, e, list).value == FigureTotal(CrossMaintained, s, e, list)
  {
    hide AddCrossMaintenance, FigureOf, Mirrored;
    if list != [] {
      var k := |list| - 1;
      CrossIs(s, e, list[..k]);
      CrossOneIs(s, e, CrossMaintenance(s.vault, e, list[..k]).value, list[k]);
    }
  }

  lemma {:induction false} TallyIs(s: State, e: CallEnv, list: seq<Position>)
    requires Mirrored(s) && TallyAll(s.vault, e, list).Ok?
    ensures var t := TallyAll(s.vault, e, list).value;
      && |t.pnls| == |list| && (forall k | 0 <= k < |list| :: t.pnls[k] == Unrealized(s, e, list[k]))
      && t.initial == FigureTotal(RequiredMargin, s, e, list)
      && t.maintenance == FigureTotal(Maintained, s, e, list)
      && t.locked == FigureTotal(LockedMargin, s, e, list)
      && (t.isolatedLow <==> exists p | p in list :: IsolatedShort(s, e, p))
  {
    hide TallyOne, FigureOf, Unrealized, Mirrored, IsolatedShort;
    if list != [] {
      var k := |list| - 1;
      assert list == list[..k] + [list[k]];
      TallyIs(s, e, list[..k]);
      TallyOneIs(s, e, TallyAll(s.vault, e, list[..k]).value, list[k]);
    }
  }

  lemma {:induction false} SplitIs(s: State, e: CallEnv, list: seq<Position>, pnls: seq<int>)
    requires |list| == |pnls| && SplitAll(list, pnls).Ok?
    requires forall k | 0 <= k < |list| :: pnls[k] == Unrealized(s, e, list[k])
    ensures SplitAll(list, pnls).value
         == Split(FigureTotal(IsolatedEquity, s, e, list), FigureTotal(CrossPnl, s, e, list))
  {
    hide Unrealized;
    if list != [] {
      var k := |list| - 1;
      SplitIs(s, e, list[..k], pnls[..k]);
    }
  }

  lemma {:induction false} AddIs(s: State, e: CallEnv, list: seq<Position>, pnls: seq<int>)
    requires |list| == |pnls| && AddAll(pnls).Ok?
    requires forall k | 0 <= k < |list| :: pnls[k] == Unrealized(s, e, list[k])
    ensures AddAll(pnls).value == FigureTotal(AnyPnl, s, e, list)
  {
    hide Unrealized;
    if list != [] {
      var k := |list| - 1;
      AddIs(s, e, list[..k], pnls[..k]);
    }
  }

  // ----- Collateral

  /** Whether the settlement balance is looked at: not if the asset was never listed, is gone, or was switched off. */
  predicate Counts(balance: int, e: CallEnv) {
    match e.assets
    case NoDeposits => true
    case Deposited(listed, _) =>
      listed && balance != 0 && e.settlementConfig.Some? && e.settlementConfig.value.active
  }

  /** What other assets add. */
  function Others(e: CallEnv): int {
    if e.assets.Deposited? && e.assets.others.Ok? then e.assets.others.value else 0
  }

  /** The balance at the oracle's price. */
  function AtPrice(balance: int, e: CallEnv): int {
    TruncDiv(balance * (if e.settlementPrice.Ok? then e.settlementPrice.value else 0), PRECISION)
  }

  /**
   The value of a positive balance counts less its haircut, rounded up by less
   than one unit; a debt counts in full; what does not count adds nothing.
   */
  predicate Worth(balance: int, e: CallEnv, total: int) {
    var value, counted := AtPrice(balance, e), total - Others(e);
    if !Counts(balance, e) then counted == 0
    else if value < 0 then counted == value
    else
      && e.settlementConfig.Some? && e.settlementConfig.value.haircutBps <= BPS_DENOMINATOR
      && var kept := value * (BPS_DENOMINATOR - e.settlementConfig.value.haircutBps);
         kept <= BPS_DENOMINATOR * counted < kept + BPS_DENOMINATOR
  }

  lemma CutIs(value: int, bps: nat)
    requires value >= 0 && AfterHaircut(value, bps).Ok?
    ensures bps <= BPS_DENOMINATOR
    ensures var kept := value * (BPS_DENOMINATOR - bps);
      kept <= BPS_DENOMINATOR * AfterHaircut(value, bps).value < kept + BPS_DENOMINATOR
  {
    hide TruncDiv;
    ProductNonNegative(value, bps);
    TruncDivBounds(value * bps, BPS_DENOMINATOR);
    ProductOfDifference(value, BPS_DENOMINATOR, bps);
  }

  lemma CollateralIsWorth(balance: int, e: CallEnv)
    requires CollateralValue(balance, e).Ok?
    ensures Worth(balance, e, CollateralValue(balance, e).value)
  {
    hide AfterHaircut, TruncDiv;
    if Counts(balance, e) {
      var value := AtPrice(balance, e);
      DebtIsUncut(value, e.settlementConfig.value.haircutBps);
      if value >= 0 {
        CutIs(value, e.settlementConfig.value.haircutBps);
      }
    }
  }

  lemma DebtIsUncut(value: int, bps: nat)
    ensures value < 0 ==> AfterHaircut(value, bps) == Ok(value)
  {
  }

  /** What it takes for the collateral to be valued at all. */
  predicate Valuable(balance: int, e: CallEnv) {
    && (e.assets.Deposited? ==> e.assets.others.Ok?)
    && (Counts(balance, e) ==>
          && e.settlementConfig.Some? && e.settlementPrice.Ok? && IsI128(AtPrice(balance, e))
          && (AtPrice(balance, e) >= 0 ==> e.settlementConfig.value.haircutBps <= BPS_DENOMINATOR)
          && (e.assets.Deposited? ==> IsI128(Others(e) + AfterCut(AtPrice(balance, e), e.settlementConfig.value))))
  }

  function AfterCut(value: int, config: CollateralConfig): int {
    if value < 0 then value else value - TruncDiv(value * config.haircutBps, BPS_DENOMINATOR)
  }

  lemma HaircutFits(value: int, config: CollateralConfig)
    requires IsI128(value)
    ensures AfterHaircut(value, config.haircutBps)
         == if value >= 0 && config.haircutBps > BPS_DENOMINATOR then Err(InvalidConfig)
            else Ok(AfterCut(value, config))
  {
    hide TruncDiv;
    if value >= 0 && config.haircutBps <= BPS_DENOMINATOR {
      HaircutGrows(value, value, config.haircutBps);
      ProductNonNegative(value, config.haircutBps);
      TruncDivBounds(value * config.haircutBps, BPS_DENOMINATOR);
    }
  }

  lemma ValuableIff(balance: int, e: CallEnv)
    ensures CollateralValue(balance, e).Ok? <==> Valuable(balance, e)
  {
    hide AfterHaircut, TruncDiv, AfterCut;
    if Counts(balance, e) && e.settlementConfig.Some? && e.settlementPrice.Ok? && IsI128(AtPrice(balance, e)) {
      HaircutFits(AtPrice(balance, e), e.settlementConfig.value);
    }
  }

  // ----- The report

  /**
   In every reachable state, an account's reported equity is its collateral less
   the margin locked in isolated positions, plus the PnL of its cross positions,
   plus the equity of each isolated one counted as no less than zero; and its
   initial margin is the rate times the notional of each position. It is marked
   liquidatable exactly when it is underwater. All of it is over the engine's
   positions, indexes and rates.
   */
  lemma HealthFormula(s: State, e: CallEnv, user: Address)
    requires Invariant(s) && Health(s.vault, e, user).Ok?
    ensures var h, list := Health(s.vault, e, user).value, s.Positions(user);
      && CollateralValue(Balance(s.vault.balances, user), e) == Ok(h.collateralValue)
      && Worth(Balance(s.vault.balances, user), e, h.collateralValue)
      && h.equity == h.collateralValue - FigureTotal(LockedMargin, s, e, list)
                     + FigureTotal(CrossPnl, s, e, list) + FigureTotal(IsolatedEquity, s, e, list)
      && h.initialMarginRequired == FigureTotal(RequiredMargin, s, e, list)
      && h.maintenanceMarginRequired == FigureTotal(Maintained, s, e, list)
      && h.unrealizedPnl == FigureTotal(AnyPnl, s, e, list)
      && h.freeCollateral == h.equity - h.initialMarginRequired
      && h.marginRatio == (if h.maintenanceMarginRequired <= 0 then I128_MAX
                           else TruncDiv(h.equity * PRECISION, h.maintenanceMarginRequired))
      && (h.liquidatable <==> Underwater(s, e, list, h.collateralValue))
  {
    hide Invariant, TallyAll, SplitAll, AddAll, CrossMaintenance, MarketsPriced, CollateralValue, FigureTotal,
      Mirrored, Unrealized, IsolatedShort, Worth, TruncDiv;
    InvariantMirrors(s);
    CollateralIsWorth(Balance(s.vault.balances, user), e);
    var list := s.Positions(user);
    TallyIs(s, e, list);
    SplitIs(s, e, list, TallyAll(s.vault, e, list).value.pnls);
    AddIs(s, e, list, TallyAll(s.vault, e, list).value.pnls);
    CrossIs(s, e, list);
  }

  /**
   Some isolated position cannot cover its own maintenance margin, or what is
   left of the collateral cannot cover that of the cross positions together.
   */
  ghost predicate Underwater(s: State, e: CallEnv, list: seq<Position>, collateral: int) {
    var needed := FigureTotal(CrossMaintained, s, e, list);
    || (exists p | p in list :: IsolatedShort(s, e, p))
    || (0 < needed
        && collateral - FigureTotal(LockedMargin, s, e, list) + FigureTotal(CrossPnl, s, e, list) < needed)
  }

  // ----- What trades leave behind

  predicate Margined(health: Result<AccountHealth>) {
    health.Ok? && health.value.equity >= health.value.initialMarginRequired
  }

  lemma TradeLeavesHealth(s: State, e: CallEnv, op: Op)
    requires IsTrade(op) && Apply(s, e, op).Ok?
    ensures var health := Health(Apply(s, e, op).value.vault, e, op.user);
      health.Ok? && (!op.OpLiquidate? ==> Margined(health))
  {
    hide OpenTrade, IncreaseTrade, ReduceTrade, Commit, FindIndex, Health;
  }

  /**
   After every trade but a liquidation, the account as it then stands, at the
   oracle's prices and with unsettled funding counted, covers the initial margin
   of its positions.
   */
  lemma TradeIsMargined(s: State, e: CallEnv, op: Op)
    requires Invariant(s) && IsTrade(op) && !op.OpLiquidate? && Apply(s, e, op).Ok?
    ensures var t := Apply(s, e, op).value; var list := t.Positions(op.user);
      var collateral := CollateralValue(Balance(t.vault.balances, op.user), e);
      && collateral.Ok?
      && collateral.value - FigureTotal(LockedMargin, t, e, list) + FigureTotal(CrossPnl, t, e, list)
         + FigureTotal(IsolatedEquity, t, e, list) >= FigureTotal(RequiredMargin, t, e, list)
  {
    hide Invariant, Apply, Health, FigureTotal, CollateralValue;
    ApplyKeeps(s, e, op);
    TradeLeavesHealth(s, e, op);
    HealthFormula(Apply(s, e, op).value, e, op.user);
  }

  lemma ShareGrows(e: CallEnv, p: Position, low: nat, high: nat)
    requires low <= high && p.size > 0 && Mark(e, p.marketId) >= 0
    ensures 0 <= Share(e, p, low) <= Share(e, p, high)
  {
    hide TruncDiv;
    var exact := p.size * Mark(e, p.marketId);
    ProductNonNegative(p.size, Mark(e, p.marketId));
    TruncDivBounds(exact, PRECISION);
    var notional := TruncDiv(exact, PRECISION);
    ProductNonNegative(notional, low);
    TruncDivBounds(notional * low, BPS_DENOMINATOR);
    ProductNonNegative(notional, high - low);
    ProductOfDifference(notional, high, low);
    TruncDivMonotone(notional * low, notional * high, BPS_DENOMINATOR);
  }

  /** Of cross positions alone nothing is locked, and what maintains them is part of what was required to open them. */
  lemma {:induction false} CrossFigures(s: State, e: CallEnv, list: seq<Position>)
    requires MarketsKeyed(s)
    requires forall p | p in list :: p.mode == Cross && p.size > 0 && Mark(e, p.marketId) >= 0
    ensures FigureTotal(LockedMargin, s, e, list) == 0 && FigureTotal(IsolatedEquity, s, e, list) == 0
    ensures FigureTotal(CrossMaintained, s, e, list) <= FigureTotal(RequiredMargin, s, e, list)
  {
    hide Share, Unrealized;
    if list != [] {
      var p := list[|list| - 1];
      CrossFigures(s, e, list[..|list| - 1]);
      assert p.marketId in s.store.markets ==> EngineAcceptsMarket(s.store.markets[p.marketId]);
      ShareGrows(e, p, MaintenanceRate(s, p.marketId), InitialRate(s, p.marketId));
    }
  }

  lemma {:induction false} HealthyIsMarked(v: VaultState, e: CallEnv, list: seq<Position>)
    requires TallyAll(v, e, list).Ok?
    ensures forall p | p in list :: Mark(e, p.marketId) > 0
  {
    if list != [] {
      var k := |list| - 1;
      assert list == list[..k] + [list[k]];
      HealthyIsMarked(v, e, list[..k]);
    }
  }

  /** An account of cross positions that covers initial margin is not liquidatable. */
  lemma MarginedCrossIsSafe(s: State, e: CallEnv, user: Address)
    requires Invariant(s) && Margined(Health(s.vault, e, user))
    requires forall p | p in s.Positions(user) :: p.mode == Cross
    ensures !Health(s.vault, e, user).value.liquidatable
  {
    hide Invariant, FigureTotal, CollateralValue, MarketsPriced, TallyAll, SplitAll, AddAll, CrossMaintenance, Assess;
    HealthFormula(s, e, user);
    InvariantMirrors(s);
    var list := s.Positions(user);
    HealthyIsMarked(s.vault, e, list);
    PositionsAreOpen(s, user);
    CrossFigures(s, e, list);
  }

  lemma PositionsAreOpen(s: State, user: Address)
    requires Invariant(s)
    ensures MarketsKeyed(s) && forall p | p in s.Positions(user) :: p.size > 0
  {
    assert ListSound(s, user);
  }

  /** After every trade but a liquidation, an account without isolated positions is not liquidatable. */
  lemma TradeLeavesCrossSafe(s: State, e: CallEnv, op: Op)
    requires Invariant(s) && IsTrade(op) && !op.OpLiquidate? && Apply(s, e, op).Ok?
    requires forall p | p in Apply(s, e, op).value.Positions(op.user) :: p.mode == Cross
    ensures var h := Health(Apply(s, e, op).value.vault, e, op.user); h.Ok? && !h.value.liquidatable
  {
    hide Invariant, Apply, Health;
    ApplyKeeps(s, e, op);
    TradeLeavesHealth(s, e, op);
    MarginedCrossIsSafe(Apply(s, e, op).value, e, op.user);
  }

  lemma {:induction false} IsolatedEquityCounts(s: State, e: CallEnv, list: seq<Position>)
    ensures FigureTotal(IsolatedEquity, s, e, list) >= 0
  {
    if list != [] {
      IsolatedEquityCounts(s, e, list[..|list| - 1]);
    }
  }

  /** However far the market runs against isolated positions, they take no more from the account than their margin. */
  lemma IsolatedLossIsCapped(s: State, e: CallEnv, user: Address)
    requires Invariant(s) && Health(s.vault, e, user).Ok?
    ensures var h, list := Health(s.vault, e, user).value, s.Positions(user);
      h.equity >= h.collateralValue + FigureTotal(CrossPnl, s, e, list) - FigureTotal(LockedMargin, s, e, list)
  {
    hide Invariant, Health, FigureTotal;
    HealthFormula(s, e, user);
    IsolatedEquityCounts(s, e, s.Positions(user));
  }

  /** The cap on positions keeps every reachable account inside the report's buffer. */
  lemma BufferSuffices(s: State, e: CallEnv, user: Address, k: nat)
    requires Invariant(s) && k < |PositionsOf(s.vault.positions, user)|
    ensures var t := TallyAll(s.vault, e, PositionsOf(s.vault.positions, user)[..k]);
      t.Ok? ==> |t.value.pnls| < PNL_BUFFER
  {
    assert ListSound(s, user) && PositionsOf(s.vault.positions, user) == s.Positions(user);
  }

  // ----- What a report depends on

  /** Two vaults with the same market configurations and indexes. */
  predicate SameMarkets(v: VaultState, w: VaultState) {
    w.markets == v.markets && w.fundingLong == v.fundingLong && w.fundingShort == v.fundingShort
  }

  lemma TallyOneReadsMarkets(v: VaultState, w: VaultState, e: CallEnv, t: Tally, p: Position)
    requires SameMarkets(v, w)
    ensures TallyOne(v, e, t, p) == TallyOne(w, e, t, p)
    ensures forall sum :: AddCrossMaintenance(v, e, sum, p) == AddCrossMaintenance(w, e, sum, p)
  {
    assert IndexOf(v, p) == IndexOf(w, p);
  }

  lemma {:induction false} PassesReadMarkets(v: VaultState, w: VaultState, e: CallEnv, list: seq<Position>)
    requires SameMarkets(v, w)
    ensures MarketsPriced(v, e, list) == MarketsPriced(w, e, list)
    ensures TallyAll(v, e, list) == TallyAll(w, e, list)
    ensures CrossMaintenance(v, e, list) == CrossMaintenance(w, e, list)
  {
    hide TallyOne, AddCrossMaintenance;
    if list != [] {
      var k := |list| - 1;
      PassesReadMarkets(v, w, e, list[..k]);
      var before := TallyAll(v, e, list[..k]);
      TallyOneReadsMarkets(v, w, e, if before.Ok? then before.value else Tally([], 0, 0, 0, false), list[k]);
    }
  }

  /** Nothing that concerns the user's account differs. */
  predicate SameAccount(v: VaultState, w: VaultState, user: Address) {
    && SameMarkets(v, w)
    && PositionsOf(v.positions, user) == PositionsOf(w.positions, user)
    && Balance(v.balances, user) == Balance(w.balances, user)
  }

  /** A report reads nobody else's balance or positions. */
  lemma HealthReadsOneAccount(v: VaultState, w: VaultState, e: CallEnv, user: Address)
    requires SameAccount(v, w, user)
    ensures Health(v, e, user) == Health(w, e, user)
  {
    PassesReadMarkets(v, w, e, PositionsOf(v.positions, user));
    hide MarketsPriced, TallyAll, CrossMaintenance, SplitAll, AddAll, CollateralValue, Assess;
  }

  // ----- A larger balance

  /** The same account with no less money in it. */
  predicate Richer(v: VaultState, w: VaultState, user: Address) {
    && SameMarkets(v, w)
    && PositionsOf(v.positions, user) == PositionsOf(w.positions, user)
    && Balance(v.balances, user) <= Balance(w.balances, user)
  }

  /** The oracle never answers with a price that is not positive. */
  predicate SoundlyPriced(e: CallEnv) {
    e.settlementPrice.Ok? ==> e.settlementPrice.value > 0
  }

  lemma CutGrows(low: int, high: int, bps: nat)
    requires low <= high && AfterHaircut(low, bps).Ok? && AfterHaircut(high, bps).Ok?
    ensures AfterHaircut(low, bps).value <= AfterHaircut(high, bps).value
  {
    hide TruncDiv;
    if 0 <= high {
      HaircutGrows(if low < 0 then 0 else low, high, bps);
    }
  }

  lemma HaircutGrows(low: int, high: int, bps: nat)
    requires 0 <= low <= high && bps <= BPS_DENOMINATOR
    ensures low - TruncDiv(low * bps, BPS_DENOMINATOR) <= high - TruncDiv(high * bps, BPS_DENOMINATOR)
    ensures 0 <= low - TruncDiv(low * bps, BPS_DENOMINATOR)
  {
    hide TruncDiv;
    ProductNonNegative(low, bps);
    ProductNonNegative(high, bps);
    TruncDivBounds(low * bps, BPS_DENOMINATOR);
    TruncDivBounds(high * bps, BPS_DENOMINATOR);
    ProductOfDifference(bps, high, low);
    ProductNonNegative(BPS_DENOMINATOR - bps, high - low);
    ProductOfDifference(high - low, BPS_DENOMINATOR, bps);
    ScaleReflectsOrder(TruncDiv(high * bps, BPS_DENOMINATOR) - TruncDiv(low * bps, BPS_DENOMINATOR), high - low,
                       BPS_DENOMINATOR);
    ProductNonNegative(low, BPS_DENOMINATOR - bps);
    ProductOfDifference(low, BPS_DENOMINATOR, bps);
    ScaleReflectsOrder(TruncDiv(low * bps, BPS_DENOMINATOR), low, BPS_DENOMINATOR);
  }

  lemma ValueGrows(low: int, high: int, price: int)
    requires low <= high && price > 0 && MulPrecision(low, price).Ok? && MulPrecision(high, price).Ok?
    ensures MulPrecision(low, price).value <= MulPrecision(high, price).value
  {
    hide TruncDiv;
    ProductNonNegative(high - low, price);
    ProductOfDifference(price, high, low);
    TruncDivMonotone(low * price, high * price, PRECISION);
  }

  /** What a balance counts for has its sign. */
  lemma WorthHasSign(balance: int, price: int, bps: nat)
    requires price > 0 && MulPrecision(balance, price).Ok? && AfterHaircut(MulPrecision(balance, price).value, bps).Ok?
    ensures var worth := AfterHaircut(MulPrecision(balance, price).value, bps).value;
      (balance >= 0 ==> worth >= 0) && (balance <= 0 ==> worth <= 0)
  {
    hide TruncDiv;
    var value := MulPrecision(balance, price).value;
    assert MulPrecision(0, price) == Ok(0) by {
      TruncDivUnique(0, PRECISION, 0);
    }
    if balance >= 0 {
      ValueGrows(0, balance, price);
      HaircutGrows(value, value, bps);
    }
    if balance <= 0 {
      ValueGrows(balance, 0, price);
      if value == 0 {
        TruncDivUnique(0, BPS_DENOMINATOR, 0);
      }
    }
  }

  lemma CollateralGrows(low: int, high: int, e: CallEnv)
    requires low <= high && SoundlyPriced(e) && CollateralValue(low, e).Ok? && CollateralValue(high, e).Ok?
    ensures CollateralValue(low, e).value <= CollateralValue(high, e).value
  {
    hide MulPrecision, AfterHaircut;
    if e.settlementPrice.Ok? && e.settlementConfig.Some? {
      var price, bps := e.settlementPrice.value, e.settlementConfig.value.haircutBps;
      var less, more := MulPrecision(low, price), MulPrecision(high, price);
      if less.Ok? && AfterHaircut(less.value, bps).Ok? {
        WorthHasSign(low, price, bps);
      }
      if more.Ok? && AfterHaircut(more.value, bps).Ok? {
        WorthHasSign(high, price, bps);
        if less.Ok? && AfterHaircut(less.value, bps).Ok? {
          ValueGrows(low, high, price);
          CutGrows(less.value, more.value, bps);
        }
      }
    }
  }

  /** More money, more equity against the same requirement, and no new reason to be liquidated. */
  lemma RicherHealth(v: VaultState, w: VaultState, e: CallEnv, user: Address)
    requires Richer(v, w, user) && SoundlyPriced(e) && Health(v, e, user).Ok? && Health(w, e, user).Ok?
    ensures var h, g := Health(v, e, user).value, Health(w, e, user).value;
      && h.equity <= g.equity && h.initialMarginRequired == g.initialMarginRequired
      && (g.liquidatable ==> h.liquidatable)
  {
    hide MarketsPriced, TallyAll, CrossMaintenance, SplitAll, AddAll, CollateralValue, DivPrecision;
    PassesReadMarkets(v, w, e, PositionsOf(v.positions, user));
    CollateralGrows(Balance(v.balances, user), Balance(w.balances, user), e);
  }

  // ----- Fees

  /**
   A charged fee, too, leaves its payer covering initial margin. A payer who is
   the recipient gets it back after the check, which cannot hurt, unless the
   report on the larger balance overflows.
   */
  lemma FeeIsMargined(s: State, e: CallEnv, user: Address, m: nat, size: int, price: int, isMaker: bool)
    requires ChargeTradeFee(s, e, user, m, size, price, isMaker).Ok?
    requires var fees := FeesOf(s.store.feeConfigs, m); (if isMaker then fees.makerFeeBps else fees.takerFeeBps) != 0
    ensures var health := Health(ChargeTradeFee(s, e, user, m, size, price, isMaker).value.0.vault, e, user);
      && (user != s.store.feeRecipient ==> Margined(health))
      && (user == s.store.feeRecipient && SoundlyPriced(e) && health.Ok? ==> Margined(health))
  {
    hide Health, ChargeTradeFee, SoundlyPriced, SameAccount, Richer;
    var debited := FeeIsChecked(s, e, user, m, size, price, isMaker);
    var t := ChargeTradeFee(s, e, user, m, size, price, isMaker).value.0;
    if user != s.store.feeRecipient {
      HealthReadsOneAccount(debited, t.vault, e, user);
    } else if SoundlyPriced(e) && Health(t.vault, e, user).Ok? {
      RicherHealth(debited, t.vault, e, user);
    }
  }

  /** The margin check looks at the account after the debit and before the credit. */
  lemma FeeIsChecked(s: State, e: CallEnv, user: Address, m: nat, size: int, price: int, isMaker: bool)
    returns (debited: VaultState)
    requires ChargeTradeFee(s, e, user, m, size, price, isMaker).Ok?
    requires var fees := FeesOf(s.store.feeConfigs, m); (if isMaker then fees.makerFeeBps else fees.takerFeeBps) != 0
    ensures var vault := ChargeTradeFee(s, e, user, m, size, price, isMaker).value.0.vault;
      && Margined(Health(debited, e, user))
      && (if user != s.store.feeRecipient then SameAccount(debited, vault, user) else Richer(debited, vault, user))
  {
    hide Health, MulPrecision, ApplyBps, ApplyPnl, TruncDiv;
    var (t, fee) := ChargeTradeFee(s, e, user, m, size, price, isMaker).value;
    debited := ApplyPnl(s.vault, user, -fee).value;
    ApplyPnlPays(s.vault, user, -fee);
    ApplyPnlPays(debited, s.store.feeRecipient, fee);
    FeeIsNotNegative(s, e, user, m, size, price, isMaker);
  }

  lemma FeeIsNotNegative(s: State, e: CallEnv, user: Address, m: nat, size: int, price: int, isMaker: bool)
    requires ChargeTradeFee(s, e, user, m, size, price, isMaker).Ok?
    ensures ChargeTradeFee(s, e, user, m, size, price, isMaker).value.1 >= 0
  {
    hide ChargeTradeFee, TruncDiv;
    ChargeTradeFeeMoves(s, e, user, m, size, price, isMaker);
  }
}
