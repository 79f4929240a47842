/**
 Storage of the perpetuals engine, the vault as the engine sees it, and the
 ledgers used only to state what the engine conserves.
 */
module EngineState {
  import opened Outcomes
  import opened FixedPoint

  const MAX_POSITIONS_PER_USER := 16

  type Address = string

  datatype MarginMode = Cross | Isolated

  datatype MarketConfig = MarketConfig(
    marketId: nat,
    maxLeverageBps: nat,
    initialMarginBps: nat,
    maintenanceMarginBps: nat,
    maxOpenInterest: int,
    maxOracleAgeSecs: nat,
    maxOracleConfidenceBps: nat,
    active: bool)

  datatype EngineMarketConfig = EngineMarketConfig(market: MarketConfig, maxExecutionDeviationBps: nat)

  datatype FeeConfig = FeeConfig(makerFeeBps: nat, takerFeeBps: nat)

  datatype FundingConfig = FundingConfig(imbalanceCoeff: int, maxRatePerHour: int)

  datatype FundingState = FundingState(longIndex: int, shortIndex: int, ratePerHour: int, lastUpdate: nat) {
    function Index(isLong: bool): int {
      if isLong then longIndex else shortIndex
    }
  }

  datatype Position = Position(
    id: nat,
    owner: Address,
    marketId: nat,
    size: int,
    entryPrice: int,
    margin: int,
    isLong: bool,
    lastFundingIndex: int,
    mode: MarginMode)

  datatype TradeResult = TradeResult(
    positionId: nat,
    remainingSize: int,
    entryPrice: int,
    realizedPnl: int,
    fundingPnl: int,
    executionPrice: int,
    accountEquity: int)

  datatype AccountHealth = AccountHealth(
    collateralValue: int,
    unrealizedPnl: int,
    equity: int,
    initialMarginRequired: int,
    maintenanceMarginRequired: int,
    freeCollateral: int,
    marginRatio: int,
    liquidatable: bool)

  datatype CollateralConfig = CollateralConfig(haircutBps: nat, active: bool)

  /**
   The assets a user has ever deposited: whether the settlement asset is one,
   and the value of the others after haircut.
   */
  datatype UserAssets = NoDeposits | Deposited(settlementListed: bool, others: Result<int>)

  /**
   What one invocation reads from outside engine and vault: ledger time, the
   oracle's answers, the vault's collateral settings, and the deposits of other
   assets by the user it is for.
   */
  datatype CallEnv = CallEnv(
    now: nat,
    prices: map<nat, Result<int>>,
    settlementPrice: Result<int>,
    settlementConfig: Option<CollateralConfig>,
    assets: UserAssets)
  {
    /** The oracle's answer for a market; a feed that does not exist is refused. */
    function Price(m: nat): Result<int> {
      if m in prices then prices[m] else Err(External(0))
    }
  }

  datatype Storage = Storage(
    markets: map<nat, EngineMarketConfig>,
    feeConfigs: map<nat, FeeConfig>,
    fundingConfigs: map<nat, FundingConfig>,
    fundingStates: map<nat, FundingState>,
    positions: map<Address, seq<Position>>,
    openInterest: map<nat, int>,
    longOpenInterest: map<nat, int>,
    shortOpenInterest: map<nat, int>,
    nextPositionId: nat,
    insurance: Option<Address>,
    feeRecipient: Address)

  /** The vault remembers what the engine last sent it and adds the PnL it is given. */
  datatype VaultState = VaultState(
    positions: map<Address, seq<Position>>,
    fundingLong: map<nat, int>,
    fundingShort: map<nat, int>,
    markets: map<nat, MarketConfig>,
    balances: map<Address, int>,
    paused: bool)

  /**
   Funding of one market: paid to positions, routed to insurance, and (scaled by
   PRECISION) accrued with nobody to route to.
   */
  datatype FundingBook = FundingBook(paid: int, routed: int, unrouted: int, roundings: nat)

  /**
   Cash flows of one position: sizes and values (price times size, scaled by
   PRECISION) of its adds and reduces, the PnL and funding it was paid, and the
   rounding its history allows.
   */
  datatype CashBook = CashBook(
    position: Position,  // as last stored; size 0 once closed
    addedSize: int,
    addedValue: int,
    reducedSize: int,
    reducedValue: int,
    realized: int,
    funding: int,
    slack: int)

  /** Who was paid what: by market, by position, and by account for what comes from no position. */
  datatype Books = Books(
    funding: map<nat, FundingBook>,
    cash: map<nat, CashBook>,
    external: map<Address, int>,  // moved by anyone but the engine
    routed: map<Address, int>,    // funding surplus
    fees: map<Address, int>)      // received less paid

  datatype State = State(store: Storage, vault: VaultState, books: Books) {

    function Positions(user: Address): seq<Position> {
      PositionsOf(store.positions, user)
    }

    function SideInterest(m: nat, isLong: bool): int {
      Lookup(if isLong then store.longOpenInterest else store.shortOpenInterest, m)
    }

    function OpenInterest(m: nat): int {
      Lookup(store.openInterest, m)
    }

    function FundingAt(m: nat, now: nat): FundingState {
      FundingOf(store.fundingStates, m, now)
    }

    /** Stored index of one side of a market; absent state reads as zero. */
    function FundingIndex(m: nat, isLong: bool): int {
      FundingAt(m, 0).Index(isLong)
    }

    function BookOf(m: nat): FundingBook {
      if m in books.funding then books.funding[m] else FundingBook(0, 0, 0, 0)
    }
  }

  function Lookup(values: map<nat, int>, m: nat): int {
    if m in values then values[m] else 0
  }

  function PositionsOf(positions: map<Address, seq<Position>>, user: Address): seq<Position> {
    if user in positions then positions[user] else []
  }

  function FundingOf(states: map<nat, FundingState>, m: nat, now: nat): FundingState {
    if m in states then states[m] else FundingState(0, 0, 0, now)
  }

  function Balance(balances: map<Address, int>, user: Address): int {
    if user in balances then balances[user] else 0
  }

  function Credit(balances: map<Address, int>, user: Address, amount: int): map<Address, int> {
    balances[user := Balance(balances, user) + amount]
  }

  function FeesOf(configs: map<nat, FeeConfig>, m: nat): FeeConfig {
    if m in configs then configs[m] else FeeConfig(0, 0)
  }

  function InitialState(admin: Address): State {
    State(
      Storage(map[], map[], map[], map[], map[], map[], map[], map[], 1, None, admin),
      VaultState(map[], map[], map[], map[], map[], false),
      Books(map[], map[], map[], map[], map[]))
  }
}
