# Kryon perpetuals: a verified model

Kryon is a perpetuals exchange on Stellar. Orders are signed in the browser,
stored in Postgres, matched off chain, and settled on chain through an order
gateway contract that calls the perpetuals engine. This project models that
path and proves what it keeps.

- **Engine** (`FixedPoint`, `MapSums`, `EngineState`, `EngineSpec`,
  `EngineTotals`, `EngineArithmetic`, `EngineInvariant`, `EngineSafety`,
  `EngineRuns`, `EngineTheorems`, `EngineGuards`, `EngineWitness`,
  `CallSuccess`, `PerpEngine`): multi-user, multi-market positions, open
  interest, funding, fees and the vault's mirror. `EngineSpec` says what each
  call does as a function; `PerpEngine` holds the classes whose methods do it
  step by step and roll back on error. Ledgers of funding, cash, fees, routed surplus and outside
  flows exist only to state conservation, account by account.
- **Account health** (`Accounting`, `VaultHealth`, `AccountMargin`,
  `HealthReports`, `TradeSafety`, `TradeSuccess`, `TradeResults`,
  `LiquidationWitness`, `CloseWitness`): the report the vault computes for the
  engine from balance, mirrored positions and prices, and exactly when trades
  succeed, what they answer and when they leave an account liquidatable.
- **Order gateway** (`GatewayOrders`, `GatewaySettlement`, `GatewayRuns`,
  `GatewaySafety`, `GatewayBooks`, `TradingBooks`, `OrderGateway`): fill
  accounting, cancelling, pruning, how a fill becomes engine calls for both
  sides, what it books, and what it leaves behind.
- **Matcher and fill ledger** (`Matching`, `Matcher`, `PriceBand`,
  `FillLedger`, `LedgerSafety`, `LedgerRuns`, `MatcherService`,
  `MatchSettlement`, `MarketOrders`, `LedgerFindings`, `LedgerWitness`,
  `JobHistory`): price-time matching, the Order, Fill and TxJob rows around it,
  the reconciler, what a job's status means, and what the gateway says to the
  matcher's fills.
- **Signed orders** (`OrderText`, `OrderMessage`, `OrderIntake`): the message a
  wallet signs, as client, route, matcher and contract each build it.
- **Smaller parts** (`WasmCodec`, `SpecDocs`, `OracleMedian`, `RateLimiter`,
  `LiquidationPrice`), and what several modules share (`Outcomes`, `Numbers`,
  `Sorting`).

`dafny verify dfyconfig.toml` checks the whole project.

## What the proofs brought out

- Funding conserves value only once an insurance address is set; before that
  an update whose imbalance charge is a unit or more drops it
  (`EngineTheorems.UpdateFundingLoss`; `EngineWitness.UninsuredRunLoses` is such
  a run).
- The margin check adds up isolated and cross equity, while liquidation looks at
  them apart. For accounts of cross positions a trade never leaves the account
  liquidatable (`AccountMargin.TradeLeavesCrossSafe`), and the gateway opens no
  others (`GatewaySafety.HistoryIsCross`, `GatewaySafety.SettledFillIsSafe`);
  with an isolated position, which the engine also takes, it can
  (`LiquidationWitness.MarginedYetLiquidatable`), and exactly when is known
  before the trade (`TradeSafety.TradeLiquidatableIff`).
- A report needs the ratio of equity to maintenance margin to fit 128 bits, so an
  account with much equity and only a dust position cannot be reported on, and no
  trade that would leave an account so succeeds (`HealthReports.RatioMustFit`,
  `TradeSuccess.ReduceSucceedsIff`).
- Matched fills move exposure between users but never a market's balance, so
  funding indexes stay at zero until a liquidation leaves a market out of
  balance (`GatewayRuns.FundingNeedsLiquidation`).
- The gateway requires a positive limit price of both orders, while the matcher
  fills market orders, whose limit price is 0. The matcher does pair one with an
  opposite limit order (`MarketOrders.PairIsMatched`), the gateway never accepts
  the fill (`MatchSettlement.GatewayTakesLimitFills`), and when refused fills
  come back unsettled no round fills a market order any further
  (`MarketOrders.MarketOrdersStayUnfilled`).
- Pruning is documented as unable to enable an overfill. That holds exactly when
  no order outlives another order of its nonce, of size two or more, by more
  than the grace period (`GatewayOrders.NoOverfillIff`); the intake route keeps
  one order per nonce.
- The reconciler's comment says that a job whose transaction is not found is
  re-submitted; its claim refuses every job that has a hash, so nothing happens
  (`LedgerSafety.NotFoundIsNeverResubmitted`,
  `LedgerFindings.ForgottenJobIsReachable`).
- Queueing a fill whose hash already has a job renews that job's payload but not
  its status. A fill matched again after its job expired then stands behind a
  failed job, and a second fill of the same orders and size behind the job that
  confirmed the first, filled in the database and never settled
  (`LedgerFindings.SettlementPursuesIff`, `LedgerFindings.StrandedForever`,
  `LedgerFindings.StrandedFillIsReachable`, `LedgerWitness.ConfirmedJobStrands`).
- A fill settled with stored signatures keeps its pending hash, so a second one
  of the same orders and size is dropped as a duplicate
  (`LedgerFindings.SignedFillBlocksRepeats`).
- Intake validates a nonce up to 2^64 - 1, the column holds up to 2^63 - 1: a
  larger one passes validation and fails to store
  (`OrderIntake.AcceptedIsStored`, `OrderIntake.LargeNonceIsNotStored`).
- The WASM optimizer assumes a one-byte length before the spec section's name
  (`WasmCodec.SpecPayloadExact`, `WasmCodec.PaddedNameShiftsPayload`).
- The rate limiter can admit twice its limit, less one, within a window
  (`RateLimiter.WindowBound`, `RateLimiter.WindowBoundReached`).

## Model

| member | source | states |
|---|---|---|
| EngineTheorems.FundingNetsToZero | kryon-protocol/contracts/perp-engine/src/lib.rs:216-251 | In every run whose first call sets the insurance address: PRECISION times (funding paid to positions plus surplus routed) plus what live positions have accrued is within PRECISION - 1 per settlement or routing of zero; what is booked as paid is what the positions' own ledgers received, and what is booked as routed is what accounts were credited. |
| EngineTheorems.UpdateFundingLoss | kryon-protocol/contracts/perp-engine/src/lib.rs:236-248 | One funding update keeps that sum within one unit if and only if an insurance address is set or the imbalance charge is below one unit, the charge being told from the state before: the clamped rate times the elapsed time, rounded, times the open-interest imbalance. |
| EngineTheorems.UpdateCharges | kryon-protocol/crates/risk-engine/src/funding.rs:22-51 | A successful update stores exactly the state computed from the one before: both indexes moved oppositely by the clamped rate times the elapsed time over an hour, that rate and the time; nothing new when no time has passed. |
| CallSuccess.UpdateSucceedsIff | kryon-protocol/contracts/perp-engine/src/lib.rs:216-251 | A funding update succeeds if and only if the market has a configuration, rate, indexes and surplus fit, and an insurance address that is owed something can be paid. |
| CallSuccess.ConfiguringChargesNothing | kryon-protocol/contracts/perp-engine/src/lib.rs:153-174 | A new funding configuration leaves the indexes and charges nothing for the time before it. |
| EngineWitness.UninsuredRunLoses | kryon-protocol/contracts/perp-engine/src/lib.rs:236-248 | A run of four calls from the initial state without an insurance address, one long position and one update, loses exactly one unit of funding, more than any rounding allowance. |
| EngineRuns.FundedAccrued | kryon-protocol/contracts/perp-engine/src/lib.rs:232-239 | Moving the long index by d and the short index by -d charges live positions exactly d times (long minus short open interest); needs the open-interest invariant. |
| EngineRuns.FundedMoves | kryon-protocol/contracts/perp-engine/src/lib.rs:236-248 | Routing the charge loses less than a unit when insured; otherwise the whole charge is unaccounted for. |
| EngineRuns.UpdateFundingDoes | kryon-protocol/contracts/perp-engine/src/lib.rs:216-251 | A successful update moves the two indexes oppositely, tells the vault both, changes nothing else in storage, and credits the insurance address, and no other account, exactly the truncated imbalance charge; without one no balance changes. |
| EngineInvariant.FundingAfterTrade | kryon-protocol/contracts/perp-engine/src/lib.rs:797-809 | Settling a position before resizing it keeps every market's funding conserved. |
| EngineTheorems.AveragingRefinesCash | kryon-protocol/contracts/perp-engine/src/lib.rs:378-382 | For every position of every run and any mark: realized PnL plus size times (mark minus averaged entry) equals the plain cash ledger of its adds and reduces, within 2(PRECISION - 1) + (new size - 1) per add and PRECISION - 1 per reduce; longs and shorts. |
| EngineArithmetic.AveragedEntryNear | kryon-protocol/contracts/perp-engine/src/lib.rs:378-382 | The averaged entry never overstates cost and understates it by less than two units plus one price unit per unit of size. |
| EngineArithmetic.RealizedPnlNear | kryon-protocol/contracts/perp-engine/src/lib.rs:775-786 | Realized PnL is the exact price move on the closed size, less than one unit closer to zero. |
| EngineTheorems.MarginNeverDilutes | kryon-protocol/contracts/perp-engine/src/lib.rs:839-844 | Over any run without an increase of the position, however it is reduced, closed or liquidated: margin per unit of size never falls, margin never goes negative or grows, and an isolated position closed in full has released all of it. |
| EngineArithmetic.MarginAfterReduceKept | kryon-protocol/contracts/perp-engine/src/lib.rs:839-844 | One reduction keeps at least the pro-rata margin, less than one unit more, and none after a full close. |
| EngineSafety.InitialMarginFormula | kryon-protocol/contracts/perp-engine/src/lib.rs:312-318 | An opened isolated position locks the initial rate times the notional, both rounded down; a cross position locks nothing. |
| EngineTheorems.FindIndexIsOnly | kryon-protocol/contracts/perp-engine/src/lib.rs:683-695 | The match of the search loop is the only position with that id, whoever owns it. |
| EngineTheorems.CloseClears | kryon-protocol/contracts/perp-engine/src/lib.rs:430-440 | A close removes the position everywhere and takes exactly its size out of its side's open interest. |
| EngineRuns.RunSound | kryon-protocol/contracts/perp-engine/src/lib.rs:283-440 | Every run keeps the invariant: open interest is the sum of the sides and each side the sum of all users' position sizes, markets are valid and keyed by their own id, at most 16 positions per user, all sizes positive, ids unique and below the next id, the vault mirrors lists, indexes and market configurations, funding and cash books conserved, and each account holds exactly what it is entitled to. |
| EngineTheorems.EveryAccountExact | kryon-protocol/contracts/perp-engine/src/lib.rs:797-873 | In every run each user's balance is their external flows, plus the realized PnL and funding of their own positions, plus surplus routed to them, plus fees received less fees paid. |
| EngineRuns.InitiallySound | kryon-protocol/contracts/perp-engine/src/lib.rs:80-103 | The freshly initialized engine satisfies the invariant. |
| EngineSafety.TradeKeeps | kryon-protocol/contracts/perp-engine/src/lib.rs:811-873 | Replacing or removing one settled position, moving its interest and paying its PnL keeps the whole invariant. |
| EngineSafety.OpeningKeeps | kryon-protocol/contracts/perp-engine/src/lib.rs:283-354 | Appending a new position keeps the whole invariant. |
| EngineSafety.IncreaseDoes | kryon-protocol/contracts/perp-engine/src/lib.rs:356-406 | A successful increase settles the found position's funding to its owner, grows exactly it by the amount to the averaged entry price on the same margin, and changes nobody else's balance. |
| EngineSafety.ReduceDoes | kryon-protocol/contracts/perp-engine/src/lib.rs:811-873 | A successful reduction settles the found position's funding, shrinks exactly it by the amount at the same entry, leaves exactly the margin the pro-rata release leaves, and pays its owner, and no other account, exactly the realized PnL. |
| EngineSafety.OpenDoes | kryon-protocol/contracts/perp-engine/src/lib.rs:283-354 | A successful open appends one position of the stated market, side, size, entry price and mode under the next id, at the current funding index, locking the initial margin of its mode, and moves no balance. |
| EngineInvariant.InterestAfterTrade | kryon-protocol/contracts/perp-engine/src/lib.rs:336-342 | Moving total and side interest by the change of one position's size keeps all counters equal to the sums. |
| EngineRuns.ChargeTradeFeeMoves | kryon-protocol/contracts/perp-engine/src/lib.rs:253-281 | A fee is the maker or taker rate times the notional, both rounded down; exactly it leaves the trader's account and reaches the recipient's, and no other balance changes. |
| CallSuccess.FeeSucceedsIff | kryon-protocol/contracts/perp-engine/src/lib.rs:253-281 | A fee goes through if and only if size and price are positive and, unless the rate is zero, the fee fits, payer and recipient can be booked and the payer still covers initial margin; it is the rate of the notional, both rounded down. |
| AccountMargin.HealthFormula | kryon-protocol/crates/risk-engine/src/margin.rs:21-140 | In every reachable state the vault's report is, over the engine's own positions, indexes and rates: collateral worth what balance, price and haircut make it, less locked isolated margin, plus cross PnL with unsettled funding, plus each isolated position's equity counted as no less than zero; initial and maintenance margin are the rates times each notional; free collateral, ratio and PnL follow; and liquidatable is set if and only if an isolated position is below its own maintenance margin or the cross positions together are below theirs. |
| AccountMargin.CollateralIsWorth | kryon-protocol/crates/protocol-core/src/accounting.rs:3-9 | A positive balance at the oracle's price counts less its haircut, within one unit; a debt counts uncut; an asset not listed, empty or switched off counts for nothing. |
| AccountMargin.ValuableIff | kryon-protocol/contracts/perp-vault/src/lib.rs:613-665 | The collateral can be valued if and only if the other assets can and, where the settlement asset counts, it is configured and priced, its haircut is legal and nothing overflows. |
| HealthReports.HealthReportsIff | kryon-protocol/crates/risk-engine/src/margin.rs:21-140 | In every reachable state a report comes out, and covers initial margin, if and only if the collateral can be valued, every position's market is configured, priced and its figures fit, no partial sum overflows, and neither equity nor its ratio to maintenance margin does. |
| HealthReports.RatioMustFit | kryon-protocol/crates/risk-engine/src/margin.rs:88-92 | An account whose equity is 2^127 / 10^18 times its maintenance margin or more cannot be reported on. |
| AccountMargin.TradeIsMargined | kryon-protocol/contracts/perp-engine/src/lib.rs:750-765 | After every trade but a liquidation, that sum over the resulting balance and positions, at the oracle's prices, covers their initial margin. |
| AccountMargin.TradeLeavesCrossSafe | kryon-protocol/crates/risk-engine/src/margin.rs:94-108 | After every trade but a liquidation, an account without isolated positions is not liquidatable. |
| TradeSafety.TradeLiquidatableIff | kryon-protocol/crates/risk-engine/src/margin.rs:80-108 | A trade, liquidations included, leaves its account liquidatable if and only if, with the position as it will be resized or opened and the balance after its funding and realized PnL, some isolated position is short of its own maintenance margin or the rest falls short of what the cross positions need; all over the state before the trade. |
| TradeSuccess.ReduceSucceedsIff | kryon-protocol/contracts/perp-engine/src/lib.rs:811-873 | A reduction or liquidation succeeds if and only if the user has a position of the id, the size is positive and at most its own, the price is positive and inside the band, funding, PnL, margin and counters fit, the vault is not paused and can pay, and the account as it then stands can be reported on and, but for a liquidation, covers initial margin: all in plain arithmetic over the state before. |
| TradeSuccess.CloseSucceedsIff | kryon-protocol/contracts/perp-engine/src/lib.rs:430-440 | A close succeeds if and only if that holds of some position of the id with its whole size. |
| TradeSuccess.OpenSucceedsIff | kryon-protocol/contracts/perp-engine/src/lib.rs:283-354 | An open succeeds if and only if size and price are positive, the price is inside the band, there is room under the market's cap and among the user's positions, ids are left, notional and counters fit, and the account with the new position can be reported on and covers initial margin. |
| TradeSuccess.IncreaseSucceedsIff | kryon-protocol/contracts/perp-engine/src/lib.rs:356-406 | An increase succeeds if and only if the same holds of the position grown to the averaged entry, after its funding is settled. |
| TradeResults.ReduceAnswers | kryon-protocol/contracts/perp-engine/src/lib.rs:865-873 | A reduction answers with the id, what is left, the entry price, the realized PnL, the funding paid, the price and the equity afterwards, each from the state before. |
| TradeResults.IncreaseAnswers | kryon-protocol/contracts/perp-engine/src/lib.rs:396-406 | The same of an increase. |
| TradeResults.OpenAnswers | kryon-protocol/contracts/perp-engine/src/lib.rs:344-354 | The same of an open. |
| CloseWitness.RunCloses | kryon-protocol/contracts/perp-engine/src/lib.rs:430-440 | A run from the initial state whose last call closes an open position. |
| LiquidationWitness.MarginedYetLiquidatable | kryon-protocol/crates/risk-engine/src/margin.rs:80-108 | With an isolated position that is no longer so: a run from the initial state whose last open passes the margin check and leaves its account liquidatable at the same prices. |
| AccountMargin.IsolatedLossIsCapped | kryon-protocol/crates/risk-engine/src/margin.rs:64-78 | Whatever isolated positions lose, they take no more from the account's equity than the margin locked for them. |
| AccountMargin.FeeIsMargined | kryon-protocol/contracts/perp-engine/src/lib.rs:253-281 | A charged fee leaves its payer covering initial margin, measured after the recipient was paid too; a payer who is the recipient as well, provided the oracle's price is positive and the account can be reported on. |
| AccountMargin.BufferSuffices | kryon-protocol/crates/risk-engine/src/margin.rs:22-25 | No reachable account has more positions than the report's fixed buffer holds. |
| VaultHealth.AccountHealthReport | kryon-protocol/contracts/perp-vault/src/lib.rs:350-366 | The vault's report, pass by pass with its errors in order, is the function that AccountMargin.HealthFormula and HealthReports.HealthReportsIff pin down in plain sums. |
| VaultHealth.TallyPositions | kryon-protocol/crates/risk-engine/src/margin.rs:14-57 | The first pass over the positions, into a fixed buffer, gathers what the specification says. |
| VaultHealth.SplitPositions | kryon-protocol/crates/risk-engine/src/margin.rs:64-78 | The second pass separates isolated equity, counted as no less than zero each, from cross PnL. |
| EngineGuards.InterestIsCapped | kryon-protocol/contracts/perp-engine/src/lib.rs:298-302 | After an open or an increase the market's open interest is within its limit. |
| EngineGuards.TradeIsInBand | kryon-protocol/contracts/perp-engine/src/lib.rs:651-668 | No trade, liquidations included, executes outside the band of the position's own market around that market's oracle price. |
| EngineGuards.RawRateNear | kryon-protocol/crates/risk-engine/src/funding.rs:35-40 | Before clamping, the funding rate is the coefficient times the relative imbalance within the two roundings, with the sign of the imbalance. |
| EngineGuards.CrowdedSidePays | kryon-protocol/crates/risk-engine/src/funding.rs:22-51 | The index of the larger side never falls, the rate stays within its maximum, and the move is rate times elapsed time over an hour, rounded toward zero. |
| FixedPoint.TruncDivUnique | kryon-protocol/crates/protocol-core/src/fixed.rs:34-44 | The truncated quotient is the only integer within one divisor of the dividend on the zero side. |
| FixedPoint.TruncDivMonotone | kryon-protocol/crates/protocol-core/src/fixed.rs:34-44 | Truncated division is monotone, across zero too. |
| PerpEngine.FindPositionIndex | kryon-protocol/contracts/perp-engine/src/lib.rs:683-695 | The loop returns the first index holding the id, or PositionNotFound when none does. |
| PerpEngine.Engine.OpenPosition | kryon-protocol/contracts/perp-engine/src/lib.rs:283-354 | The call, step by step over storage and vault, does exactly what the specification says; an error leaves engine and vault as they were; the invariant is kept. |
| PerpEngine.Engine.IncreasePosition | kryon-protocol/contracts/perp-engine/src/lib.rs:356-406 | As above for an increase. |
| PerpEngine.Engine.ReducePosition | kryon-protocol/contracts/perp-engine/src/lib.rs:408-417 | The call, step by step over storage and vault, does exactly what the specification says, whose success TradeSuccess.ReduceSucceedsIff and whose answer TradeResults.ReduceAnswers pin down; initial margin is checked; an error changes nothing; the invariant is kept. |
| PerpEngine.Engine.LiquidateReduce | kryon-protocol/contracts/perp-engine/src/lib.rs:419-428 | The same without the margin check, up to the whole size. |
| PerpEngine.Engine.ClosePosition | kryon-protocol/contracts/perp-engine/src/lib.rs:430-440 | The same for the whole size of the position of that id, whose success TradeSuccess.CloseSucceedsIff pins down. |
| PerpEngine.Engine.UpdateFunding | kryon-protocol/contracts/perp-engine/src/lib.rs:216-251 | As above for a funding update. |
| PerpEngine.Engine.ChargeTradeFee | kryon-protocol/contracts/perp-engine/src/lib.rs:253-281 | As above for a fee. |
| PerpEngine.Engine.SetMarket | kryon-protocol/contracts/perp-engine/src/lib.rs:104-112 | As above for a market configuration. |
| PerpEngine.Engine.SettlePositionFunding | kryon-protocol/contracts/perp-engine/src/lib.rs:797-809 | Pays the accrued funding and moves the position to the current index. |
| PerpEngine.Engine.StoreInterest | kryon-protocol/contracts/perp-engine/src/lib.rs:697-726 | Moves the total and one side by the same amount. |
| PerpEngine.Vault.ApplyPnl | kryon-protocol/contracts/perp-engine/src/lib.rs:597-613 | The vault adds a gain, or subtracts a loss, unless paused. |
| GatewayOrders.NoOverfillIff | kryon-protocol/contracts/perp-order-gateway/src/lib.rs:175-208 | Over every run of settlements, cancels and pruning, no order signed under a nonce is ever filled beyond its size, if and only if no tradable order under it expires more than the grace period after another tradable one of size two or more. |
| GatewayOrders.CancelIsFinalIff | kryon-protocol/contracts/perp-order-gateway/src/lib.rs:154-173 | Cancelling an order that still has room, partly filled or not, ends it in every continuation if and only if the stated expiry understates the real one by no more than the grace period. |
| GatewayOrders.RunStaysDead | kryon-protocol/contracts/perp-order-gateway/src/lib.rs:154-208 | An expired order, or one whose tombstone outlasts it, is filled no further in any continuation. |
| GatewayOrders.ReclaimOnly | kryon-protocol/contracts/perp-order-gateway/src/lib.rs:180-208 | Pruning removes only entries whose grace period is over, and changes no other. |
| GatewayOrders.SettledOne | kryon-protocol/contracts/perp-order-gateway/src/lib.rs:530-573 | An accepted fill is positive, of an unexpired, uncancelled order with room for it, and is added to that order's entry. |
| GatewayOrders.FillIsTakenIff | kryon-protocol/contracts/perp-order-gateway/src/lib.rs:530-573 | The gateway takes a fill if and only if it is positive, between opposite sides of two owners on one market, and each order is alive, has room for it and a limit at or beyond its price. |
| GatewaySettlement.SideMoves | kryon-protocol/contracts/perp-order-gateway/src/lib.rs:575-620 | A settled side moves its owner's exposure by exactly the fill, whether it reduced, flipped, grew or opened a position; nobody else's exposure moves. |
| GatewaySettlement.FillTransfersExposure | kryon-protocol/contracts/perp-order-gateway/src/lib.rs:375-435 | A fill shifts exposure from one owner to the other and leaves every market's longs less shorts unchanged. |
| GatewayBooks.SideSettlesIff | kryon-protocol/contracts/perp-order-gateway/src/lib.rs:575-620 | A side settles if and only if what it meets can be reduced and the rest may be and can be opened; or, meeting nothing, it is not reduce-only and its position can be increased or opened: told by the user's exposure. |
| GatewayBooks.ReduceOnlyReduces | kryon-protocol/contracts/perp-order-gateway/src/lib.rs:599-612 | A reduce-only side settles only against at least as much exposure and takes exactly its size off it. |
| GatewayBooks.FillCharges | kryon-protocol/contracts/perp-order-gateway/src/lib.rs:375-413 | Of a fill the maker pays the maker's rate, the taker the taker's, the recipient gets both, and no other account's fees move. |
| GatewayBooks.SettledFillCharges | kryon-protocol/contracts/perp-order-gateway/src/lib.rs:375-413 | The same of every settlement in every history. |
| TradingBooks.FillExchanges | kryon-protocol/contracts/perp-order-gateway/src/lib.rs:375-435 | A fill is a purchase of its size at its price by one party from the other: what one books the other books with the opposite sign, whether it reduced, flipped, grew or opened, and no other account books anything. |
| TradingBooks.SettledFillKeepsLimits | kryon-protocol/contracts/perp-order-gateway/src/lib.rs:566-571 | In every history a settled fill is such a purchase at or better than the limit each party signed. |
| TradingBooks.HistoryNets | kryon-protocol/contracts/perp-order-gateway/src/lib.rs:375-620 | In every history all sizes and values booked in a market cancel, but for what liquidations took out. |
| TradingBooks.TradingIsZeroSum | kryon-protocol/contracts/perp-engine/src/lib.rs:775-786 | In every history, market and mark, realized and open PnL of all positions ever opened sum to what liquidations took out, within the rounding their adds and reduces allow. |
| GatewayRuns.HistorySound | kryon-protocol/contracts/perp-order-gateway/src/lib.rs:375-620 | In every history of fills, cancels, pruning, liquidations, funding, fees and settings: the engine's invariant holds, no user holds two positions in a market, and long less short open interest is exactly what liquidations took out. |
| GatewayRuns.ExposureIsPosition | kryon-protocol/contracts/perp-order-gateway/src/lib.rs:584-598 | With one position per market the loop's last match is the user's whole exposure there: long, short or none, never both. |
| GatewayRuns.FundingNeedsLiquidation | kryon-protocol/contracts/perp-engine/src/lib.rs:216-251 | As long as liquidations have not left a market out of balance, its funding indexes and rate stay zero in every history. |
| GatewayRuns.HistoryProjects | kryon-protocol/contracts/perp-order-gateway/src/lib.rs:252-264 | As far as orders go, every history is a run of the gateway's ledger, so the ledger's theorems hold with the engine in the loop. |
| GatewaySafety.HistoryIsCross | kryon-protocol/contracts/perp-order-gateway/src/lib.rs:575-620 | In every history no user holds an isolated position. |
| GatewaySafety.SettledFillIsSafe | kryon-protocol/contracts/perp-order-gateway/src/lib.rs:375-435 | In every history, after a settled fill with both fees charged neither party is liquidatable, each under its own deposits and the prices its side was settled at; for a maker who is the fee recipient, whenever the account can be reported on and the oracle's price is positive. |
| GatewaySafety.SideWithFeeIsSafe | kryon-protocol/contracts/perp-order-gateway/src/lib.rs:375-392 | One side and its fee leave their owner not liquidatable and no other account but the fee recipient's changed. |
| OrderGateway.Gateway.SettleFill | kryon-protocol/contracts/perp-order-gateway/src/lib.rs:252-264 | A settlement succeeds exactly when the gateway takes the fill, the engine settles both sides and the totals fit; it happens completely in engine and gateway or leaves both unchanged; its receipt states the parties, size, price and new totals, never above either order's size. |
| OrderGateway.Gateway.SettleUserSide | kryon-protocol/contracts/perp-order-gateway/src/lib.rs:575-620 | The loop and the engine calls for one side do what the specification says. |
| OrderGateway.Gateway.ExecuteFill | kryon-protocol/contracts/perp-order-gateway/src/lib.rs:375-435 | Maker side, maker fee, taker side, taker fee, in that order; each side's fee, price and success are pinned by GatewayBooks.FillCharges, TradingBooks.FillExchanges and GatewayBooks.SideSettlesIff. |
| OrderGateway.Gateway.FindOnMarket | kryon-protocol/contracts/perp-order-gateway/src/lib.rs:584-598 | The loop finds the last position on each side of the market. |
| OrderGateway.Gateway.CancelOrder | kryon-protocol/contracts/perp-order-gateway/src/lib.rs:158-173 | Writes the tombstone and nothing else. |
| OrderGateway.Gateway.ReclaimOrderState | kryon-protocol/contracts/perp-order-gateway/src/lib.rs:180-208 | Prunes exactly the entries past their grace period and returns how many were removed. |
| MatchSettlement.GatewayTakesLimitFills | kryon-protocol/contracts/perp-order-gateway/src/lib.rs:530-573 | For every fill of a matching round, however the engine treated the earlier ones: if the chain had filled no more than the database says, the gateway accepts it if and only if the taker is not a market order and both orders are unexpired and uncancelled. |
| MatchSettlement.ChainStaysBehind | client/scripts/matcher-service.ts:504-560 | Submitting the round's fills in order keeps the chain's filled amounts at or below the database's plus the round's. |
| MarketOrders.PairIsMatched | client/scripts/matcher-service.ts:159-180 | A limit order and an open market order against it, of another owner: whatever sound and exhaustive fills come back, the first is between the two. |
| MarketOrders.MarketOrdersStayUnfilled | client/scripts/matcher-service.ts:519-560 | If every fill that the gateway refuses comes back unsettled, no market order is filled further by a round than before it, however far the round got. |
| Matcher.MatchAll | client/scripts/matcher-service.ts:138-210 | Every fill is positive, between opposite sides and owners, at the maker's limit, within both limits and as large as both allow; price-time priority and queue order hold up to self-trade; every fill is in its turn, market sells before market buys, both before any two limit orders meet, and better bids before others; per-order totals fit the remaining size; the book is left uncrossed; an open market order has exhausted what it could take; at most N - 1 fills. |
| Matcher.TakeBook | client/scripts/matcher-service.ts:159-180 | One market order against the resting side, best first. |
| Matcher.TakeAsks | client/scripts/matcher-service.ts:184-207 | One bid against the asks, with the early break justified by their order. |
| Matcher.Record | client/scripts/matcher-service.ts:143-157 | Recording a fill keeps the pending map equal to what the fills give each order. |
| Matching.BookHolds | client/scripts/matcher-service.ts:148-157 | A side of the book is sorted by price, then time, and holds exactly that side's orders. |
| Matching.FillClosesOne | client/scripts/matcher-service.ts:172-204 | Each fill closes at least one order and needs two open ones. |
| PriceBand.FillsAreInBand | client/scripts/matcher-service.ts:506-528 | Every fill from in-band resting orders passes the later band check. |
| PriceBand.EngineAcceptsInBand | client/scripts/matcher-service.ts:461-464 | A price in the matcher's band passes the engine's check at the same oracle price when the market's width is no smaller. |
| PriceBand.EngineBandExact | kryon-protocol/contracts/perp-engine/src/lib.rs:651-668 | The engine accepts exactly the prices within its width of the oracle, ends included. |
| PriceBand.InBand | client/scripts/matcher-service.ts:511-517 | The filter keeps exactly the in-band orders, and none without an oracle price. |
| LedgerRuns.RunSound | client/scripts/matcher-service.ts:495-563 | Over any interleaving of the matcher's steps with intake, cancelling, signing, reconciling and expiry, the database stays sound. |
| LedgerRuns.LedgerBalances | client/scripts/matcher-service.ts:224-322 | In every such run each order's filled size is the sum of the live fill rows naming it, between zero and its size, and every queued job has exactly one row. |
| LedgerRuns.OneRow | client/scripts/settlement-reconciler.ts:232-272 | In every sound database, so in every such run, a queued or submitted job has exactly one live fill row under its pending hash. |
| LedgerRuns.NeverHalfApplied | client/scripts/matcher-service.ts:253-275 | Once the fill insert has gone through, neither size guard refuses. |
| LedgerRuns.MatchesFit | client/scripts/matcher-service.ts:142-146 | What the matcher emits for loaded orders leaves room for all of it. |
| LedgerSafety.ClampNeverBinds | client/scripts/matcher-service.ts:301-321 | A live fill row is part of what both its orders have filled, so the clamp at zero never takes effect. |
| LedgerSafety.PersistBalancedIff | client/scripts/matcher-service.ts:224-289 | Persisting a fill keeps the books balanced if and only if it is a duplicate or both guards admit it. |
| LedgerSafety.PersistDoes | client/scripts/matcher-service.ts:224-289 | A fill that is new is stored once with its size and price and adds its size to exactly its two orders; a duplicate changes nothing. |
| LedgerSafety.TakeBackSound | client/scripts/settlement-reconciler.ts:246-266 | Taking a live row back removes that row alone and its size from exactly the two orders it names, and keeps the books. |
| LedgerSafety.ConfirmSound | client/scripts/settlement-reconciler.ts:88-107 | Confirming a job and renaming its row keeps the books and is harmless to a matcher in mid-round. |
| LedgerSafety.ExpireSound | client/scripts/settlement-reconciler.ts:232-279 | Expiring a stale job fails it and takes back exactly its fill; a job that is not stale is left alone; the books are kept. |
| LedgerSafety.SettlementSound | client/scripts/matcher-service.ts:329-432 | Every outcome of settlement keeps the books and fills nothing more. |
| LedgerSafety.SignSound | client/app/api/settlements/[id]/sign/route.ts:87-174 | Merging a signature, claiming and submitting, or being cut off between claim and submission, keeps the books. |
| LedgerSafety.NotFoundIsNeverResubmitted | client/scripts/settlement-reconciler.ts:118-156 | A submitted job that has a hash, whose transaction the network forgot, is left exactly as it is, whatever a resubmission would have brought: the claim refuses it. |
| LedgerFindings.ForgottenJobIsReachable | client/scripts/settlement-reconciler.ts:118-156 | A run reaches such a job, signed by both, submitted, with its hash, and no answer about resubmission changes anything. |
| LedgerFindings.SettlementPursuesIff | client/scripts/matcher-service.ts:408-432 | After a new fill's settlement, the fill, if it stays, was settled just then or has an active job, if and only if it was not queued over a job that its hash already had. |
| LedgerFindings.QueueingOverStrands | client/scripts/matcher-service.ts:416-428 | Queueing a fill over an existing job strands it: its row is live, its job failed or confirmed. |
| LedgerFindings.StrandedForever | client/scripts/settlement-reconciler.ts:73-279 | From a stranded fill, whatever matcher, owners, sign route and reconciler do, the row stands and the job stays over. |
| LedgerWitness.ConfirmedJobStrands | client/scripts/matcher-service.ts:416-428 | A run from the empty database after which two orders are filled ten of ten with five settled on chain, the other five standing for good behind the job that confirmed the first. |
| LedgerWitness.FirstRoundMatches | client/scripts/matcher-service.ts:184-207 | What that run loads first is a sound, prioritised and uncrossing match of its orders. |
| LedgerFindings.SignedFillBlocksRepeats | client/scripts/matcher-service.ts:224-252 | After a fill is settled with stored signatures, in every continuation any fill of the same two orders and size is taken for a duplicate and changes nothing. |
| LedgerFindings.StrandedFillIsReachable | client/scripts/matcher-service.ts:408-432 | A run reaches a live fill whose job has failed, and in every continuation the row stands and the job stays over. |
| LedgerSafety.EnvSound | client/scripts/settlement-reconciler.ts:73-279 | Every step outside the matcher keeps the books and leaves room for a matcher in mid-round. |
| JobHistory.StatusWasReported | client/scripts/settlement-reconciler.ts:73-228 | Over every run from the empty database: a confirmed job's transaction was reported to have succeeded for it, a failed job was reported failed or expired, and a submitted job's transaction is one sent for it. |
| JobHistory.SuccessIsRecorded | client/scripts/settlement-reconciler.ts:88-107 | A reported success confirms the job under that transaction, and one from the network moves the fill's row to the transaction's hash whenever that key is free. |
| JobHistory.FailureIsRecorded | client/scripts/settlement-reconciler.ts:112-120 | A reported failure fails the job. |
| JobHistory.SubmissionIsRecorded | client/app/api/settlements/[id]/sign/route.ts:112-175 | A job sent to the network is submitted under that transaction. |
| JobHistory.SubmittedIsSigned | client/app/api/settlements/[id]/sign/route.ts:105-120 | In every run a submitted job carries both signatures. |
| JobHistory.SignatureWasGiven | client/app/api/settlements/[id]/sign/route.ts:87-105 | Over every run each signature on a job was given by its owner. |
| MatcherService.Database.PersistFill | client/scripts/matcher-service.ts:224-289 | The statements do what the specification says, half-way stops included. |
| MatcherService.Database.RollbackFill | client/scripts/matcher-service.ts:301-321 | The delete and the two clamped decrements. |
| MatcherService.Database.ExecuteSettlement | client/scripts/matcher-service.ts:329-432 | Each settlement outcome's job row, or the rollback. |
| MatcherService.Database.ReconcileSubmitted | client/scripts/settlement-reconciler.ts:73-122 | Confirm and rename, fail, or resubmit, by what the network answers; that success confirms and failure fails is JobHistory.SuccessIsRecorded and JobHistory.FailureIsRecorded. |
| MatcherService.Database.ResubmitJob | client/scripts/settlement-reconciler.ts:130-228 | The claim and the outcome of the resubmission. |
| MatcherService.Database.ExpireStaleQueued | client/scripts/settlement-reconciler.ts:232-272 | Roll back and fail a stale job lacking a signature. |
| MatcherService.Database.Tick | client/scripts/matcher-service.ts:495-563 | One round on a market matches as MatchAll does, fully and in turn, processes every fill as specified and leaves the database sound, with any mix of poisoned, duplicate, settled and rolled-back fills. |
| MatcherService.ProcessFillsSound | client/scripts/matcher-service.ts:519-560 | Processing any number of a round's fills keeps the books and room for the rest. |
| MatcherService.PoisonIsCancelled | client/scripts/matcher-service.ts:526-537 | Processing a fill cancels exactly those of its two orders whose signature does not verify, and then changes nothing else; otherwise it cancels nothing. |
| OrderMessage.SignedMessageIsUnique | client/lib/market/signing-message.ts:76-93 | Two orders have equal settlement messages if and only if domain, public key and every term agree, whatever characters the domain holds. |
| OrderMessage.SettlementMessageDecodes | client/lib/market/signing-message.ts:76-93 | The message can be taken apart from the right for any domain. |
| OrderMessage.CanonicalMessage | kryon-protocol/contracts/perp-order-gateway/src/lib.rs:448-481 | The contract, appending piece by piece from fixed buffers, rebuilds exactly the bytes of the client's message. |
| OrderMessage.OrderSigningMessageIsUnique | client/lib/market/signing-message.ts:29-52 | The older key-value message also determines the owner and every term. |
| OrderMessage.PlaceIsNeverCancel | client/lib/market/signing-message.ts:95-103 | No request to place an order has the message of a request to cancel one. |
| OrderText.AppendDecimal | kryon-protocol/contracts/perp-order-gateway/src/lib.rs:504-518 | The backwards digit loop over forty bytes writes the decimal form of any 128-bit number. |
| OrderText.AppendSigned | kryon-protocol/contracts/perp-order-gateway/src/lib.rs:521-528 | The same with a sign. |
| OrderText.AppendHex | kryon-protocol/contracts/perp-order-gateway/src/lib.rs:491-501 | The loop over thirty-two bytes writes their lower-case hex form. |
| OrderText.ToHex | client/lib/market/signing-message.ts:54-58 | The client's loop writes the same hex form. |
| OrderText.HexInjective | client/lib/market/signing-message.ts:54-58 | Different keys have different hex forms. |
| OrderText.ParseShow | client/lib/validation.ts:34-43 | Reading back a printed integer gives the integer. |
| OrderText.JoinInjective | client/lib/market/signing-message.ts:81-92 | Joined fields determine the fields when only the first may hold the separator. |
| OrderIntake.ValidateOrderIntent | client/lib/validation.ts:45-99 | An accepted intent fits the contract's integer types, has a positive size and an expiry in the permitted window, and carries a signature that verifies over its canonical message. |
| OrderIntake.IntentIsValidIff | client/lib/validation.ts:45-99 | An intent is valid for an owner and terms if and only if it posts each of them under its field, they are within bounds, market and expiry window, and the signature verifies over their message. |
| OrderIntake.HonestIntentIsValid | client/lib/validation.ts:45-99 | A client that prints acceptable terms and signs their message is never turned away. |
| OrderIntake.AcceptedIsNeverPoison | client/scripts/matcher-service.ts:471-484 | Whatever is posted, filled or cancelled, every stored row loads as an order whose rebuilt message verifies, so the matcher never cancels an accepted order as poison. |
| OrderIntake.RecordLoads | client/scripts/matcher-service.ts:66-81 | Loading a fresh row gives back the verified terms, owner, signature and time. |
| OrderIntake.FirstOrderStays | client/app/api/orders/route.ts:52-75 | A row's terms and signature never change over any run: resubmitting a nonce leaves the first order. |
| OrderIntake.AcceptedIsStored | client/app/api/orders/route.ts:40-85 | Accepted means validated with nonce and expiry inside the signed 64-bit columns; the row exists then, with the request's terms unless an older row kept the key; otherwise nothing is stored. |
| OrderIntake.LargeNonceIsNotStored | client/app/api/orders/route.ts:40-85 | An intent with nonce 2^64 - 1 validates and verifies, stores nothing and is answered with a server error. |
| OrderIntake.RowIdInjective | client/app/api/orders/route.ts:60-61 | Row keys are equal only for equal owner and nonce. |
| WasmCodec.UlebRoundTrip | kryon-protocol/infra/deploy/optimize-wasm.py:57-77 | Decoding at the end of any prefix inverts encoding, with any suffix. |
| WasmCodec.ReadUleb | kryon-protocol/infra/deploy/optimize-wasm.py:57-65 | The accumulating loop decodes as specified, running off the end included. |
| WasmCodec.WriteUleb | kryon-protocol/infra/deploy/optimize-wasm.py:68-77 | The emitting loop encodes as specified. |
| WasmCodec.SplitSections | kryon-protocol/infra/deploy/optimize-wasm.py:80-96 | The loop splits as specified, cut-short bodies and unreadable names included. |
| WasmCodec.JoinSections | kryon-protocol/infra/deploy/optimize-wasm.py:99-105 | The loop frames every section. |
| WasmCodec.SplitInvertsJoin | kryon-protocol/infra/deploy/optimize-wasm.py:80-105 | Splitting inverts joining if and only if every section is well formed. |
| WasmCodec.JoinKeepsSections | kryon-protocol/infra/deploy/optimize-wasm.py:80-105 | For every accepted module, joining its sections and splitting again gives the same sections, even from padded sizes or a module cut short. |
| WasmCodec.Optimize | kryon-protocol/infra/deploy/optimize-wasm.py:149-159 | The filter loop drops, rewrites and keeps sections as specified. |
| WasmCodec.OptimizedSplits | kryon-protocol/infra/deploy/optimize-wasm.py:149-159 | The optimized module splits into exactly the sections kept. |
| WasmCodec.CodeIsKept | kryon-protocol/infra/deploy/optimize-wasm.py:149-159 | Every section but the spec and the metadata is kept byte for byte and in order. |
| WasmCodec.StrippedHasNoSpec | kryon-protocol/infra/deploy/optimize-wasm.py:149-152 | Stripping leaves no spec and no metadata, and nothing else is lost. |
| WasmCodec.DocsAreStripped | kryon-protocol/infra/deploy/optimize-wasm.py:153-157 | Otherwise every section keeps its place, the spec holding its stripped payload behind a one-byte name length and all others unchanged. |
| WasmCodec.SpecPayloadExact | kryon-protocol/infra/deploy/optimize-wasm.py:153-156 | The payload taken for the spec is what follows the name if and only if the name's length is encoded in one byte. |
| WasmCodec.PaddedNameShiftsPayload | kryon-protocol/infra/deploy/optimize-wasm.py:153-156 | A well-formed spec section with a padded name length, whose payload is taken one byte early. |
| SpecDocs.BlankDocsExact | kryon-protocol/infra/deploy/optimize-wasm.py:108-116 | Two values blank to the same result if and only if they differ in nothing but the text of doc fields. |
| SpecDocs.BlankDocsClears | kryon-protocol/infra/deploy/optimize-wasm.py:108-116 | Blanking leaves no documentation text and changes nothing else. |
| SpecDocs.BlankedIsFixed | kryon-protocol/infra/deploy/optimize-wasm.py:108-116 | Blanking twice is blanking once. |
| OracleMedian.MedianWithinHonest | client/scripts/oracle-keeper.ts:139-160 | With fewer than half of the responders faulty, the median lies between the lowest and highest honest price, for odd and even counts. |
| OracleMedian.RobustIffMinority | client/scripts/oracle-keeper.ts:139-160 | For every number of responders, fewer than half faulty is exactly what the median tolerates. |
| OracleMedian.MedianHalves | client/scripts/oracle-keeper.ts:139-142 | The median is one of the prices when their number is odd and otherwise exactly half way between the two that leave half of them on either side. |
| OracleMedian.AggregateIs | client/scripts/oracle-keeper.ts:158-171 | An aggregate is the median at full precision over all that answered, its confidence the larger of half the spread and a thousandth of the price. |
| OracleMedian.PublishedNearEverySource | client/scripts/oracle-keeper.ts:152-171 | A published price is within the permitted deviation, plus half a unit, of every price a source reported. |
| OracleMedian.AggregatesWhenAgreed | client/scripts/oracle-keeper.ts:144-156 | A price comes out if and only if enough sources answered and no reported price exceeds another by more than the permitted deviation. |
| OracleMedian.ConfidenceCovers | client/scripts/oracle-keeper.ts:161-171 | The confidence is at least a thousandth of the price and, up to rounding, half of any observed difference; enough sources answered. |
| OracleMedian.SortKeeps | client/scripts/oracle-keeper.ts:139-142 | The sorted prices ascend and are the same multiset. |
| Sorting.SortRanks | client/scripts/matcher-service.ts:148-157 | The stable sort behind book and median puts nothing before what precedes it and keeps the multiset, for every order that is transitive. |
| OracleMedian.SkippedWhileFresh | client/scripts/oracle-keeper.ts:200-206 | A price goes unpublished if and only if the last one is younger than the heartbeat and within the deviation. |
| OracleMedian.Keeper.PublishMarket | client/scripts/oracle-keeper.ts:260-277 | Only a confirmed write is remembered, and nothing is published without an aggregate that is due. |
| RateLimiter.PruningIsInvisible | client/lib/rate-limit.ts:35-51 | With a clock that never runs backwards, pruning changes no answer. |
| RateLimiter.WindowBound | client/lib/rate-limit.ts:35-51 | Any interval of one window's length admits at most twice the limit less one of a key's calls. |
| RateLimiter.WindowBoundReached | client/lib/rate-limit.ts:35-51 | For every limit some run admits exactly that many. |
| RateLimiter.Limiter.Allow | client/lib/rate-limit.ts:35-51 | The pruning loop and the counting do what the specification says. |
| LiquidationPrice.CushionIsHeadroom | client/lib/math.ts:11-33 | At every mark, margin at the rate 1/leverage plus PnL less maintenance margin equals size times the distance to the liquidation price, within one price unit per unit of size and one unit of PnL; longs and shorts. |
| LiquidationPrice.LongAndShortCancel | client/lib/math.ts:72-81 | Long and short PnL of the same size are exact negatives. |

## Left out

- Authorization: `require_auth`, admin, operator, guardian and pause checks, and unset addresses; a refused call changes nothing.
- Signature arithmetic: verification is a predicate over owner, message and signature, and the hash of a pending fill is taken as injective.
- Address encoding: decoding an address to its key is a function given from outside; the contract's address type is the same text.
- The oracle adapter's freshness checks: its answers, prices or refusals, are an input of each call.
- Collateral other than the settlement asset: its value after haircut, which assets a user ever deposited, and the settlement asset's collateral configuration are inputs of each call; the other assets are summed before the settlement asset.
- The vault's deposits, withdrawals and bad-debt steps: one step that moves a settlement balance by any amount.
- `set_market_config` called on the vault directly: the vault's configurations come from the engine's `set_market`.
- The liquidation contract's eligibility, reward and bad-debt steps: a liquidation is an engine call with any arguments.
- `settle_fill` with Soroban auth entries: it differs from the signed path only in authorization.
- Storage lifetimes (TTL extension and archival) and the `perp-insurance`, governance and risk contracts.
- SQL and network transport: each routine is one atomic step, and what the network answers is an input; transport errors inside a routine are not modelled.
- Market.lastPrice and volume, timestamps other than an order's rank, and the network column.
- The loading queries: the orders they return are an input, required to match the rows and to be distinct.
- Rollback of FAILED jobs: a failed job keeps its fill row, as in the reconciler.
- Order of equally ranked orders: the sort is stable here, and no theorem depends on it.
- Floating point: prices, leverage and rates of the keeper and the client are reals, rounded where the source rounds.
- JavaScript number conversion of `market_id`, and how numbers print: functions given from outside.
- UTF-8 decoding of section names and the external re-encoding of spec entries: functions given from outside.
- Bitwise or in the LEB128 loop: written as an addition, the bits being disjoint.
- MatchSettlement.GatewayTakesLimitFills: assumes the chain has filled no more of each order than the database says; agreement of the two in general depends on network timeouts.
- EngineTheorems.FundingNetsToZero: assumes the first call sets the insurance address; the exact effect of having none is EngineTheorems.UpdateFundingLoss.
- GatewaySafety.SettledFillIsSafe: is about prices that do not change while a side is settled, and about a maker who is the fee recipient only as far as the report on the larger balance does not overflow.
- LiquidationPrice.CushionIsHeadroom: says nothing where the formula returns zero or less, which the client shows as no liquidation price.
- `calcMaxPositionSize`, `calcMarginRatio`, the distributed rate limiter, the keeper's activity checks and its USDC peg halt: one formula or one branch each.
- All pages, charts, stores, deployment and seeding scripts.
