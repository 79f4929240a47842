/**
 The engine and the vault as objects whose calls read and write storage step by
 step. Each call is shown to do exactly what EngineSpec says, and an error to
 leave no trace.
 */
module PerpEngine {
  import opened Outcomes
  import opened FixedPoint
  import opened EngineState
  import opened Accounting
  import opened VaultHealth
  import Spec = EngineSpec
  import opened EngineInvariant
  import EngineRuns

  class Vault {
    var positions: map<Address, seq<Position>>
    var fundingLong: map<nat, int>
    var fundingShort: map<nat, int>
    var markets: map<nat, MarketConfig>
    var balances: map<Address, int>
    var paused: bool

    function View(): VaultState
      reads this
    {
      VaultState(positions, fundingLong, fundingShort, markets, balances, paused)
    }

    constructor ()
      ensures View() == VaultState(map[], map[], map[], map[], map[], false)
    {
      positions, fundingLong, fundingShort, markets, balances, paused := map[], map[], map[], map[], map[], false;
    }

    method ApplyPnl(user: Address, pnl: int) returns (r: Result<int>)
      modifies this`balances
      ensures var spec := Spec.ApplyPnl(old(View()), user, pnl);
        if spec.Ok? then View() == spec.value && r == Ok(balances[user])
        else r == Err(spec.error) && View() == old(View())
    {
      if paused {
        return Err(Unauthorized);
      }
      var next;
      if pnl >= 0 {
        next :- CheckedAdd(Balance(balances, user), pnl);
      } else {
        var amount :- CheckedSub(0, pnl);
        next :- CheckedSub(Balance(balances, user), amount);
      }
      balances := balances[user := next];
      r := Ok(next);
    }

    method SyncPositions(user: Address, list: seq<Position>) returns (r: Result<()>)
      modifies this`positions
      ensures var spec := Spec.SyncPositions(old(View()), user, list);
        if spec.Ok? then View() == spec.value && r == Ok(()) else r == Err(spec.error) && View() == old(View())
    {
      for i := 0 to |list|
        invariant forall k | 0 <= k < i :: list[k].owner == user
      {
        if list[i].owner != user {
          return Err(Unauthorized);
        }
      }
      positions := positions[user := list];
      r := Ok(());
    }

    method SetFundingIndexes(m: nat, longIndex: int, shortIndex: int)
      modifies this`fundingLong, this`fundingShort
      ensures View() == old(View()).(fundingLong := old(fundingLong)[m := longIndex],
                                     fundingShort := old(fundingShort)[m := shortIndex])
    {
      fundingLong := fundingLong[m := longIndex];
      fundingShort := fundingShort[m := shortIndex];
    }

    method SetMarketConfig(config: MarketConfig) returns (r: Result<()>)
      modifies this`markets
      ensures var spec := Spec.SetVaultMarket(old(View()), config);
        if spec.Ok? then View() == spec.value && r == Ok(()) else r == Err(spec.error) && View() == old(View())
    {
      if !Spec.VaultAcceptsMarket(config) {
        return Err(InvalidConfig);
      }
      markets := markets[config.marketId := config];
      r := Ok(());
    }

    method AccountHealth(e: CallEnv, user: Address) returns (r: Result<AccountHealth>)
      ensures r == Health(View(), e, user)
    {
      r := AccountHealthReport(View(), e, user);
    }

    method Restore(saved: VaultState)
      modifies this
      ensures View() == saved
    {
      positions, fundingLong, fundingShort := saved.positions, saved.fundingLong, saved.fundingShort;
      markets, balances, paused := saved.markets, saved.balances, saved.paused;
    }
  }

  /** Linear search for the position's index. */
  method FindPositionIndex(list: seq<Position>, id: nat) returns (r: Result<nat>)
    ensures r == Spec.FindIndex(list, id)
  {
    for i := 0 to |list|
      invariant forall k | 0 <= k < i :: list[k].id != id
    {
      if list[i].id == id {
        return Ok(i);
      }
    }
    r := Err(PositionNotFound);
  }

  class Engine {
    const vault: Vault
    var markets: map<nat, EngineMarketConfig>
    var feeConfigs: map<nat, FeeConfig>
    var fundingConfigs: map<nat, FundingConfig>
    var fundingStates: map<nat, FundingState>
    var positions: map<Address, seq<Position>>
    var openInterest: map<nat, int>
    var longOpenInterest: map<nat, int>
    var shortOpenInterest: map<nat, int>
    var nextPositionId: nat
    var insurance: Option<Address>
    var feeRecipient: Address
    ghost var books: Books

    function Store(): Storage
      reads this
    {
      Storage(markets, feeConfigs, fundingConfigs, fundingStates, positions, openInterest, longOpenInterest,
              shortOpenInterest, nextPositionId, insurance, feeRecipient)
    }

    ghost function View(): State
      reads this, vault
    {
      State(Store(), vault.View(), books)
    }

    constructor Initialize(admin: Address)
      ensures View() == InitialState(admin)
      ensures fresh(vault)
    {
      vault := new Vault();
      markets, feeConfigs, fundingConfigs, fundingStates, positions := map[], map[], map[], map[], map[];
      openInterest, longOpenInterest, shortOpenInterest := map[], map[], map[];
      nextPositionId, insurance, feeRecipient := 1, None, admin;
      books := Books(map[], map[], map[], map[], map[]);
    }

    method RestoreTables(saved: Storage)
      modifies this`markets, this`feeConfigs, this`fundingConfigs, this`fundingStates, this`positions
      ensures Store() == saved.(openInterest := openInterest, longOpenInterest := longOpenInterest,
                                shortOpenInterest := shortOpenInterest,
                                nextPositionId := nextPositionId, insurance := insurance, feeRecipient := feeRecipient)
    {
      markets := saved.markets;
      feeConfigs := saved.feeConfigs;
      fundingConfigs := saved.fundingConfigs;
      fundingStates := saved.fundingStates;
      positions := saved.positions;
    }

    method RestoreStore(saved: Storage)
      modifies this
      ensures Store() == saved && books == old(books)
    {
      RestoreTables(saved);
      openInterest := saved.openInterest;
      longOpenInterest := saved.longOpenInterest;
      shortOpenInterest := saved.shortOpenInterest;
      nextPositionId := saved.nextPositionId;
      insurance := saved.insurance;
      feeRecipient := saved.feeRecipient;
    }

    /** The host's rollback of a failed invocation. */
    method RollBack(saved: Storage, savedVault: VaultState, ghost savedBooks: Books)
      modifies this, vault
      ensures View() == State(saved, savedVault, savedBooks)
    {
      RestoreStore(saved);
      vault.Restore(savedVault);
      books := savedBooks;
    }

    method SettlePositionFunding(user: Address, p: Position) returns (r: Result<(Position, int)>)
      modifies this`books, vault`balances
      ensures var spec := Spec.SettleFunding(old(View()), user, p);
        if spec.Ok? then View() == spec.value.0 && r == Ok((spec.value.1, spec.value.2)) else r == Err(spec.error)
    {
      var index := FundingOf(fundingStates, p.marketId, 0).Index(p.isLong);
      var pnl :- FundingPnl(p, index);
      if pnl != 0 {
        var _ :- vault.ApplyPnl(user, pnl);
      }
      books := Spec.SettleFunding(old(View()), user, p).value.0.books;
      r := Ok((p.(lastFundingIndex := index), pnl));
    }

    method StoreInterest(m: nat, isLong: bool, delta: int) returns (r: Result<()>)
      modifies this`openInterest, this`longOpenInterest, this`shortOpenInterest
      ensures var spec := Spec.MoveInterest(old(Store()), m, isLong, delta);
        if spec.Ok? then Store() == spec.value && r == Ok(()) else r == Err(spec.error)
    {
      var total :- CheckedAdd(Lookup(openInterest, m), delta);
      openInterest := openInterest[m := total];
      if isLong {
        var side :- CheckedAdd(Lookup(longOpenInterest, m), delta);
        longOpenInterest := longOpenInterest[m := side];
      } else {
        var side :- CheckedAdd(Lookup(shortOpenInterest, m), delta);
        shortOpenInterest := shortOpenInterest[m := side];
      }
      r := Ok(());
    }

    /** Stores the list and the counters, realizes PnL if there is any to realize, and tells the vault. */
    method CommitTrade(user: Address, list: seq<Position>, m: nat, isLong: bool, delta: int, realized: Option<int>,
                       ghost trade: Spec.Trade)
      returns (r: Result<()>)
      requires trade.settled == View() && trade.list == list && trade.after.isLong == isLong
      requires trade.interestIn == m && trade.sizeMove == delta && trade.realized == realized
      modifies this`positions, this`openInterest, this`longOpenInterest, this`shortOpenInterest, this`books,
        vault`balances, vault`positions
      ensures var spec := Spec.Commit(trade, user);
        if spec.Ok? then View() == spec.value && r == Ok(()) else r == Err(spec.error)
    {
      hide Spec.ApplyPnl, Spec.SyncPositions;
      positions := positions[user := list];
      var _ :- StoreInterest(m, isLong, delta);
      if realized.Some? {
        var _ :- vault.ApplyPnl(user, realized.value);
      }
      var _ :- vault.SyncPositions(user, list);
      books := books.(cash := books.cash[trade.after.id := trade.book]);
      r := Ok(());
    }

    method OpenPositionBody(e: CallEnv, user: Address, m: nat, size: int, isLong: bool, price: int, mode: MarginMode)
      returns (r: Result<TradeResult>)
      modifies this, vault
      ensures var spec := Spec.Open(old(View()), e, user, m, size, isLong, price, mode);
        if spec.Ok? then View() == spec.value.0 && r == Ok(spec.value.1) else r == Err(spec.error)
    {
      hide Health, Spec.Commit, Spec.ValidateExecutionPrice, Spec.LoadMarket, Spec.RequireInitialMargin, MulDiv,
        CheckedAdd;
      if size <= 0 || price <= 0 {
        return Err(InvalidAmount);
      }
      var market :- Spec.LoadMarket(markets, m);
      var _ :- Spec.ValidateExecutionPrice(market, e.Price(market.market.marketId), price);
      var nextOi :- CheckedAdd(Lookup(openInterest, m), size);
      if nextOi > market.market.maxOpenInterest {
        return Err(OpenInterestExceeded);
      }
      var list := PositionsOf(positions, user);
      if |list| >= MAX_POSITIONS_PER_USER {
        return Err(TooManyPositions);
      }
      var funding := FundingOf(fundingStates, m, e.now);
      var notional :- MulPrecision(size, price);
      var margin := 0;
      if mode == Isolated {
        margin :- ApplyBps(notional, market.market.initialMarginBps);
      }
      if nextPositionId >= U64_MAX {
        return Err(MathOverflow);
      }
      var id := nextPositionId;
      nextPositionId := id + 1;
      var position := Position(id, user, m, size, price, margin, isLong, funding.Index(isLong), mode);
      list := list + [position];
      ghost var trade := Spec.OpenTrade(old(View()), e, user, m, size, isLong, price, mode).value;
      var _ :- CommitTrade(user, list, m, isLong, size, None, trade);
      var health := vault.AccountHealth(e, user);
      var equity :- Spec.RequireInitialMargin(health);
      r := Ok(TradeResult(id, size, price, 0, 0, price, equity));
    }

    method IncreasePositionBody(e: CallEnv, user: Address, id: nat, sizeDelta: int, price: int)
      returns (r: Result<TradeResult>)
      modifies this, vault
      ensures var spec := Spec.Increase(old(View()), e, user, id, sizeDelta, price);
        if spec.Ok? then View() == spec.value.0 && r == Ok(spec.value.1) else r == Err(spec.error)
    {
      hide Health, Spec.Commit, Spec.ValidateExecutionPrice, Spec.LoadMarket, Spec.RequireInitialMargin,
        Spec.SettleFunding, Spec.AveragedEntry, Spec.FindIndex;
      if sizeDelta <= 0 || price <= 0 {
        return Err(InvalidAmount);
      }
      var list := PositionsOf(positions, user);
      var index :- FindPositionIndex(list, id);
      var position := list[index];
      var market :- Spec.LoadMarket(markets, position.marketId);
      var _ :- Spec.ValidateExecutionPrice(market, e.Price(market.market.marketId), price);
      var settled :- SettlePositionFunding(user, position);
      position := settled.0;
      var nextOi :- CheckedAdd(Lookup(openInterest, position.marketId), sizeDelta);
      if nextOi > market.market.maxOpenInterest {
        return Err(OpenInterestExceeded);
      }
      var entry :- Spec.AveragedEntry(position, sizeDelta, price);
      position := position.(size := position.size + sizeDelta, entryPrice := entry);
      list := list[index := position];
      ghost var trade := Spec.IncreaseTrade(old(View()), e, user, id, sizeDelta, price).value;
      var _ :- CommitTrade(user, list, position.marketId, position.isLong, sizeDelta, None, trade);
      var health := vault.AccountHealth(e, user);
      var equity :- Spec.RequireInitialMargin(health);
      r := Ok(TradeResult(id, position.size, entry, 0, settled.1, price, equity));
    }

    /** The margin left when isolated margin is released pro rata. */
    method ReleaseMargin(p: Position, sizeDelta: int) returns (r: Result<int>)
      ensures r == Spec.MarginAfterReduce(p.mode, p.margin, p.size, sizeDelta)
    {
      var margin := p.margin;
      if p.mode == Isolated && p.margin > 0 {
        var release :- MulDiv(p.margin, sizeDelta, p.size);
        margin :- CheckedSub(p.margin, release);
      }
      r := Ok(margin);
    }

    method ReplaceOrRemove(list: seq<Position>, index: nat, p: Position) returns (left: seq<Position>)
      requires index < |list|
      ensures left == Spec.Replaced(list, index, p)
    {
      if p.size == 0 {
        left := list[..index] + list[index + 1..];
      } else {
        left := list[index := p];
      }
    }

    method ReducePositionBody(e: CallEnv, user: Address, id: nat, sizeDelta: int, price: int, requireMargin: bool)
      returns (r: Result<TradeResult>)
      modifies this, vault
      ensures var spec := Spec.Reduce(old(View()), e, user, id, sizeDelta, price, requireMargin);
        if spec.Ok? then View() == spec.value.0 && r == Ok(spec.value.1) else r == Err(spec.error)
    {
      hide Health, Spec.Commit, Spec.ValidateExecutionPrice, Spec.LoadMarket, Spec.RequireInitialMargin, Spec.Equity,
        Spec.SettleFunding, Spec.RealizedPnl, Spec.FindIndex, Spec.MarginAfterReduce, Spec.Replaced;
      if sizeDelta <= 0 || price <= 0 {
        return Err(InvalidAmount);
      }
      var list := PositionsOf(positions, user);
      var index :- FindPositionIndex(list, id);
      var position := list[index];
      if sizeDelta > position.size {
        return Err(InvalidAmount);
      }
      var market :- Spec.LoadMarket(markets, position.marketId);
      var _ :- Spec.ValidateExecutionPrice(market, e.Price(market.market.marketId), price);
      var settled :- SettlePositionFunding(user, position);
      position := settled.0;
      var realized :- Spec.RealizedPnl(position, sizeDelta, price);
      var margin :- ReleaseMargin(position, sizeDelta);
      position := position.(size := position.size - sizeDelta, margin := margin);
      list := ReplaceOrRemove(list, index, position);
      ghost var trade := Spec.ReduceTrade(old(View()), e, user, id, sizeDelta, price).value;
      var _ :- CommitTrade(user, list, market.market.marketId, position.isLong, -sizeDelta, Some(realized), trade);
      var health := vault.AccountHealth(e, user);
      var equity;
      if requireMargin {
        equity :- Spec.RequireInitialMargin(health);
      } else {
        equity :- Spec.Equity(health);
      }
      r := Ok(TradeResult(id, position.size, position.entryPrice, realized, settled.1, price, equity));
    }

    method ChargeTradeFeeBody(e: CallEnv, user: Address, m: nat, size: int, price: int, isMaker: bool)
      returns (r: Result<int>)
      modifies this, vault
      ensures var spec := Spec.ChargeTradeFee(old(View()), e, user, m, size, price, isMaker);
        if spec.Ok? then View() == spec.value.0 && r == Ok(spec.value.1) else r == Err(spec.error)
    {
      hide MulPrecision, ApplyBps, Health, Spec.RequireInitialMargin, Credit, Spec.ApplyPnl;
      if size <= 0 || price <= 0 {
        return Err(InvalidAmount);
      }
      var config := FeesOf(feeConfigs, m);
      var feeBps := if isMaker then config.makerFeeBps else config.takerFeeBps;
      if feeBps == 0 {
        return Ok(0);
      }
      var notional :- MulPrecision(size, price);
      var fee :- ApplyBps(notional, feeBps);
      var debit :- CheckedSub(0, fee);
      var _ :- vault.ApplyPnl(user, debit);
      var health := vault.AccountHealth(e, user);
      var _ :- Spec.RequireInitialMargin(health);
      var _ :- vault.ApplyPnl(feeRecipient, fee);
      books := books.(fees := Credit(Credit(books.fees, user, -fee), feeRecipient, fee));
      r := Ok(fee);
    }

    method UpdateFundingBody(e: CallEnv, m: nat) returns (r: Result<FundingState>)
      modifies this, vault
      ensures var spec := Spec.UpdateFunding(old(View()), e.now, m);
        if spec.Ok? then View() == spec.value.0 && r == Ok(spec.value.1) else r == Err(spec.error)
    {
      hide Spec.UpdateFromImbalance, Spec.ApplyPnl, Spec.BookFunding, MulDiv, Credit;
      if m !in fundingConfigs {
        return Err(InvalidConfig);
      }
      var current := FundingOf(fundingStates, m, e.now);
      var oiLong, oiShort := Lookup(longOpenInterest, m), Lookup(shortOpenInterest, m);
      var next :- Spec.UpdateFromImbalance(fundingConfigs[m], current, oiLong, oiShort, e.now);
      fundingStates := fundingStates[m := next];
      vault.SetFundingIndexes(m, next.longIndex, next.shortIndex);
      var delta :- CheckedSub(next.longIndex, current.longIndex);
      if delta != 0 {
        var imbalance :- CheckedSub(oiLong, oiShort);
        if imbalance != 0 {
          var surplus :- MulDiv(delta, imbalance, PRECISION);
          if surplus != 0 && insurance.Some? {
            var _ :- vault.ApplyPnl(insurance.value, surplus);
          }
        }
      }
      books := Spec.UpdateFunding(old(View()), e.now, m).value.0.books;
      r := Ok(next);
    }

    method SetMarketBody(config: EngineMarketConfig) returns (r: Result<()>)
      modifies this, vault
      ensures var spec := Spec.SetMarket(old(View()), config);
        if spec.Ok? then View() == spec.value && r == Ok(()) else r == Err(spec.error)
    {
      if !Spec.EngineAcceptsMarket(config) {
        return Err(InvalidConfig);
      }
      markets := markets[config.market.marketId := config];
      var _ :- vault.SetMarketConfig(config.market);
      r := Ok(());
    }

    // ----- Calls as the host runs them

    method OpenPosition(e: CallEnv, user: Address, m: nat, size: int, isLong: bool, price: int, mode: MarginMode)
      returns (r: Result<TradeResult>)
      modifies this, vault
      ensures var spec := Spec.Open(old(View()), e, user, m, size, isLong, price, mode);
        r == (if spec.Ok? then Ok(spec.value.1) else Err(spec.error))
      ensures View() == Spec.Next(old(View()), e, Spec.OpOpen(user, m, size, isLong, price, mode))
      ensures Invariant(old(View())) ==> Invariant(View())
    {
      hide Spec.Open, Invariant;
      ghost var before, savedBooks := View(), books;
      var saved, savedVault := Store(), vault.View();
      r := OpenPositionBody(e, user, m, size, isLong, price, mode);
      if r.Err? {
        RollBack(saved, savedVault, savedBooks);
      }
      EngineRuns.NextKeeps(before, e, Spec.OpOpen(user, m, size, isLong, price, mode));
    }

    method IncreasePosition(e: CallEnv, user: Address, id: nat, sizeDelta: int, price: int)
      returns (r: Result<TradeResult>)
      modifies this, vault
      ensures var spec := Spec.Increase(old(View()), e, user, id, sizeDelta, price);
        r == (if spec.Ok? then Ok(spec.value.1) else Err(spec.error))
      ensures View() == Spec.Next(old(View()), e, Spec.OpIncrease(user, id, sizeDelta, price))
      ensures Invariant(old(View())) ==> Invariant(View())
    {
      hide Spec.Increase, Invariant;
      ghost var before, savedBooks := View(), books;
      var saved, savedVault := Store(), vault.View();
      r := IncreasePositionBody(e, user, id, sizeDelta, price);
      if r.Err? {
        RollBack(saved, savedVault, savedBooks);
      }
      EngineRuns.NextKeeps(before, e, Spec.OpIncrease(user, id, sizeDelta, price));
    }

    method ReducePosition(e: CallEnv, user: Address, id: nat, sizeDelta: int, price: int)
      returns (r: Result<TradeResult>)
      modifies this, vault
      ensures var spec := Spec.Reduce(old(View()), e, user, id, sizeDelta, price, true);
        r == (if spec.Ok? then Ok(spec.value.1) else Err(spec.error))
      ensures View() == Spec.Next(old(View()), e, Spec.OpReduce(user, id, sizeDelta, price))
      ensures Invariant(old(View())) ==> Invariant(View())
    {
      hide Spec.Reduce, Invariant;
      ghost var before, savedBooks := View(), books;
      var saved, savedVault := Store(), vault.View();
      r := ReducePositionBody(e, user, id, sizeDelta, price, true);
      if r.Err? {
        RollBack(saved, savedVault, savedBooks);
      }
      EngineRuns.NextKeeps(before, e, Spec.OpReduce(user, id, sizeDelta, price));
    }

    method LiquidateReduce(e: CallEnv, user: Address, id: nat, sizeDelta: int, price: int)
      returns (r: Result<TradeResult>)
      modifies this, vault
      ensures var spec := Spec.Reduce(old(View()), e, user, id, sizeDelta, price, false);
        r == (if spec.Ok? then Ok(spec.value.1) else Err(spec.error))
      ensures View() == Spec.Next(old(View()), e, Spec.OpLiquidate(user, id, sizeDelta, price))
      ensures Invariant(old(View())) ==> Invariant(View())
    {
      hide Spec.Reduce, Invariant;
      ghost var before, savedBooks := View(), books;
      var saved, savedVault := Store(), vault.View();
      r := ReducePositionBody(e, user, id, sizeDelta, price, false);
      if r.Err? {
        RollBack(saved, savedVault, savedBooks);
      }
      EngineRuns.NextKeeps(before, e, Spec.OpLiquidate(user, id, sizeDelta, price));
    }

    method ClosePosition(e: CallEnv, user: Address, id: nat, price: int) returns (r: Result<TradeResult>)
      modifies this, vault
      ensures var spec := Spec.Close(old(View()), e, user, id, price);
        r == (if spec.Ok? then Ok(spec.value.1) else Err(spec.error))
      ensures View() == Spec.Next(old(View()), e, Spec.OpClose(user, id, price))
      ensures Invariant(old(View())) ==> Invariant(View())
    {
      hide Spec.Reduce, Invariant;
      var list := PositionsOf(positions, user);
      var index :- FindPositionIndex(list, id);
      r := ReducePosition(e, user, id, list[index].size, price);
    }

    method UpdateFunding(e: CallEnv, m: nat) returns (r: Result<FundingState>)
      modifies this, vault
      ensures var spec := Spec.UpdateFunding(old(View()), e.now, m);
        r == (if spec.Ok? then Ok(spec.value.1) else Err(spec.error))
      ensures View() == Spec.Next(old(View()), e, Spec.OpUpdateFunding(m))
      ensures Invariant(old(View())) ==> Invariant(View())
    {
      hide Spec.UpdateFunding, Invariant;
      ghost var before, savedBooks := View(), books;
      var saved, savedVault := Store(), vault.View();
      r := UpdateFundingBody(e, m);
      if r.Err? {
        RollBack(saved, savedVault, savedBooks);
      }
      EngineRuns.NextKeeps(before, e, Spec.OpUpdateFunding(m));
    }

    method ChargeTradeFee(e: CallEnv, user: Address, m: nat, size: int, price: int, isMaker: bool)
      returns (r: Result<int>)
      modifies this, vault
      ensures var spec := Spec.ChargeTradeFee(old(View()), e, user, m, size, price, isMaker);
        r == (if spec.Ok? then Ok(spec.value.1) else Err(spec.error))
      ensures View() == Spec.Next(old(View()), e, Spec.OpChargeTradeFee(user, m, size, price, isMaker))
      ensures Invariant(old(View())) ==> Invariant(View())
    {
      hide Spec.ChargeTradeFee, Invariant;
      ghost var before, savedBooks := View(), books;
      var saved, savedVault := Store(), vault.View();
      r := ChargeTradeFeeBody(e, user, m, size, price, isMaker);
      if r.Err? {
        RollBack(saved, savedVault, savedBooks);
      }
      EngineRuns.NextKeeps(before, e, Spec.OpChargeTradeFee(user, m, size, price, isMaker));
    }

    method SetMarket(e: CallEnv, config: EngineMarketConfig) returns (r: Result<()>)
      modifies this, vault
      ensures var spec := Spec.SetMarket(old(View()), config);
        r == (if spec.Ok? then Ok(()) else Err(spec.error))
      ensures View() == Spec.Next(old(View()), e, Spec.OpSetMarket(config))
      ensures Invariant(old(View())) ==> Invariant(View())
    {
      hide Spec.SetMarket, Invariant;
      ghost var before, savedBooks := View(), books;
      var saved, savedVault := Store(), vault.View();
      r := SetMarketBody(config);
      if r.Err? {
        RollBack(saved, savedVault, savedBooks);
      }
      EngineRuns.NextKeeps(before, e, Spec.OpSetMarket(config));
    }
  }
}
