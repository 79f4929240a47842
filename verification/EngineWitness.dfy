/** A run without an insurance address, in which funding does not conserve value. */
module EngineWitness {
  import opened Outcomes
  import opened FixedPoint
  import opened EngineState
  import opened Accounting
  import opened VaultHealth
  import opened EngineSpec
  import opened EngineInvariant
  import opened EngineRuns
  import opened EngineTheorems

  const MARKET: MarketConfig := MarketConfig(1, 100_000, 1_000, 500, 10_000 * PRECISION, 60, 100, true)
  const TRADER := "trader"

  function At(now: nat): CallEnv {
    CallEnv(now, map[1 := Ok(PRECISION)], Ok(PRECISION), None, Deposited(false, Ok(1_000 * PRECISION)))
  }

  /** A market, a funding rate, one long position, and an update an hour later. */
  const CALLS: seq<(CallEnv, Op)> := [
    (At(0), OpSetMarket(EngineMarketConfig(MARKET, 1_000))),
    (At(0), OpSetFundingConfig(1, FundingConfig(PRECISION / 1_000, PRECISION))),
    (At(0), OpOpen(TRADER, 1, 1_000 * PRECISION, true, PRECISION, Cross)),
    (At(3_600), OpUpdateFunding(1))
  ]

  lemma RunTake(s: State, calls: seq<(CallEnv, Op)>, k: nat)
    requires k < |calls|
    ensures Run(s, calls[..k + 1]) == Next(Run(s, calls[..k]), calls[k].0, calls[k].1)
    ensures Run(s, calls[..0]) == s && calls[..|calls|] == calls
  {
    assert calls[..k + 1][..k] == calls[..k];
  }

  function Configured(): State {
    var s := InitialState("admin");
    s.(store := s.store.(markets := map[1 := EngineMarketConfig(MARKET, 1_000)],
                         fundingConfigs := map[1 := FundingConfig(PRECISION / 1_000, PRECISION)],
                         fundingStates := map[1 := FundingState(0, 0, 0, 0)]),
       vault := s.vault.(markets := map[1 := MARKET]))
  }

  lemma ConfiguredRun()
    ensures Run(InitialState("admin"), CALLS[..2]) == Configured()
  {
    hide Open, UpdateFunding;
    RunTake(InitialState("admin"), CALLS, 0);
    RunTake(InitialState("admin"), CALLS, 1);
    var s1 := Next(InitialState("admin"), CALLS[0].0, CALLS[0].1);
    assert s1.store.markets == map[1 := EngineMarketConfig(MARKET, 1_000)] && s1.vault.markets == map[1 := MARKET];
    var s2 := Next(s1, CALLS[1].0, CALLS[1].1);
    assert s2.store.fundingConfigs == map[1 := FundingConfig(PRECISION / 1_000, PRECISION)];
  }

  function LongPosition(): Position {
    Position(1, TRADER, 1, 1_000 * PRECISION, PRECISION, 0, true, 0, Cross)
  }

  lemma LongTally(v: VaultState)
    requires v.markets == map[1 := MARKET] && Lookup(v.fundingLong, 1) == 0
    ensures TallyOne(v, At(0), Tally([], 0, 0, 0, false), LongPosition())
      == Ok(Tally([0], 100 * PRECISION, 50 * PRECISION, 0, false))
  {
    var p := LongPosition();
    assert PositionPnl(p, PRECISION) == Ok(0);
    assert FundingPnl(p, 0) == Ok(0);
    assert UnrealizedPnl(v, p, PRECISION) == Ok(0);
    assert Notional(p.size, PRECISION) == Ok(1_000 * PRECISION);
    assert ApplyBps(1_000 * PRECISION, 1_000) == Ok(100 * PRECISION);
    assert ApplyBps(1_000 * PRECISION, 500) == Ok(50 * PRECISION);
    assert v.markets[1] == MARKET && At(0).Price(1) == Ok(PRECISION);
    assert CheckedAdd(0, 100 * PRECISION) == Ok(100 * PRECISION) && CheckedAdd(0, 50 * PRECISION) == Ok(50 * PRECISION);
    assert [] + [0] == [0];
    hide ApplyBps, Notional, UnrealizedPnl, CheckedAdd;
  }

  lemma LongIsHealthy(v: VaultState)
    requires v.markets == map[1 := MARKET] && PositionsOf(v.positions, TRADER) == [LongPosition()]
    requires Lookup(v.fundingLong, 1) == 0
    ensures var h := Health(v, At(0), TRADER);
      h.Ok? && h.value.equity == 1_000 * PRECISION && h.value.initialMarginRequired == 100 * PRECISION
  {
    hide TallyOne;
    LongTally(v);
    var p := LongPosition();
    var list := [p];
    assert list[..0] == [];
    assert MarketsPriced(v, At(0), list[..0]) == Ok(());
    assert MarketsPriced(v, At(0), list) == Ok(());
    assert CollateralValue(Balance(v.balances, TRADER), At(0)) == Ok(1_000 * PRECISION);
    assert TallyAll(v, At(0), list[..0]) == Ok(Tally([], 0, 0, 0, false));
    assert TallyAll(v, At(0), list) == Ok(Tally([0], 100 * PRECISION, 50 * PRECISION, 0, false));
    assert SplitAll(list, [0]) == SplitOne(Split(0, 0), p, 0) == Ok(Split(0, 0));
    assert AddAll([0]) == Ok(0);
    assert CrossMaintenance(v, At(0), list[..0]) == Ok(0);
    LongMaintenance(v);
    assert CrossMaintenance(v, At(0), list) == Ok(50 * PRECISION);
  }

  lemma LongMaintenance(v: VaultState)
    requires v.markets == map[1 := MARKET]
    ensures AddCrossMaintenance(v, At(0), 0, LongPosition()) == Ok(50 * PRECISION)
  {
    assert Notional(LongPosition().size, PRECISION) == Ok(1_000 * PRECISION);
    assert ApplyBps(1_000 * PRECISION, 500) == Ok(50 * PRECISION);
    assert v.markets[1] == MARKET && At(0).Price(1) == Ok(PRECISION);
  }

  lemma OpenSucceeds()
    ensures var r := Open(Configured(), At(0), TRADER, 1, 1_000 * PRECISION, true, PRECISION, Cross);
      && r.Ok?
      && r.value.0.SideInterest(1, true) == 1_000 * PRECISION && r.value.0.SideInterest(1, false) == 0
      && r.value.0.store.fundingConfigs == Configured().store.fundingConfigs
      && r.value.0.store.fundingStates == Configured().store.fundingStates
      && r.value.0.store.insurance == None
      && r.value.0.books.funding == map[]
  {
    hide Health;
    var s := Configured();
    var trade := OpenTrade(s, At(0), TRADER, 1, 1_000 * PRECISION, true, PRECISION, Cross);
    LongTradeIs();
    var t := Commit(trade.value, TRADER);
    assert t.Ok?;
    assert PositionsOf(t.value.vault.positions, TRADER) == [LongPosition()];
    LongIsHealthy(t.value.vault);
  }

  lemma LongTradeIs()
    ensures var trade := OpenTrade(Configured(), At(0), TRADER, 1, 1_000 * PRECISION, true, PRECISION, Cross);
      && trade.Ok? && trade.value.after == LongPosition() && trade.value.list == [LongPosition()]
      && trade.value.settled == Configured().(store := Configured().store.(nextPositionId := 2))
      && trade.value.sizeMove == 1_000 * PRECISION && trade.value.interestIn == 1 && trade.value.realized.None?
  {
    var config := EngineMarketConfig(MARKET, 1_000);
    assert ValidateExecutionPrice(config, Ok(PRECISION), PRECISION) == Ok(()) by {
      assert ApplyBps(PRECISION, 1_000) == Ok(PRECISION / 10);
    }
    assert MulPrecision(1_000 * PRECISION, PRECISION) == Ok(1_000 * PRECISION);
    assert Configured().store.markets[1] == config && At(0).Price(1) == Ok(PRECISION);
  }

  /** The update of a market with only longs, an hour after the last. */
  lemma UpdateSucceeds(s: State)
    requires s.SideInterest(1, true) == 1_000 * PRECISION && s.SideInterest(1, false) == 0 && s.store.insurance == None
    requires s.store.fundingConfigs == map[1 := FundingConfig(PRECISION / 1_000, PRECISION)]
    requires s.store.fundingStates == map[1 := FundingState(0, 0, 0, 0)]
    ensures UpdateFunding(s, 3_600, 1).Ok?
    ensures 1 in s.store.fundingConfigs && ImbalanceChargeOf(s, 3_600, 1) == PRECISION * PRECISION
  {
    var cfg := FundingConfig(PRECISION / 1_000, PRECISION);
    assert s.store.fundingConfigs[1] == cfg && s.FundingAt(1, 3_600) == FundingState(0, 0, 0, 0);
    var total := 1_000 * PRECISION;
    assert TruncDiv(total * PRECISION, total) == PRECISION by {
      TruncDivUnique(total * PRECISION, total, PRECISION);
    }
    assert TruncDiv(PRECISION * (PRECISION / 1_000), PRECISION) == PRECISION / 1_000;
    assert TruncDiv(PRECISION / 1_000 * 3_600, SECS_PER_HOUR) == PRECISION / 1_000;
    assert UpdateFromImbalance(cfg, FundingState(0, 0, 0, 0), total, 0, 3_600)
        == Ok(FundingState(PRECISION / 1_000, -(PRECISION / 1_000), PRECISION / 1_000, 3_600));
    assert MulDiv(PRECISION / 1_000, total, PRECISION) == Ok(PRECISION);
    assert NetSurplus(PRECISION / 1_000, total, 0) == Ok(PRECISION);
  }

  lemma NothingMovedYet(s: State)
    requires Invariant(s) && s.books.funding == map[]
    ensures FundingMoved(s, 1) == 0
  {
    assert FundingConserved(s, 1);
  }

  lemma UpdateLoses(s: State)
    requires Invariant(s) && s.books.funding == map[]
    requires s.SideInterest(1, true) == 1_000 * PRECISION && s.SideInterest(1, false) == 0 && s.store.insurance == None
    requires s.store.fundingConfigs == map[1 := FundingConfig(PRECISION / 1_000, PRECISION)]
    requires s.store.fundingStates == map[1 := FundingState(0, 0, 0, 0)]
    ensures UpdateFunding(s, 3_600, 1).Ok?
    ensures var t := UpdateFunding(s, 3_600, 1).value.0;
      FundingMoved(t, 1) == -(PRECISION * PRECISION) && t.BookOf(1).roundings == 0
  {
    hide Invariant, UpdateFunding, FundingMoved, IndexMove, InterestExact;
    NothingMovedYet(s);
    UpdateSucceeds(s);
    var delta := UpdateFundingDoes(s, 3_600, 1);
    UpdateCharges(s, 3_600, 1);
    InterestHolds(s);
    FundedMoves(s, UpdateFunding(s, 3_600, 1).value.0, 1, delta);
  }

  lemma InterestHolds(s: State)
    requires Invariant(s)
    ensures InterestExact(s, 1)
  {
  }

  /** The bound that holds with an insurance address fails without: a whole charge is dropped. */
  lemma UninsuredRunLoses()
    ensures var s := Run(InitialState("admin"), CALLS);
      && FundingMoved(s, 1) == -(PRECISION * PRECISION)
      && Abs(FundingMoved(s, 1)) > (PRECISION - 1) * s.BookOf(1).roundings
  {
    hide Open, UpdateFunding, Configured, ImbalanceChargeOf, Invariant, FundingMoved;
    ConfiguredRun();
    RunTake(InitialState("admin"), CALLS, 2);
    RunTake(InitialState("admin"), CALLS, 3);
    OpenSucceeds();
    var s := Run(InitialState("admin"), CALLS[..3]);
    assert s == Open(Configured(), At(0), TRADER, 1, 1_000 * PRECISION, true, PRECISION, Cross).value.0;
    InitiallySound("admin");
    RunSound(InitialState("admin"), CALLS[..3]);
    ConfiguredFunding();
    UpdateLoses(s);
  }

  lemma ConfiguredFunding()
    ensures Configured().store.fundingConfigs == map[1 := FundingConfig(PRECISION / 1_000, PRECISION)]
    ensures Configured().store.fundingStates == map[1 := FundingState(0, 0, 0, 0)]
  {
  }
}
