/**
 A trade that passes the margin check and leaves its account liquidatable:
 isolated gains count in the check alone.
 */
module LiquidationWitness {
  import opened Outcomes
  import opened FixedPoint
  import opened EngineState
  import opened Accounting
  import opened VaultHealth
  import opened EngineSpec
  import opened EngineWitness

  /** Other collateral is worth twenty; the market's price is `price`. */
  function Priced(price: int): CallEnv {
    CallEnv(0, map[1 := Ok(price)], Ok(PRECISION), None, Deposited(false, Ok(20 * PRECISION)))
  }

  const QUIET: CallEnv := Priced(PRECISION)
  const RALLY: CallEnv := Priced(10 * PRECISION)
  const OPEN_ISOLATED: Op := OpOpen(TRADER, 1, 100 * PRECISION, true, PRECISION, Isolated)
  const OPEN_CROSS: Op := OpOpen(TRADER, 1, 100 * PRECISION, true, 10 * PRECISION, Cross)

  /** An isolated long, then, after the price has gone up tenfold, a cross one. */
  const TRADES: seq<(CallEnv, Op)> := CALLS[..2] + [(QUIET, OPEN_ISOLATED), (RALLY, OPEN_CROSS)]

  const ISOLATED: Position := Position(1, TRADER, 1, 100 * PRECISION, PRECISION, 10 * PRECISION, true, 0, Isolated)
  const CROSS: Position := Position(2, TRADER, 1, 100 * PRECISION, 10 * PRECISION, 0, true, 0, Cross)

  /** The market is configured, indexes are zero, and the trader holds these positions. */
  ghost predicate Holds(v: VaultState, list: seq<Position>) {
    v.markets == map[1 := MARKET] && Lookup(v.fundingLong, 1) == 0 && PositionsOf(v.positions, TRADER) == list
  }

  // ----- Health of the two portfolios

  lemma OneTallied(v: VaultState, price: int, t: Tally, p: Position, pnl: int, n: int)
    requires v.markets == map[1 := MARKET] && Lookup(v.fundingLong, 1) == 0 && |t.pnls| < PNL_BUFFER
    requires p == ISOLATED || p == CROSS
    requires PositionPnl(p, price) == Ok(pnl) && Notional(p.size, price) == Ok(n)
    requires ApplyBps(n, 1_000) == Ok(n / 10) && ApplyBps(n, 500) == Ok(n / 20)
    requires IsI128(pnl) && IsI128(t.initial + n / 10) && IsI128(t.maintenance + n / 20)
    requires IsI128(t.locked + p.margin) && IsI128(p.margin + pnl)
    ensures TallyOne(v, Priced(price), t, p)
      == Ok(Tally(t.pnls + [pnl], t.initial + n / 10, t.maintenance + n / 20, t.locked + p.margin,
                  t.isolatedLow || (p.mode == Isolated && n / 20 > 0 && p.margin + pnl < n / 20)))
  {
    assert FundingPnl(p, 0) == Ok(0);
    assert UnrealizedPnl(v, p, price) == Ok(pnl);
    assert v.markets[1] == MARKET && Priced(price).Price(1) == Ok(price);
    hide ApplyBps, Notional, UnrealizedPnl, PositionPnl;
  }

  lemma QuietNumbers()
    ensures PositionPnl(ISOLATED, PRECISION) == Ok(0) && Notional(ISOLATED.size, PRECISION) == Ok(100 * PRECISION)
    ensures ApplyBps(100 * PRECISION, 1_000) == Ok(10 * PRECISION)
    ensures ApplyBps(100 * PRECISION, 500) == Ok(5 * PRECISION)
  {
  }

  lemma RallyNumbers()
    ensures PositionPnl(ISOLATED, 10 * PRECISION) == Ok(900 * PRECISION) && PositionPnl(CROSS, 10 * PRECISION) == Ok(0)
    ensures Notional(100 * PRECISION, 10 * PRECISION) == Ok(1_000 * PRECISION)
    ensures ApplyBps(1_000 * PRECISION, 1_000) == Ok(100 * PRECISION)
    ensures ApplyBps(1_000 * PRECISION, 500) == Ok(50 * PRECISION)
  {
  }

  lemma QuietHealth(v: VaultState)
    requires Holds(v, [ISOLATED])
    ensures var h := Health(v, QUIET, TRADER);
      h.Ok? && h.value.equity == 20 * PRECISION && h.value.initialMarginRequired == 10 * PRECISION
  {
    hide TallyOne;
    var list := [ISOLATED];
    assert list[..0] == [];
    QuietNumbers();
    OneTallied(v, PRECISION, Tally([], 0, 0, 0, false), ISOLATED, 0, 100 * PRECISION);
    assert [] + [0] == [0];
    assert MarketsPriced(v, QUIET, list[..0]) == Ok(());
    assert MarketsPriced(v, QUIET, list) == Ok(());
    assert TallyAll(v, QUIET, list[..0]) == Ok(Tally([], 0, 0, 0, false));
    assert TallyAll(v, QUIET, list) == Ok(Tally([0], 10 * PRECISION, 5 * PRECISION, 10 * PRECISION, false));
    assert SplitAll(list, [0]) == SplitOne(Split(0, 0), ISOLATED, 0) == Ok(Split(10 * PRECISION, 0));
    assert AddAll([0]) == Ok(0);
    assert CrossMaintenance(v, QUIET, list[..0]) == Ok(0);
    assert CrossMaintenance(v, QUIET, list) == Ok(0);
  }

  lemma RallyTally(v: VaultState)
    requires Holds(v, [ISOLATED, CROSS])
    ensures TallyAll(v, RALLY, [ISOLATED, CROSS])
      == Ok(Tally([900 * PRECISION, 0], 200 * PRECISION, 100 * PRECISION, 10 * PRECISION, false))
  {
    hide TallyOne;
    var list := [ISOLATED, CROSS];
    assert list[..1] == [ISOLATED] && [ISOLATED][..0] == [];
    RallyNumbers();
    OneTallied(v, 10 * PRECISION, Tally([], 0, 0, 0, false), ISOLATED, 900 * PRECISION, 1_000 * PRECISION);
    var first := Tally([900 * PRECISION], 100 * PRECISION, 50 * PRECISION, 10 * PRECISION, false);
    OneTallied(v, 10 * PRECISION, first, CROSS, 0, 1_000 * PRECISION);
    assert [] + [900 * PRECISION] == [900 * PRECISION];
    assert [900 * PRECISION] + [0] == [900 * PRECISION, 0];
    assert TallyAll(v, RALLY, [ISOLATED][..0]) == Ok(Tally([], 0, 0, 0, false));
    assert TallyAll(v, RALLY, [ISOLATED]) == Ok(first);
  }

  lemma RallySplit()
    ensures SplitAll([ISOLATED, CROSS], [900 * PRECISION, 0]) == Ok(Split(910 * PRECISION, 0))
    ensures AddAll([900 * PRECISION, 0]) == Ok(900 * PRECISION)
  {
    var pnls := [900 * PRECISION, 0];
    assert [ISOLATED, CROSS][..1] == [ISOLATED] && pnls[..1] == [900 * PRECISION];
    assert SplitAll([ISOLATED], [900 * PRECISION]) == Ok(Split(910 * PRECISION, 0));
    assert AddAll([900 * PRECISION]) == Ok(900 * PRECISION);
  }

  lemma RallyMaintenance(v: VaultState)
    requires Holds(v, [ISOLATED, CROSS])
    ensures CrossMaintenance(v, RALLY, [ISOLATED, CROSS]) == Ok(50 * PRECISION)
  {
    assert [ISOLATED, CROSS][..1] == [ISOLATED] && [ISOLATED][..0] == [];
    RallyNumbers();
    hide ApplyBps, Notional;
    assert v.markets[1] == MARKET && RALLY.Price(1) == Ok(10 * PRECISION);
    assert CrossMaintenance(v, RALLY, [ISOLATED]) == Ok(0);
  }

  lemma RallyHealth(v: VaultState)
    requires Holds(v, [ISOLATED, CROSS])
    ensures var h := Health(v, RALLY, TRADER);
      h.Ok? && h.value.equity == 920 * PRECISION && h.value.initialMarginRequired == 200 * PRECISION
      && h.value.liquidatable
  {
    hide TallyAll, SplitAll, AddAll, CrossMaintenance;
    var list := [ISOLATED, CROSS];
    assert list[..1] == [ISOLATED] && [ISOLATED][..0] == [];
    assert MarketsPriced(v, RALLY, [ISOLATED][..0]) == Ok(());
    assert MarketsPriced(v, RALLY, [ISOLATED]) == Ok(());
    assert MarketsPriced(v, RALLY, list) == Ok(());
    RallyTally(v);
    RallySplit();
    RallyMaintenance(v);
  }

  // ----- The run

  /** What the second trade depends on. */
  ghost predicate Opened(s: State) {
    && s.store.markets == Configured().store.markets && s.vault.markets == map[1 := MARKET] && !s.vault.paused
    && s.OpenInterest(1) == s.SideInterest(1, true) == 100 * PRECISION
    && s.FundingIndex(1, true) == 0 && Lookup(s.vault.fundingLong, 1) == 0
    && s.Positions(TRADER) == [ISOLATED] && s.store.nextPositionId == 2
    && Balance(s.vault.balances, TRADER) == 0
  }

  lemma FirstTrade()
    ensures var trade := OpenTrade(Configured(), QUIET, TRADER, 1, 100 * PRECISION, true, PRECISION, Isolated);
      && trade.Ok? && trade.value.after == ISOLATED && trade.value.list == [ISOLATED]
      && trade.value.settled == Configured().(store := Configured().store.(nextPositionId := 2))
      && trade.value.sizeMove == 100 * PRECISION && trade.value.interestIn == 1 && trade.value.realized.None?
  {
    var config := EngineMarketConfig(MARKET, 1_000);
    assert ValidateExecutionPrice(config, Ok(PRECISION), PRECISION) == Ok(()) by {
      assert ApplyBps(PRECISION, 1_000) == Ok(PRECISION / 10);
    }
    assert MulPrecision(100 * PRECISION, PRECISION) == Ok(100 * PRECISION);
    assert ApplyBps(100 * PRECISION, 1_000) == Ok(10 * PRECISION);
    assert Configured().store.markets[1] == config && QUIET.Price(1) == Ok(PRECISION);
  }

  lemma FirstOpens()
    ensures var r := Apply(Configured(), QUIET, OPEN_ISOLATED); r.Ok? && Opened(r.value)
  {
    hide Health;
    FirstTrade();
    var trade := OpenTrade(Configured(), QUIET, TRADER, 1, 100 * PRECISION, true, PRECISION, Isolated);
    var t := Commit(trade.value, TRADER);
    assert t.Ok?;
    assert PositionsOf(t.value.vault.positions, TRADER) == [ISOLATED];
    QuietHealth(t.value.vault);
  }

  lemma SecondTrade(s: State)
    requires Opened(s)
    ensures var trade := OpenTrade(s, RALLY, TRADER, 1, 100 * PRECISION, true, 10 * PRECISION, Cross);
      && trade.Ok? && trade.value.after == CROSS && trade.value.list == [ISOLATED, CROSS]
      && trade.value.settled == s.(store := s.store.(nextPositionId := 3))
      && trade.value.sizeMove == 100 * PRECISION && trade.value.interestIn == 1 && trade.value.realized.None?
  {
    var config := EngineMarketConfig(MARKET, 1_000);
    assert ValidateExecutionPrice(config, Ok(10 * PRECISION), 10 * PRECISION) == Ok(()) by {
      assert ApplyBps(10 * PRECISION, 1_000) == Ok(PRECISION);
    }
    assert MulPrecision(100 * PRECISION, 10 * PRECISION) == Ok(1_000 * PRECISION);
    assert s.store.markets[1] == config && RALLY.Price(1) == Ok(10 * PRECISION);
    assert [ISOLATED] + [CROSS] == [ISOLATED, CROSS];
  }

  lemma SecondOpens(s: State)
    requires Opened(s)
    ensures var r := Apply(s, RALLY, OPEN_CROSS);
      r.Ok? && Holds(r.value.vault, [ISOLATED, CROSS]) && r.value.Positions(TRADER) == [ISOLATED, CROSS]
  {
    hide Health;
    SecondTrade(s);
    var trade := OpenTrade(s, RALLY, TRADER, 1, 100 * PRECISION, true, 10 * PRECISION, Cross);
    var t := Commit(trade.value, TRADER);
    assert t.Ok?;
    assert PositionsOf(t.value.vault.positions, TRADER) == [ISOLATED, CROSS];
    RallyHealth(t.value.vault);
  }

  /** Opening a position succeeds and the account is liquidatable at the very prices it was checked at. */
  lemma MarginedYetLiquidatable()
    ensures var before, after := Run(InitialState("admin"), TRADES[..3]), Run(InitialState("admin"), TRADES);
      && Apply(before, RALLY, OPEN_CROSS) == Ok(after)
      && var h := Health(after.vault, RALLY, TRADER);
         h.Ok? && h.value.equity >= h.value.initialMarginRequired && h.value.liquidatable
  {
    hide Apply, Configured, Opened, Health;
    ConfiguredRun();
    RunTake(InitialState("admin"), TRADES, 2);
    RunTake(InitialState("admin"), TRADES, 3);
    assert TRADES[..2] == CALLS[..2];
    FirstOpens();
    var before := Run(InitialState("admin"), TRADES[..3]);
    SecondOpens(before);
    RallyHealth(Run(InitialState("admin"), TRADES).vault);
  }
}
