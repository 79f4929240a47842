/** A run whose last call closes a position to the last unit. */
module CloseWitness {
  import opened Outcomes
  import opened FixedPoint
  import opened EngineState
  import opened Accounting
  import opened VaultHealth
  import opened EngineSpec
  import opened EngineInvariant
  import opened EngineRuns
  import opened AccountMargin
  import opened HealthReports
  import opened TradeSuccess
  import opened EngineWitness
  import opened LiquidationWitness

  const CLOSE: Op := OpClose(TRADER, 1, PRECISION)

  const OPEN_AND_CLOSE: seq<(CallEnv, Op)> := CALLS[..2] + [(QUIET, OPEN_ISOLATED), (QUIET, CLOSE)]

  lemma ClosesNumbers(s: State)
    requires Opened(s)
    ensures InsideBand(s, QUIET, 1, PRECISION) && FundingFits(s, ISOLATED) && FundingDue(s, ISOLATED) == 0
    ensures PriceMove(ISOLATED, PRECISION) == 0 && PnlOf(ISOLATED, ISOLATED.size, PRECISION) == 0
    ensures ReleaseFits(ISOLATED, ISOLATED.size) && ReducedTo(s, ISOLATED, ISOLATED.size).size == 0
    ensures InterestFits(s, 1, true, -ISOLATED.size) && Payable(s.vault, 0, 0)
  {
    var config := EngineMarketConfig(MARKET, 1_000);
    assert s.store.markets[1] == config && QUIET.Price(1) == Ok(PRECISION);
    assert TruncDiv(PRECISION * 1_000, BPS_DENOMINATOR) == PRECISION / 10;
    TruncDivUnique(ISOLATED.margin * ISOLATED.size, ISOLATED.size, ISOLATED.margin);
  }

  /** An account without positions is always reported on and covered, here with twenty of other collateral. */
  lemma EmptyReports(s: State)
    ensures Reportable(s, QUIET, [], 0) && Covered(s, QUIET, [], 0)
  {
    EmptySums(s, QUIET);
    assert !Counts(0, QUIET) && Others(QUIET) == 20 * PRECISION && Collateral(0, QUIET) == 20 * PRECISION;
    hide SumsFit, FigureTotal;
  }

  lemma Closes(s: State)
    requires Invariant(s) && Opened(s)
    ensures Apply(s, QUIET, CLOSE).Ok?
  {
    hide Invariant, Reportable, Covered, InsideBand, FundingFits, FundingDue, Payable, PriceMove, PnlOf, Released,
      ReleaseFits, InterestFits, Reduce, MARKET, Configured;
    ClosesNumbers(s);
    EmptyReports(s);
    assert s.Positions(TRADER)[0] == ISOLATED && [ISOLATED][..0] + [ISOLATED][1..] == [];
    assert Reducible(s, QUIET, TRADER, 0, 1, ISOLATED.size, PRECISION, true);
    CloseSucceedsIff(s, QUIET, TRADER, 1, PRECISION);
  }

  /** The position is open before the last call, which closes it. */
  lemma RunCloses()
    ensures var before, after := Run(InitialState("admin"), OPEN_AND_CLOSE[..3]),
                                 Run(InitialState("admin"), OPEN_AND_CLOSE);
      && before.Positions(TRADER) == [ISOLATED]
      && Apply(before, QUIET, CLOSE) == Ok(after)
  {
    hide Apply, Configured, Opened;
    ConfiguredRun();
    RunTake(InitialState("admin"), OPEN_AND_CLOSE, 2);
    RunTake(InitialState("admin"), OPEN_AND_CLOSE, 3);
    assert OPEN_AND_CLOSE[..2] == CALLS[..2];
    FirstOpens();
    InitiallySound("admin");
    RunSound(InitialState("admin"), OPEN_AND_CLOSE[..3]);
    var before := Run(InitialState("admin"), OPEN_AND_CLOSE[..3]);
    OpenedHolds(before);
    Closes(before);
  }

  lemma OpenedHolds(s: State)
    requires Opened(s)
    ensures s.Positions(TRADER) == [ISOLATED]
  {
  }
}
