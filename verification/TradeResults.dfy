/** What each trade call answers, in terms of the state before it. */
module TradeResults {
  import opened Outcomes
  import opened FixedPoint
  import opened EngineState
  import opened Accounting
  import opened VaultHealth
  import opened EngineSpec
  import opened EngineInvariant
  import opened EngineSafety
  import opened EngineRuns
  import opened AccountMargin
  import opened HealthReports
  import opened TradeSafety
  import opened TradeSuccess

  lemma EquityReported(s: State, t: State, e: CallEnv, user: Address)
    requires Invariant(t) && SameRates(s, t) && Health(t.vault, e, user).Ok?
    ensures Health(t.vault, e, user).value.equity
         == EquityOf(s, e, t.Positions(user), Balance(t.vault.balances, user))
  {
    hide Invariant, Health, FigureTotal, Collateral, SameRates, Worth, CollateralValue;
    HealthFormula(t, e, user);
    CollateralIs(Balance(t.vault.balances, user), e);
    TotalAlike(LockedMargin, s, t, e, t.Positions(user));
    TotalAlike(CrossPnl, s, t, e, t.Positions(user));
    TotalAlike(IsolatedEquity, s, t, e, t.Positions(user));
  }

  /** A reduction answers with what is left, what it realized, what it paid in funding, and the equity afterwards. */
  lemma ReduceAnswers(s: State, e: CallEnv, user: Address, index: nat, id: nat, size: int, price: int,
                      checkMargin: bool)
    requires Invariant(s) && index < |s.Positions(user)| && s.Positions(user)[index].id == id
    requires Reduce(s, e, user, id, size, price, checkMargin).Ok?
    ensures var q := s.Positions(user)[index];
      && q.size > 0
      && var due, realized := FundingDue(s, q), PnlOf(q, size, price);
         var after := Replaced(s.Positions(user), index, ReducedTo(s, q, size));
      Reduce(s, e, user, id, size, price, checkMargin).value.1
        == TradeResult(id, q.size - size, q.entryPrice, realized, due, price,
                       EquityOf(s, e, after, Balance(s.vault.balances, user) + due + realized))
  {
    hide Invariant, ReduceTrade, Commit, Health, FundingDue, PnlOf, Released, SameRates, Replaced, Prepared, Committed,
      Carried, EquityOf;
    var trade := ReduceTrade(s, e, user, id, size, price).value;
    var t := Commit(trade, user).value;
    ReduceTradeShape(s, e, user, index, id, size, price);
    CommitDoes(s, user, trade);
    TradeKeeps(s, t, user, index, trade);
    PreparedCarries(s, t, user, index, trade);
    CarriedMeans(s, t, user, index, trade);
    EquityReported(s, t, e, user);
  }

  lemma IncreaseAnswers(s: State, e: CallEnv, user: Address, index: nat, id: nat, size: int, price: int)
    requires Invariant(s) && index < |s.Positions(user)| && s.Positions(user)[index].id == id
    requires Increase(s, e, user, id, size, price).Ok?
    ensures var q := s.Positions(user)[index];
      && q.size > 0 && size > 0
      && var due := FundingDue(s, q);
         var after := s.Positions(user)[index := GrownTo(s, q, size, price)];
      Increase(s, e, user, id, size, price).value.1
        == TradeResult(id, q.size + size, EntryAfter(q, size, price), 0, due, price,
                       EquityOf(s, e, after, Balance(s.vault.balances, user) + due))
  {
    hide Invariant, IncreaseTrade, Commit, Health, FundingDue, EntryAfter, SameRates, Prepared, Committed, Carried,
      EquityOf;
    var trade := IncreaseTrade(s, e, user, id, size, price).value;
    var t := Commit(trade, user).value;
    IncreaseTradeShape(s, e, user, index, id, size, price);
    CommitDoes(s, user, trade);
    TradeKeeps(s, t, user, index, trade);
    PreparedCarries(s, t, user, index, trade);
    CarriedMeans(s, t, user, index, trade);
    EquityReported(s, t, e, user);
  }

  lemma OpenAnswers(s: State, e: CallEnv, user: Address, m: nat, size: int, isLong: bool, price: int, mode: MarginMode)
    requires Invariant(s) && Open(s, e, user, m, size, isLong, price, mode).Ok?
    ensures var after := s.Positions(user) + [OpenedAt(s, user, m, size, isLong, price, mode)];
      Open(s, e, user, m, size, isLong, price, mode).value.1
        == TradeResult(s.store.nextPositionId, size, price, 0, 0, price,
                       EquityOf(s, e, after, Balance(s.vault.balances, user)))
  {
    hide Invariant, OpenTrade, Commit, Health, SameRates, PreparedOpen, Committed, EquityOf, LockedAt;
    var trade := OpenTrade(s, e, user, m, size, isLong, price, mode).value;
    var t := Commit(trade, user).value;
    OpenTradeShape(s, e, user, m, size, isLong, price, mode);
    CommitDoes(s, user, trade);
    OpeningKeeps(s, t, user, trade);
    OpenCarries(s, t, user, trade);
    EquityReported(s, t, e, user);
  }
}
