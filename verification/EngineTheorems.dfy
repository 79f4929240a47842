/** What the invariant means to a trader, the insurance fund and an auditor. */
module EngineTheorems {
  import opened Outcomes
  import opened FixedPoint
  import opened MapSums
  import opened EngineState
  import opened Accounting
  import opened EngineTotals
  import opened EngineSpec
  import opened EngineArithmetic
  import opened EngineInvariant
  import opened EngineSafety
  import opened EngineRuns

  // ----- Funding

  /**
   In every run whose first call sets the insurance address, what funding paid,
   routed and still owes nets to zero, within one unit per settlement or routing;
   and what is booked as paid or routed is what accounts hold.
   */
  lemma FundingNetsToZero(admin: Address, calls: seq<(CallEnv, Op)>, m: nat)
    requires calls != [] && calls[0].1.OpSetInsurance?
    ensures var s := Run(InitialState(admin), calls);
      && Abs(FundingMoved(s, m)) <= (PRECISION - 1) * s.BookOf(m).roundings
      && MoneyExact(s)
  {
    hide Run, FundingMoved, MoneyExact;
    InitiallySound(admin);
    RunSound(InitialState(admin), calls);
    InsuredRoutesAll(InitialState(admin), calls);
    NothingUnrouted(Run(InitialState(admin), calls), m);
  }

  lemma NothingUnrouted(s: State, m: nat)
    requires Invariant(s) && AllRouted(s)
    ensures Abs(FundingMoved(s, m)) <= (PRECISION - 1) * s.BookOf(m).roundings && MoneyExact(s)
  {
    assert FundingConserved(s, m) && s.BookOf(m).unrouted == 0;
  }

  /**
   In every run, each account holds exactly what was moved from outside, the
   realized PnL and funding of its own positions, the surplus routed to it, and
   its fees received less paid.
   */
  lemma EveryAccountExact(admin: Address, calls: seq<(CallEnv, Op)>, user: Address)
    ensures var s := Run(InitialState(admin), calls);
      Balance(s.vault.balances, user) == Balance(s.books.external, user) + Balance(s.books.routed, user)
        + Balance(s.books.fees, user) + CashTotal(Due(user), s.books.cash)
  {
    hide Run;
    InitiallySound(admin);
    RunSound(InitialState(admin), calls);
    assert BalancesExact(Run(InitialState(admin), calls));
  }

  ghost predicate AllRouted(s: State) {
    s.store.insurance.Some? && forall m :: s.BookOf(m).unrouted == 0
  }

  lemma {:induction false} InsuredRoutesAll(s: State, calls: seq<(CallEnv, Op)>)
    requires Invariant(s) && s.books.funding == map[]
    requires calls != [] && calls[0].1.OpSetInsurance?
    ensures AllRouted(Run(s, calls))
  {
    var last := calls[|calls| - 1];
    var before := Run(s, calls[..|calls| - 1]);
    if |calls| == 1 {
      assert before == s;
    } else {
      InsuredRoutesAll(s, calls[..|calls| - 1]);
      RunSound(s, calls[..|calls| - 1]);
      RoutedStays(before, last.0, last.1);
    }
  }

  /** A call that books no new unrouted funding and keeps the insurance address. */
  ghost predicate RoutesAsBefore(s: State, t: State) {
    && (s.store.insurance.Some? ==> t.store.insurance.Some?)
    && forall m :: s.store.insurance.Some? ==> t.BookOf(m).unrouted == s.BookOf(m).unrouted
  }

  lemma SettledRoutes(s: State, t: State, user: Address, m: nat, pnl: int)
    requires SettledOnly(s, t, user, m, pnl)
    ensures RoutesAsBefore(s, t)
  {
  }

  lemma TradeRoutes(s: State, e: CallEnv, op: Op)
    requires Invariant(s) && IsTrade(op) && Apply(s, e, op).Ok?
    ensures RoutesAsBefore(s, Apply(s, e, op).value)
  {
    hide Apply, Invariant, MoveInterest, FundingPnl, CashSound, MarginKept, PositionSound, Replaced, SettledOnly,
      RoutesAsBefore;
    var index, trade := TradeDoes(s, e, op);
    if !op.OpOpen? {
      SettledRoutes(s, trade.settled, op.user, s.Positions(op.user)[index].marketId, trade.funding);
    }
    SameFundingRoutes(s, trade.settled, Apply(s, e, op).value);
  }

  /** Routing depends on the funding books and the insurance address alone. */
  lemma SameFundingRoutes(s: State, r: State, t: State)
    requires t.books.funding == r.books.funding && t.store.insurance == s.store.insurance
    ensures RoutesAsBefore(s, r) || r.books.funding == s.books.funding ==> RoutesAsBefore(s, t)
  {
    assert forall m :: t.BookOf(m) == r.BookOf(m);
  }

  lemma FundedRoutes(s: State, t: State, m: nat, delta: int)
    requires Funded(s, t, m, delta)
    ensures RoutesAsBefore(s, t)
  {
    hide TruncDiv;
  }

  lemma CallRoutes(s: State, e: CallEnv, op: Op)
    requires Invariant(s) && Apply(s, e, op).Ok?
    ensures RoutesAsBefore(s, Apply(s, e, op).value)
  {
    hide Apply, Invariant, RoutesAsBefore;
    if IsTrade(op) {
      TradeRoutes(s, e, op);
    } else if op.OpUpdateFunding? {
      FundingRoutes(s, e, op);
    } else if op.OpChargeTradeFee? {
      FeeRoutes(s, e, op);
    } else {
      SettingRoutes(s, e, op);
    }
  }

  lemma FundingRoutes(s: State, e: CallEnv, op: Op)
    requires Invariant(s) && op.OpUpdateFunding? && Apply(s, e, op).Ok?
    ensures RoutesAsBefore(s, Apply(s, e, op).value)
  {
    hide UpdateFunding, Invariant, RoutesAsBefore, Funded;
    var delta := UpdateFundingDoes(s, e.now, op.market);
    FundedRoutes(s, Apply(s, e, op).value, op.market, delta);
  }

  lemma FeeRoutes(s: State, e: CallEnv, op: Op)
    requires op.OpChargeTradeFee? && Apply(s, e, op).Ok?
    ensures RoutesAsBefore(s, Apply(s, e, op).value)
  {
    hide ChargeTradeFee;
    ChargeTradeFeeMoves(s, e, op.user, op.market, op.size, op.price, op.isMaker);
  }

  lemma SettingRoutes(s: State, e: CallEnv, op: Op)
    requires !IsTrade(op) && !op.OpUpdateFunding? && !op.OpChargeTradeFee? && Apply(s, e, op).Ok?
    ensures RoutesAsBefore(s, Apply(s, e, op).value)
  {
    hide SetMarket, UpdateFunding, ChargeTradeFee, Open, Increase, Reduce, Close, Credit;
    if op.OpSetMarket? {
      SetMarketRoutes(s, op.config);
    }
  }

  lemma SetMarketRoutes(s: State, config: EngineMarketConfig)
    requires SetMarket(s, config).Ok?
    ensures RoutesAsBefore(s, SetMarket(s, config).value)
  {
  }

  lemma RoutedStays(s: State, e: CallEnv, op: Op)
    requires Invariant(s) && AllRouted(s)
    ensures AllRouted(Next(s, e, op))
  {
    var t := Next(s, e, op);
    if Apply(s, e, op).Ok? {
      CallRoutes(s, e, op);
    }
    hide Apply, Invariant;
    forall m ensures t.BookOf(m).unrouted == 0 {
      assert s.BookOf(m).unrouted == 0;
    }
  }

  /** The hourly rate that the imbalance asks for, within the maximum; none without open interest. */
  function RateOf(cfg: FundingConfig, oiLong: int, oiShort: int): int {
    var total := oiLong + oiShort;
    if total == 0 then 0
    else
      var raw := TruncDiv(TruncDiv((oiLong - oiShort) * PRECISION, total) * cfg.imbalanceCoeff, PRECISION);
      Clamp(raw, -cfg.maxRatePerHour, cfg.maxRatePerHour)
  }

  /** How far an update at `now` moves the long index, from what is known before it. */
  function IndexMove(cfg: FundingConfig, current: FundingState, oiLong: int, oiShort: int, now: nat): int {
    if now <= current.lastUpdate then 0
    else TruncDiv(RateOf(cfg, oiLong, oiShort) * (now - current.lastUpdate), SECS_PER_HOUR)
  }

  /** The state an update leaves: nothing new unless time has passed. */
  function Updated(cfg: FundingConfig, current: FundingState, oiLong: int, oiShort: int, now: nat): FundingState {
    if now <= current.lastUpdate then current
    else
      var move := IndexMove(cfg, current, oiLong, oiShort, now);
      FundingState(current.longIndex + move, current.shortIndex - move, RateOf(cfg, oiLong, oiShort), now)
  }

  lemma UpdateMovesBy(cfg: FundingConfig, current: FundingState, oiLong: int, oiShort: int, now: nat)
    requires UpdateFromImbalance(cfg, current, oiLong, oiShort, now).Ok?
    ensures UpdateFromImbalance(cfg, current, oiLong, oiShort, now).value == Updated(cfg, current, oiLong, oiShort, now)
  {
    hide TruncDiv;
    NothingDivides(cfg.imbalanceCoeff, PRECISION);
    if now > current.lastUpdate {
      NothingDivides(now - current.lastUpdate, SECS_PER_HOUR);
    }
  }

  lemma NothingDivides(x: int, d: int)
    requires d > 0
    ensures TruncDiv(0 * x, d) == 0
  {
    assert 0 * x == 0;
  }

  /** The imbalance charge of an update of the market. */
  function ImbalanceChargeOf(s: State, now: nat, m: nat): int
    requires m in s.store.fundingConfigs
  {
    var oiLong, oiShort := s.SideInterest(m, true), s.SideInterest(m, false);
    IndexMove(s.store.fundingConfigs[m], s.FundingAt(m, now), oiLong, oiShort, now) * (oiLong - oiShort)
  }

  lemma UpdateCharges(s: State, now: nat, m: nat)
    requires UpdateFunding(s, now, m).Ok?
    ensures m in s.store.fundingConfigs
    ensures var current, (t, next) := s.FundingAt(m, now), UpdateFunding(s, now, m).value;
      && next == Updated(s.store.fundingConfigs[m], current, s.SideInterest(m, true), s.SideInterest(m, false), now)
      && m in t.store.fundingStates && t.store.fundingStates[m] == next
    ensures UpdateFunding(s, now, m).value.1.longIndex
         == s.FundingIndex(m, true)
           + IndexMove(s.store.fundingConfigs[m], s.FundingAt(m, now), s.SideInterest(m, true),
                       s.SideInterest(m, false), now)
  {
    hide UpdateFromImbalance, TruncDiv, RateOf, NetSurplus, RouteSurplus, BookFunding;
    UpdateMovesBy(s.store.fundingConfigs[m], s.FundingAt(m, now), s.SideInterest(m, true), s.SideInterest(m, false),
                  now);
  }

  /**
   Which updates conserve value, told from the state before: those with an
   insurance address set, and those whose imbalance charge is under one unit.
   Any other drops that charge.
   */
  lemma UpdateFundingLoss(s: State, now: nat, m: nat)
    requires Invariant(s) && UpdateFunding(s, now, m).Ok?
    ensures m in s.store.fundingConfigs
    ensures Abs(FundingMoved(UpdateFunding(s, now, m).value.0, m) - FundingMoved(s, m)) < PRECISION
       <==> s.store.insurance.Some? || Abs(ImbalanceChargeOf(s, now, m)) < PRECISION
  {
    hide UpdateFunding, Funded, InterestExact, FundingConserved, FundingMoved, IndexMove, MoneyExact;
    var delta := UpdateFundingDoes(s, now, m);
    UpdateCharges(s, now, m);
    assert InterestExact(s, m);
    FundedMoves(s, UpdateFunding(s, now, m).value.0, m, delta);
  }

  // ----- Averaged entry against a plain cash ledger

  /** What the adds and reduces of a position have earned when everything is valued at `mark`, scaled by PRECISION. */
  function CashFlowsAt(b: CashBook, mark: int): int {
    var bought := b.addedSize * mark - b.addedValue;
    var sold := b.reducedValue - b.reducedSize * mark;
    if b.position.isLong then bought + sold else -(bought + sold)
  }

  /** What the engine's accounting says: PnL already realized plus the open size against the averaged entry. */
  function AveragedValueAt(b: CashBook, mark: int): int {
    var p := b.position;
    PRECISION * b.realized + (if p.isLong then p.size * (mark - p.entryPrice) else p.size * (p.entryPrice - mark))
  }

  /** In every run, for every position ever opened and every mark, the two accounts agree up to rounding. */
  lemma AveragingRefinesCash(admin: Address, calls: seq<(CallEnv, Op)>, id: nat, mark: int)
    requires id in Run(InitialState(admin), calls).books.cash
    ensures var b := Run(InitialState(admin), calls).books.cash[id];
      Abs(AveragedValueAt(b, mark) - CashFlowsAt(b, mark)) <= b.slack
  {
    hide Invariant, Run, InitialState, AveragedValueAt, CashFlowsAt, CashResidual;
    InitiallySound(admin);
    RunSound(InitialState(admin), calls);
    var b := Run(InitialState(admin), calls).books.cash[id];
    BookIsSound(Run(InitialState(admin), calls), id);
    MarkCancels(b, mark);
  }

  lemma BookIsSound(s: State, id: nat)
    requires Invariant(s) && id in s.books.cash
    ensures CashSound(s.books.cash[id])
  {
  }

  lemma MarkCancels(b: CashBook, mark: int)
    requires b.addedSize - b.reducedSize == b.position.size
    ensures AveragedValueAt(b, mark) - CashFlowsAt(b, mark) == CashResidual(b)
  {
    var p := b.position;
    assert p.size * (mark - p.entryPrice) == p.size * mark - p.size * p.entryPrice;
    assert p.size * (p.entryPrice - mark) == p.size * p.entryPrice - p.size * mark;
    assert (b.addedSize - b.reducedSize) * mark == b.addedSize * mark - b.reducedSize * mark;
  }

  // ----- Isolated margin

  /**
   A call either leaves a position's ledger entry alone, or shrinks a live
   position keeping margin per unit, or is an increase of it.
   */
  lemma CallOnPosition(s: State, e: CallEnv, op: Op, id: nat)
    requires Invariant(s) && id in s.books.cash
    requires !(op.OpIncrease? && op.id == id)
    ensures id in Next(s, e, op).books.cash
    ensures var q, r := s.books.cash[id].position, Next(s, e, op).books.cash[id].position;
      r == q || (r.mode == q.mode && 0 <= r.size < q.size && MarginKept(q.mode, q.margin, q.size, r.margin, r.size))
  {
    if Apply(s, e, op).Ok? {
      if IsTrade(op) {
        hide Apply, Prepared, PreparedOpen, Committed, Invariant;
        var index, trade := TradeDoes(s, e, op);
        TradeOnPosition(s, Apply(s, e, op).value, op.user, index, trade, op.OpOpen?, id);
      } else {
        OtherCallsKeepCash(s, e, op);
      }
    }
  }

  lemma TradeOnPosition(s: State, t: State, user: Address, index: nat, trade: Trade, opens: bool, id: nat)
    requires CashBooksSound(s) && id in s.books.cash && Committed(s, t, user, trade)
    requires if opens then PreparedOpen(s, user, trade) else Prepared(s, user, index, trade)
    requires !opens && trade.after.id == id ==> trade.after.size < s.Positions(user)[index].size
    ensures id in t.books.cash
    ensures var q, r := s.books.cash[id].position, t.books.cash[id].position;
      r == q || (r.mode == q.mode && 0 <= r.size < q.size && MarginKept(q.mode, q.margin, q.size, r.margin, r.size))
  {
    hide MoveInterest, FundingPnl, MarginKept;
    if !opens {
      assert s.books.cash[trade.after.id].position == s.Positions(user)[index];
    }
  }

  lemma OtherCallsKeepCash(s: State, e: CallEnv, op: Op)
    requires !IsTrade(op) && Apply(s, e, op).Ok?
    ensures Apply(s, e, op).value.books.cash == s.books.cash
  {
    if op.OpUpdateFunding? {
      var _ := UpdateFundingDoes(s, e.now, op.market);
      hide UpdateFunding;
    } else if op.OpChargeTradeFee? {
      ChargeTradeFeeMoves(s, e, op.user, op.market, op.size, op.price, op.isMaker);
      hide ChargeTradeFee;
    }
  }

  lemma CompareThrough(a: int, x: int, b: int, y: int, c: int, z: int)
    requires a * y <= b * x && b * z <= c * y
    requires x >= 0 && y > 0 && z >= 0
    ensures a * z <= c * x
  {
    assert (a * y) * z <= (b * x) * z;
    assert x * (b * z) <= x * (c * y);
    assert (b * x) * z == x * (b * z);
    assert (a * y) * z == y * (a * z) && x * (c * y) == y * (c * x);
    assert y * (a * z) <= y * (c * x);
    ScaleReflectsOrder(a * z, c * x, y);
  }

  /**
   Over any run without an increase of the position, however its closing is
   split: margin per unit of size never falls, margin never goes negative or
   grows, and a full close of an isolated position releases all of it.
   */
  lemma {:induction false} MarginNeverDilutes(s: State, calls: seq<(CallEnv, Op)>, id: nat)
    requires Invariant(s) && id in s.books.cash && s.books.cash[id].position.size > 0
    requires s.books.cash[id].position.margin >= 0
    requires forall i | 0 <= i < |calls| :: !(calls[i].1.OpIncrease? && calls[i].1.id == id)
    ensures id in Run(s, calls).books.cash
    ensures var p, q := s.books.cash[id].position, Run(s, calls).books.cash[id].position;
      && q.mode == p.mode && 0 <= q.size <= p.size && 0 <= q.margin <= p.margin
      && p.margin * q.size <= q.margin * p.size
      && (p.mode == Isolated && q.size == 0 ==> q.margin == 0)
  {
    if calls != [] {
      var last := calls[|calls| - 1];
      var before := Run(s, calls[..|calls| - 1]);
      RunSound(s, calls[..|calls| - 1]);
      MarginNeverDilutes(s, calls[..|calls| - 1], id);
      CallOnPosition(before, last.0, last.1, id);
      var p, q, r := s.books.cash[id].position, before.books.cash[id].position, Run(s, calls).books.cash[id].position;
      if r != q {
        CompareThrough(p.margin, p.size, q.margin, q.size, r.margin, r.size);
      }
    }
  }

  // ----- Identity of positions

  /** The search loop's match is the only position with that id, whoever owns it. */
  lemma FindIndexIsOnly(s: State, user: Address, id: nat, other: Address, j: nat)
    requires Invariant(s) && FindIndex(s.Positions(user), id).Ok?
    requires j < |s.Positions(other)| && s.Positions(other)[j].id == id
    ensures other == user && j == FindIndex(s.Positions(user), id).value
  {
    var i := FindIndex(s.Positions(user), id).value;
    assert s.Positions(user)[i].id == s.Positions(other)[j].id;
  }

  lemma GoneEverywhere(s: State, t: State, user: Address, index: nat, p: Position)
    requires Invariant(s) && index < |s.Positions(user)| && p.size == 0
    requires t.store.positions == s.store.positions[user := Replaced(s.Positions(user), index, p)]
    ensures forall u, i | 0 <= i < |t.Positions(u)| :: t.Positions(u)[i].id != s.Positions(user)[index].id
  {
    ReplacedEntries(s.Positions(user), index, p);
    hide Replaced;
    assert IdsUnique(s);
    forall u, i | 0 <= i < |t.Positions(u)| ensures t.Positions(u)[i].id != s.Positions(user)[index].id {
      var j := if u == user then Source(0, index, i) else i;
      assert t.Positions(u)[i] == s.Positions(u)[j];
      assert s.Positions(u)[j].id == s.Positions(user)[index].id ==> u == user && j == index;
    }
  }

  lemma SizeMoves(s: State, t: State, user: Address, index: nat, trade: Trade)
    requires Prepared(s, user, index, trade) && Committed(s, t, user, trade)
    ensures var p := s.Positions(user)[index];
      t.SideInterest(p.marketId, p.isLong) == s.SideInterest(p.marketId, p.isLong) + trade.after.size - p.size
    ensures t.store.positions == s.store.positions[user := Replaced(s.Positions(user), index, trade.after)]
  {
    hide CashSound, FundingPnl, MarginKept, SettledOnly;
  }

  /** A close removes the position everywhere and takes exactly its size out of its side's open interest. */
  lemma CloseClears(s: State, e: CallEnv, user: Address, id: nat, price: int)
    requires Invariant(s) && Close(s, e, user, id, price).Ok?
    ensures var t := Close(s, e, user, id, price).value.0;
      var p := s.Positions(user)[FindIndex(s.Positions(user), id).value];
      && (forall u, i | 0 <= i < |t.Positions(u)| :: t.Positions(u)[i].id != id)
      && t.SideInterest(p.marketId, p.isLong) == s.SideInterest(p.marketId, p.isLong) - p.size
  {
    hide Invariant, Reduce, Prepared, Committed, Replaced;
    var index := FindIndex(s.Positions(user), id).value;
    var p := s.Positions(user)[index];
    var t := Close(s, e, user, id, price).value.0;
    var i0, trade := ReduceDoes(s, e, user, id, p.size, price, true);
    FindIndexIsOnly(s, user, id, user, i0);
    SizeMoves(s, t, user, index, trade);
    GoneEverywhere(s, t, user, index, trade.after);
  }
}
