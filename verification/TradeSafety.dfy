/** Which trades leave their account liquidatable, told from the state before them. */
module TradeSafety {
  import opened Outcomes
  import opened FixedPoint
  import opened EngineState
  import opened Accounting
  import opened VaultHealth
  import opened EngineSpec
  import opened EngineArithmetic
  import opened EngineInvariant
  import opened EngineSafety
  import opened EngineRuns
  import opened AccountMargin

  // ----- What a trade will leave, from what is known before it

  /** The user's other positions, the one traded as it will be, and the user's balance. */
  datatype Projection = Projection(others: seq<Position>, position: Position, balance: int)

  function Without(list: seq<Position>, index: nat): seq<Position>
    requires index < |list|
  {
    list[..index] + list[index + 1..]
  }

  function ProjectReduce(s: State, user: Address, id: nat, size: int, price: int): Result<Projection> {
    var list := s.Positions(user);
    var index :- FindIndex(list, id);
    var q := list[index];
    var funding :- FundingPnl(q, s.FundingIndex(q.marketId, q.isLong));
    var realized :- RealizedPnl(q, size, price);
    var margin :- MarginAfterReduce(q.mode, q.margin, q.size, size);
    var p := q.(size := q.size - size, margin := margin, lastFundingIndex := s.FundingIndex(q.marketId, q.isLong));
    Ok(Projection(Without(list, index), p, Balance(s.vault.balances, user) + funding + realized))
  }

  function Project(s: State, op: Op): Result<Projection> {
    match op
    case OpOpen(user, m, size, isLong, price, mode) =>
      var margin :- InitialMargin(mode, size, price, InitialRate(s, m));
      var p := Position(s.store.nextPositionId, user, m, size, price, margin, isLong, s.FundingIndex(m, isLong), mode);
      Ok(Projection(s.Positions(user), p, Balance(s.vault.balances, user)))
    case OpIncrease(user, id, size, price) =>
      var list := s.Positions(user);
      var index :- FindIndex(list, id);
      var q := list[index];
      var funding :- FundingPnl(q, s.FundingIndex(q.marketId, q.isLong));
      var entry :- AveragedEntry(q, size, price);
      var p := q.(size := q.size + size, entryPrice := entry,
                  lastFundingIndex := s.FundingIndex(q.marketId, q.isLong));
      Ok(Projection(Without(list, index), p, Balance(s.vault.balances, user) + funding))
    case OpReduce(user, id, size, price) => ProjectReduce(s, user, id, size, price)
    case OpLiquidate(user, id, size, price) => ProjectReduce(s, user, id, size, price)
    case OpClose(user, id, price) =>
      var index :- FindIndex(s.Positions(user), id);
      ProjectReduce(s, user, id, s.Positions(user)[index].size, price)
    case _ => Err(InvalidConfig)
  }

  /**
   One of the positions is isolated and short of its own maintenance margin, or
   the collateral that isolated margin leaves, with cross PnL, is less than the
   cross positions need.
   */
  ghost predicate Strained(s: State, e: CallEnv, others: seq<Position>, p: Position, collateral: int) {
    var needed := FigureTotal(CrossMaintained, s, e, others) + FigureOf(CrossMaintained, s, e, p);
    var left := collateral - FigureTotal(LockedMargin, s, e, others) - FigureOf(LockedMargin, s, e, p)
                + FigureTotal(CrossPnl, s, e, others) + FigureOf(CrossPnl, s, e, p);
    || (exists q | q in others :: IsolatedShort(s, e, q))
    || IsolatedShort(s, e, p)
    || (0 < needed && left < needed)
  }

  // ----- Sums over lists

  lemma TotalAppend(f: Figure, s: State, e: CallEnv, list: seq<Position>, p: Position)
    ensures FigureTotal(f, s, e, list + [p]) == FigureTotal(f, s, e, list) + FigureOf(f, s, e, p)
  {
    hide FigureOf;
    assert (list + [p])[..|list|] == list;
  }

  lemma {:induction false} TotalConcat(f: Figure, s: State, e: CallEnv, a: seq<Position>, b: seq<Position>)
    ensures FigureTotal(f, s, e, a + b) == FigureTotal(f, s, e, a) + FigureTotal(f, s, e, b)
  {
    hide FigureOf;
    if b == [] {
      assert a + b == a;
    } else {
      TotalConcat(f, s, e, a, b[..|b| - 1]);
      assert (a + b)[..|a + b| - 1] == a + b[..|b| - 1];
    }
  }

  /** A position that is gone counts for nothing. */
  predicate GoneIsNothing(p: Position) {
    p.size >= 0 && (p.size == 0 && p.mode == Isolated ==> p.margin == 0)
  }

  lemma NothingLeft(f: Figure, s: State, e: CallEnv, p: Position)
    requires p.size == 0 && GoneIsNothing(p)
    ensures FigureOf(f, s, e, p) == 0 && !IsolatedShort(s, e, p)
  {
    assert Unrealized(s, e, p) == 0;
    forall bps: nat ensures Share(e, p, bps) == 0 {
    }
    hide Unrealized, Share;
  }

  lemma TotalReplaced(f: Figure, s: State, e: CallEnv, list: seq<Position>, index: nat, p: Position)
    requires index < |list| && GoneIsNothing(p)
    ensures FigureTotal(f, s, e, Replaced(list, index, p))
         == FigureTotal(f, s, e, Without(list, index)) + FigureOf(f, s, e, p)
  {
    hide FigureOf, FigureTotal, GoneIsNothing;
    if p.size == 0 {
      NothingLeft(f, s, e, p);
    } else {
      TotalConcat(f, s, e, list[..index], list[index + 1..]);
      TotalAppend(f, s, e, list[..index], p);
      TotalConcat(f, s, e, list[..index] + [p], list[index + 1..]);
      assert list[index := p] == list[..index] + [p] + list[index + 1..];
    }
  }

  lemma ShortReplaced(s: State, e: CallEnv, list: seq<Position>, index: nat, p: Position)
    requires index < |list| && GoneIsNothing(p)
    ensures (exists q | q in Replaced(list, index, p) :: IsolatedShort(s, e, q))
       <==> (exists q | q in Without(list, index) :: IsolatedShort(s, e, q)) || IsolatedShort(s, e, p)
  {
    hide IsolatedShort, GoneIsNothing;
    if p.size == 0 {
      NothingLeft(CrossPnl, s, e, p);
    } else {
      assert list[index := p] == list[..index] + [p] + list[index + 1..];
      forall q ensures q in list[index := p] <==> q in Without(list, index) || q == p {
        assert q in list[index := p] <==> q in list[..index] || q == p || q in list[index + 1..];
      }
    }
  }

  lemma StrainedReplaced(s: State, e: CallEnv, list: seq<Position>, index: nat, p: Position, collateral: int)
    requires index < |list| && GoneIsNothing(p)
    ensures Underwater(s, e, Replaced(list, index, p), collateral)
       <==> Strained(s, e, Without(list, index), p, collateral)
  {
    hide FigureOf, FigureTotal, GoneIsNothing, IsolatedShort, Replaced, Without;
    TotalReplaced(CrossMaintained, s, e, list, index, p);
    TotalReplaced(LockedMargin, s, e, list, index, p);
    TotalReplaced(CrossPnl, s, e, list, index, p);
    ShortReplaced(s, e, list, index, p);
  }

  lemma StrainedAppended(s: State, e: CallEnv, list: seq<Position>, p: Position, collateral: int)
    ensures Underwater(s, e, list + [p], collateral) <==> Strained(s, e, list, p, collateral)
  {
    hide FigureOf, FigureTotal, IsolatedShort;
    TotalAppend(CrossMaintained, s, e, list, p);
    TotalAppend(LockedMargin, s, e, list, p);
    TotalAppend(CrossPnl, s, e, list, p);
    assert forall q :: q in list + [p] <==> q in list || q == p;
  }

  // ----- The figures are those of the state before

  /** Rates and indexes are as they were. */
  predicate SameRates(s: State, t: State) {
    t.store.markets == s.store.markets && t.store.fundingStates == s.store.fundingStates
  }

  lemma FigureAlike(f: Figure, s: State, t: State, e: CallEnv, p: Position)
    requires SameRates(s, t)
    ensures FigureOf(f, t, e, p) == FigureOf(f, s, e, p) && (IsolatedShort(t, e, p) <==> IsolatedShort(s, e, p))
  {
    assert Unrealized(t, e, p) == Unrealized(s, e, p);
    hide Unrealized, Share;
  }

  lemma {:induction false} TotalAlike(f: Figure, s: State, t: State, e: CallEnv, list: seq<Position>)
    requires SameRates(s, t)
    ensures FigureTotal(f, t, e, list) == FigureTotal(f, s, e, list)
  {
    hide FigureOf, SameRates;
    if list != [] {
      TotalAlike(f, s, t, e, list[..|list| - 1]);
      FigureAlike(f, s, t, e, list[|list| - 1]);
    }
  }

  lemma UnderwaterAlike(s: State, t: State, e: CallEnv, list: seq<Position>, collateral: int)
    requires SameRates(s, t)
    ensures Underwater(t, e, list, collateral) <==> Underwater(s, e, list, collateral)
  {
    hide FigureTotal, SameRates, IsolatedShort;
    TotalAlike(CrossMaintained, s, t, e, list);
    TotalAlike(LockedMargin, s, t, e, list);
    TotalAlike(CrossPnl, s, t, e, list);
    forall p ensures IsolatedShort(t, e, p) <==> IsolatedShort(s, e, p) {
      FigureAlike(CrossPnl, s, t, e, p);
    }
  }

  // ----- Trades do what was projected

  lemma OpenProjects(s: State, e: CallEnv, op: Op)
    requires Invariant(s) && op.OpOpen? && Apply(s, e, op).Ok?
    ensures var t, projected := Apply(s, e, op).value, Project(s, op);
      && projected.Ok? && SameRates(s, t)
      && t.Positions(op.user) == projected.value.others + [projected.value.position]
      && Balance(t.vault.balances, op.user) == projected.value.balance
  {
    hide Invariant, Open, InitialMargin, MoveInterest, CashSound, PositionSound;
    var trade := OpenDoes(s, e, op.user, op.market, op.size, op.isLong, op.price, op.mode);
  }

  /** The list with the position replaced, and the balance. */
  ghost predicate Carried(s: State, t: State, user: Address, index: nat, pr: Projection) {
    && index < |s.Positions(user)|
    && SameRates(s, t)
    && pr.others == Without(s.Positions(user), index)
    && t.Positions(user) == Replaced(s.Positions(user), index, pr.position)
    && GoneIsNothing(pr.position)
    && Balance(t.vault.balances, user) == pr.balance
  }

  lemma PreparedCarries(s: State, t: State, user: Address, index: nat, trade: Trade)
    requires Prepared(s, user, index, trade) && Committed(s, t, user, trade)
    requires s.Positions(user)[index].size > 0
    ensures var paid := trade.funding + trade.realized.GetOr(0);
      Carried(s, t, user, index,
              Projection(Without(s.Positions(user), index), trade.after, Balance(s.vault.balances, user) + paid))
  {
    hide FundingPnl, MoveInterest, CashSound, Replaced;
  }

  /** What is found, and that it is open. */
  lemma IndexFound(s: State, user: Address, id: nat, index: nat)
    requires Invariant(s) && index < |s.Positions(user)| && s.Positions(user)[index].id == id
    ensures FindIndex(s.Positions(user), id) == Ok(index) && s.Positions(user)[index].size > 0
  {
    assert ListSound(s, user);
  }

  lemma PreparedSettles(s: State, user: Address, index: nat, trade: Trade)
    requires Prepared(s, user, index, trade)
    ensures var q := s.Positions(user)[index];
      && trade.after == q.(size := trade.after.size, entryPrice := trade.after.entryPrice,
                           margin := trade.after.margin, lastFundingIndex := s.FundingIndex(q.marketId, q.isLong))
      && FundingPnl(q, s.FundingIndex(q.marketId, q.isLong)) == Ok(trade.funding)
  {
    hide FundingPnl, CashSound, SettledOnly;
  }

  lemma IncreaseProjects(s: State, e: CallEnv, user: Address, id: nat, size: int, price: int) returns (index: nat)
    requires Invariant(s) && Increase(s, e, user, id, size, price).Ok?
    ensures var projected := Project(s, OpIncrease(user, id, size, price));
      projected.Ok? && Carried(s, Increase(s, e, user, id, size, price).value.0, user, index, projected.value)
  {
    hide Invariant, Increase, AveragedEntry, FundingPnl, Prepared, Committed, Carried;
    var trade: Trade;
    index, trade := IncreaseDoes(s, e, user, id, size, price);
    IndexFound(s, user, id, index);
    PreparedSettles(s, user, index, trade);
    PreparedCarries(s, Increase(s, e, user, id, size, price).value.0, user, index, trade);
  }

  lemma ReduceProjects(s: State, e: CallEnv, user: Address, id: nat, size: int, price: int, requireMargin: bool)
    returns (index: nat)
    requires Invariant(s) && Reduce(s, e, user, id, size, price, requireMargin).Ok?
    ensures ProjectReduce(s, user, id, size, price).Ok?
    ensures Carried(s, Reduce(s, e, user, id, size, price, requireMargin).value.0, user, index,
                    ProjectReduce(s, user, id, size, price).value)
  {
    hide Invariant, Reduce, RealizedPnl, MarginAfterReduce, FundingPnl, Prepared, Committed, Carried;
    var trade: Trade;
    index, trade := ReduceDoes(s, e, user, id, size, price, requireMargin);
    IndexFound(s, user, id, index);
    PreparedSettles(s, user, index, trade);
    PreparedCarries(s, Reduce(s, e, user, id, size, price, requireMargin).value.0, user, index, trade);
  }

  /** A resize, whichever it is, leaves the list with one position replaced. */
  lemma ResizeProjects(s: State, e: CallEnv, op: Op) returns (index: nat)
    requires Invariant(s) && IsTrade(op) && !op.OpOpen? && Apply(s, e, op).Ok?
    ensures Project(s, op).Ok? && Carried(s, Apply(s, e, op).value, op.user, index, Project(s, op).value)
  {
    hide Invariant, Increase, Reduce, Carried, ProjectReduce;
    match op
    case OpIncrease(user, id, size, price) => index := IncreaseProjects(s, e, user, id, size, price);
    case OpReduce(user, id, size, price) => index := ReduceProjects(s, e, user, id, size, price, true);
    case OpLiquidate(user, id, size, price) => index := ReduceProjects(s, e, user, id, size, price, false);
    case OpClose(user, id, price) =>
      index := ReduceProjects(s, e, user, id, s.Positions(user)[FindIndex(s.Positions(user), id).value].size, price,
                              true);
  }

  // ----- The condition

  /**
   A trade, liquidations included, leaves its account liquidatable exactly when
   the account is strained by the projected position and balance: all of it known
   before the trade, from the position list, rates, indexes and prices then.
   */
  lemma TradeLiquidatableIff(s: State, e: CallEnv, op: Op)
    requires Invariant(s) && IsTrade(op) && Apply(s, e, op).Ok?
    ensures var health, projected := Health(Apply(s, e, op).value.vault, e, op.user), Project(s, op);
      && health.Ok? && projected.Ok?
      && var after, collateral := projected.value, CollateralValue(projected.value.balance, e);
      && collateral.Ok?
      && (health.value.liquidatable <==> Strained(s, e, after.others, after.position, collateral.value))
  {
    hide Invariant, Apply, Health, Project, Strained, Underwater, CollateralValue, Carried, SameRates;
    var t := Apply(s, e, op).value;
    ApplyKeeps(s, e, op);
    TradeLeavesHealth(s, e, op);
    HealthFormula(t, e, op.user);
    var collateral := Health(t.vault, e, op.user).value.collateralValue;
    UnderwaterOf(s, e, op, collateral);
  }

  lemma UnderwaterOf(s: State, e: CallEnv, op: Op, collateral: int)
    requires Invariant(s) && IsTrade(op) && Apply(s, e, op).Ok?
    ensures var t, projected := Apply(s, e, op).value, Project(s, op);
      && projected.Ok? && Balance(t.vault.balances, op.user) == projected.value.balance
      && (Underwater(t, e, t.Positions(op.user), collateral)
          <==> Strained(s, e, projected.value.others, projected.value.position, collateral))
  {
    hide Invariant, Apply, Project, Strained, Underwater, SameRates, GoneIsNothing;
    var t := Apply(s, e, op).value;
    if op.OpOpen? {
      OpenProjects(s, e, op);
      StrainedAppended(s, e, s.Positions(op.user), Project(s, op).value.position, collateral);
      OpenOthers(s, op);
    } else {
      var index := ResizeProjects(s, e, op);
      StrainedReplaced(s, e, s.Positions(op.user), index, Project(s, op).value.position, collateral);
    }
    UnderwaterAlike(s, t, e, t.Positions(op.user), collateral);
  }

  lemma OpenOthers(s: State, op: Op)
    requires op.OpOpen? && Project(s, op).Ok?
    ensures Project(s, op).value.others == s.Positions(op.user)
  {
  }
}
