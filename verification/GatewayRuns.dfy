/** The gateway and the liquidator as the only ones who move positions, and what follows for every run. */
module GatewayRuns {
  import opened Outcomes
  import opened FixedPoint
  import opened Matching
  import opened EngineState
  import opened Accounting
  import opened VaultHealth
  import opened EngineTotals
  import opened EngineSpec
  import opened EngineInvariant
  import opened EngineSafety
  import opened EngineRuns
  import opened GatewayOrders
  import opened GatewaySettlement

  // ----- One position per market

  /** No user holds two positions in one market. */
  ghost predicate NettedList(list: seq<Position>) {
    forall i, j | 0 <= i < j < |list| :: list[i].marketId != list[j].marketId
  }

  ghost predicate Netted(s: State) {
    forall u :: NettedList(s.Positions(u))
  }

  ghost predicate Absent(list: seq<Position>, m: nat) {
    forall p | p in list :: p.marketId != m
  }

  lemma NettedReplace(list: seq<Position>, index: nat, p: Position)
    requires NettedList(list) && index < |list| && p.marketId == list[index].marketId
    ensures NettedList(Replaced(list, index, p))
    ensures p.size == 0 ==> Absent(Replaced(list, index, p), p.marketId)
  {
    ReplacedEntries(list, index, p);
  }

  /** Only the user's list changed. */
  lemma NettedElsewhere(s: State, t: State, user: Address)
    requires Netted(s) && NettedList(t.Positions(user))
    requires t.store.positions == s.store.positions[user := t.Positions(user)]
    ensures Netted(t)
  {
    forall u ensures NettedList(t.Positions(u)) {
      assert u != user ==> t.Positions(u) == s.Positions(u);
      assert NettedList(s.Positions(u));
    }
  }

  lemma PreparedNets(s: State, t: State, user: Address, index: nat, trade: Trade)
    requires Netted(s) && Prepared(s, user, index, trade) && Committed(s, t, user, trade)
    ensures Netted(t)
    ensures trade.after.size == 0 ==> Absent(t.Positions(user), trade.after.marketId)
  {
    hide MoveInterest, CashSound, FundingPnl, SettledOnly, NettedList, Absent;
    NettedReplace(s.Positions(user), index, trade.after);
    NettedElsewhere(s, t, user);
  }

  lemma IncreaseNets(s: State, e: CallEnv, user: Address, id: nat, size: int, price: int)
    requires Invariant(s) && Netted(s) && Increase(s, e, user, id, size, price).Ok?
    ensures Netted(Increase(s, e, user, id, size, price).value.0)
  {
    hide Invariant, Netted, Prepared, Committed, Increase;
    var index, trade := IncreaseDoes(s, e, user, id, size, price);
    PreparedNets(s, Increase(s, e, user, id, size, price).value.0, user, index, trade);
  }

  /** A full reduce leaves the user without a position in its market. */
  lemma ReduceNets(s: State, e: CallEnv, user: Address, p: Position, size: int, price: int, requireMargin: bool)
    requires Invariant(s) && Netted(s) && p in s.Positions(user)
          && Reduce(s, e, user, p.id, size, price, requireMargin).Ok?
    ensures var t := Reduce(s, e, user, p.id, size, price, requireMargin).value.0;
      Netted(t) && (size == p.size ==> Absent(t.Positions(user), p.marketId))
  {
    hide Invariant, Netted, Prepared, Committed, Reduce, Absent;
    var index, trade := ReduceDoes(s, e, user, p.id, size, price, requireMargin);
    OnlyHolder(s, user, index, p);
    PreparedMarket(s, user, index, trade);
    PreparedNets(s, Reduce(s, e, user, p.id, size, price, requireMargin).value.0, user, index, trade);
  }

  lemma PreparedMarket(s: State, user: Address, index: nat, trade: Trade)
    requires Prepared(s, user, index, trade)
    ensures trade.after.marketId == s.Positions(user)[index].marketId
  {
  }

  lemma OpenNets(s: State, e: CallEnv, user: Address, m: nat, size: int, isLong: bool, price: int, mode: MarginMode)
    requires Invariant(s) && Netted(s) && Open(s, e, user, m, size, isLong, price, mode).Ok?
    requires Absent(s.Positions(user), m)
    ensures Netted(Open(s, e, user, m, size, isLong, price, mode).value.0)
  {
    hide Invariant, Open;
    var trade := OpenDoes(s, e, user, m, size, isLong, price, mode);
    hide MoveInterest, CashSound;
    NettedElsewhere(s, Open(s, e, user, m, size, isLong, price, mode).value.0, user);
  }

  lemma SideNets(s: State, e: SideEnv, owner: Address, m: nat, isLong: bool, reduceOnly: bool, size: int, price: int)
    requires Invariant(s) && Netted(s) && SettleUserSide(s, e, owner, m, isLong, reduceOnly, size, price).Ok?
    ensures Netted(SettleUserSide(s, e, owner, m, isLong, reduceOnly, size, price).value)
  {
    hide Invariant, Open, Increase, Reduce, Netted;
    LastOnFound(s.Positions(owner), m, !isLong);
    LastOnFound(s.Positions(owner), m, isLong);
    var opposite, same := LastOn(s.Positions(owner), m, !isLong), LastOn(s.Positions(owner), m, isLong);
    if opposite.Some? {
      var p := opposite.value;
      var closeSize := if p.size < size then p.size else size;
      var reduced := Apply(s, e.first, OpReduce(owner, p.id, closeSize, price)).value;
      ApplyKeeps(s, e.first, OpReduce(owner, p.id, closeSize, price));
      ReduceNets(s, e.first, owner, p, closeSize, price, true);
      if size > closeSize {
        OpenNets(reduced, e.second, owner, m, size - closeSize, isLong, price, Cross);
      }
    } else if same.Some? {
      IncreaseNets(s, e.first, owner, same.value.id, size, price);
    } else {
      OpenNets(s, e.first, owner, m, size, isLong, price, Cross);
    }
  }

  lemma SideWithFeeNets(s: State, e: SideEnv, o: SignedOrder, size: int, price: int, isMaker: bool)
    requires Invariant(s) && Netted(s) && SettleWithFee(s, e, o, size, price, isMaker).Ok?
    ensures Netted(SettleWithFee(s, e, o, size, price, isMaker).value)
  {
    hide Invariant, SettleUserSide, Apply;
    var t := SettleUserSide(s, e, o.owner, o.terms.marketId, o.terms.isLong, o.terms.reduceOnly, size, price).value;
    SideNets(s, e, o.owner, o.terms.marketId, o.terms.isLong, o.terms.reduceOnly, size, price);
    FeeMoves(t, e.fee, o.owner, o.terms.marketId, size, price, isMaker);
    var r := SettleWithFee(s, e, o, size, price, isMaker).value;
    assert forall u :: r.Positions(u) == t.Positions(u);
  }

  lemma FillNets(s: State, maker: SideEnv, taker: SideEnv, f: MatchedFill)
    requires Invariant(s) && Netted(s) && ExecuteFill(s, maker, taker, f).Ok?
    ensures Netted(ExecuteFill(s, maker, taker, f).value)
  {
    hide Invariant, Netted, SettleWithFee;
    SideWithFeeMoves(s, maker, f.maker, f.size, f.price, true);
    SideWithFeeNets(s, maker, f.maker, f.size, f.price, true);
    SideWithFeeNets(SettleWithFee(s, maker, f.maker, f.size, f.price, true).value, taker, f.taker, f.size, f.price,
                    false);
  }

  /** With one position per market, a user's exposure is that position: long, short or none. */
  lemma {:induction false} ExposureIsPosition(list: seq<Position>, m: nat)
    requires NettedList(list)
    ensures var long, short := LastOn(list, m, true), LastOn(list, m, false);
      && (long.None? || short.None?)
      && SeqTotal(SideSize(m, true), list) == (if long.Some? then long.value.size else 0)
      && SeqTotal(SideSize(m, false), list) == (if short.Some? then short.value.size else 0)
  {
    if list != [] {
      var rest := list[..|list| - 1];
      ExposureIsPosition(rest, m);
      LastOnFound(rest, m, true);
      LastOnFound(rest, m, false);
    }
  }

  // ----- Runs

  /** `liquidated` is the net exposure that liquidations have taken out of each market. */
  datatype System = System(engine: State, orders: FillBook, now: nat, liquidated: map<nat, int>)

  datatype Call =
    | SettleFill(maker: SideEnv, taker: SideEnv, fill: MatchedFill)
    | CancelCall(key: OrderId, expiryTs: nat)
    | ReclaimCall(owner: string, nonces: seq<nat>)
    | Wait(seconds: nat)
    | Liquidate(env: CallEnv, user: Address, id: nat, size: int, price: int)
    | EngineCall(env: CallEnv, op: Op)  // funding updates, fees, settings and vault movements

  /** The engine refuses position calls from anyone but the gateway and the liquidator. */
  function Step(g: System, call: Call): System {
    match call
    case SettleFill(maker, taker, fill) =>
      var executed := ExecuteFill(g.engine, maker, taker, fill);
      if ValidateFill(g.orders, g.now, fill).None? && executed.Ok? && RecordFill(g.orders, fill).Ok?
      then g.(engine := executed.value, orders := RecordFill(g.orders, fill).value)
      else g
    case CancelCall(key, expiryTs) => g.(orders := CancelOrder(g.orders, key, expiryTs))
    case ReclaimCall(owner, nonces) => g.(orders := Reclaim(g.orders, g.now, owner, nonces))
    case Wait(seconds) => g.(now := g.now + seconds)
    case Liquidate(env, user, id, size, price) =>
      var r := Apply(g.engine, env, OpLiquidate(user, id, size, price));
      if r.Err? then g
      else
        var found := FindIndex(g.engine.Positions(user), id);
        if found.Err? then g
        else
          var p := g.engine.Positions(user)[found.value];
          g.(engine := r.value,
             liquidated := g.liquidated[p.marketId := Lookup(g.liquidated, p.marketId) + Signed(p.isLong, size)])
    case EngineCall(env, op) => if IsTrade(op) then g else g.(engine := EngineSpec.Next(g.engine, env, op))
  }

  function History(g: System, calls: seq<Call>): System {
    if calls == [] then g else Step(History(g, calls[..|calls| - 1]), calls[|calls| - 1])
  }

  function Genesis(admin: Address): System {
    System(InitialState(admin), FillBook(map[], map[]), 0, map[])
  }

  /** Whatever a market is out of balance by, liquidations took out. */
  ghost predicate BalancedButLiquidated(g: System) {
    forall m :: g.engine.SideInterest(m, true) - g.engine.SideInterest(m, false) + Lookup(g.liquidated, m) == 0
  }

  ghost predicate SystemSound(g: System) {
    Invariant(g.engine) && Netted(g.engine) && BalancedButLiquidated(g)
  }

  lemma InterestIsImbalance(s: State, m: nat)
    requires Invariant(s)
    ensures s.SideInterest(m, true) - s.SideInterest(m, false) == Imbalance(s, m)
  {
    assert InterestExact(s, m);
  }

  lemma BalanceCarries(g: System, h: System)
    requires Invariant(g.engine) && Invariant(h.engine) && BalancedButLiquidated(g)
    requires forall m ::
      Imbalance(h.engine, m) + Lookup(h.liquidated, m) == Imbalance(g.engine, m) + Lookup(g.liquidated, m)
    ensures BalancedButLiquidated(h)
  {
    hide Invariant, Imbalance;
    forall m ensures h.engine.SideInterest(m, true) - h.engine.SideInterest(m, false) + Lookup(h.liquidated, m) == 0 {
      InterestIsImbalance(g.engine, m);
      InterestIsImbalance(h.engine, m);
    }
  }

  lemma SettleKeepsSystem(g: System, maker: SideEnv, taker: SideEnv, f: MatchedFill)
    requires SystemSound(g)
    requires ValidateFill(g.orders, g.now, f).None? && ExecuteFill(g.engine, maker, taker, f).Ok?
          && RecordFill(g.orders, f).Ok?
    ensures SystemSound(Step(g, SettleFill(maker, taker, f)))
  {
    hide Invariant, Netted, ExecuteFill, RecordFill, Imbalance;
    FillTransfersExposure(g.engine, maker, taker, f);
    FillNets(g.engine, maker, taker, f);
    BalanceCarries(g, Step(g, SettleFill(maker, taker, f)));
  }

  lemma LiquidateKeepsSystem(g: System, e: CallEnv, user: Address, id: nat, size: int, price: int)
    requires SystemSound(g)
    ensures SystemSound(Step(g, Liquidate(e, user, id, size, price)))
  {
    hide Invariant, Netted, Reduce, Imbalance;
    var h := Step(g, Liquidate(e, user, id, size, price));
    var found := FindIndex(g.engine.Positions(user), id);
    if Apply(g.engine, e, OpLiquidate(user, id, size, price)).Ok? && found.Ok? {
      var p := g.engine.Positions(user)[found.value];
      ApplyKeeps(g.engine, e, OpLiquidate(user, id, size, price));
      ReduceMoves(g.engine, e, user, p, size, price, false);
      ReduceNets(g.engine, e, user, p, size, price, false);
      BalanceCarries(g, h);
    }
  }

  /** A call that is not a trade leaves every position list alone. */
  lemma OthersKeepPositions(s: State, e: CallEnv, op: Op)
    requires !IsTrade(op) && Apply(s, e, op).Ok?
    ensures Apply(s, e, op).value.store.positions == s.store.positions
  {
    if op.OpUpdateFunding? {
      hide UpdateFunding;
      var _ := UpdateFundingDoes(s, e.now, op.market);
    } else if op.OpChargeTradeFee? {
      hide ChargeTradeFee;
      ChargeTradeFeeMoves(s, e, op.user, op.market, op.size, op.price, op.isMaker);
    }
  }

  lemma EngineCallKeepsSystem(g: System, e: CallEnv, op: Op)
    requires SystemSound(g) && !IsTrade(op)
    ensures SystemSound(Step(g, EngineCall(e, op)))
  {
    hide Invariant, Apply;
    var t := EngineSpec.Next(g.engine, e, op);
    NextKeeps(g.engine, e, op);
    if Apply(g.engine, e, op).Ok? {
      OthersKeepPositions(g.engine, e, op);
    }
    assert t.store.positions == g.engine.store.positions;
    assert forall u :: t.Positions(u) == g.engine.Positions(u);
    BalanceCarries(g, Step(g, EngineCall(e, op)));
  }

  lemma StepKeepsSystem(g: System, call: Call)
    requires SystemSound(g)
    ensures SystemSound(Step(g, call))
  {
    hide Invariant, Netted, ExecuteFill, RecordFill, ValidateFill, Apply, Reclaim;
    match call
    case SettleFill(maker, taker, fill) =>
      if ValidateFill(g.orders, g.now, fill).None? && ExecuteFill(g.engine, maker, taker, fill).Ok?
        && RecordFill(g.orders, fill).Ok? {
        SettleKeepsSystem(g, maker, taker, fill);
      }
    case Liquidate(env, user, id, size, price) => LiquidateKeepsSystem(g, env, user, id, size, price);
    case EngineCall(env, op) => if !IsTrade(op) { EngineCallKeepsSystem(g, env, op); }
    case _ =>
  }

  /**
   In every history of the deployed system, the engine's invariant holds, no
   user holds two positions in a market, and longs less shorts is exactly what
   liquidations have taken out.
   */
  lemma {:induction false} HistorySound(admin: Address, calls: seq<Call>)
    ensures SystemSound(History(Genesis(admin), calls))
  {
    if calls == [] {
      InitiallySound(admin);
    } else {
      hide SystemSound, Step;
      HistorySound(admin, calls[..|calls| - 1]);
      StepKeepsSystem(History(Genesis(admin), calls[..|calls| - 1]), calls[|calls| - 1]);
    }
  }

  /** As far as orders go, a history is a run of the gateway's ledger, in which the engine accepts what it accepted. */
  function Projected(g: System, call: Call): GatewayOrders.Step {
    match call
    case SettleFill(maker, taker, fill) => Settle(fill, ExecuteFill(g.engine, maker, taker, fill).Ok?)
    case CancelCall(key, expiryTs) => Cancel(key, expiryTs)
    case ReclaimCall(owner, nonces) => Prune(owner, nonces)
    case Wait(seconds) => Tick(seconds)
    case _ => Tick(0)
  }

  function ProjectedRun(g: System, calls: seq<Call>): seq<GatewayOrders.Step> {
    if calls == [] then []
    else
      var k := |calls| - 1;
      ProjectedRun(g, calls[..k]) + [Projected(History(g, calls[..k]), calls[k])]
  }

  lemma ProjectedStep(l: Ledger, g: System, call: Call)
    requires l.book == g.orders && l.now == g.now
    ensures var next := GatewayOrders.Next(l, Projected(g, call)); var h := Step(g, call);
      next.book == h.orders && next.now == h.now
  {
    hide ExecuteFill, RecordFill, ValidateFill, Apply, Reclaim;
  }

  /** So everything shown of the ledger, no overfill in particular, holds with the engine in the loop. */
  lemma {:induction false} HistoryProjects(admin: Address, calls: seq<Call>)
    ensures var l := GatewayOrders.Run(EMPTY, ProjectedRun(Genesis(admin), calls));
      var g := History(Genesis(admin), calls);
      l.book == g.orders && l.now == g.now
  {
    hide Step, Projected, GatewayOrders.Next;
    if calls != [] {
      var k := |calls| - 1;
      HistoryProjects(admin, calls[..k]);
      var before := ProjectedRun(Genesis(admin), calls[..k]);
      assert ProjectedRun(Genesis(admin), calls)[..|before|] == before;
      ProjectedStep(GatewayOrders.Run(EMPTY, before), History(Genesis(admin), calls[..k]), calls[k]);
    }
  }

  // ----- Funding needs a liquidation

  /** The funding of a market has never moved. */
  ghost predicate FundingIdle(s: State, m: nat) {
    m in s.store.fundingStates ==>
      var f := s.store.fundingStates[m]; f.longIndex == 0 && f.shortIndex == 0 && f.ratePerHour == 0
  }

  lemma BalancedChargesNothing(cfg: FundingConfig, state: FundingState, oi: int, now: nat)
    requires UpdateFromImbalance(cfg, state, oi, oi, now).Ok?
    requires state.longIndex == 0 && state.shortIndex == 0 && state.ratePerHour == 0
    ensures var next := UpdateFromImbalance(cfg, state, oi, oi, now).value;
      next.longIndex == 0 && next.shortIndex == 0 && next.ratePerHour == 0
  {
  }

  lemma OpKeepsFunding(s: State, e: CallEnv, op: Op)
    requires Invariant(s) && Apply(s, e, op).Ok? && !op.OpUpdateFunding? && !op.OpSetFundingConfig?
    ensures Apply(s, e, op).value.store.fundingStates == s.store.fundingStates
  {
    if IsTrade(op) {
      hide Invariant, Apply, Prepared, PreparedOpen;
      var _, trade := TradeDoes(s, e, op);
    } else if op.OpChargeTradeFee? {
      hide Invariant, ChargeTradeFee;
      ChargeTradeFeeMoves(s, e, op.user, op.market, op.size, op.price, op.isMaker);
    }
  }

  lemma SideKeepsFunding(s: State, e: SideEnv, owner: Address, m: nat, isLong: bool, reduceOnly: bool, size: int,
                         price: int)
    requires Invariant(s) && SettleUserSide(s, e, owner, m, isLong, reduceOnly, size, price).Ok?
    ensures SettleUserSide(s, e, owner, m, isLong, reduceOnly, size, price).value.store.fundingStates
      == s.store.fundingStates
  {
    hide Invariant, Apply, LastOn;
    var opposite, same := LastOn(s.Positions(owner), m, !isLong), LastOn(s.Positions(owner), m, isLong);
    if opposite.Some? {
      var closeSize := if opposite.value.size < size then opposite.value.size else size;
      var reduce := OpReduce(owner, opposite.value.id, closeSize, price);
      ApplyKeeps(s, e.first, reduce);
      OpKeepsFunding(s, e.first, reduce);
      if size > closeSize {
        OpKeepsFunding(Apply(s, e.first, reduce).value, e.second,
                       OpOpen(owner, m, size - closeSize, isLong, price, Cross));
      }
    } else if same.Some? {
      OpKeepsFunding(s, e.first, OpIncrease(owner, same.value.id, size, price));
    } else {
      OpKeepsFunding(s, e.first, OpOpen(owner, m, size, isLong, price, Cross));
    }
  }

  lemma SideWithFeeKeepsFunding(s: State, e: SideEnv, o: SignedOrder, size: int, price: int, isMaker: bool)
    requires Invariant(s) && SettleWithFee(s, e, o, size, price, isMaker).Ok?
    ensures SettleWithFee(s, e, o, size, price, isMaker).value.store.fundingStates == s.store.fundingStates
  {
    hide Invariant, Apply, SettleUserSide;
    SideKeepsFunding(s, e, o.owner, o.terms.marketId, o.terms.isLong, o.terms.reduceOnly, size, price);
    var t := SettleUserSide(s, e, o.owner, o.terms.marketId, o.terms.isLong, o.terms.reduceOnly, size, price).value;
    FeeMoves(t, e.fee, o.owner, o.terms.marketId, size, price, isMaker);
  }

  lemma FillKeepsFunding(s: State, maker: SideEnv, taker: SideEnv, f: MatchedFill)
    requires Invariant(s) && ExecuteFill(s, maker, taker, f).Ok?
    ensures ExecuteFill(s, maker, taker, f).value.store.fundingStates == s.store.fundingStates
  {
    hide Invariant, SettleWithFee;
    SideWithFeeMoves(s, maker, f.maker, f.size, f.price, true);
    SideWithFeeKeepsFunding(s, maker, f.maker, f.size, f.price, true);
    SideWithFeeKeepsFunding(SettleWithFee(s, maker, f.maker, f.size, f.price, true).value, taker, f.taker, f.size,
                            f.price, false);
  }

  lemma UpdateKeepsIdle(s: State, now: nat, k: nat, m: nat)
    requires FundingIdle(s, m) && s.SideInterest(m, true) == s.SideInterest(m, false)
    requires UpdateFunding(s, now, k).Ok?
    ensures FundingIdle(UpdateFunding(s, now, k).value.0, m)
  {
    hide UpdateFromImbalance, NetSurplus, RouteSurplus, BookFunding;
    if k == m {
      BalancedChargesNothing(s.store.fundingConfigs[m], s.FundingAt(m, now), s.SideInterest(m, true), now);
    }
  }

  lemma EngineCallKeepsIdle(s: State, e: CallEnv, op: Op, m: nat)
    requires Invariant(s) && !IsTrade(op) && FundingIdle(s, m) && s.SideInterest(m, true) == s.SideInterest(m, false)
    ensures FundingIdle(EngineSpec.Next(s, e, op), m)
  {
    if Apply(s, e, op).Ok? {
      if op.OpUpdateFunding? {
        hide Invariant, FundingIdle, UpdateFunding;
        UpdateKeepsIdle(s, e.now, op.market, m);
      } else if !op.OpSetFundingConfig? {
        hide Invariant, Apply;
        OpKeepsFunding(s, e, op);
      }
    }
  }

  lemma StepKeepsIdle(g: System, call: Call, m: nat)
    requires SystemSound(g) && Lookup(g.liquidated, m) == 0 && FundingIdle(g.engine, m)
    ensures FundingIdle(Step(g, call).engine, m)
  {
    hide Invariant, Netted, ExecuteFill, RecordFill, ValidateFill, Apply, Reclaim;
    match call
    case SettleFill(maker, taker, fill) =>
      if ExecuteFill(g.engine, maker, taker, fill).Ok? {
        FillKeepsFunding(g.engine, maker, taker, fill);
      }
    case Liquidate(env, user, id, size, price) =>
      if Apply(g.engine, env, OpLiquidate(user, id, size, price)).Ok? {
        OpKeepsFunding(g.engine, env, OpLiquidate(user, id, size, price));
      }
    case EngineCall(env, op) =>
      if !IsTrade(op) {
        assert g.engine.SideInterest(m, true) == g.engine.SideInterest(m, false);
        hide FundingIdle;
        EngineCallKeepsIdle(g.engine, env, op, m);
      }
    case _ =>
  }

  /**
   Matched fills alone never create a funding charge: until liquidations leave a
   market out of balance its indexes stay at zero.
   */
  lemma {:induction false} FundingNeedsLiquidation(admin: Address, calls: seq<Call>, m: nat)
    requires forall k | 0 <= k <= |calls| :: Lookup(History(Genesis(admin), calls[..k]).liquidated, m) == 0
    ensures FundingIdle(History(Genesis(admin), calls).engine, m)
  {
    hide SystemSound, Step, Genesis;
    if calls == [] {
      NothingFunded(admin, m);
    } else {
      var k := |calls| - 1;
      assert forall j | 0 <= j <= k :: calls[..k][..j] == calls[..j];
      FundingNeedsLiquidation(admin, calls[..k], m);
      HistorySound(admin, calls[..k]);
      StepKeepsIdle(History(Genesis(admin), calls[..k]), calls[k], m);
    }
  }

  lemma NothingFunded(admin: Address, m: nat)
    ensures FundingIdle(Genesis(admin).engine, m)
  {
  }
}
