/** The gateway opens cross positions only, so no fill leaves either of its parties liquidatable. */
module GatewaySafety {
  import opened Outcomes
  import opened Matching
  import opened EngineState
  import opened Accounting
  import opened VaultHealth
  import opened EngineSpec
  import opened EngineInvariant
  import opened EngineSafety
  import opened EngineRuns
  import opened AccountMargin
  import opened GatewayOrders
  import opened GatewaySettlement
  import opened GatewayRuns

  // ----- Only cross positions

  ghost predicate AllCross(s: State) {
    forall u, p | p in s.Positions(u) :: p.mode == Cross
  }

  lemma CrossReplace(list: seq<Position>, index: nat, p: Position)
    requires index < |list| && p.mode == Cross && forall q | q in list :: q.mode == Cross
    ensures forall q | q in Replaced(list, index, p) :: q.mode == Cross
  {
  }

  /** Only the user's list changed, and it holds cross positions. */
  lemma CrossElsewhere(s: State, t: State, user: Address)
    requires AllCross(s) && forall p | p in t.Positions(user) :: p.mode == Cross
    requires t.store.positions == s.store.positions[user := t.Positions(user)]
    ensures AllCross(t)
  {
    assert forall u :: u != user ==> t.Positions(u) == s.Positions(u);
  }

  lemma PreparedKeepsCross(s: State, t: State, user: Address, index: nat, trade: Trade)
    requires AllCross(s) && Prepared(s, user, index, trade) && Committed(s, t, user, trade)
    ensures AllCross(t)
  {
    hide MoveInterest, CashSound, FundingPnl, SettledOnly;
    assert s.Positions(user)[index] in s.Positions(user);
    CrossReplace(s.Positions(user), index, trade.after);
    CrossElsewhere(s, t, user);
  }

  lemma OpenKeepsCross(s: State, e: CallEnv, user: Address, m: nat, size: int, isLong: bool, price: int)
    requires Invariant(s) && AllCross(s) && Open(s, e, user, m, size, isLong, price, Cross).Ok?
    ensures AllCross(Open(s, e, user, m, size, isLong, price, Cross).value.0)
  {
    hide Invariant, Open, AllCross, MoveInterest, CashSound;
    var trade := OpenDoes(s, e, user, m, size, isLong, price, Cross);
    CrossOf(s, user);
    CrossElsewhere(s, Open(s, e, user, m, size, isLong, price, Cross).value.0, user);
  }

  lemma CrossOf(s: State, user: Address)
    requires AllCross(s)
    ensures forall p | p in s.Positions(user) :: p.mode == Cross
  {
  }

  lemma TradeKeepsCross(s: State, e: CallEnv, op: Op)
    requires Invariant(s) && AllCross(s) && IsTrade(op) && Apply(s, e, op).Ok?
    requires op.OpOpen? ==> op.mode == Cross
    ensures AllCross(Apply(s, e, op).value)
  {
    hide Invariant, AllCross, Prepared, PreparedOpen, Committed, Open, Increase, Reduce, Close;
    if op.OpOpen? {
      OpenKeepsCross(s, e, op.user, op.market, op.size, op.isLong, op.price);
    } else {
      var index, trade := TradeDoes(s, e, op);
      PreparedKeepsCross(s, Apply(s, e, op).value, op.user, index, trade);
    }
  }

  lemma SideKeepsCross(s: State, e: SideEnv, owner: Address, m: nat, isLong: bool, reduceOnly: bool, size: int,
                       price: int)
    requires Invariant(s) && AllCross(s) && SettleUserSide(s, e, owner, m, isLong, reduceOnly, size, price).Ok?
    ensures AllCross(SettleUserSide(s, e, owner, m, isLong, reduceOnly, size, price).value)
  {
    hide Invariant, Apply, LastOn, AllCross;
    var opposite, same := LastOn(s.Positions(owner), m, !isLong), LastOn(s.Positions(owner), m, isLong);
    if opposite.Some? {
      var closeSize := if opposite.value.size < size then opposite.value.size else size;
      var reduce := OpReduce(owner, opposite.value.id, closeSize, price);
      ApplyKeeps(s, e.first, reduce);
      TradeKeepsCross(s, e.first, reduce);
      if size > closeSize {
        TradeKeepsCross(Apply(s, e.first, reduce).value, e.second,
                        OpOpen(owner, m, size - closeSize, isLong, price, Cross));
      }
    } else if same.Some? {
      TradeKeepsCross(s, e.first, OpIncrease(owner, same.value.id, size, price));
    } else {
      TradeKeepsCross(s, e.first, OpOpen(owner, m, size, isLong, price, Cross));
    }
  }

  lemma SameListsCross(s: State, t: State)
    requires AllCross(s) && t.store.positions == s.store.positions
    ensures AllCross(t)
  {
    assert forall u :: t.Positions(u) == s.Positions(u);
  }

  lemma SideWithFeeKeepsCross(s: State, e: SideEnv, o: SignedOrder, size: int, price: int, isMaker: bool)
    requires Invariant(s) && AllCross(s) && SettleWithFee(s, e, o, size, price, isMaker).Ok?
    ensures AllCross(SettleWithFee(s, e, o, size, price, isMaker).value)
  {
    hide Invariant, Apply, SettleUserSide, AllCross;
    SideKeepsCross(s, e, o.owner, o.terms.marketId, o.terms.isLong, o.terms.reduceOnly, size, price);
    var t := SettleUserSide(s, e, o.owner, o.terms.marketId, o.terms.isLong, o.terms.reduceOnly, size, price).value;
    FeeMoves(t, e.fee, o.owner, o.terms.marketId, size, price, isMaker);
    SameListsCross(t, SettleWithFee(s, e, o, size, price, isMaker).value);
  }

  lemma FillKeepsCross(s: State, maker: SideEnv, taker: SideEnv, f: MatchedFill)
    requires Invariant(s) && AllCross(s) && ExecuteFill(s, maker, taker, f).Ok?
    ensures AllCross(ExecuteFill(s, maker, taker, f).value)
  {
    hide Invariant, SettleWithFee, AllCross;
    SideWithFeeMoves(s, maker, f.maker, f.size, f.price, true);
    SideWithFeeKeepsCross(s, maker, f.maker, f.size, f.price, true);
    var half := SettleWithFee(s, maker, f.maker, f.size, f.price, true).value;
    SideWithFeeKeepsCross(half, taker, f.taker, f.size, f.price, false);
  }

  lemma StepKeepsCross(g: System, call: Call)
    requires SystemSound(g) && AllCross(g.engine)
    ensures AllCross(GatewayRuns.Step(g, call).engine)
  {
    hide Invariant, Netted, ExecuteFill, RecordFill, ValidateFill, Apply, Reclaim, AllCross;
    match call
    case SettleFill(maker, taker, fill) =>
      if ExecuteFill(g.engine, maker, taker, fill).Ok? {
        FillKeepsCross(g.engine, maker, taker, fill);
      }
    case Liquidate(env, user, id, size, price) =>
      if Apply(g.engine, env, OpLiquidate(user, id, size, price)).Ok? {
        TradeKeepsCross(g.engine, env, OpLiquidate(user, id, size, price));
      }
    case EngineCall(env, op) =>
      if !IsTrade(op) && Apply(g.engine, env, op).Ok? {
        OthersKeepPositions(g.engine, env, op);
        SameListsCross(g.engine, Apply(g.engine, env, op).value);
      }
    case _ =>
  }

  /** In every history no one holds an isolated position. */
  lemma {:induction false} HistoryIsCross(admin: Address, calls: seq<Call>)
    ensures AllCross(History(Genesis(admin), calls).engine)
  {
    if calls != [] {
      hide SystemSound, GatewayRuns.Step, AllCross, Genesis;
      HistoryIsCross(admin, calls[..|calls| - 1]);
      HistorySound(admin, calls[..|calls| - 1]);
      StepKeepsCross(History(Genesis(admin), calls[..|calls| - 1]), calls[|calls| - 1]);
    }
  }

  // ----- Who is touched

  /** All other accounts, and the fee's recipient, are as they were. */
  ghost predicate Untouched(s: State, t: State, touched: set<Address>) {
    && t.store.feeRecipient == s.store.feeRecipient
    && SameMarkets(s.vault, t.vault)
    && forall u | u !in touched :: SameAccount(s.vault, t.vault, u)
  }

  lemma UntouchedTwice(s: State, r: State, t: State, a: set<Address>, b: set<Address>)
    requires Untouched(s, r, a) && Untouched(r, t, b)
    ensures Untouched(s, t, a + b)
  {
    forall u | u !in a + b ensures SameAccount(s.vault, t.vault, u) {
      assert SameAccount(s.vault, r.vault, u) && SameAccount(r.vault, t.vault, u);
    }
  }

  lemma OpenTouchesOne(s: State, t: State, user: Address, trade: Trade)
    requires PreparedOpen(s, user, trade) && Committed(s, t, user, trade)
    requires t.store.feeRecipient == s.store.feeRecipient
    ensures Untouched(s, t, {user})
  {
    hide MoveInterest, CashSound, PositionSound;
  }

  lemma PreparedTouchesOne(s: State, t: State, user: Address, index: nat, trade: Trade)
    requires Prepared(s, user, index, trade) && Committed(s, t, user, trade)
    requires t.store.feeRecipient == s.store.feeRecipient
    ensures Untouched(s, t, {user})
  {
    hide MoveInterest, CashSound, PositionSound, FundingPnl;
  }

  lemma TradeTouchesOne(s: State, e: CallEnv, op: Op)
    requires Invariant(s) && IsTrade(op) && Apply(s, e, op).Ok?
    ensures Untouched(s, Apply(s, e, op).value, {op.user})
  {
    hide Invariant, Apply, Prepared, PreparedOpen, Committed, Untouched;
    var index, trade := TradeDoes(s, e, op);
    CommittedRecipient(s, Apply(s, e, op).value, op.user, trade);
    if op.OpOpen? {
      OpenTouchesOne(s, Apply(s, e, op).value, op.user, trade);
    } else {
      PreparedTouchesOne(s, Apply(s, e, op).value, op.user, index, trade);
    }
  }

  lemma CommittedRecipient(s: State, t: State, user: Address, trade: Trade)
    requires Committed(s, t, user, trade)
    ensures t.store.feeRecipient == s.store.feeRecipient
  {
  }

  // ----- A side at one set of prices

  ghost predicate Safe(s: State, e: CallEnv, user: Address) {
    var h := Health(s.vault, e, user); h.Ok? && !h.value.liquidatable
  }

  lemma TradeIsSafe(s: State, e: CallEnv, op: Op)
    requires Invariant(s) && AllCross(s) && IsTrade(op) && !op.OpLiquidate? && Apply(s, e, op).Ok?
    requires op.OpOpen? ==> op.mode == Cross
    ensures Safe(Apply(s, e, op).value, e, op.user) && Untouched(s, Apply(s, e, op).value, {op.user})
  {
    hide Invariant, AllCross, Apply, Health, Untouched;
    TradeKeepsCross(s, e, op);
    CrossOf(Apply(s, e, op).value, op.user);
    TradeLeavesCrossSafe(s, e, op);
    TradeTouchesOne(s, e, op);
  }

  /** Prices do not move within a transaction. */
  function Steady(e: CallEnv): SideEnv {
    SideEnv(e, e, e)
  }

  lemma SideIsSafe(s: State, e: CallEnv, owner: Address, m: nat, isLong: bool, reduceOnly: bool, size: int, price: int)
    requires Invariant(s) && AllCross(s)
    requires SettleUserSide(s, Steady(e), owner, m, isLong, reduceOnly, size, price).Ok?
    ensures var t := SettleUserSide(s, Steady(e), owner, m, isLong, reduceOnly, size, price).value;
      Invariant(t) && Safe(t, e, owner) && Untouched(s, t, {owner})
  {
    hide Invariant, Apply, LastOn, AllCross, Safe, Untouched;
    var opposite, same := LastOn(s.Positions(owner), m, !isLong), LastOn(s.Positions(owner), m, isLong);
    if opposite.Some? {
      var closeSize := if opposite.value.size < size then opposite.value.size else size;
      var reduce := OpReduce(owner, opposite.value.id, closeSize, price);
      var reduced := Apply(s, e, reduce).value;
      ApplyKeeps(s, e, reduce);
      TradeIsSafe(s, e, reduce);
      if size > closeSize {
        var open := OpOpen(owner, m, size - closeSize, isLong, price, Cross);
        TradeKeepsCross(s, e, reduce);
        ApplyKeeps(reduced, e, open);
        TradeIsSafe(reduced, e, open);
        UntouchedTwice(s, reduced, Apply(reduced, e, open).value, {owner}, {owner});
        assert {owner} + {owner} == {owner};
      }
    } else {
      var op := if same.Some? then OpIncrease(owner, same.value.id, size, price)
                else OpOpen(owner, m, size, isLong, price, Cross);
      ApplyKeeps(s, e, op);
      TradeIsSafe(s, e, op);
    }
  }

  // ----- Its fee

  lemma SafeAlike(s: State, t: State, e: CallEnv, user: Address)
    requires SameAccount(s.vault, t.vault, user) && Safe(s, e, user)
    ensures Safe(t, e, user)
  {
    hide Health;
    HealthReadsOneAccount(s.vault, t.vault, e, user);
  }

  lemma FeeTouches(s: State, t: State, e: CallEnv, user: Address, m: nat, size: int, price: int, isMaker: bool)
    requires First(ChargeTradeFee(s, e, user, m, size, price, isMaker)) == Ok(t)
    ensures t.store == s.store && Untouched(s, t, {user, s.store.feeRecipient})
    ensures user == s.store.feeRecipient ==> SameAccount(s.vault, t.vault, user)
    ensures Richer(s.vault, t.vault, s.store.feeRecipient)
    ensures (var fees := FeesOf(s.store.feeConfigs, m); (if isMaker then fees.makerFeeBps else fees.takerFeeBps) == 0)
        ==> t == s
  {
    assert (var fees := FeesOf(s.store.feeConfigs, m); (if isMaker then fees.makerFeeBps else fees.takerFeeBps) == 0)
        ==> t == s;
    hide ChargeTradeFee;
    ChargeTradeFeeMoves(s, e, user, m, size, price, isMaker);
  }

  /** A fee, like a trade, leaves its payer safe. */
  lemma FeeIsSafe(s: State, t: State, e: CallEnv, user: Address, m: nat, size: int, price: int, isMaker: bool)
    requires First(ChargeTradeFee(s, e, user, m, size, price, isMaker)) == Ok(t)
    requires Invariant(t) && AllCross(t) && Safe(s, e, user)
    ensures Safe(t, e, user)
  {
    hide ChargeTradeFee, Invariant, Health, Untouched;
    FeeTouches(s, t, e, user, m, size, price, isMaker);
    var fees := FeesOf(s.store.feeConfigs, m);
    if user == s.store.feeRecipient {
      SafeAlike(s, t, e, user);
    } else if (if isMaker then fees.makerFeeBps else fees.takerFeeBps) != 0 {
      FeeIsMargined(s, e, user, m, size, price, isMaker);
      MarginedCrossIsSafe(t, e, user);
    }
  }

  lemma SideWithFeeIsSafe(s: State, e: CallEnv, o: SignedOrder, size: int, price: int, isMaker: bool)
    requires Invariant(s) && AllCross(s) && SettleWithFee(s, Steady(e), o, size, price, isMaker).Ok?
    ensures var t := SettleWithFee(s, Steady(e), o, size, price, isMaker).value;
      && Safe(t, e, o.owner) && Untouched(s, t, {o.owner, s.store.feeRecipient})
      && (o.owner != s.store.feeRecipient ==> Richer(s.vault, t.vault, s.store.feeRecipient))
  {
    hide Invariant, SettleUserSide, AllCross, Safe, Untouched, ChargeTradeFee, SameAccount, Richer;
    var m := o.terms.marketId;
    SideIsSafe(s, e, o.owner, m, o.terms.isLong, o.terms.reduceOnly, size, price);
    var r := SettleUserSide(s, Steady(e), o.owner, m, o.terms.isLong, o.terms.reduceOnly, size, price).value;
    var t := SettleWithFee(s, Steady(e), o, size, price, isMaker).value;
    SideWithFeeKeepsCross(s, Steady(e), o, size, price, isMaker);
    ApplyKeeps(r, e, OpChargeTradeFee(o.owner, m, size, price, isMaker));
    FeeTouches(r, t, e, o.owner, m, size, price, isMaker);
    FeeIsSafe(r, t, e, o.owner, m, size, price, isMaker);
    UntouchedTwice(s, r, t, {o.owner}, {o.owner, r.store.feeRecipient});
    UntouchedRecipient(s, r, {o.owner});
    if o.owner != s.store.feeRecipient {
      RicherThrough(s, r, t, {o.owner});
    }
    assert {o.owner} + {o.owner, s.store.feeRecipient} == {o.owner, s.store.feeRecipient};
  }

  lemma RicherThrough(s: State, r: State, t: State, touched: set<Address>)
    requires Untouched(s, r, touched) && s.store.feeRecipient !in touched
    requires Richer(r.vault, t.vault, r.store.feeRecipient)
    ensures Richer(s.vault, t.vault, s.store.feeRecipient)
  {
    assert SameAccount(s.vault, r.vault, s.store.feeRecipient);
  }

  lemma UntouchedRecipient(s: State, t: State, touched: set<Address>)
    requires Untouched(s, t, touched)
    ensures t.store.feeRecipient == s.store.feeRecipient
  {
  }

  // ----- A fill

  /** If the account can be reported on at all, it is not liquidatable. */
  ghost predicate SafeIfReported(s: State, e: CallEnv, user: Address) {
    var h := Health(s.vault, e, user); h.Ok? ==> !h.value.liquidatable
  }

  lemma RicherIsSafe(s: State, t: State, e: CallEnv, user: Address)
    requires Richer(s.vault, t.vault, user) && SoundlyPriced(e) && Safe(s, e, user)
    ensures SafeIfReported(t, e, user)
  {
    hide Health, Richer, SoundlyPriced;
    if Health(t.vault, e, user).Ok? {
      RicherHealth(s.vault, t.vault, e, user);
    }
  }

  /**
   A fill leaves neither party liquidatable, each judged by what it was settled
   under: its own deposits, and prices that did not move while it was settled. A
   maker who collects the fees ends with more than it was judged on.
   */
  lemma FillIsSafe(s: State, em: CallEnv, et: CallEnv, f: MatchedFill)
    requires Invariant(s) && AllCross(s) && f.maker.owner != f.taker.owner
    requires ExecuteFill(s, Steady(em), Steady(et), f).Ok?
    ensures var t := ExecuteFill(s, Steady(em), Steady(et), f).value;
      && Safe(t, et, f.taker.owner)
      && (f.maker.owner != s.store.feeRecipient ==> Safe(t, em, f.maker.owner))
      && (SoundlyPriced(em) ==> SafeIfReported(t, em, f.maker.owner))
  {
    hide Invariant, SettleWithFee, AllCross, Safe, SafeIfReported, SoundlyPriced, Richer, SameAccount;
    SideWithFeeMoves(s, Steady(em), f.maker, f.size, f.price, true);
    SideWithFeeKeepsCross(s, Steady(em), f.maker, f.size, f.price, true);
    SideWithFeeIsSafe(s, em, f.maker, f.size, f.price, true);
    var half := SettleWithFee(s, Steady(em), f.maker, f.size, f.price, true).value;
    SideWithFeeIsSafe(half, et, f.taker, f.size, f.price, false);
    var t := ExecuteFill(s, Steady(em), Steady(et), f).value;
    if f.maker.owner != s.store.feeRecipient {
      SafeAlike(half, t, em, f.maker.owner);
      SafeIsReported(t, em, f.maker.owner);
    } else if SoundlyPriced(em) {
      RicherIsSafe(half, t, em, f.maker.owner);
    }
  }

  lemma SafeIsReported(s: State, e: CallEnv, user: Address)
    requires Safe(s, e, user)
    ensures SafeIfReported(s, e, user)
  {
  }

  /**
   In every history of the deployed system, a settled fill leaves both its
   parties safe at the prices it settled at.
   */
  lemma SettledFillIsSafe(admin: Address, calls: seq<Call>, em: CallEnv, et: CallEnv, f: MatchedFill)
    requires var g := History(Genesis(admin), calls);
      && ValidateFill(g.orders, g.now, f).None? && RecordFill(g.orders, f).Ok?
      && ExecuteFill(g.engine, Steady(em), Steady(et), f).Ok?
    ensures var g := History(Genesis(admin), calls);
      var t := History(Genesis(admin), calls + [SettleFill(Steady(em), Steady(et), f)]).engine;
      && Safe(t, et, f.taker.owner)
      && (f.maker.owner != g.engine.store.feeRecipient ==> Safe(t, em, f.maker.owner))
      && (SoundlyPriced(em) ==> SafeIfReported(t, em, f.maker.owner))
  {
    hide ExecuteFill, RecordFill, AllCross, Safe, SafeIfReported, SoundlyPriced, Genesis, Invariant;
    HistorySound(admin, calls);
    HistoryIsCross(admin, calls);
    FillIsSafe(History(Genesis(admin), calls).engine, em, et, f);
    var last := SettleFill(Steady(em), Steady(et), f);
    assert (calls + [last])[..|calls|] == calls;
  }
}
