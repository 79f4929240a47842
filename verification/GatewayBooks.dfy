/** What a fill books: each side its own fee rate, both at the fill's price; reduce-only sides only reduce. */
module GatewayBooks {
  import opened Outcomes
  import opened FixedPoint
  import opened MapSums
  import opened Matching
  import opened EngineState
  import opened Accounting
  import opened EngineTotals
  import opened EngineSpec
  import opened EngineInvariant
  import opened EngineSafety
  import opened EngineRuns
  import opened GatewayOrders
  import opened GatewaySettlement
  import opened GatewayRuns

  // ----- Fees

  /** Fees, their rates and their recipient are as they were. */
  predicate FeesAlike(s: State, t: State) {
    && t.books.fees == s.books.fees
    && t.store.feeConfigs == s.store.feeConfigs && t.store.feeRecipient == s.store.feeRecipient
  }

  lemma PreparedKeepsFees(s: State, t: State, user: Address, index: nat, trade: Trade)
    requires Prepared(s, user, index, trade) && Committed(s, t, user, trade)
    ensures FeesAlike(s, t)
  {
    hide MoveInterest, FundingPnl, CashSound, PositionSound, Replaced, Paid;
  }

  lemma OpenKeepsFees(s: State, t: State, user: Address, trade: Trade)
    requires PreparedOpen(s, user, trade) && Committed(s, t, user, trade)
    ensures FeesAlike(s, t)
  {
    hide MoveInterest, CashSound, PositionSound, Paid;
  }

  lemma TradeKeepsFees(s: State, e: CallEnv, op: Op)
    requires Invariant(s) && IsTrade(op) && Apply(s, e, op).Ok?
    ensures FeesAlike(s, Apply(s, e, op).value)
  {
    hide Invariant, Apply, Prepared, PreparedOpen, Committed, FeesAlike;
    var index, trade := TradeDoes(s, e, op);
    if op.OpOpen? {
      OpenKeepsFees(s, Apply(s, e, op).value, op.user, trade);
    } else {
      PreparedKeepsFees(s, Apply(s, e, op).value, op.user, index, trade);
    }
  }

  lemma SideKeepsFees(s: State, e: SideEnv, owner: Address, m: nat, isLong: bool, reduceOnly: bool, size: int,
                      price: int)
    requires Invariant(s) && SettleUserSide(s, e, owner, m, isLong, reduceOnly, size, price).Ok?
    ensures FeesAlike(s, SettleUserSide(s, e, owner, m, isLong, reduceOnly, size, price).value)
  {
    hide Invariant, Apply, LastOn;
    var opposite, same := LastOn(s.Positions(owner), m, !isLong), LastOn(s.Positions(owner), m, isLong);
    if opposite.Some? {
      var closeSize := if opposite.value.size < size then opposite.value.size else size;
      var reduce := OpReduce(owner, opposite.value.id, closeSize, price);
      ApplyKeeps(s, e.first, reduce);
      TradeKeepsFees(s, e.first, reduce);
      if size > closeSize {
        TradeKeepsFees(Apply(s, e.first, reduce).value, e.second,
                       OpOpen(owner, m, size - closeSize, isLong, price, Cross));
      }
    } else if same.Some? {
      TradeKeepsFees(s, e.first, OpIncrease(owner, same.value.id, size, price));
    } else {
      TradeKeepsFees(s, e.first, OpOpen(owner, m, size, isLong, price, Cross));
    }
  }

  /** A side is charged the rate of its role on its market. */
  lemma SideCharges(s: State, e: SideEnv, o: SignedOrder, size: int, price: int, isMaker: bool) returns (fee: int)
    requires Invariant(s) && SettleWithFee(s, e, o, size, price, isMaker).Ok?
    ensures var t, fees := SettleWithFee(s, e, o, size, price, isMaker).value,
                           FeesOf(s.store.feeConfigs, o.terms.marketId);
      && FeeOf(fee, size, price, if isMaker then fees.makerFeeBps else fees.takerFeeBps)
      && Transferred(s.books.fees, t.books.fees, o.owner, s.store.feeRecipient, fee)
      && t.store.feeConfigs == s.store.feeConfigs && t.store.feeRecipient == s.store.feeRecipient
  {
    hide Invariant, SettleUserSide, ChargeTradeFee, FeeOf, Transferred;
    var m := o.terms.marketId;
    SideKeepsFees(s, e, o.owner, m, o.terms.isLong, o.terms.reduceOnly, size, price);
    var r := SettleUserSide(s, e, o.owner, m, o.terms.isLong, o.terms.reduceOnly, size, price).value;
    ChargeTradeFeeMoves(r, e.fee, o.owner, m, size, price, isMaker);
    fee := ChargeTradeFee(r, e.fee, o.owner, m, size, price, isMaker).value.1;
  }

  /** Maker and taker each pay their fee, and the recipient gets both. */
  ghost predicate FeesPaid(s: State, t: State, f: MatchedFill, makerFee: int, takerFee: int) {
    forall u :: Balance(t.books.fees, u)
      == Balance(s.books.fees, u) - (if u == f.maker.owner then makerFee else 0)
         - (if u == f.taker.owner then takerFee else 0)
         + (if u == s.store.feeRecipient then makerFee + takerFee else 0)
  }

  /** Of a fill the maker pays the maker's rate and the taker the taker's, as they were before it. */
  lemma FillCharges(s: State, maker: SideEnv, taker: SideEnv, f: MatchedFill) returns (makerFee: int, takerFee: int)
    requires Invariant(s) && ExecuteFill(s, maker, taker, f).Ok?
    ensures FeeOf(makerFee, f.size, f.price, FeesOf(s.store.feeConfigs, f.maker.terms.marketId).makerFeeBps)
    ensures FeeOf(takerFee, f.size, f.price, FeesOf(s.store.feeConfigs, f.taker.terms.marketId).takerFeeBps)
    ensures FeesPaid(s, ExecuteFill(s, maker, taker, f).value, f, makerFee, takerFee)
  {
    hide Invariant, SettleWithFee, FeeOf;
    SideWithFeeMoves(s, maker, f.maker, f.size, f.price, true);
    makerFee := SideCharges(s, maker, f.maker, f.size, f.price, true);
    takerFee := SideCharges(SettleWithFee(s, maker, f.maker, f.size, f.price, true).value, taker, f.taker, f.size,
                            f.price, false);
  }

  /** In every history: whenever a settlement goes through, those are the fees it moves. */
  lemma SettledFillCharges(admin: Address, calls: seq<Call>, maker: SideEnv, taker: SideEnv, f: MatchedFill)
    returns (makerFee: int, takerFee: int)
    requires var g := History(Genesis(admin), calls);
      && ValidateFill(g.orders, g.now, f).None? && RecordFill(g.orders, f).Ok?
      && ExecuteFill(g.engine, maker, taker, f).Ok?
    ensures var s := History(Genesis(admin), calls).engine;
      var t := History(Genesis(admin), calls + [SettleFill(maker, taker, f)]).engine;
      var fees := FeesOf(s.store.feeConfigs, f.maker.terms.marketId);
      && FeeOf(makerFee, f.size, f.price, fees.makerFeeBps) && FeeOf(takerFee, f.size, f.price, fees.takerFeeBps)
      && FeesPaid(s, t, f, makerFee, takerFee)
  {
    hide ExecuteFill, RecordFill, Genesis, Invariant, FeeOf, FeesPaid;
    HistorySound(admin, calls);
    makerFee, takerFee := FillCharges(History(Genesis(admin), calls).engine, maker, taker, f);
    var last := SettleFill(maker, taker, f);
    assert (calls + [last])[..|calls|] == calls;
    SameMarket(History(Genesis(admin), calls), f);
  }

  lemma SameMarket(g: System, f: MatchedFill)
    requires ValidateFill(g.orders, g.now, f).None?
    ensures f.maker.terms.marketId == f.taker.terms.marketId
  {
  }

  // ----- Which sides settle

  /** How much of the user's exposure a side on `isLong` would undo. */
  ghost function Against(s: State, owner: Address, m: nat, isLong: bool): int {
    Signed(!isLong, Exposure(s, owner, m))
  }

  /** With netted positions, exposure against a side is one position on the other, and exposure with it one on it. */
  lemma AgainstIsPosition(s: State, owner: Address, m: nat, isLong: bool)
    requires Invariant(s) && Netted(s)
    ensures var list, x := s.Positions(owner), Against(s, owner, m, isLong);
      var opposite, same := LastOn(list, m, !isLong), LastOn(list, m, isLong);
      && (opposite.Some? <==> x > 0) && (opposite.Some? ==> opposite.value.size == x)
      && (same.Some? <==> x < 0) && (same.Some? ==> same.value.size == -x)
  {
    assert NettedList(s.Positions(owner));
    assert ListSound(s, owner);
    ExposureIsPosition(s.Positions(owner), m);
    LastOnFound(s.Positions(owner), m, true);
    LastOnFound(s.Positions(owner), m, false);
    hide Invariant, Netted, NettedList, SeqTotal, LastOn, ListSound;
  }

  /** The user's position on a side of a market. */
  ghost predicate HeldOn(s: State, owner: Address, m: nat, isLong: bool, p: Position) {
    p in s.Positions(owner) && p.marketId == m && p.isLong == isLong
  }

  /**
   A side settles if and only if: where the user is exposed against it, that
   position can be reduced by as much as both allow and what is left of the side,
   if anything, may be and can be opened; where the user is exposed with it, it is
   not reduce-only and the position can be increased; and otherwise it is not
   reduce-only and can be opened.
   */
  lemma SideSettlesIff(s: State, e: SideEnv, owner: Address, m: nat, isLong: bool, reduceOnly: bool, size: int,
                       price: int)
    requires Invariant(s) && Netted(s)
    ensures SettleUserSide(s, e, owner, m, isLong, reduceOnly, size, price).Ok? <==>
      var x := Against(s, owner, m, isLong);
      if x > 0 then
        exists p | HeldOn(s, owner, m, !isLong, p) ::
          var reduced := Apply(s, e.first, OpReduce(owner, p.id, if x < size then x else size, price));
          && p.size == x && reduced.Ok?
          && (x < size ==>
                !reduceOnly && Apply(reduced.value, e.second, OpOpen(owner, m, size - x, isLong, price, Cross)).Ok?)
      else if x < 0 then
        !reduceOnly && exists p | HeldOn(s, owner, m, isLong, p) ::
          p.size == -x && Apply(s, e.first, OpIncrease(owner, p.id, size, price)).Ok?
      else
        !reduceOnly && Apply(s, e.first, OpOpen(owner, m, size, isLong, price, Cross)).Ok?
  {
    hide Invariant, Netted, Apply, LastOn, Against;
    AgainstIsPosition(s, owner, m, isLong);
    LastOnFound(s.Positions(owner), m, !isLong);
    LastOnFound(s.Positions(owner), m, isLong);
    forall p, q, side | HeldOn(s, owner, m, side, p) && HeldOn(s, owner, m, side, q) ensures p == q {
      OnlyOne(s, owner, m, p, q);
    }
    var opposite, same := LastOn(s.Positions(owner), m, !isLong), LastOn(s.Positions(owner), m, isLong);
    assert opposite.Some? ==> HeldOn(s, owner, m, !isLong, opposite.value);
    assert same.Some? ==> HeldOn(s, owner, m, isLong, same.value);
  }

  lemma OnlyOne(s: State, owner: Address, m: nat, p: Position, q: Position)
    requires Netted(s) && p in s.Positions(owner) && q in s.Positions(owner) && p.marketId == q.marketId == m
    ensures p == q
  {
    var list := s.Positions(owner);
    assert NettedList(list);
    var i :| 0 <= i < |list| && list[i] == p;
    var j :| 0 <= j < |list| && list[j] == q;
  }

  /** A reduce-only side settles only against at least as much exposure, and takes exactly its size off it. */
  lemma ReduceOnlyReduces(s: State, e: SideEnv, owner: Address, m: nat, isLong: bool, size: int, price: int)
    requires Invariant(s) && Netted(s) && SettleUserSide(s, e, owner, m, isLong, true, size, price).Ok?
    ensures var t := SettleUserSide(s, e, owner, m, isLong, true, size, price).value;
      && Against(s, owner, m, isLong) >= size
      && Against(t, owner, m, isLong) == Against(s, owner, m, isLong) - size >= 0
  {
    hide Invariant, Netted, Apply, LastOn, SettleUserSide, Exposure;
    SideSettlesIff(s, e, owner, m, isLong, true, size, price);
    assert Against(s, owner, m, isLong) >= size;
    SideMoves(s, e, owner, m, isLong, true, size, price);
  }
}
