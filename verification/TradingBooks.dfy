/** Every fill is a purchase and a sale of one size at one price, so trading nets to zero. */
module TradingBooks {
  import opened Outcomes
  import opened FixedPoint
  import opened MapSums
  import opened Matching
  import opened EngineState
  import opened Accounting
  import opened VaultHealth
  import opened EngineTotals
  import opened EngineSpec
  import opened EngineInvariant
  import opened EngineSafety
  import opened EngineRuns
  import opened EngineTheorems
  import opened GatewayOrders
  import opened GatewaySettlement
  import opened GatewayRuns

  // ----- What a call books

  /** One user bought `size` for `value` in one market; nothing else was booked. */
  ghost predicate Booked(s: State, t: State, user: Address, m: nat, size: int, value: int) {
    var before, after := s.books.cash, t.books.cash;
    && (forall k :: CashTotal(NetSize(k), after) == CashTotal(NetSize(k), before) + if k == m then size else 0)
    && (forall k :: CashTotal(NetValue(k), after) == CashTotal(NetValue(k), before) + if k == m then value else 0)
    && (forall u, k :: CashTotal(ValueOf(u, k), after)
          == CashTotal(ValueOf(u, k), before) + if u == user && k == m then value else 0)
  }

  lemma BookedBySet(s: State, t: State, id: nat, old0: CashBook, book: CashBook)
    requires t.books.cash == s.books.cash[id := book]
    requires if id in s.books.cash then old0 == s.books.cash[id]
      else old0.addedSize == old0.reducedSize == old0.addedValue == old0.reducedValue == 0
    requires book.position.marketId == old0.position.marketId && book.position.owner == old0.position.owner
          && book.position.isLong == old0.position.isLong
    ensures Booked(s, t, book.position.owner, book.position.marketId,
                   Bought(book, book.addedSize - book.reducedSize) - Bought(old0, old0.addedSize - old0.reducedSize),
                   Bought(book, book.addedValue - book.reducedValue)
                   - Bought(old0, old0.addedValue - old0.reducedValue))
  {
    hide CashTotal;
    forall w: CashWeight ensures CashTotal(w, t.books.cash)
      == CashTotal(w, s.books.cash) - (if id in s.books.cash then w.Of(s.books.cash[id]) else 0) + w.Of(book) {
      CashTotalSet(w, s.books.cash, id, book);
    }
  }

  lemma IncreaseBook(s: State, e: CallEnv, user: Address, id: nat, size: int, price: int)
    requires IncreaseTrade(s, e, user, id, size, price).Ok? && id in s.books.cash
    ensures var trade := IncreaseTrade(s, e, user, id, size, price).value;
      trade.book == BookAdd(s.books.cash[id], trade.after, size, price, trade.funding)
  {
    hide ValidateExecutionPrice, AveragedEntry, CheckedAdd, ApplyPnl, FundingPnl;
  }

  lemma ReduceBook(s: State, e: CallEnv, user: Address, id: nat, size: int, price: int)
    requires ReduceTrade(s, e, user, id, size, price).Ok? && id in s.books.cash
    ensures var trade := ReduceTrade(s, e, user, id, size, price).value;
      trade.book
        == BookReduce(s.books.cash[id], trade.after, size, price, trade.realized.GetOr(0), trade.funding)
  {
    hide ValidateExecutionPrice, RealizedPnl, MarginAfterReduce, ApplyPnl, FundingPnl;
  }

  lemma PreparedStores(s: State, t: State, user: Address, index: nat, trade: Trade)
    requires Prepared(s, user, index, trade) && Committed(s, t, user, trade)
    ensures var q := s.Positions(user)[index];
      && t.books.cash == s.books.cash[q.id := trade.book]
      && q.id in s.books.cash && s.books.cash[q.id].position == q
      && trade.after.owner == q.owner == user && trade.after.marketId == q.marketId && trade.after.isLong == q.isLong
  {
    hide MoveInterest, FundingPnl, CashSound, PositionSound, Replaced, Paid;
  }

  lemma IncreaseBooks(s: State, e: CallEnv, user: Address, p: Position, size: int, price: int)
    requires Invariant(s) && p in s.Positions(user) && Increase(s, e, user, p.id, size, price).Ok?
    ensures Booked(s, Increase(s, e, user, p.id, size, price).value.0, user, p.marketId, Signed(p.isLong, size),
                   Signed(p.isLong, size * price))
  {
    hide Invariant, IncreaseTrade, Commit, Health, Prepared, Committed, Booked, Holds;
    var t := Increase(s, e, user, p.id, size, price).value.0;
    var trade := IncreaseTrade(s, e, user, p.id, size, price).value;
    IncreaseTradeIs(s, e, user, p.id, size, price);
    var index := FindIndex(s.Positions(user), p.id).value;
    FoundHolds(s, user, p.id);
    IncreasePrepares(s, e, user, p.id, size, price);
    PreparedSettled(s, user, index, trade);
    CommitDoes(s, user, trade);
    PreparedStores(s, t, user, index, trade);
    OnlyHolder(s, user, index, p);
    IncreaseBook(s, e, user, p.id, size, price);
    BookedBySet(s, t, p.id, s.books.cash[p.id], trade.book);
  }

  lemma ReduceBooks(s: State, e: CallEnv, user: Address, p: Position, size: int, price: int, checkMargin: bool)
    requires Invariant(s) && p in s.Positions(user) && Reduce(s, e, user, p.id, size, price, checkMargin).Ok?
    ensures Booked(s, Reduce(s, e, user, p.id, size, price, checkMargin).value.0, user, p.marketId,
                   -Signed(p.isLong, size), -Signed(p.isLong, size * price))
  {
    hide Invariant, ReduceTrade, Commit, Health, Prepared, Committed, Booked, Holds;
    var t := Reduce(s, e, user, p.id, size, price, checkMargin).value.0;
    var trade := ReduceTrade(s, e, user, p.id, size, price).value;
    ReduceTradeIs(s, e, user, p.id, size, price);
    var index := FindIndex(s.Positions(user), p.id).value;
    FoundHolds(s, user, p.id);
    ReducePrepares(s, e, user, p.id, size, price);
    PreparedSettled(s, user, index, trade);
    CommitDoes(s, user, trade);
    PreparedStores(s, t, user, index, trade);
    OnlyHolder(s, user, index, p);
    ReduceBook(s, e, user, p.id, size, price);
    BookedBySet(s, t, p.id, s.books.cash[p.id], trade.book);
  }

  lemma OpenBook(s: State, e: CallEnv, user: Address, m: nat, size: int, isLong: bool, price: int, mode: MarginMode)
    requires OpenTrade(s, e, user, m, size, isLong, price, mode).Ok?
    ensures var trade := OpenTrade(s, e, user, m, size, isLong, price, mode).value;
      && trade.book == CashBook(trade.after, size, size * price, 0, 0, 0, 0, 0)
      && trade.after.id == s.store.nextPositionId
      && trade.after.owner == user && trade.after.marketId == m && trade.after.isLong == isLong
  {
    hide ValidateExecutionPrice, InitialMargin, CheckedAdd;
  }

  lemma OpenStores(s: State, t: State, user: Address, trade: Trade)
    requires PreparedOpen(s, user, trade) && Committed(s, t, user, trade)
    ensures t.books.cash == s.books.cash[trade.after.id := trade.book]
  {
    hide MoveInterest, CashSound, PositionSound, Paid;
  }

  lemma OpenBooks(s: State, e: CallEnv, user: Address, m: nat, size: int, isLong: bool, price: int, mode: MarginMode)
    requires Invariant(s) && Open(s, e, user, m, size, isLong, price, mode).Ok?
    ensures Booked(s, Open(s, e, user, m, size, isLong, price, mode).value.0, user, m, Signed(isLong, size),
                   Signed(isLong, size * price))
  {
    hide Invariant, OpenTrade, Commit, Health, PreparedOpen, Committed, Booked, CashTotal;
    var t := Open(s, e, user, m, size, isLong, price, mode).value.0;
    var trade := OpenTrade(s, e, user, m, size, isLong, price, mode).value;
    OpenIdIsNew(s);
    OpenPrepares(s, e, user, m, size, isLong, price, mode);
    PreparedOpenSettled(s, user, trade);
    CommitDoes(s, user, trade);
    OpenStores(s, t, user, trade);
    OpenBook(s, e, user, m, size, isLong, price, mode);
    NewBook(s, t, trade.after.id, trade.book, size, size * price);
  }

  lemma NewBook(s: State, t: State, id: nat, book: CashBook, size: int, value: int)
    requires t.books.cash == s.books.cash[id := book] && id !in s.books.cash
    requires book == CashBook(book.position, size, value, 0, 0, 0, 0, 0)
    ensures Booked(s, t, book.position.owner, book.position.marketId, Signed(book.position.isLong, size),
                   Signed(book.position.isLong, value))
  {
    hide Booked;
    BookedBySet(s, t, id, book.(addedSize := 0, addedValue := 0), book);
  }

  lemma OpenIdIsNew(s: State)
    requires Invariant(s)
    ensures s.store.nextPositionId >= 1 && s.store.nextPositionId !in s.books.cash
  {
    assert CashBooksSound(s);
  }

  // ----- What a fill books

  lemma BookedTwice(s: State, r: State, t: State, user: Address, m: nat, size: int, value: int, more: int, extra: int)
    requires Booked(s, r, user, m, size, value) && Booked(r, t, user, m, more, extra)
    ensures Booked(s, t, user, m, size + more, value + extra)
  {
    hide CashTotal;
  }

  /** A settled side books exactly the fill's size at the fill's price, whether it reduced, flipped, grew or opened. */
  lemma SideBooks(s: State, e: SideEnv, owner: Address, m: nat, isLong: bool, reduceOnly: bool, size: int, price: int)
    requires Invariant(s) && SettleUserSide(s, e, owner, m, isLong, reduceOnly, size, price).Ok?
    ensures Booked(s, SettleUserSide(s, e, owner, m, isLong, reduceOnly, size, price).value, owner, m,
                   Signed(isLong, size), Signed(isLong, size * price))
  {
    hide Invariant, Open, Increase, Reduce, Booked;
    var list := s.Positions(owner);
    LastOnFound(list, m, !isLong);
    LastOnFound(list, m, isLong);
    var opposite, same := LastOn(list, m, !isLong), LastOn(list, m, isLong);
    if opposite.Some? {
      var p := opposite.value;
      var closeSize := if p.size < size then p.size else size;
      var reduced := Apply(s, e.first, OpReduce(owner, p.id, closeSize, price)).value;
      ApplyKeeps(s, e.first, OpReduce(owner, p.id, closeSize, price));
      ReduceBooks(s, e.first, owner, p, closeSize, price, true);
      if size > closeSize {
        var t := Apply(reduced, e.second, OpOpen(owner, m, size - closeSize, isLong, price, Cross)).value;
        OpenBooks(reduced, e.second, owner, m, size - closeSize, isLong, price, Cross);
        ProductOfDifference(price, size, closeSize);
        BookedTwice(s, reduced, t, owner, m, Signed(isLong, closeSize), Signed(isLong, closeSize * price),
                    Signed(isLong, size - closeSize), Signed(isLong, (size - closeSize) * price));
      }
    } else if same.Some? {
      IncreaseBooks(s, e.first, owner, same.value, size, price);
    } else {
      OpenBooks(s, e.first, owner, m, size, isLong, price, Cross);
    }
  }

  /** A fee books nothing on positions. */
  lemma FeeBooksNothing(s: State, e: CallEnv, user: Address, m: nat, size: int, price: int, isMaker: bool)
    requires ChargeTradeFee(s, e, user, m, size, price, isMaker).Ok?
    ensures ChargeTradeFee(s, e, user, m, size, price, isMaker).value.0.books.cash == s.books.cash
  {
    hide ChargeTradeFee;
    ChargeTradeFeeMoves(s, e, user, m, size, price, isMaker);
  }

  lemma SideWithFeeBooks(s: State, e: SideEnv, o: SignedOrder, size: int, price: int, isMaker: bool)
    requires Invariant(s) && SettleWithFee(s, e, o, size, price, isMaker).Ok?
    ensures Booked(s, SettleWithFee(s, e, o, size, price, isMaker).value, o.owner, o.terms.marketId,
                   Signed(o.terms.isLong, size), Signed(o.terms.isLong, size * price))
  {
    hide Invariant, SettleUserSide, ChargeTradeFee;
    var m := o.terms.marketId;
    SideBooks(s, e, o.owner, m, o.terms.isLong, o.terms.reduceOnly, size, price);
    var r := SettleUserSide(s, e, o.owner, m, o.terms.isLong, o.terms.reduceOnly, size, price).value;
    FeeBooksNothing(r, e.fee, o.owner, m, size, price, isMaker);
  }

  /** The maker pays or gets size times price, the taker the opposite, and no other account trades. */
  ghost predicate Traded(s: State, t: State, f: MatchedFill) {
    var value := Signed(f.maker.terms.isLong, f.size * f.price);
    && (forall u, k :: CashTotal(ValueOf(u, k), t.books.cash) == CashTotal(ValueOf(u, k), s.books.cash)
          + (if u == f.maker.owner && k == f.maker.terms.marketId then value else 0)
          - (if u == f.taker.owner && k == f.maker.terms.marketId then value else 0))
    && (forall k :: CashTotal(NetSize(k), t.books.cash) == CashTotal(NetSize(k), s.books.cash))
    && (forall k :: CashTotal(NetValue(k), t.books.cash) == CashTotal(NetValue(k), s.books.cash))
  }

  /** A fill is a purchase by one party from the other, of its size at its price. */
  lemma FillExchanges(s: State, maker: SideEnv, taker: SideEnv, f: MatchedFill)
    requires Invariant(s) && ExecuteFill(s, maker, taker, f).Ok?
    requires f.maker.terms.marketId == f.taker.terms.marketId && f.maker.terms.isLong != f.taker.terms.isLong
    ensures Traded(s, ExecuteFill(s, maker, taker, f).value, f)
  {
    hide Invariant, SettleWithFee, CashTotal;
    SideWithFeeMoves(s, maker, f.maker, f.size, f.price, true);
    SideWithFeeBooks(s, maker, f.maker, f.size, f.price, true);
    SideWithFeeBooks(SettleWithFee(s, maker, f.maker, f.size, f.price, true).value, taker, f.taker, f.size, f.price,
                     false);
  }

  /**
   In every history a settled fill is such a purchase, and its price is at or
   better than the limit that each party signed.
   */
  lemma SettledFillKeepsLimits(admin: Address, calls: seq<Call>, maker: SideEnv, taker: SideEnv, f: MatchedFill)
    requires var g := History(Genesis(admin), calls);
      && ValidateFill(g.orders, g.now, f).None? && RecordFill(g.orders, f).Ok?
      && ExecuteFill(g.engine, maker, taker, f).Ok?
    ensures Traded(History(Genesis(admin), calls).engine,
                   History(Genesis(admin), calls + [SettleFill(maker, taker, f)]).engine, f)
    ensures WithinLimit(f.maker, f.price) && WithinLimit(f.taker, f.price)
  {
    hide ExecuteFill, RecordFill, ValidateFill, Genesis, Invariant, Traded;
    var g := History(Genesis(admin), calls);
    HistorySound(admin, calls);
    FillIsTakenIff(g.orders, g.now, f);
    FillExchanges(g.engine, maker, taker, f);
    var last := SettleFill(maker, taker, f);
    assert (calls + [last])[..|calls|] == calls;
  }

  // ----- Over whole histories

  /** What one liquidation takes out of a market: its size, or its value. */
  ghost function TakenOut(g: System, call: Call, m: nat, value: bool): int {
    if call.Liquidate? && Apply(g.engine, call.env, OpLiquidate(call.user, call.id, call.size, call.price)).Ok? then
      var found := FindIndex(g.engine.Positions(call.user), call.id);
      if found.Err? then 0
      else
        var p := g.engine.Positions(call.user)[found.value];
        if p.marketId == m then Signed(p.isLong, if value then call.size * call.price else call.size) else 0
    else 0
  }

  /** All that liquidations have taken out of a market. */
  ghost function Liquidated(admin: Address, calls: seq<Call>, m: nat, value: bool): int {
    if calls == [] then 0
    else
      var rest := calls[..|calls| - 1];
      Liquidated(admin, rest, m, value) + TakenOut(History(Genesis(admin), rest), calls[|calls| - 1], m, value)
  }

  ghost predicate NetMoves(s: State, t: State, k: nat, size: int, value: int) {
    && CashTotal(NetSize(k), t.books.cash) == CashTotal(NetSize(k), s.books.cash) - size
    && CashTotal(NetValue(k), t.books.cash) == CashTotal(NetValue(k), s.books.cash) - value
  }

  lemma StepNets(g: System, call: Call, k: nat)
    requires SystemSound(g)
    ensures NetMoves(g.engine, GatewayRuns.Step(g, call).engine, k, TakenOut(g, call, k, false),
                     TakenOut(g, call, k, true))
  {
    hide Invariant, Netted, ExecuteFill, RecordFill, Apply, Reclaim, CashTotal;
    match call
    case SettleFill(maker, taker, fill) =>
      if ValidateFill(g.orders, g.now, fill).None? && ExecuteFill(g.engine, maker, taker, fill).Ok? {
        FillExchanges(g.engine, maker, taker, fill);
      }
    case Liquidate(env, user, id, size, price) => LiquidationNets(g, env, user, id, size, price, k);
    case EngineCall(env, op) =>
      if !IsTrade(op) && Apply(g.engine, env, op).Ok? {
        OtherCallsKeepCash(g.engine, env, op);
      }
    case _ =>
  }

  lemma LiquidationNets(g: System, e: CallEnv, user: Address, id: nat, size: int, price: int, k: nat)
    requires SystemSound(g)
    ensures var call := Liquidate(e, user, id, size, price);
      NetMoves(g.engine, GatewayRuns.Step(g, call).engine, k, TakenOut(g, call, k, false), TakenOut(g, call, k, true))
  {
    hide Invariant, Netted, Reduce, CashTotal;
    var found := FindIndex(g.engine.Positions(user), id);
    if Apply(g.engine, e, OpLiquidate(user, id, size, price)).Ok? && found.Ok? {
      var p := g.engine.Positions(user)[found.value];
      ReduceBooks(g.engine, e, user, p, size, price, false);
    }
  }

  /** In every history, what all positions of a market bought, less what they sold, is what liquidations took out. */
  lemma {:induction false} HistoryNets(admin: Address, calls: seq<Call>, m: nat)
    ensures var cash := History(Genesis(admin), calls).engine.books.cash;
      && CashTotal(NetSize(m), cash) == -Liquidated(admin, calls, m, false)
      && CashTotal(NetValue(m), cash) == -Liquidated(admin, calls, m, true)
  {
    hide SystemSound, GatewayRuns.Step, CashTotal, TakenOut;
    if calls == [] {
      NothingBooked(admin, m);
    } else {
      var rest := calls[..|calls| - 1];
      HistoryNets(admin, rest, m);
      HistorySound(admin, rest);
      StepNets(History(Genesis(admin), rest), calls[|calls| - 1], m);
    }
  }

  lemma NothingBooked(admin: Address, m: nat)
    ensures var cash := Genesis(admin).engine.books.cash;
      CashTotal(NetSize(m), cash) == 0 && CashTotal(NetValue(m), cash) == 0
  {
    assert forall w: CashWeight :: CashPer(w, map[]) == map[];
  }

  // ----- Profit and loss

  /** Realized and open PnL at `mark` of every position ever opened in the market, scaled by PRECISION. */
  ghost function PnlPer(m: nat, mark: int, cash: map<nat, CashBook>): map<nat, int> {
    map id | id in cash :: if cash[id].position.marketId == m then AveragedValueAt(cash[id], mark) else 0
  }

  ghost function FlowPer(m: nat, mark: int, cash: map<nat, CashBook>): map<nat, int> {
    map id | id in cash :: if cash[id].position.marketId == m then CashFlowsAt(cash[id], mark) else 0
  }

  ghost function SlackPer(m: nat, cash: map<nat, CashBook>): map<nat, int> {
    map id | id in cash :: if cash[id].position.marketId == m then cash[id].slack else 0
  }

  lemma {:induction false} SumWithin<K>(a: map<K, int>, b: map<K, int>, c: map<K, int>)
    requires a.Keys == b.Keys == c.Keys
    requires forall k | k in a :: Abs(a[k] - b[k]) <= c[k]
    ensures Abs(Sum(a) - Sum(b)) <= Sum(c)
    decreases |a|
  {
    if a == map[] {
      assert b == map[] && c == map[];
    } else {
      var k := Pick(a);
      SumWithin(a - {k}, b - {k}, c - {k});
      SumRemove(b, k);
      SumRemove(c, k);
    }
  }

  lemma {:induction false} SumZeros<K>(z: map<K, int>)
    requires forall k | k in z :: z[k] == 0
    ensures Sum(z) == 0
    decreases |z|
  {
    if z != map[] {
      SumZeros(z - {Pick(z)});
    }
  }

  lemma FlowIsNet(b: CashBook, mark: int)
    ensures CashFlowsAt(b, mark) == Bought(b, b.addedSize - b.reducedSize) * mark
                                    - Bought(b, b.addedValue - b.reducedValue)
  {
    ProductOfDifference(mark, b.addedSize, b.reducedSize);
    ProductOfDifference(mark, b.reducedSize, b.addedSize);
  }

  lemma FlowsAreNet(m: nat, mark: int, cash: map<nat, CashBook>)
    ensures Sum(FlowPer(m, mark, cash)) == CashTotal(NetSize(m), cash) * mark - CashTotal(NetValue(m), cash)
  {
    hide Sum, Linear, FlowPer, CashPer;
    var zeros: map<nat, int> := map id | id in cash :: 0;
    FlowEntries(m, mark, cash);
    SumLinear(FlowPer(m, mark, cash), zeros, -mark, CashPer(NetSize(m), cash), 1, CashPer(NetValue(m), cash));
    SumZeros(zeros);
    LinearMeans(Sum(FlowPer(m, mark, cash)), mark, Sum(CashPer(NetSize(m), cash)), Sum(CashPer(NetValue(m), cash)));
  }

  /** Each entry's flow is its net size at the mark less its net value. */
  lemma FlowEntries(m: nat, mark: int, cash: map<nat, CashBook>)
    ensures FlowPer(m, mark, cash).Keys == cash.Keys
    ensures CashPer(NetSize(m), cash).Keys == CashPer(NetValue(m), cash).Keys == cash.Keys
    ensures forall id | id in cash :: Linear(FlowPer(m, mark, cash)[id], 0, -mark, CashPer(NetSize(m), cash)[id], 1,
                                             CashPer(NetValue(m), cash)[id])
  {
    hide CashFlowsAt, Linear;
    forall id | id in cash
      ensures Linear(FlowPer(m, mark, cash)[id], 0, -mark, CashPer(NetSize(m), cash)[id], 1,
                     CashPer(NetValue(m), cash)[id])
    {
      FlowEntry(m, mark, cash[id]);
    }
  }

  lemma FlowEntry(m: nat, mark: int, b: CashBook)
    ensures Linear(if b.position.marketId == m then CashFlowsAt(b, mark) else 0, 0, -mark, NetSize(m).Of(b), 1,
                   NetValue(m).Of(b))
  {
    hide CashFlowsAt;
    FlowIsNet(b, mark);
    NegatedProduct(mark, NetSize(m).Of(b));
  }

  lemma LinearMeans(flow: int, mark: int, size: int, value: int)
    requires Linear(flow, 0, -mark, size, 1, value)
    ensures flow == size * mark - value
  {
  }

  /**
   In every history and at every mark, the profits and losses of all positions
   of a market, realized and open together, cancel up to the rounding their
   adds and reduces allow, but for what liquidations took out.
   */
  lemma TradingIsZeroSum(admin: Address, calls: seq<Call>, m: nat, mark: int)
    ensures var cash := History(Genesis(admin), calls).engine.books.cash;
      var taken := Liquidated(admin, calls, m, true) - Liquidated(admin, calls, m, false) * mark;
      Abs(Sum(PnlPer(m, mark, cash)) - taken) <= Sum(SlackPer(m, cash))
  {
    hide Sum, PnlPer, SlackPer, SystemSound, CashTotal, Liquidated, History;
    var g := History(Genesis(admin), calls);
    HistorySound(admin, calls);
    HistoryNets(admin, calls, m);
    FlowsAreNet(m, mark, g.engine.books.cash);
    EntriesAreSound(g);
    PnlNearFlows(m, mark, g.engine.books.cash);
    NegatedProduct(Liquidated(admin, calls, m, false), mark);
  }

  lemma NegatedProduct(a: int, b: int)
    ensures -a * b == -(a * b)
  {
  }

  lemma PnlNearFlows(m: nat, mark: int, cash: map<nat, CashBook>)
    requires forall id | id in cash :: CashSound(cash[id])
    ensures Abs(Sum(PnlPer(m, mark, cash)) - Sum(FlowPer(m, mark, cash))) <= Sum(SlackPer(m, cash))
  {
    hide Sum, AveragedValueAt, CashFlowsAt, CashResidual;
    forall id | id in cash
      ensures Abs(PnlPer(m, mark, cash)[id] - FlowPer(m, mark, cash)[id]) <= SlackPer(m, cash)[id]
    {
      assert CashSound(cash[id]);
      MarkCancels(cash[id], mark);
    }
    SumWithin(PnlPer(m, mark, cash), FlowPer(m, mark, cash), SlackPer(m, cash));
  }

  lemma EntriesAreSound(g: System)
    requires SystemSound(g)
    ensures forall id | id in g.engine.books.cash :: CashSound(g.engine.books.cash[id])
  {
  }
}
