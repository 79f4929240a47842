/** Every call keeps the invariant, so every run does. */
module EngineSafety {
  import opened Outcomes
  import opened FixedPoint
  import opened MapSums
  import opened EngineState
  import opened Accounting
  import opened EngineTotals
  import opened EngineSpec
  import opened EngineArithmetic
  import opened EngineInvariant

  // ----- Cash ledger

  lemma CashAfterAdd(b: CashBook, p: Position, sizeDelta: int, price: int, funding: int)
    requires CashSound(b) && b.position.size == p.size && b.position.entryPrice == p.entryPrice
          && b.position.isLong == p.isLong
    requires p.size > 0 && p.entryPrice >= 0 && sizeDelta > 0 && price > 0
    requires AveragedEntry(p, sizeDelta, price).Ok?
    ensures var grown := p.(size := p.size + sizeDelta, entryPrice := AveragedEntry(p, sizeDelta, price).value);
      CashSound(BookAdd(b, grown, sizeDelta, price, funding)) && grown.entryPrice >= 0
  {
    AveragedEntryNear(p, sizeDelta, price);
  }

  lemma CashAfterReduce(b: CashBook, p: Position, margin: int, sizeDelta: int, price: int, funding: int)
    requires CashSound(b) && b.position.size == p.size && b.position.entryPrice == p.entryPrice
          && b.position.isLong == p.isLong
    requires 0 < sizeDelta <= p.size
    requires RealizedPnl(p, sizeDelta, price).Ok?
    ensures var shrunk := p.(size := p.size - sizeDelta, margin := margin);
      CashSound(BookReduce(b, shrunk, sizeDelta, price, RealizedPnl(p, sizeDelta, price).value, funding))
  {
    hide RealizedPnl;
    RealizedPnlNear(p, sizeDelta, price);
    ProductOfDifference(p.entryPrice, p.size, sizeDelta);
    Distribute(PRECISION, b.realized, RealizedPnl(p, sizeDelta, price).value);
  }

  // ----- Position lists

  ghost predicate SameOthers(s: State, t: State, user: Address, list: seq<Position>) {
    t.store.positions == s.store.positions[user := list]
  }

  ghost predicate ListsSound(s: State) {
    (forall u :: ListSound(s, u)) && IdsUnique(s)
  }

  lemma ListsAfterAppend(s: State, t: State, user: Address, p: Position)
    requires ListsSound(s)
    requires SameOthers(s, t, user, s.Positions(user) + [p])
    requires |s.Positions(user)| < MAX_POSITIONS_PER_USER
    requires p.id == s.store.nextPositionId && t.store.nextPositionId == p.id + 1
    requires PositionSound(t, user, p)
    ensures ListsSound(t)
  {
    forall u ensures ListSound(t, u) {
      assert ListSound(s, u) && ListSound(s, user);
      assert u != user ==> t.Positions(u) == s.Positions(u);
    }
    forall u, v, i, j | 0 <= i < |t.Positions(u)| && 0 <= j < |t.Positions(v)|
      && t.Positions(u)[i].id == t.Positions(v)[j].id
      ensures u == v && i == j
    {
      assert ListSound(s, u) && ListSound(s, v);
      if i < |s.Positions(u)| && j < |s.Positions(v)| {
        assert s.Positions(u)[i].id == s.Positions(v)[j].id;
      }
    }
  }

  /** The index in the old list of entry `i` of the list after a replacement. */
  function Source(size: int, index: nat, i: nat): nat {
    if size == 0 && i >= index then i + 1 else i
  }

  lemma ReplacedEntries(list: seq<Position>, index: nat, p: Position)
    requires index < |list|
    ensures |Replaced(list, index, p)| == if p.size == 0 then |list| - 1 else |list|
    ensures forall i | 0 <= i < |Replaced(list, index, p)| ::
      Replaced(list, index, p)[i] == if Source(p.size, index, i) == index then p else list[Source(p.size, index, i)]
  {
  }

  lemma ListsAfterReplace(s: State, t: State, user: Address, index: nat, p: Position)
    requires ListsSound(s)
    requires index < |s.Positions(user)|
    requires SameOthers(s, t, user, Replaced(s.Positions(user), index, p))
    requires t.store.nextPositionId == s.store.nextPositionId
    requires p.id == s.Positions(user)[index].id
    requires p.size == 0 || PositionSound(t, user, p)
    ensures ListsSound(t)
  {
    ReplacedEntries(s.Positions(user), index, p);
    forall u ensures ListSound(t, u) {
      assert ListSound(s, u) && ListSound(s, user);
      assert u != user ==> t.Positions(u) == s.Positions(u);
    }
    forall u, v, i, j | 0 <= i < |t.Positions(u)| && 0 <= j < |t.Positions(v)|
      && t.Positions(u)[i].id == t.Positions(v)[j].id
      ensures u == v && i == j
    {
      var i0 := if u == user then Source(p.size, index, i) else i;
      var j0 := if v == user then Source(p.size, index, j) else j;
      assert s.Positions(u)[i0].id == s.Positions(v)[j0].id;
    }
  }

  lemma CashBooksAfterReplace(s: State, t: State, user: Address, index: nat, p: Position, book: CashBook)
    requires ListsSound(s) && CashBooksSound(s)
    requires index < |s.Positions(user)|
    requires SameOthers(s, t, user, Replaced(s.Positions(user), index, p))
    requires t.store.nextPositionId == s.store.nextPositionId
    requires p.id == s.Positions(user)[index].id
    requires CashSound(book) && book.position == p
    requires t.books.cash == s.books.cash[p.id := book]
    ensures CashBooksSound(t)
  {
    ReplacedEntries(s.Positions(user), index, p);
    assert ListSound(s, user);
    assert PositionSound(s, user, s.Positions(user)[index]);
    forall u, i | 0 <= i < |t.Positions(u)|
      ensures t.Positions(u)[i].id in t.books.cash && t.books.cash[t.Positions(u)[i].id].position == t.Positions(u)[i]
    {
      var i0 := if u == user then Source(p.size, index, i) else i;
      var q := s.Positions(u)[i0];
      assert q.id in s.books.cash && s.books.cash[q.id].position == q;
      assert q.id == p.id ==> u == user && i0 == index;
    }
  }

  // ----- Trades

  /** What a worked-out trade on an existing position is. */
  ghost predicate Prepared(s: State, user: Address, index: nat, t: Trade) {
    && index < |s.Positions(user)|
    && var found := s.Positions(user)[index];
    && t.after.id == found.id && t.after.owner == found.owner == user
    && t.after.marketId == found.marketId && t.after.isLong == found.isLong
    && (t.after.size == 0 || PositionSound(s, user, t.after))
    && t.list == Replaced(s.Positions(user), index, t.after)
    && t.sizeMove == t.after.size - found.size && t.interestIn == found.marketId
    && t.after.lastFundingIndex == s.FundingIndex(found.marketId, found.isLong)
    && FundingPnl(found, t.after.lastFundingIndex) == Ok(t.funding)
    && SettledOnly(s, t.settled, user, found.marketId, t.funding)
    && found.id in s.books.cash && s.books.cash[found.id].position == found
    && t.after.mode == found.mode
    && (t.after.size < found.size ==> MarginKept(found.mode, found.margin, found.size, t.after.margin, t.after.size))
    && CashSound(t.book) && t.book.position == t.after
    && t.book.realized == s.books.cash[found.id].realized + t.realized.GetOr(0)
    && t.book.funding == s.books.cash[found.id].funding + t.funding
  }

  /** Only the funding payment happened, and the user got it. */
  ghost predicate SettledOnly(s: State, settled: State, user: Address, m: nat, pnl: int) {
    var before := s.BookOf(m);
    var after := before.(paid := before.paid + pnl, roundings := before.roundings + 1);
    && settled.store == s.store
    && settled.books == s.books.(funding := s.books.funding[m := after])
    && settled.vault == s.vault.(balances := settled.vault.balances)
    && Paid(s.vault.balances, settled.vault.balances, user, pnl)
  }

  /** What storing the trade and telling the vault does to the state; realized PnL goes to the user. */
  ghost predicate Committed(s: State, t: State, user: Address, trade: Trade) {
    var moved := MoveInterest(s.store, trade.interestIn, trade.after.isLong, trade.sizeMove);
    && moved.Ok?
    && t.store.openInterest == moved.value.openInterest
    && t.store.longOpenInterest == moved.value.longOpenInterest
    && t.store.shortOpenInterest == moved.value.shortOpenInterest
    && t.store.positions == s.store.positions[user := trade.list]
    && t.store.markets == s.store.markets
    && t.store.fundingStates == s.store.fundingStates
    && t.store.insurance == s.store.insurance && t.store.feeRecipient == s.store.feeRecipient
    && t.store.feeConfigs == s.store.feeConfigs
    && t.store.nextPositionId == trade.settled.store.nextPositionId
    && t.books == trade.settled.books.(cash := trade.settled.books.cash[trade.after.id := trade.book])
    && t.vault.fundingLong == s.vault.fundingLong && t.vault.fundingShort == s.vault.fundingShort
    && t.vault.markets == s.vault.markets
    && t.vault.positions == s.vault.positions[user := trade.list]
    && Paid(trade.settled.vault.balances, t.vault.balances, user, trade.realized.GetOr(0))
  }

  lemma CommitPays(user: Address, trade: Trade)
    requires Commit(trade, user).Ok?
    ensures var told, settled := Commit(trade, user).value.vault, trade.settled.vault;
      && told == settled.(balances := told.balances, positions := settled.positions[user := trade.list])
      && Paid(settled.balances, told.balances, user, trade.realized.GetOr(0))
  {
    hide MoveInterest;
    if trade.realized.Some? {
      ApplyPnlPays(trade.settled.vault, user, trade.realized.value);
    }
  }

  lemma CommitDoes(s: State, user: Address, trade: Trade)
    requires Commit(trade, user).Ok?
    requires trade.settled.store == s.store.(nextPositionId := trade.settled.store.nextPositionId)
    requires trade.settled.vault == s.vault.(balances := trade.settled.vault.balances)
    ensures Committed(s, Commit(trade, user).value, user, trade)
  {
    hide ApplyPnl, MoveInterest, SyncPositions, Paid;
    CommitPays(user, trade);
    MoveInterestOnly(s.store, trade.settled.store, trade.interestIn, trade.after.isLong, trade.sizeMove);
  }

  /** Moving interest depends on the three counters alone and changes nothing else. */
  lemma MoveInterestOnly(a: Storage, b: Storage, m: nat, isLong: bool, delta: int)
    requires MoveInterest(b, m, isLong, delta).Ok?
    requires a.openInterest == b.openInterest
    requires a.longOpenInterest == b.longOpenInterest && a.shortOpenInterest == b.shortOpenInterest
    ensures MoveInterest(a, m, isLong, delta).Ok?
    ensures var moved, same := MoveInterest(b, m, isLong, delta).value, MoveInterest(a, m, isLong, delta).value;
      && moved == b.(openInterest := moved.openInterest, longOpenInterest := moved.longOpenInterest,
                     shortOpenInterest := moved.shortOpenInterest)
      && same.openInterest == moved.openInterest
      && same.longOpenInterest == moved.longOpenInterest && same.shortOpenInterest == moved.shortOpenInterest
  {
  }

  lemma MirrorKept(s: State, t: State, user: Address, trade: Trade)
    requires VaultMirrors(s) && Committed(s, t, user, trade)
    ensures VaultMirrors(t)
  {
    forall u ensures PositionsOf(t.vault.positions, u) == t.Positions(u) {
      assert PositionsOf(s.vault.positions, u) == s.Positions(u);
    }
    forall m ensures Lookup(t.vault.fundingLong, m) == t.FundingIndex(m, true)
      && Lookup(t.vault.fundingShort, m) == t.FundingIndex(m, false) {
      assert Lookup(s.vault.fundingLong, m) == s.FundingIndex(m, true);
      assert Lookup(s.vault.fundingShort, m) == s.FundingIndex(m, false);
    }
  }

  lemma EntitledAfterTrade(s: State, t: State, user: Address, index: nat, trade: Trade)
    requires BalancesExact(s) && Prepared(s, user, index, trade) && Committed(s, t, user, trade)
    ensures BalancesExact(t)
  {
    hide MoveInterest, FundingPnl, MarginKept, CashSound, Replaced, PositionSound, CashTotal, Sum;
    forall u ensures Balance(t.vault.balances, u) == Entitled(t, u) {
      CashTotalSet(Due(u), s.books.cash, trade.after.id, trade.book);
      assert Balance(s.vault.balances, u) == Entitled(s, u);
    }
  }

  lemma PaidAfterTrade(s: State, t: State, user: Address, index: nat, trade: Trade)
    requires PaidExact(s) && Prepared(s, user, index, trade) && Committed(s, t, user, trade)
    ensures PaidExact(t)
  {
    hide MoveInterest, FundingPnl, MarginKept, CashSound, Replaced, PositionSound, CashTotal, Paid;
    forall k ensures t.BookOf(k).paid == CashTotal(PaidIn(k), t.books.cash) {
      CashTotalSet(PaidIn(k), s.books.cash, trade.after.id, trade.book);
      assert s.BookOf(k).paid == CashTotal(PaidIn(k), s.books.cash);
    }
  }

  lemma AccountsKept(s: State, t: State, user: Address, index: nat, trade: Trade)
    requires MoneyExact(s) && Prepared(s, user, index, trade) && Committed(s, t, user, trade)
    ensures MoneyExact(t)
  {
    hide MoveInterest, FundingPnl, MarginKept, CashSound, Replaced, PositionSound, CashTotal, Sum, BalancesExact,
      PaidExact;
    var m := trade.after.marketId;
    CashTotalSet(Realized, s.books.cash, trade.after.id, trade.book);
    FundedTotalSet(s.books.funding, m, t.books.funding[m]);
    RoutedTotalSet(s.books.funding, m, t.books.funding[m]);
    EntitledAfterTrade(s, t, user, index, trade);
    PaidAfterTrade(s, t, user, index, trade);
  }

  lemma OpeningAccountsKept(s: State, t: State, user: Address, trade: Trade)
    requires MoneyExact(s) && PreparedOpen(s, user, trade) && Committed(s, t, user, trade)
    requires trade.after.id !in s.books.cash
    ensures MoneyExact(t)
  {
    hide MoveInterest, CashSound, PositionSound, CashTotal, Sum;
    CashTotalSet(Realized, s.books.cash, trade.after.id, trade.book);
    forall u ensures Balance(t.vault.balances, u) == Entitled(t, u) {
      CashTotalSet(Due(u), s.books.cash, trade.after.id, trade.book);
      assert Balance(s.vault.balances, u) == Entitled(s, u);
    }
    forall k ensures t.BookOf(k).paid == CashTotal(PaidIn(k), t.books.cash) {
      CashTotalSet(PaidIn(k), s.books.cash, trade.after.id, trade.book);
      assert s.BookOf(k).paid == CashTotal(PaidIn(k), s.books.cash);
    }
  }

  /** Replacing one position, funding settled first, keeps everything. */
  lemma TradeKeeps(s: State, t: State, user: Address, index: nat, trade: Trade)
    requires Invariant(s) && Prepared(s, user, index, trade) && Committed(s, t, user, trade)
    ensures Invariant(t)
  {
    hide MoveInterest, FundingPnl, CashSound, MoneyExact;
    var found := s.Positions(user)[index];
    assert ListsSound(t) by {
      ListsAfterReplace(s, t, user, index, trade.after);
    }
    ExchangedByReplace(s, t, user, index, trade.after);
    assert forall m :: InterestExact(t, m) by {
      InterestAfterTrade(s, t, found, trade.after);
    }
    assert forall m :: FundingConserved(t, m) by {
      FundingAfterTrade(s, t, found, trade.after, trade.funding);
    }
    assert CashBooksSound(t) by {
      CashBooksAfterReplace(s, t, user, index, trade.after, trade.book);
    }
    MirrorKept(s, t, user, trade);
    AccountsKept(s, t, user, index, trade);
  }

  lemma SettleDoes(s: State, user: Address, p: Position)
    requires SettleFunding(s, user, p).Ok?
    ensures var (settled, q, pnl) := SettleFunding(s, user, p).value;
      && SettledOnly(s, settled, user, p.marketId, pnl)
      && q == p.(lastFundingIndex := s.FundingIndex(p.marketId, p.isLong))
      && FundingPnl(p, q.lastFundingIndex) == Ok(pnl)
  {
    hide FundingPnl;
    var (settled, _, pnl) := SettleFunding(s, user, p).value;
    if pnl != 0 {
      ApplyPnlPays(s.vault, user, pnl);
    }
  }

  /** The position a call will act on, with its ledger entry. */
  ghost predicate Holds(s: State, user: Address, index: nat) {
    && index < |s.Positions(user)|
    && var found := s.Positions(user)[index];
       && PositionSound(s, user, found)
       && found.id in s.books.cash && s.books.cash[found.id].position == found && CashSound(s.books.cash[found.id])
       && (found.marketId in s.store.markets ==> s.store.markets[found.marketId].market.marketId == found.marketId)
  }

  lemma FoundHolds(s: State, user: Address, id: nat)
    requires Invariant(s)
    requires FindIndex(s.Positions(user), id).Ok?
    ensures Holds(s, user, FindIndex(s.Positions(user), id).value)
  {
    assert ListSound(s, user);
  }

  lemma IncreasePrepares(s: State, e: CallEnv, user: Address, id: nat, sizeDelta: int, price: int)
    requires IncreaseTrade(s, e, user, id, sizeDelta, price).Ok?
    requires Holds(s, user, FindIndex(s.Positions(user), id).value)
    ensures Prepared(s, user, FindIndex(s.Positions(user), id).value,
                     IncreaseTrade(s, e, user, id, sizeDelta, price).value)
  {
    var found := s.Positions(user)[FindIndex(s.Positions(user), id).value];
    SettleDoes(s, user, found);
    var p := SettleFunding(s, user, found).value.1;
    CashAfterAdd(s.books.cash[id], p, sizeDelta, price, SettleFunding(s, user, found).value.2);
    hide SettleFunding, AveragedEntry, FundingPnl, CashSound, ValidateExecutionPrice;
  }

  lemma ReducePrepares(s: State, e: CallEnv, user: Address, id: nat, sizeDelta: int, price: int)
    requires ReduceTrade(s, e, user, id, sizeDelta, price).Ok?
    requires Holds(s, user, FindIndex(s.Positions(user), id).value)
    ensures Prepared(s, user, FindIndex(s.Positions(user), id).value,
                     ReduceTrade(s, e, user, id, sizeDelta, price).value)
  {
    var found := s.Positions(user)[FindIndex(s.Positions(user), id).value];
    SettleDoes(s, user, found);
    var p := SettleFunding(s, user, found).value.1;
    var margin := MarginAfterReduce(p.mode, p.margin, p.size, sizeDelta).value;
    MarginAfterReduceKept(p.mode, p.margin, p.size, sizeDelta);
    CashAfterReduce(s.books.cash[id], p, margin, sizeDelta, price, SettleFunding(s, user, found).value.2);
    hide SettleFunding, RealizedPnl, MarginAfterReduce, MarginKept, FundingPnl, CashSound, ValidateExecutionPrice;
  }

  /** The position after an increase: more of it, at the volume-weighted entry, on the same margin. */
  predicate Grown(before: Position, after: Position, sizeDelta: int, price: int) {
    && after.size == before.size + sizeDelta
    && AveragedEntry(before, sizeDelta, price) == Ok(after.entryPrice)
    && after.margin == before.margin
  }

  /** The position after a reduction: less of it, at the same entry, with margin released pro rata. */
  predicate Shrunk(before: Position, after: Position, sizeDelta: int) {
    && after.size == before.size - sizeDelta
    && after.entryPrice == before.entryPrice
    && MarginAfterReduce(before.mode, before.margin, before.size, sizeDelta) == Ok(after.margin)
  }

  lemma IncreaseTradeIs(s: State, e: CallEnv, user: Address, id: nat, sizeDelta: int, price: int)
    requires IncreaseTrade(s, e, user, id, sizeDelta, price).Ok?
    ensures var found := FindIndex(s.Positions(user), id);
      var trade := IncreaseTrade(s, e, user, id, sizeDelta, price).value;
      && found.Ok? && trade.after.id == id && trade.realized.None? && sizeDelta > 0
      && Grown(s.Positions(user)[found.value], trade.after, sizeDelta, price)
  {
    hide SettleFunding, ValidateExecutionPrice, MulPrecision, DivPrecision, CheckedAdd;
    var found := s.Positions(user)[FindIndex(s.Positions(user), id).value];
    SettleOnlyMovesIndex(s, user, found);
  }

  lemma ReduceTradeIs(s: State, e: CallEnv, user: Address, id: nat, sizeDelta: int, price: int)
    requires ReduceTrade(s, e, user, id, sizeDelta, price).Ok?
    ensures var found := FindIndex(s.Positions(user), id);
      var trade := ReduceTrade(s, e, user, id, sizeDelta, price).value;
      && found.Ok? && trade.after.id == id && sizeDelta > 0
      && Shrunk(s.Positions(user)[found.value], trade.after, sizeDelta)
      && trade.realized.Some?
      && RealizedPnl(s.Positions(user)[found.value], sizeDelta, price) == Ok(trade.realized.value)
  {
    hide SettleFunding, MarginAfterReduce, ValidateExecutionPrice, MulPrecision, CheckedSub;
    var found := s.Positions(user)[FindIndex(s.Positions(user), id).value];
    SettleOnlyMovesIndex(s, user, found);
  }

  lemma SettleOnlyMovesIndex(s: State, user: Address, p: Position)
    requires SettleFunding(s, user, p).Ok?
    ensures var q := SettleFunding(s, user, p).value.1; q == p.(lastFundingIndex := q.lastFundingIndex)
  {
  }

  lemma PreparedSettled(s: State, user: Address, index: nat, trade: Trade)
    requires Prepared(s, user, index, trade)
    ensures index < |s.Positions(user)| && s.Positions(user)[index].id == trade.after.id
    ensures trade.settled.store == s.store && trade.settled.vault == s.vault.(balances := trade.settled.vault.balances)
  {
    hide FundingPnl, MarginKept, CashSound;
  }

  lemma IncreaseDoes(s: State, e: CallEnv, user: Address, id: nat, sizeDelta: int, price: int)
    returns (index: nat, trade: Trade)
    requires Invariant(s)
    requires Increase(s, e, user, id, sizeDelta, price).Ok?
    ensures index < |s.Positions(user)| && s.Positions(user)[index].id == id
    ensures Prepared(s, user, index, trade) && trade.after.id == id && trade.realized.None? && sizeDelta > 0
    ensures Grown(s.Positions(user)[index], trade.after, sizeDelta, price)
    ensures Committed(s, Increase(s, e, user, id, sizeDelta, price).value.0, user, trade)
  {
    hide Invariant, IncreaseTrade, Commit, Committed, Prepared, Holds, AveragedEntry;
    trade := IncreaseTrade(s, e, user, id, sizeDelta, price).value;
    IncreaseTradeIs(s, e, user, id, sizeDelta, price);
    index := FindIndex(s.Positions(user), id).value;
    FoundHolds(s, user, id);
    IncreasePrepares(s, e, user, id, sizeDelta, price);
    PreparedSettled(s, user, index, trade);
    CommitDoes(s, user, trade);
  }

  lemma ReduceDoes(s: State, e: CallEnv, user: Address, id: nat, sizeDelta: int, price: int, requireMargin: bool)
    returns (index: nat, trade: Trade)
    requires Invariant(s)
    requires Reduce(s, e, user, id, sizeDelta, price, requireMargin).Ok?
    ensures index < |s.Positions(user)| && s.Positions(user)[index].id == id
    ensures Prepared(s, user, index, trade) && trade.after.id == id && sizeDelta > 0
    ensures Shrunk(s.Positions(user)[index], trade.after, sizeDelta) && trade.realized.Some?
    ensures RealizedPnl(s.Positions(user)[index], sizeDelta, price) == Ok(trade.realized.value)
    ensures Committed(s, Reduce(s, e, user, id, sizeDelta, price, requireMargin).value.0, user, trade)
  {
    hide Invariant, ReduceTrade, Commit, Committed, Prepared, Holds, MarginAfterReduce, RealizedPnl;
    trade := ReduceTrade(s, e, user, id, sizeDelta, price).value;
    ReduceTradeIs(s, e, user, id, sizeDelta, price);
    index := FindIndex(s.Positions(user), id).value;
    FoundHolds(s, user, id);
    ReducePrepares(s, e, user, id, sizeDelta, price);
    PreparedSettled(s, user, index, trade);
    CommitDoes(s, user, trade);
  }

  // ----- Opening

  /**
   An isolated position locks its notional times the initial margin rate, rounded
   down; a cross position locks nothing.
   */
  lemma InitialMarginFormula(mode: MarginMode, size: int, price: int, bps: nat)
    requires size > 0 && price > 0
    requires InitialMargin(mode, size, price, bps).Ok?
    ensures var margin := InitialMargin(mode, size, price, bps).value;
      && margin >= 0
      && (mode == Cross ==> margin == 0)
      && (mode == Isolated ==>
            BPS_DENOMINATOR * margin <= TruncDiv(size * price, PRECISION) * bps < BPS_DENOMINATOR * (margin + 1))
  {
    InitialMarginNear(size, price, bps);
  }

  lemma FundingAfterOpen(s: State, t: State, p: Position)
    requires forall m :: FundingConserved(s, m)
    requires Exchanged(s, t, p.(size := 0), p)
    requires t.store.fundingStates == s.store.fundingStates && t.books.funding == s.books.funding
    requires p.lastFundingIndex == s.FundingIndex(p.marketId, p.isLong)
    ensures forall m :: FundingConserved(t, m)
  {
    forall m ensures FundingConserved(t, m) {
      assert FundingConserved(s, m);
      var w := AccruedFunding(m, s.FundingIndex(m, true), s.FundingIndex(m, false));
      assert Total(w, t.store.positions) == Total(w, s.store.positions) - w.Of(p.(size := 0)) + w.Of(p);
      if m == p.marketId {
        AccruedAt(w, p, p.lastFundingIndex);
        AccruedAt(w, p.(size := 0), p.lastFundingIndex);
      }
    }
  }

  /** What a worked-out opening trade is. */
  ghost predicate PreparedOpen(s: State, user: Address, t: Trade) {
    && |s.Positions(user)| < MAX_POSITIONS_PER_USER
    && t.settled == s.(store := s.store.(nextPositionId := t.after.id + 1))
    && t.after.id == s.store.nextPositionId
    && PositionSound(t.settled, user, t.after)
    && t.list == s.Positions(user) + [t.after]
    && t.sizeMove == t.after.size && t.interestIn == t.after.marketId
    && t.after.lastFundingIndex == s.FundingIndex(t.after.marketId, t.after.isLong)
    && CashSound(t.book) && t.book.position == t.after && t.after.owner == user
    && t.book.realized == 0 && t.book.funding == 0 && t.realized.None?
  }

  lemma OpenPrepares(s: State, e: CallEnv, user: Address, m: nat, size: int, isLong: bool, price: int, mode: MarginMode)
    requires s.store.nextPositionId >= 1
    requires OpenTrade(s, e, user, m, size, isLong, price, mode).Ok?
    ensures PreparedOpen(s, user, OpenTrade(s, e, user, m, size, isLong, price, mode).value)
  {
    InitialMarginFormula(mode, size, price, s.store.markets[m].market.initialMarginBps);
    hide InitialMargin, ValidateExecutionPrice;
  }

  lemma CashBooksAfterOpen(s: State, t: State, user: Address, trade: Trade)
    requires CashBooksSound(s) && PreparedOpen(s, user, trade) && Committed(s, t, user, trade)
    ensures CashBooksSound(t) && trade.after.id !in s.books.cash
  {
    forall u, i | 0 <= i < |t.Positions(u)|
      ensures t.Positions(u)[i].id in t.books.cash && t.books.cash[t.Positions(u)[i].id].position == t.Positions(u)[i]
    {
      if u != user || i < |s.Positions(user)| {
        assert t.Positions(u)[i] == s.Positions(u)[i];
        assert s.Positions(u)[i].id in s.books.cash;
      }
    }
  }

  lemma OpeningKeeps(s: State, t: State, user: Address, trade: Trade)
    requires Invariant(s) && PreparedOpen(s, user, trade) && Committed(s, t, user, trade)
    ensures Invariant(t)
  {
    hide MoveInterest, CashSound, MoneyExact;
    var p := trade.after;
    assert ListsSound(t) by {
      ListsAfterAppend(s, t, user, p);
    }
    ExchangedByAppend(s, t, user, p);
    assert forall m :: InterestExact(t, m) by {
      InterestAfterTrade(s, t, p.(size := 0), p);
    }
    assert forall m :: FundingConserved(t, m) by {
      FundingAfterOpen(s, t, p);
    }
    CashBooksAfterOpen(s, t, user, trade);
    MirrorKept(s, t, user, trade);
    OpeningAccountsKept(s, t, user, trade);
  }

  lemma PreparedOpenSettled(s: State, user: Address, trade: Trade)
    requires PreparedOpen(s, user, trade)
    ensures trade.settled.store == s.store.(nextPositionId := trade.settled.store.nextPositionId)
    ensures trade.settled.vault == s.vault
  {
  }

  /** A new position: the next id, the caller's terms, the current funding index and initial margin if isolated. */
  predicate Opened(s: State, user: Address, m: nat, size: int, isLong: bool, price: int, mode: MarginMode,
                   p: Position) {
    && p == Position(s.store.nextPositionId, user, m, size, price, p.margin, isLong, s.FundingIndex(m, isLong), mode)
    && m in s.store.markets
    && InitialMargin(mode, size, price, s.store.markets[m].market.initialMarginBps) == Ok(p.margin)
  }

  lemma OpenTradeIs(s: State, e: CallEnv, user: Address, m: nat, size: int, isLong: bool, price: int, mode: MarginMode)
    requires OpenTrade(s, e, user, m, size, isLong, price, mode).Ok?
    ensures Opened(s, user, m, size, isLong, price, mode,
                   OpenTrade(s, e, user, m, size, isLong, price, mode).value.after)
  {
    hide InitialMargin, ValidateExecutionPrice;
  }

  lemma OpenDoes(s: State, e: CallEnv, user: Address, m: nat, size: int, isLong: bool, price: int, mode: MarginMode)
    returns (trade: Trade)
    requires Invariant(s)
    requires Open(s, e, user, m, size, isLong, price, mode).Ok?
    ensures PreparedOpen(s, user, trade) && Opened(s, user, m, size, isLong, price, mode, trade.after)
    ensures Committed(s, Open(s, e, user, m, size, isLong, price, mode).value.0, user, trade)
  {
    hide OpenTrade, Commit, Committed, PreparedOpen, Opened;
    hide ListSound, MarketsKeyed, IdsUnique, VaultMirrors, CashBooksSound, MoneyExact;
    trade := OpenTrade(s, e, user, m, size, isLong, price, mode).value;
    OpenTradeIs(s, e, user, m, size, isLong, price, mode);
    OpenPrepares(s, e, user, m, size, isLong, price, mode);
    PreparedOpenSettled(s, user, trade);
    CommitDoes(s, user, trade);
  }

  // ----- All trades alike

  predicate IsTrade(op: Op) {
    op.OpOpen? || op.OpIncrease? || op.OpReduce? || op.OpLiquidate? || op.OpClose?
  }

  lemma TradeDoes(s: State, e: CallEnv, op: Op) returns (index: nat, trade: Trade)
    requires Invariant(s) && IsTrade(op) && Apply(s, e, op).Ok?
    ensures Committed(s, Apply(s, e, op).value, op.user, trade)
    ensures if op.OpOpen? then PreparedOpen(s, op.user, trade)
      else Prepared(s, op.user, index, trade) && trade.after.id == op.id
           && (!op.OpIncrease? ==> trade.after.size < s.Positions(op.user)[index].size)
  {
    hide Invariant, Committed, PreparedOpen, Open, Increase, Reduce;
    index := 0;
    match op
    case OpOpen(user, m, size, isLong, price, mode) => trade := OpenDoes(s, e, user, m, size, isLong, price, mode);
    case OpIncrease(user, id, size, price) => index, trade := IncreaseDoes(s, e, user, id, size, price);
    case OpReduce(user, id, size, price) => index, trade := ReduceDoes(s, e, user, id, size, price, true);
    case OpLiquidate(user, id, size, price) => index, trade := ReduceDoes(s, e, user, id, size, price, false);
    case OpClose(user, id, price) =>
      index, trade :=
        ReduceDoes(s, e, user, id, s.Positions(user)[FindIndex(s.Positions(user), id).value].size, price, true);
  }
}
