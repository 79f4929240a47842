/** The remaining calls, and what follows for every run of the engine. */
module EngineRuns {
  import opened Outcomes
  import opened FixedPoint
  import opened MapSums
  import opened EngineState
  import opened VaultHealth
  import opened EngineTotals
  import opened EngineSpec
  import opened EngineInvariant
  import opened EngineSafety

  /** The two indexes move by opposite amounts. */
  lemma IndexesMoveOppositely(cfg: FundingConfig, state: FundingState, oiLong: int, oiShort: int, now: nat)
    requires UpdateFromImbalance(cfg, state, oiLong, oiShort, now).Ok?
    ensures var next := UpdateFromImbalance(cfg, state, oiLong, oiShort, now).value;
      next.longIndex - state.longIndex == state.shortIndex - next.shortIndex
  {
    hide MulDiv, DivPrecision, MulPrecision;
  }

  /** The surplus is the exact imbalance charge, rounded toward zero, whatever was skipped as zero. */
  lemma NetSurplusExact(delta: int, oiLong: int, oiShort: int)
    requires NetSurplus(delta, oiLong, oiShort).Ok?
    ensures NetSurplus(delta, oiLong, oiShort).value == TruncDiv(delta * (oiLong - oiShort), PRECISION)
  {
    if delta == 0 || oiLong == oiShort {
      assert delta * (oiLong - oiShort) == 0;
    }
  }

  lemma RouteSurplusPays(v: VaultState, insurance: Option<Address>, surplus: int)
    requires RouteSurplus(v, insurance, surplus).Ok?
    ensures var routed := RouteSurplus(v, insurance, surplus).value;
      && routed == v.(balances := routed.balances)
      && if insurance.Some? then Paid(v.balances, routed.balances, insurance.value, surplus) else routed == v
  {
    if surplus != 0 && insurance.Some? {
      ApplyPnlPays(v, insurance.value, surplus);
    }
  }

  /**
   What a funding update does, in terms of how far the long index moved: the
   surplus goes to the insurance address, if there is one.
   */
  ghost predicate Funded(s: State, t: State, m: nat, delta: int) {
    var exact := delta * (s.SideInterest(m, true) - s.SideInterest(m, false));
    var insurance, surplus := s.store.insurance, TruncDiv(exact, PRECISION);
    && t.store == s.store.(fundingStates := t.store.fundingStates)
    && m in t.store.fundingStates && t.store.fundingStates == s.store.fundingStates[m := t.store.fundingStates[m]]
    && t.FundingIndex(m, true) == s.FundingIndex(m, true) + delta
    && t.FundingIndex(m, false) == s.FundingIndex(m, false) - delta
    && t.vault.positions == s.vault.positions && t.vault.markets == s.vault.markets
    && t.vault.fundingLong == s.vault.fundingLong[m := t.FundingIndex(m, true)]
    && t.vault.fundingShort == s.vault.fundingShort[m := t.FundingIndex(m, false)]
    && t.books.cash == s.books.cash && t.books.external == s.books.external && t.books.fees == s.books.fees
    && t.books.funding == s.books.funding[m := BookFunding(s.BookOf(m), insurance.Some?, exact, surplus)]
    && if insurance.Some? then
         Paid(s.vault.balances, t.vault.balances, insurance.value, surplus)
         && Paid(s.books.routed, t.books.routed, insurance.value, surplus)
       else
         t.vault.balances == s.vault.balances && t.books.routed == s.books.routed
  }

  lemma UpdateFundingDoes(s: State, now: nat, m: nat) returns (delta: int)
    requires UpdateFunding(s, now, m).Ok?
    ensures Funded(s, UpdateFunding(s, now, m).value.0, m, delta)
    ensures delta == UpdateFunding(s, now, m).value.1.longIndex - s.FundingIndex(m, true)
  {
    hide UpdateFromImbalance, NetSurplus, RouteSurplus, BookFunding, TruncDiv, Paid, Credit;
    var current := s.FundingAt(m, now);
    var oiLong, oiShort := s.SideInterest(m, true), s.SideInterest(m, false);
    var next := UpdateFunding(s, now, m).value.1;
    IndexesMoveOppositely(s.store.fundingConfigs[m], current, oiLong, oiShort, now);
    delta := next.longIndex - current.longIndex;
    NetSurplusExact(delta, oiLong, oiShort);
    var surplus := NetSurplus(delta, oiLong, oiShort).value;
    RouteSurplusPays(s.vault.(fundingLong := s.vault.fundingLong[m := next.longIndex],
                              fundingShort := s.vault.fundingShort[m := next.shortIndex]),
                     s.store.insurance, surplus);
    if s.store.insurance.Some? {
      CreditPays(s.books.routed, s.store.insurance.value, surplus);
    }
  }

  /** The index move charges live positions exactly what the imbalance says. */
  lemma FundedAccrued(s: State, t: State, m: nat, delta: int)
    requires InterestExact(s, m) && Funded(s, t, m, delta)
    ensures Accrued(t, m) == Accrued(s, m) - delta * (s.SideInterest(m, true) - s.SideInterest(m, false))
  {
    hide TruncDiv, BookFunding, Total;
    AccruedShift(m, s.FundingIndex(m, true), s.FundingIndex(m, false), delta, -delta, s.store.positions);
    ImbalanceCharge(delta, s.SideInterest(m, true), s.SideInterest(m, false));
  }

  /** Routing that charge loses less than a unit; without an insurance address all of it is unaccounted for. */
  lemma FundedMoves(s: State, t: State, m: nat, delta: int)
    requires InterestExact(s, m) && Funded(s, t, m, delta)
    ensures var exact := delta * (s.SideInterest(m, true) - s.SideInterest(m, false));
      if s.store.insurance.Some? then Abs(FundingMoved(t, m) - FundingMoved(s, m)) < PRECISION
      else FundingMoved(t, m) - FundingMoved(s, m) == -exact
  {
    hide Accrued, InterestExact, TruncDiv;
    FundedAccrued(s, t, m, delta);
    TruncDivBounds(delta * (s.SideInterest(m, true) - s.SideInterest(m, false)), PRECISION);
  }

  lemma ImbalanceCharge(delta: int, oiLong: int, oiShort: int)
    ensures delta * oiLong + (-delta) * oiShort == delta * (oiLong - oiShort)
  {
  }

  lemma UpdateFundingKeeps(s: State, now: nat, m: nat)
    requires Invariant(s)
    requires UpdateFunding(s, now, m).Ok?
    ensures Invariant(UpdateFunding(s, now, m).value.0)
  {
    var delta := UpdateFundingDoes(s, now, m);
    FundedKeeps(s, UpdateFunding(s, now, m).value.0, m, delta);
  }

  lemma FundedHere(s: State, t: State, m: nat, delta: int)
    requires FundingConserved(s, m) && InterestExact(s, m) && Funded(s, t, m, delta)
    ensures FundingConserved(t, m)
  {
    FundedMoves(s, t, m, delta);
    hide InterestExact, FundingMoved, TruncDiv;
  }

  lemma FundedConserves(s: State, t: State, m: nat, delta: int)
    requires Invariant(s) && Funded(s, t, m, delta)
    ensures forall k :: FundingConserved(t, k)
  {
    hide Funded, InterestExact;
    forall k ensures FundingConserved(t, k) {
      assert FundingConserved(s, k) && InterestExact(s, m);
      if k == m {
        FundedHere(s, t, m, delta);
      } else {
        FundedElsewhere(s, t, m, delta, k);
      }
    }
  }

  lemma FundedElsewhere(s: State, t: State, m: nat, delta: int, k: nat)
    requires Funded(s, t, m, delta) && k != m
    ensures t.BookOf(k) == s.BookOf(k) && Accrued(t, k) == Accrued(s, k)
  {
    hide BookFunding, TruncDiv;
    assert t.FundingIndex(k, true) == s.FundingIndex(k, true) && t.FundingIndex(k, false) == s.FundingIndex(k, false);
  }

  lemma FundedMirrors(s: State, t: State, m: nat, delta: int)
    requires VaultMirrors(s) && Funded(s, t, m, delta)
    ensures VaultMirrors(t)
  {
    hide TruncDiv, BookFunding, Paid;
    forall k ensures Lookup(t.vault.fundingLong, k) == t.FundingIndex(k, true)
      && Lookup(t.vault.fundingShort, k) == t.FundingIndex(k, false) {
      assert Lookup(s.vault.fundingLong, k) == s.FundingIndex(k, true);
      assert Lookup(s.vault.fundingShort, k) == s.FundingIndex(k, false);
    }
    assert forall u :: t.Positions(u) == s.Positions(u);
  }

  lemma FundedEntitled(s: State, t: State, m: nat, delta: int)
    requires BalancesExact(s) && PaidExact(s) && Funded(s, t, m, delta)
    ensures BalancesExact(t) && PaidExact(t)
  {
    hide TruncDiv, CashTotal, Sum;
    forall u ensures Balance(t.vault.balances, u) == Entitled(t, u) {
      assert Balance(s.vault.balances, u) == Entitled(s, u);
    }
    forall k ensures t.BookOf(k).paid == CashTotal(PaidIn(k), t.books.cash) {
      assert s.BookOf(k).paid == CashTotal(PaidIn(k), s.books.cash);
    }
  }

  lemma FundedMoney(s: State, t: State, m: nat, delta: int)
    requires MoneyExact(s) && Funded(s, t, m, delta)
    ensures MoneyExact(t)
  {
    hide TruncDiv, CashTotal, Sum, BalancesExact, PaidExact, FundedTotal, RoutedTotal;
    FundedTotalSet(s.books.funding, m, t.books.funding[m]);
    RoutedTotalSet(s.books.funding, m, t.books.funding[m]);
    FundedEntitled(s, t, m, delta);
  }

  lemma FundedKeeps(s: State, t: State, m: nat, delta: int)
    requires Invariant(s) && Funded(s, t, m, delta)
    ensures Invariant(t)
  {
    hide TruncDiv, FundingConserved, InterestExact, ListSound, VaultMirrors, CashBooksSound, IdsUnique, MoneyExact,
      Paid;
    SameListsSound(s, t);
    FundedConserves(s, t, m, delta);
    FundedMirrors(s, t, m, delta);
    FundedMoney(s, t, m, delta);
  }

  /** Calls that touch no position keep everything said about positions and their ledgers. */
  lemma SameListsSound(s: State, t: State)
    requires Invariant(s)
    requires t.store.positions == s.store.positions && t.store.nextPositionId == s.store.nextPositionId
    requires t.books.cash == s.books.cash
    requires t.store.openInterest == s.store.openInterest
    requires t.store.longOpenInterest == s.store.longOpenInterest
          && t.store.shortOpenInterest == s.store.shortOpenInterest
    ensures (forall u :: ListSound(t, u)) && IdsUnique(t) && CashBooksSound(t) && forall m :: InterestExact(t, m)
  {
    assert forall u :: t.Positions(u) == s.Positions(u);
    forall u ensures ListSound(t, u) {
      assert ListSound(s, u);
    }
    forall m ensures InterestExact(t, m) {
      assert InterestExact(s, m);
    }
  }

  /** The fee's rate times the notional, both rounded down. */
  predicate FeeOf(fee: int, size: int, price: int, bps: nat) {
    fee >= 0 && BPS_DENOMINATOR * fee <= TruncDiv(size * price, PRECISION) * bps < BPS_DENOMINATOR * (fee + 1)
  }

  lemma FeeFormula(size: int, price: int, bps: nat)
    requires size > 0 && price > 0
    requires MulPrecision(size, price).Ok? && ApplyBps(MulPrecision(size, price).value, bps).Ok?
    ensures FeeOf(ApplyBps(MulPrecision(size, price).value, bps).value, size, price, bps)
  {
    hide TruncDiv;
    var notional := MulPrecision(size, price).value;
    ProductNonNegative(size, price);
    TruncDivBounds(size * price, PRECISION);
    ProductNonNegative(notional, bps);
    TruncDivBounds(notional * bps, BPS_DENOMINATOR);
  }

  /** Money taken from one account and given to another. */
  ghost predicate Transferred(before: map<Address, int>, after: map<Address, int>, from: Address, to: Address,
                              amount: int) {
    && (forall u :: Balance(after, u)
          == Balance(before, u) - (if u == from then amount else 0) + (if u == to then amount else 0))
    && Sum(after) == Sum(before)
  }

  lemma TransferMoves(balances: map<Address, int>, from: Address, to: Address, amount: int)
    ensures Transferred(balances, Credit(Credit(balances, from, -amount), to, amount), from, to, amount)
  {
    CreditPays(balances, from, -amount);
    CreditPays(Credit(balances, from, -amount), to, amount);
    hide Sum;
  }

  lemma TwoPnlsTransfer(v: VaultState, from: Address, to: Address, amount: int)
    requires ApplyPnl(v, from, -amount).Ok? && ApplyPnl(ApplyPnl(v, from, -amount).value, to, amount).Ok?
    ensures ApplyPnl(ApplyPnl(v, from, -amount).value, to, amount).value
         == v.(balances := Credit(Credit(v.balances, from, -amount), to, amount))
  {
    hide ApplyPnl;
    ApplyPnlPays(v, from, -amount);
    ApplyPnlPays(ApplyPnl(v, from, -amount).value, to, amount);
  }

  /** A fee moves from the trader to the recipient, in the vault and in the books, and changes nothing else. */
  lemma ChargeTradeFeeMoves(s: State, e: CallEnv, user: Address, m: nat, size: int, price: int, isMaker: bool)
    requires ChargeTradeFee(s, e, user, m, size, price, isMaker).Ok?
    ensures var (t, fee) := ChargeTradeFee(s, e, user, m, size, price, isMaker).value;
      var fees := FeesOf(s.store.feeConfigs, m);
      && FeeOf(fee, size, price, if isMaker then fees.makerFeeBps else fees.takerFeeBps)
      && t == s.(vault := s.vault.(balances := t.vault.balances), books := s.books.(fees := t.books.fees))
      && Transferred(s.vault.balances, t.vault.balances, user, s.store.feeRecipient, fee)
      && Transferred(s.books.fees, t.books.fees, user, s.store.feeRecipient, fee)
  {
    hide ApplyPnl, MulPrecision, ApplyBps, TruncDiv, Health, Transferred, Credit;
    var config := FeesOf(s.store.feeConfigs, m);
    var feeBps := if isMaker then config.makerFeeBps else config.takerFeeBps;
    if feeBps != 0 {
      var fee := ChargeTradeFee(s, e, user, m, size, price, isMaker).value.1;
      FeeFormula(size, price, feeBps);
      TwoPnlsTransfer(s.vault, user, s.store.feeRecipient, fee);
      TransferMoves(s.vault.balances, user, s.store.feeRecipient, fee);
      TransferMoves(s.books.fees, user, s.store.feeRecipient, fee);
    } else {
      NothingTransferred(s.vault.balances, user, s.store.feeRecipient);
      NothingTransferred(s.books.fees, user, s.store.feeRecipient);
      NoFee(size, price);
    }
  }

  lemma NothingTransferred(balances: map<Address, int>, from: Address, to: Address)
    ensures Transferred(balances, balances, from, to, 0)
  {
  }

  lemma NoFee(size: int, price: int)
    ensures FeeOf(0, size, price, 0)
  {
  }

  /** A call that leaves positions, interest, funding state and ledgers alone, and books what it does to the vault. */
  lemma BystanderKeeps(s: State, t: State)
    requires Invariant(s)
    requires t.store.positions == s.store.positions && t.store.nextPositionId == s.store.nextPositionId
    requires t.store.openInterest == s.store.openInterest
    requires t.store.longOpenInterest == s.store.longOpenInterest
          && t.store.shortOpenInterest == s.store.shortOpenInterest
    requires forall m, isLong :: t.FundingIndex(m, isLong) == s.FundingIndex(m, isLong)
    requires t.books.cash == s.books.cash && t.books.funding == s.books.funding
    requires t.vault.positions == s.vault.positions
    requires t.vault.fundingLong == s.vault.fundingLong && t.vault.fundingShort == s.vault.fundingShort
    requires t.vault.markets == map m | m in t.store.markets :: t.store.markets[m].market
    requires MoneyExact(t)
    requires MarketsKeyed(t)
    ensures Invariant(t)
  {
    SameListsSound(s, t);
    assert forall u :: t.Positions(u) == s.Positions(u);
    forall m ensures FundingConserved(t, m) {
      assert FundingConserved(s, m);
    }
    forall m ensures Lookup(t.vault.fundingLong, m) == t.FundingIndex(m, true)
      && Lookup(t.vault.fundingShort, m) == t.FundingIndex(m, false) {
      assert Lookup(s.vault.fundingLong, m) == s.FundingIndex(m, true);
    }
  }

  lemma InitiallySound(admin: Address)
    ensures Invariant(InitialState(admin))
  {
    var s := InitialState(admin);
    assert forall w: Weight :: PerUser(w, s.store.positions) == map[];
    assert FundedPer(s.books.funding) == map[] && RoutedPer(s.books.funding) == map[];
    assert forall w: CashWeight :: CashPer(w, s.books.cash) == map[];
  }

  lemma TradeCallKeeps(s: State, e: CallEnv, op: Op)
    requires Invariant(s) && IsTrade(op) && Apply(s, e, op).Ok?
    ensures Invariant(Apply(s, e, op).value)
  {
    var index, trade := TradeDoes(s, e, op);
    var t := Apply(s, e, op).value;
    hide Invariant, Apply, Committed, Prepared, PreparedOpen;
    if op.OpOpen? {
      OpeningKeeps(s, t, op.user, trade);
    } else {
      TradeKeeps(s, t, op.user, index, trade);
    }
  }

  /** Nothing said about money depends on anything but balances and books. */
  lemma SameMoney(s: State, t: State)
    requires MoneyExact(s) && t.vault.balances == s.vault.balances && t.books == s.books
    ensures MoneyExact(t)
  {
    hide CashTotal, Sum;
    forall u ensures Balance(t.vault.balances, u) == Entitled(t, u) {
      assert Balance(s.vault.balances, u) == Entitled(s, u);
    }
    forall k ensures t.BookOf(k).paid == CashTotal(PaidIn(k), t.books.cash) {
      assert s.BookOf(k).paid == CashTotal(PaidIn(k), s.books.cash);
    }
  }

  lemma SettingKeeps(s: State, e: CallEnv, op: Op)
    requires op.OpSetMarket? || op.OpSetFeeConfig? || op.OpSetFundingConfig?
    requires Invariant(s) && Apply(s, e, op).Ok?
    ensures Invariant(Apply(s, e, op).value)
  {
    hide MoneyExact;
    SameMoney(s, Apply(s, e, op).value);
    BystanderKeeps(s, Apply(s, e, op).value);
  }

  lemma FeeMoney(s: State, t: State, from: Address, to: Address, fee: int)
    requires MoneyExact(s)
    requires t == s.(vault := s.vault.(balances := t.vault.balances), books := s.books.(fees := t.books.fees))
    requires Transferred(s.vault.balances, t.vault.balances, from, to, fee)
    requires Transferred(s.books.fees, t.books.fees, from, to, fee)
    ensures MoneyExact(t)
  {
    hide CashTotal, Sum;
    forall u ensures Balance(t.vault.balances, u) == Entitled(t, u) {
      assert Balance(s.vault.balances, u) == Entitled(s, u);
    }
    forall k ensures t.BookOf(k).paid == CashTotal(PaidIn(k), t.books.cash) {
      assert s.BookOf(k).paid == CashTotal(PaidIn(k), s.books.cash);
    }
  }

  lemma FeeKeeps(s: State, e: CallEnv, op: Op)
    requires op.OpChargeTradeFee?
    requires Invariant(s) && Apply(s, e, op).Ok?
    ensures Invariant(Apply(s, e, op).value)
  {
    hide ChargeTradeFee, MoneyExact, Transferred;
    ChargeTradeFeeMoves(s, e, op.user, op.market, op.size, op.price, op.isMaker);
    var (t, fee) := ChargeTradeFee(s, e, op.user, op.market, op.size, op.price, op.isMaker).value;
    FeeMoney(s, t, op.user, s.store.feeRecipient, fee);
    BystanderKeeps(s, t);
  }

  lemma ExternalMoney(s: State, t: State, user: Address, amount: int)
    requires MoneyExact(s)
    requires t == s.(vault := s.vault.(balances := t.vault.balances), books := s.books.(external := t.books.external))
    requires Paid(s.vault.balances, t.vault.balances, user, amount)
    requires Paid(s.books.external, t.books.external, user, amount)
    ensures MoneyExact(t)
  {
    hide CashTotal, Sum;
    forall u ensures Balance(t.vault.balances, u) == Entitled(t, u) {
      assert Balance(s.vault.balances, u) == Entitled(s, u);
    }
    forall k ensures t.BookOf(k).paid == CashTotal(PaidIn(k), t.books.cash) {
      assert s.BookOf(k).paid == CashTotal(PaidIn(k), s.books.cash);
    }
  }

  lemma AdminKeeps(s: State, e: CallEnv, op: Op)
    requires op.OpSetInsurance? || op.OpSetFeeRecipient? || op.OpSetPaused? || op.OpExternal?
    requires Invariant(s)
    ensures Apply(s, e, op).Ok? && Invariant(Apply(s, e, op).value)
  {
    hide MoneyExact, Paid, Credit;
    var t := Apply(s, e, op).value;
    if op.OpExternal? {
      CreditPays(s.vault.balances, op.user, op.amount);
      CreditPays(s.books.external, op.user, op.amount);
      ExternalMoney(s, t, op.user, op.amount);
    } else {
      SameMoney(s, t);
    }
    BystanderKeeps(s, t);
  }

  /** Every successful call keeps the invariant. */
  lemma ApplyKeeps(s: State, e: CallEnv, op: Op)
    requires Invariant(s) && Apply(s, e, op).Ok?
    ensures Invariant(Apply(s, e, op).value)
  {
    hide Invariant;
    if IsTrade(op) {
      TradeCallKeeps(s, e, op);
    } else if op.OpUpdateFunding? {
      UpdateFundingKeeps(s, e.now, op.market);
    } else if op.OpChargeTradeFee? {
      FeeKeeps(s, e, op);
    } else if op.OpSetMarket? || op.OpSetFeeConfig? || op.OpSetFundingConfig? {
      SettingKeeps(s, e, op);
    } else {
      AdminKeeps(s, e, op);
    }
  }

  lemma NextKeeps(s: State, e: CallEnv, op: Op)
    ensures Invariant(s) ==> Invariant(Next(s, e, op))
  {
    if Invariant(s) && Apply(s, e, op).Ok? {
      ApplyKeeps(s, e, op);
    }
  }

  /** The invariant holds in every reachable state. */
  lemma {:induction false} RunSound(s: State, calls: seq<(CallEnv, Op)>)
    requires Invariant(s)
    ensures Invariant(Run(s, calls))
  {
    if calls != [] {
      hide Invariant;
      var last := calls[|calls| - 1];
      RunSound(s, calls[..|calls| - 1]);
      NextKeeps(Run(s, calls[..|calls| - 1]), last.0, last.1);
    }
  }
}
