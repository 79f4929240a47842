/** Exactly when the vault can report on an account, in plain sums over its positions. */
module HealthReports {
  import opened Outcomes
  import opened FixedPoint
  import opened EngineState
  import opened Accounting
  import opened VaultHealth
  import opened EngineSpec
  import opened EngineInvariant
  import opened AccountMargin

  /** The position's market is configured and priced, and none of its own figures overflows. */
  predicate Readable(s: State, e: CallEnv, p: Position) {
    var mark, due := Mark(e, p.marketId), s.FundingIndex(p.marketId, p.isLong) - p.lastFundingIndex;
    var move := if p.isLong then mark - p.entryPrice else p.entryPrice - mark;
    && p.marketId in s.store.markets && InitialRate(s, p.marketId) <= BPS_DENOMINATOR
    && e.Price(p.marketId).Ok? && mark > 0 && p.size > 0 && p.entryPrice > 0
    && IsI128(move) && IsI128(TruncDiv(p.size * move, PRECISION))
    && IsI128(due) && IsI128(TruncDiv(p.size * due, PRECISION)) && IsI128(-TruncDiv(p.size * due, PRECISION))
    && IsI128(Unrealized(s, e, p)) && IsI128(TruncDiv(p.size * mark, PRECISION))
    && (p.mode == Isolated ==> IsI128(p.margin + Unrealized(s, e, p)))
  }

  /** No partial sum overflows. */
  predicate SumsFit(f: Figure, s: State, e: CallEnv, list: seq<Position>) {
    list == [] || (SumsFit(f, s, e, list[..|list| - 1]) && IsI128(FigureTotal(f, s, e, list)))
  }

  function Collateral(balance: int, e: CallEnv): int {
    Others(e) + if Counts(balance, e) && e.settlementConfig.Some? then
                  AfterCut(AtPrice(balance, e), e.settlementConfig.value)
                else 0
  }

  /** Collateral less locked margin, plus cross PnL, plus isolated equity. */
  function EquityOf(s: State, e: CallEnv, list: seq<Position>, balance: int): int {
    Collateral(balance, e) - FigureTotal(LockedMargin, s, e, list)
      + FigureTotal(CrossPnl, s, e, list) + FigureTotal(IsolatedEquity, s, e, list)
  }

  /**
   A report comes out: the collateral can be valued, every position read, and
   neither a sum nor the ratio of equity to maintenance margin overflows.
   */
  ghost predicate Reportable(s: State, e: CallEnv, list: seq<Position>, balance: int) {
    var free := Collateral(balance, e) - FigureTotal(LockedMargin, s, e, list);
    var equity, needed := EquityOf(s, e, list, balance), FigureTotal(Maintained, s, e, list);
    && Valuable(balance, e)
    && |list| <= PNL_BUFFER && (forall p | p in list :: Readable(s, e, p))
    && (forall f: Figure :: SumsFit(f, s, e, list))
    && IsI128(free) && IsI128(free + FigureTotal(CrossPnl, s, e, list)) && IsI128(equity)
    && IsI128(equity - FigureTotal(RequiredMargin, s, e, list))
    && (needed > 0 ==> IsI128(TruncDiv(equity * PRECISION, needed)))
  }

  ghost predicate Covered(s: State, e: CallEnv, list: seq<Position>, balance: int) {
    EquityOf(s, e, list, balance) >= FigureTotal(RequiredMargin, s, e, list)
  }

  // ----- One position

  lemma UnrealizedFitsIff(s: State, e: CallEnv, p: Position)
    requires Mirrored(s) && e.Price(p.marketId).Ok?
    ensures UnrealizedPnl(s.vault, p, Mark(e, p.marketId)).Ok? <==>
      var mark, due := Mark(e, p.marketId), s.FundingIndex(p.marketId, p.isLong) - p.lastFundingIndex;
      var move := if p.isLong then mark - p.entryPrice else p.entryPrice - mark;
      && mark > 0 && p.size > 0 && p.entryPrice > 0
      && IsI128(move) && IsI128(TruncDiv(p.size * move, PRECISION))
      && IsI128(due) && IsI128(TruncDiv(p.size * due, PRECISION)) && IsI128(-TruncDiv(p.size * due, PRECISION))
      && IsI128(Unrealized(s, e, p))
  {
    hide TruncDiv;
    assert IndexOf(s.vault, p) == s.FundingIndex(p.marketId, p.isLong);
  }

  lemma ShareFits(e: CallEnv, p: Position, bps: nat)
    requires p.size > 0 && Mark(e, p.marketId) > 0 && IsI128(TruncDiv(p.size * Mark(e, p.marketId), PRECISION))
    ensures ApplyBps(TruncDiv(p.size * Mark(e, p.marketId), PRECISION), bps)
         == if bps > BPS_DENOMINATOR then Err(InvalidConfig) else Ok(Share(e, p, bps))
  {
    hide TruncDiv;
    var exact := p.size * Mark(e, p.marketId);
    ProductNonNegative(p.size, Mark(e, p.marketId));
    TruncDivBounds(exact, PRECISION);
    if bps <= BPS_DENOMINATOR {
      HaircutGrows(TruncDiv(exact, PRECISION), TruncDiv(exact, PRECISION), bps);
      ShareGrows(e, p, 0, bps);
    }
  }

  lemma RatesAgree(s: State, p: Position)
    requires Mirrored(s) && MarketsKeyed(s) && p.marketId in s.store.markets
    ensures p.marketId in s.vault.markets && s.vault.markets[p.marketId].active
    ensures s.vault.markets[p.marketId].initialMarginBps == InitialRate(s, p.marketId)
    ensures s.vault.markets[p.marketId].maintenanceMarginBps == MaintenanceRate(s, p.marketId)
         <= InitialRate(s, p.marketId)
  {
    assert EngineAcceptsMarket(s.store.markets[p.marketId]);
  }

  lemma TallyOneFitsIff(s: State, e: CallEnv, t: Tally, p: Position)
    requires Mirrored(s) && MarketsKeyed(s) && IsI128(t.locked)
    ensures TallyOne(s.vault, e, t, p).Ok?
       <==> |t.pnls| < PNL_BUFFER && Readable(s, e, p)
            && IsI128(t.initial + FigureOf(RequiredMargin, s, e, p))
            && IsI128(t.maintenance + FigureOf(Maintained, s, e, p))
            && IsI128(t.locked + FigureOf(LockedMargin, s, e, p))
  {
    hide TruncDiv, UnrealizedPnl, ApplyBps, Unrealized, Share;
    if p.marketId in s.store.markets {
      RatesAgree(s, p);
      if e.Price(p.marketId).Ok? {
        UnrealizedFitsIff(s, e, p);
        if UnrealizedPnl(s.vault, p, Mark(e, p.marketId)).Ok? {
          UnrealizedIs(s, e, p);
          if IsI128(TruncDiv(p.size * Mark(e, p.marketId), PRECISION)) {
            ShareFits(e, p, InitialRate(s, p.marketId));
            ShareFits(e, p, MaintenanceRate(s, p.marketId));
          }
        }
      }
    } else {
      assert p.marketId !in s.vault.markets;
    }
  }

  // ----- The passes

  lemma SumsStep(f: Figure, s: State, e: CallEnv, list: seq<Position>)
    requires list != []
    ensures SumsFit(f, s, e, list)
       <==> SumsFit(f, s, e, list[..|list| - 1])
            && IsI128(FigureTotal(f, s, e, list[..|list| - 1]) + FigureOf(f, s, e, list[|list| - 1]))
  {
    hide FigureOf;
  }

  lemma SumsInside(f: Figure, s: State, e: CallEnv, list: seq<Position>)
    requires SumsFit(f, s, e, list)
    ensures IsI128(FigureTotal(f, s, e, list))
  {
  }

  lemma ReadableStep(s: State, e: CallEnv, list: seq<Position>)
    requires list != []
    ensures (forall p | p in list :: Readable(s, e, p))
       <==> (forall p | p in list[..|list| - 1] :: Readable(s, e, p)) && Readable(s, e, list[|list| - 1])
  {
    hide Readable;
    assert list == list[..|list| - 1] + [list[|list| - 1]];
  }

  /** What the first pass needs. */
  ghost predicate FirstPass(s: State, e: CallEnv, list: seq<Position>) {
    && |list| <= PNL_BUFFER && (forall p | p in list :: Readable(s, e, p))
    && SumsFit(RequiredMargin, s, e, list) && SumsFit(Maintained, s, e, list) && SumsFit(LockedMargin, s, e, list)
  }

  lemma {:induction false} TallyFitsIff(s: State, e: CallEnv, list: seq<Position>)
    requires Mirrored(s) && MarketsKeyed(s)
    ensures TallyAll(s.vault, e, list).Ok? <==> FirstPass(s, e, list)
  {
    hide TallyOne, FigureOf, Readable, Mirrored, FigureTotal, SumsFit;
    if list == [] {
      EmptySums(s, e);
    } else {
      var rest, last := list[..|list| - 1], list[|list| - 1];
      TallyFitsIff(s, e, rest);
      ReadableStep(s, e, list);
      SumsStep(RequiredMargin, s, e, list);
      SumsStep(Maintained, s, e, list);
      SumsStep(LockedMargin, s, e, list);
      if TallyAll(s.vault, e, rest).Ok? {
        TallyIs(s, e, rest);
        SumsInside(LockedMargin, s, e, rest);
        TallyOneFitsIff(s, e, TallyAll(s.vault, e, rest).value, last);
      }
    }
  }

  lemma EmptySums(s: State, e: CallEnv)
    ensures forall f :: SumsFit(f, s, e, []) && FigureTotal(f, s, e, []) == 0
  {
  }

  lemma SplitOneFitsIff(s: State, e: CallEnv, sum: Split, p: Position, pnl: int)
    requires pnl == Unrealized(s, e, p) && (p.mode == Isolated ==> IsI128(p.margin + pnl))
    requires IsI128(sum.isolated) && IsI128(sum.cross)
    ensures SplitOne(sum, p, pnl).Ok?
       <==> IsI128(sum.isolated + FigureOf(IsolatedEquity, s, e, p)) && IsI128(sum.cross + FigureOf(CrossPnl, s, e, p))
  {
    hide Unrealized;
  }

  lemma {:induction false} SplitFitsIff(s: State, e: CallEnv, list: seq<Position>, pnls: seq<int>)
    requires |list| == |pnls| && forall p | p in list :: Readable(s, e, p)
    requires forall k | 0 <= k < |list| :: pnls[k] == Unrealized(s, e, list[k])
    ensures SplitAll(list, pnls).Ok? <==> SumsFit(IsolatedEquity, s, e, list) && SumsFit(CrossPnl, s, e, list)
  {
    hide SplitOne, FigureOf, FigureTotal, SumsFit, Unrealized, Readable;
    if list == [] {
      EmptySums(s, e);
    } else {
      var k := |list| - 1;
      assert list[k] in list;
      SplitFitsIff(s, e, list[..k], pnls[..k]);
      SumsStep(IsolatedEquity, s, e, list);
      SumsStep(CrossPnl, s, e, list);
      if SplitAll(list[..k], pnls[..k]).Ok? {
        SplitIs(s, e, list[..k], pnls[..k]);
        SumsInside(IsolatedEquity, s, e, list[..k]);
        SumsInside(CrossPnl, s, e, list[..k]);
        OwnFits(s, e, list[k]);
        SplitOneFitsIff(s, e, SplitAll(list[..k], pnls[..k]).value, list[k], pnls[k]);
      }
    }
  }

  lemma OwnFits(s: State, e: CallEnv, p: Position)
    requires Readable(s, e, p)
    ensures (p.mode == Isolated ==> IsI128(p.margin + Unrealized(s, e, p)))
    ensures IsI128(TruncDiv(p.size * Mark(e, p.marketId), PRECISION)) && p.size > 0 && Mark(e, p.marketId) > 0
    ensures p.marketId in s.store.markets && e.Price(p.marketId).Ok? && InitialRate(s, p.marketId) <= BPS_DENOMINATOR
  {
    hide Unrealized, TruncDiv;
  }

  lemma {:induction false} AddFitsIff(s: State, e: CallEnv, list: seq<Position>, pnls: seq<int>)
    requires |list| == |pnls|
    requires forall k | 0 <= k < |list| :: pnls[k] == Unrealized(s, e, list[k])
    ensures AddAll(pnls).Ok? <==> SumsFit(AnyPnl, s, e, list)
  {
    hide FigureTotal, SumsFit, Unrealized;
    if list == [] {
      EmptySums(s, e);
    } else {
      var k := |list| - 1;
      AddFitsIff(s, e, list[..k], pnls[..k]);
      SumsStep(AnyPnl, s, e, list);
      if AddAll(pnls[..k]).Ok? {
        AddIs(s, e, list[..k], pnls[..k]);
      }
    }
  }

  lemma CrossOneFitsIff(s: State, e: CallEnv, sum: int, p: Position)
    requires Mirrored(s) && MarketsKeyed(s) && Readable(s, e, p) && IsI128(sum)
    ensures AddCrossMaintenance(s.vault, e, sum, p).Ok? <==> IsI128(sum + FigureOf(CrossMaintained, s, e, p))
  {
    hide TruncDiv, ApplyBps, Share, Readable;
    OwnFits(s, e, p);
    RatesAgree(s, p);
    ShareFits(e, p, MaintenanceRate(s, p.marketId));
  }

  lemma {:induction false} CrossFitsIff(s: State, e: CallEnv, list: seq<Position>)
    requires Mirrored(s) && MarketsKeyed(s) && forall p | p in list :: Readable(s, e, p)
    ensures CrossMaintenance(s.vault, e, list).Ok? <==> SumsFit(CrossMaintained, s, e, list)
  {
    hide AddCrossMaintenance, FigureOf, FigureTotal, SumsFit, Readable, Mirrored;
    if list == [] {
      EmptySums(s, e);
    } else {
      var k := |list| - 1;
      assert list[k] in list;
      CrossFitsIff(s, e, list[..k]);
      SumsStep(CrossMaintained, s, e, list);
      if CrossMaintenance(s.vault, e, list[..k]).Ok? {
        CrossIs(s, e, list[..k]);
        SumsInside(CrossMaintained, s, e, list[..k]);
        CrossOneFitsIff(s, e, CrossMaintenance(s.vault, e, list[..k]).value, list[k]);
      }
    }
  }

  lemma {:induction false} ReadableIsPriced(s: State, e: CallEnv, list: seq<Position>)
    requires Mirrored(s) && forall p | p in list :: Readable(s, e, p)
    ensures MarketsPriced(s.vault, e, list) == Ok(())
  {
    hide Readable;
    if list != [] {
      var k := |list| - 1;
      assert list[k] in list;
      ReadableIsPriced(s, e, list[..k]);
      OwnFits(s, e, list[k]);
    }
  }

  lemma CollateralIs(balance: int, e: CallEnv)
    requires CollateralValue(balance, e).Ok?
    ensures CollateralValue(balance, e).value == Collateral(balance, e)
  {
    hide AfterHaircut, TruncDiv, AfterCut;
    if Counts(balance, e) {
      HaircutFits(AtPrice(balance, e), e.settlementConfig.value);
    }
  }

  // ----- The report

  lemma SumsForAll(s: State, e: CallEnv, list: seq<Position>)
    ensures (forall f: Figure :: SumsFit(f, s, e, list))
       <==> SumsFit(CrossPnl, s, e, list) && SumsFit(AnyPnl, s, e, list) && SumsFit(IsolatedEquity, s, e, list)
            && SumsFit(LockedMargin, s, e, list) && SumsFit(RequiredMargin, s, e, list)
            && SumsFit(CrossMaintained, s, e, list) && SumsFit(Maintained, s, e, list)
  {
    hide SumsFit;
    if SumsFit(CrossPnl, s, e, list) && SumsFit(AnyPnl, s, e, list) && SumsFit(IsolatedEquity, s, e, list)
      && SumsFit(LockedMargin, s, e, list) && SumsFit(RequiredMargin, s, e, list)
      && SumsFit(CrossMaintained, s, e, list) && SumsFit(Maintained, s, e, list)
    {
      forall f: Figure ensures SumsFit(f, s, e, list) {
        match f
        case CrossPnl =>
        case AnyPnl =>
        case IsolatedEquity =>
        case LockedMargin =>
        case RequiredMargin =>
        case CrossMaintained =>
        case Maintained =>
      }
    }
  }

  lemma PassesFitIff(s: State, e: CallEnv, list: seq<Position>)
    requires Mirrored(s) && MarketsKeyed(s) && TallyAll(s.vault, e, list).Ok?
    ensures var t := TallyAll(s.vault, e, list).value;
      && MarketsPriced(s.vault, e, list) == Ok(())
      && t.initial == FigureTotal(RequiredMargin, s, e, list)
      && t.maintenance == FigureTotal(Maintained, s, e, list)
      && t.locked == FigureTotal(LockedMargin, s, e, list)
      && (SplitAll(list, t.pnls).Ok? <==> SumsFit(IsolatedEquity, s, e, list) && SumsFit(CrossPnl, s, e, list))
      && (SplitAll(list, t.pnls).Ok? ==>
            SplitAll(list, t.pnls).value
            == Split(FigureTotal(IsolatedEquity, s, e, list), FigureTotal(CrossPnl, s, e, list)))
      && (AddAll(t.pnls).Ok? <==> SumsFit(AnyPnl, s, e, list))
      && (AddAll(t.pnls).Ok? ==> AddAll(t.pnls).value == FigureTotal(AnyPnl, s, e, list))
      && (CrossMaintenance(s.vault, e, list).Ok? <==> SumsFit(CrossMaintained, s, e, list))
  {
    hide TallyAll, SplitAll, AddAll, CrossMaintenance, MarketsPriced, FigureTotal, Mirrored, Unrealized, Readable,
      SumsFit, MarketsKeyed;
    TallyFitsIff(s, e, list);
    TallyIs(s, e, list);
    ReadableIsPriced(s, e, list);
    var pnls := TallyAll(s.vault, e, list).value.pnls;
    SplitFitsIff(s, e, list, pnls);
    AddFitsIff(s, e, list, pnls);
    CrossFitsIff(s, e, list);
    if SplitAll(list, pnls).Ok? {
      SplitIs(s, e, list, pnls);
    }
    if AddAll(pnls).Ok? {
      AddIs(s, e, list, pnls);
    }
  }

  /** In every reachable state the vault reports on an account exactly when the account can be reported on. */
  lemma HealthReportsIff(s: State, e: CallEnv, user: Address)
    requires Invariant(s)
    ensures Health(s.vault, e, user).Ok?
       <==> Reportable(s, e, s.Positions(user), Balance(s.vault.balances, user))
    ensures Margined(Health(s.vault, e, user))
       <==> Reportable(s, e, s.Positions(user), Balance(s.vault.balances, user))
            && Covered(s, e, s.Positions(user), Balance(s.vault.balances, user))
  {
    hide Invariant, Health, Reportable, Covered, Mirrored, MarketsKeyed;
    InvariantMirrors(s);
    InvariantOwns(s, user);
    MirrorReportsIff(s, e, user);
  }

  /** All that the report needs is a faithful mirror. */
  lemma MirrorReportsIff(s: State, e: CallEnv, user: Address)
    requires Mirrored(s) && MarketsKeyed(s) && PositionsOf(s.vault.positions, user) == s.Positions(user)
    requires forall p | p in s.Positions(user) :: p.owner == user
    ensures Health(s.vault, e, user).Ok?
       <==> Reportable(s, e, s.Positions(user), Balance(s.vault.balances, user))
    ensures Margined(Health(s.vault, e, user))
       <==> Reportable(s, e, s.Positions(user), Balance(s.vault.balances, user))
            && Covered(s, e, s.Positions(user), Balance(s.vault.balances, user))
  {
    hide TallyAll, SplitAll, AddAll, CrossMaintenance, MarketsPriced, CollateralValue, FigureTotal, Mirrored,
      Readable, SumsFit, Valuable, Collateral, TruncDiv, MarketsKeyed;
    var list, balance := s.Positions(user), Balance(s.vault.balances, user);
    ValuableIff(balance, e);
    TallyFitsIff(s, e, list);
    SumsForAll(s, e, list);
    if CollateralValue(balance, e).Ok? {
      CollateralIs(balance, e);
      if TallyAll(s.vault, e, list).Ok? {
        PassesFitIff(s, e, list);
        AssessFitsIff(Collateral(balance, e), TallyAll(s.vault, e, list).value,
                      Split(FigureTotal(IsolatedEquity, s, e, list), FigureTotal(CrossPnl, s, e, list)),
                      FigureTotal(AnyPnl, s, e, list), CrossMaintenance(s.vault, e, list));
      }
    }
    assert Health(s.vault, e, user).Ok? ==> (forall f: Figure :: SumsFit(f, s, e, list));
  }

  lemma AssessFitsIff(collateral: int, t: Tally, sums: Split, unrealized: int, needed: Result<int>)
    ensures Assess(collateral, t, sums, unrealized, needed).Ok?
       <==> var equity := collateral - t.locked + sums.cross + sums.isolated;
            && needed.Ok? && IsI128(collateral - t.locked) && IsI128(collateral - t.locked + sums.cross)
            && IsI128(equity) && IsI128(equity - t.initial)
            && (t.maintenance > 0 ==> IsI128(TruncDiv(equity * PRECISION, t.maintenance)))
  {
    hide TruncDiv;
  }

  /** An account whose maintenance margin is too small a part of its equity cannot be reported on. */
  lemma RatioMustFit(s: State, e: CallEnv, list: seq<Position>, balance: int)
    requires var equity, needed := EquityOf(s, e, list, balance), FigureTotal(Maintained, s, e, list);
      0 < needed && (I128_MAX + 1) * needed <= equity * PRECISION
    ensures !Reportable(s, e, list, balance)
  {
    hide FigureTotal, Collateral, TruncDiv, SumsFit, Readable, Valuable;
    var equity, needed := EquityOf(s, e, list, balance), FigureTotal(Maintained, s, e, list);
    ProductNonNegative(I128_MAX + 1, needed);
    TruncDivBounds(equity * PRECISION, needed);
    ScaleReflectsOrder(I128_MAX + 1, TruncDiv(equity * PRECISION, needed), needed);
  }

  lemma InvariantOwns(s: State, user: Address)
    requires Invariant(s)
    ensures MarketsKeyed(s) && forall p | p in s.Positions(user) :: p.owner == user
  {
    assert ListSound(s, user);
  }
}
