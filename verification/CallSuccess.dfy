/** Exactly when funding updates and fees go through. */
module CallSuccess {
  import opened Outcomes
  import opened FixedPoint
  import opened EngineState
  import opened Accounting
  import opened VaultHealth
  import opened EngineSpec
  import opened EngineInvariant
  import opened EngineSafety
  import opened EngineRuns
  import opened EngineTheorems
  import opened AccountMargin
  import opened HealthReports
  import opened TradeSafety
  import opened TradeSuccess

  // ----- Funding updates

  /** No step of the rate and the two indexes overflows. */
  predicate RateFits(cfg: FundingConfig, current: FundingState, oiLong: int, oiShort: int, now: nat) {
    var total, next := oiLong + oiShort, Updated(cfg, current, oiLong, oiShort, now);
    now > current.lastUpdate ==>
      && IsI128(total)
      && (total != 0 ==>
            && IsI128(oiLong - oiShort)
            && var imbalance := TruncDiv((oiLong - oiShort) * PRECISION, total);
               IsI128(imbalance) && IsI128(TruncDiv(imbalance * cfg.imbalanceCoeff, PRECISION)))
      && IsI128(IndexMove(cfg, current, oiLong, oiShort, now))
      && IsI128(next.longIndex) && IsI128(next.shortIndex)
  }

  lemma UpdatesIff(cfg: FundingConfig, current: FundingState, oiLong: int, oiShort: int, now: nat)
    ensures UpdateFromImbalance(cfg, current, oiLong, oiShort, now).Ok?
       <==> cfg.imbalanceCoeff >= 0 && cfg.maxRatePerHour > 0 && RateFits(cfg, current, oiLong, oiShort, now)
  {
    hide TruncDiv;
    NothingDivides(cfg.imbalanceCoeff, PRECISION);
    if now > current.lastUpdate {
      NothingDivides(now - current.lastUpdate, SECS_PER_HOUR);
    }
  }

  /** What longs pay beyond what shorts receive, rounded toward zero. */
  function Surplus(move: int, oiLong: int, oiShort: int): int {
    TruncDiv(move * (oiLong - oiShort), PRECISION)
  }

  predicate SurplusFits(move: int, oiLong: int, oiShort: int) {
    move != 0 ==> IsI128(oiLong - oiShort) && IsI128(Surplus(move, oiLong, oiShort))
  }

  lemma NetSurplusIff(move: int, oiLong: int, oiShort: int)
    ensures NetSurplus(move, oiLong, oiShort)
         == if SurplusFits(move, oiLong, oiShort) then Ok(Surplus(move, oiLong, oiShort)) else Err(MathOverflow)
  {
    hide TruncDiv;
    NothingDivides(oiLong - oiShort, PRECISION);
    NothingDivides(move, PRECISION);
    assert move * 0 == 0 * move;
  }

  /** The market has a funding configuration, nothing overflows, and an insurance address can be paid. */
  predicate Updatable(s: State, now: nat, m: nat) {
    && m in s.store.fundingConfigs
    && var cfg, current := s.store.fundingConfigs[m], s.FundingAt(m, now);
       var oiLong, oiShort := s.SideInterest(m, true), s.SideInterest(m, false);
       var move := IndexMove(cfg, current, oiLong, oiShort, now);
    && cfg.imbalanceCoeff >= 0 && cfg.maxRatePerHour > 0 && RateFits(cfg, current, oiLong, oiShort, now)
    && IsI128(move) && SurplusFits(move, oiLong, oiShort)
    && var surplus := Surplus(move, oiLong, oiShort);
       surplus != 0 && s.store.insurance.Some? ==>
         Payable(s.vault, Balance(s.vault.balances, s.store.insurance.value), surplus)
  }

  /** A funding update goes through exactly when the market can be updated. */
  lemma UpdateSucceedsIff(s: State, now: nat, m: nat)
    ensures UpdateFunding(s, now, m).Ok? <==> Updatable(s, now, m)
  {
    hide UpdateFromImbalance, NetSurplus, ApplyPnl, RateFits, SurplusFits, Surplus, BookFunding, RateOf, TruncDiv;
    if m in s.store.fundingConfigs {
      var cfg, current := s.store.fundingConfigs[m], s.FundingAt(m, now);
      var oiLong, oiShort := s.SideInterest(m, true), s.SideInterest(m, false);
      var move := IndexMove(cfg, current, oiLong, oiShort, now);
      UpdatesIff(cfg, current, oiLong, oiShort, now);
      if UpdateFromImbalance(cfg, current, oiLong, oiShort, now).Ok? {
        UpdateMovesBy(cfg, current, oiLong, oiShort, now);
        NetSurplusIff(move, oiLong, oiShort);
        if s.store.insurance.Some? {
          var next := Updated(cfg, current, oiLong, oiShort, now);
          var told := s.vault.(fundingLong := s.vault.fundingLong[m := next.longIndex],
                               fundingShort := s.vault.fundingShort[m := next.shortIndex]);
          PayableIff(told, s.store.insurance.value, Surplus(move, oiLong, oiShort));
        }
      }
    }
  }

  /** A new funding configuration charges nothing for the time before it: the indexes stand and the clock restarts. */
  lemma ConfiguringChargesNothing(s: State, e: CallEnv, m: nat, config: FundingConfig, isLong: bool)
    requires Apply(s, e, OpSetFundingConfig(m, config)).Ok?
    ensures var t := Apply(s, e, OpSetFundingConfig(m, config)).value;
      && t.FundingIndex(m, isLong) == s.FundingIndex(m, isLong)
      && forall now: nat :: var (oiLong, oiShort) := (t.SideInterest(m, true), t.SideInterest(m, false));
           IndexMove(config, t.FundingAt(m, now), oiLong, oiShort, now)
           == if now <= e.now then 0
              else TruncDiv(RateOf(config, oiLong, oiShort) * (now - e.now), SECS_PER_HOUR)
  {
    hide TruncDiv, RateOf;
  }

  // ----- Fees

  /** The rate's share of the notional, both rounded down. */
  function FeeAmount(size: int, price: int, bps: nat): int {
    TruncDiv(TruncDiv(size * price, PRECISION) * bps, BPS_DENOMINATOR)
  }

  /** The payer can be debited and covers initial margin then, and the recipient can be credited. */
  ghost predicate Chargeable(s: State, e: CallEnv, user: Address, m: nat, size: int, price: int, isMaker: bool) {
    var fees, recipient := FeesOf(s.store.feeConfigs, m), s.store.feeRecipient;
    var bps := if isMaker then fees.makerFeeBps else fees.takerFeeBps;
    var fee, balance := FeeAmount(size, price, bps), Balance(s.vault.balances, user);
    && 0 < size && 0 < price
    && (bps != 0 ==>
          && IsI128(TruncDiv(size * price, PRECISION)) && bps <= BPS_DENOMINATOR
          && Payable(s.vault, balance, -fee)
          && Reportable(s, e, s.Positions(user), balance - fee) && Covered(s, e, s.Positions(user), balance - fee)
          && Payable(s.vault, Balance(s.vault.balances, recipient) - (if recipient == user then fee else 0), fee))
  }

  lemma FeeAmountIff(size: int, price: int, bps: nat)
    requires 0 < size && 0 < price
    ensures MulPrecision(size, price).Ok? && ApplyBps(MulPrecision(size, price).value, bps).Ok?
       <==> IsI128(TruncDiv(size * price, PRECISION)) && bps <= BPS_DENOMINATOR
    ensures IsI128(TruncDiv(size * price, PRECISION)) && bps <= BPS_DENOMINATOR ==>
      && ApplyBps(MulPrecision(size, price).value, bps) == Ok(FeeAmount(size, price, bps))
      && FeeAmount(size, price, bps) >= 0
  {
    hide TruncDiv;
    ProductNonNegative(size, price);
    TruncDivBounds(size * price, PRECISION);
    var notional := TruncDiv(size * price, PRECISION);
    if bps <= BPS_DENOMINATOR {
      HaircutGrows(notional, notional, bps);
      ProductNonNegative(notional, bps);
      TruncDivBounds(notional * bps, BPS_DENOMINATOR);
    }
  }

  /** The report on a vault that differs from the state's in balances alone. */
  lemma DebitedReportsIff(s: State, debited: VaultState, e: CallEnv, user: Address)
    requires Invariant(s) && debited == s.vault.(balances := debited.balances)
    ensures RequireInitialMargin(Health(debited, e, user)).Ok?
       <==> Reportable(s, e, s.Positions(user), Balance(debited.balances, user))
            && Covered(s, e, s.Positions(user), Balance(debited.balances, user))
  {
    hide Invariant, Health, Reportable, Covered;
    InvariantMirrors(s);
    InvariantOwns(s, user);
    var d := s.(vault := debited);
    assert Mirrored(d) by {
      forall p: Position ensures IndexOf(debited, p) == d.FundingIndex(p.marketId, p.isLong) {
        assert IndexOf(s.vault, p) == s.FundingIndex(p.marketId, p.isLong);
      }
    }
    assert MarketsKeyed(d) && d.Positions(user) == s.Positions(user);
    MirrorReportsIff(d, e, user);
    ReportableAlike(s, d, e, s.Positions(user), Balance(debited.balances, user));
  }

  lemma Debits(v: VaultState, user: Address, amount: int)
    ensures ApplyPnl(v, user, amount).Ok? ==>
      && ApplyPnl(v, user, amount).value == v.(balances := ApplyPnl(v, user, amount).value.balances)
      && forall u :: Balance(ApplyPnl(v, user, amount).value.balances, u)
           == Balance(v.balances, u) + if u == user then amount else 0
  {
  }

  /** A fee goes through exactly when it can be charged, and is the rate of its role. */
  lemma FeeSucceedsIff(s: State, e: CallEnv, user: Address, m: nat, size: int, price: int, isMaker: bool)
    requires Invariant(s)
    ensures var r, fees := ChargeTradeFee(s, e, user, m, size, price, isMaker), FeesOf(s.store.feeConfigs, m);
      && (r.Ok? <==> Chargeable(s, e, user, m, size, price, isMaker))
      && (r.Ok? ==> r.value.1 == FeeAmount(size, price, if isMaker then fees.makerFeeBps else fees.takerFeeBps))
  {
    hide Invariant, Health, Reportable, Covered, ApplyPnl, MulPrecision, ApplyBps, TruncDiv, RequireInitialMargin;
    var fees, recipient := FeesOf(s.store.feeConfigs, m), s.store.feeRecipient;
    var bps := if isMaker then fees.makerFeeBps else fees.takerFeeBps;
    if 0 < size && 0 < price {
      FeeAmountIff(size, price, bps);
      NothingCharged(size, price);
      var fee := FeeAmount(size, price, bps);
      PayableIff(s.vault, user, -fee);
      Debits(s.vault, user, -fee);
      if ApplyPnl(s.vault, user, -fee).Ok? {
        var debited := ApplyPnl(s.vault, user, -fee).value;
        DebitedReportsIff(s, debited, e, user);
        PayableIff(debited, recipient, fee);
      }
    }
  }

  lemma NothingCharged(size: int, price: int)
    ensures FeeAmount(size, price, 0) == 0
  {
    assert TruncDiv(size * price, PRECISION) * 0 == 0;
  }
}
