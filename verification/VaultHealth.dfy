/** The health of an account, as the vault computes it from balance, mirrored positions and oracle prices. */
module VaultHealth {
  import opened Outcomes
  import opened FixedPoint
  import opened EngineState
  import opened Accounting

  /** Positions that the health calculation has room for. */
  const PNL_BUFFER := 64

  /** The settlement balance counts if the user ever deposited the asset, or deposited nothing. */
  function CollateralValue(balance: int, e: CallEnv): Result<int> {
    match e.assets
    case NoDeposits =>
      if e.settlementConfig.None? then Err(InvalidConfig)
      else
        var price :- e.settlementPrice;
        var value :- MulPrecision(balance, price);
        AfterHaircut(value, e.settlementConfig.value.haircutBps)
    case Deposited(listed, others) =>
      var rest :- others;
      if !listed || balance == 0 || e.settlementConfig.None? || !e.settlementConfig.value.active then Ok(rest)
      else
        var price :- e.settlementPrice;
        var value :- MulPrecision(balance, price);
        var cut :- AfterHaircut(value, e.settlementConfig.value.haircutBps);
        CheckedAdd(rest, cut)
  }

  /** Every market of the list is configured and priced. */
  function MarketsPriced(v: VaultState, e: CallEnv, list: seq<Position>): Result<()> {
    if list == [] then Ok(())
    else
      var m := list[|list| - 1].marketId;
      var _ :- MarketsPriced(v, e, list[..|list| - 1]);
      if m !in v.markets then Err(InvalidConfig)
      else
        var _ :- e.Price(m);
        Ok(())
  }

  /** What the first pass over the positions has gathered. */
  datatype Tally = Tally(pnls: seq<int>, initial: int, maintenance: int, locked: int, isolatedLow: bool)

  function IndexOf(v: VaultState, p: Position): int {
    Lookup(if p.isLong then v.fundingLong else v.fundingShort, p.marketId)
  }

  function UnrealizedPnl(v: VaultState, p: Position, mark: int): Result<int> {
    var trade :- PositionPnl(p, mark);
    var funding :- FundingPnl(p, IndexOf(v, p));
    CheckedAdd(trade, funding)
  }

  function TallyOne(v: VaultState, e: CallEnv, t: Tally, p: Position): Result<Tally> {
    if |t.pnls| >= PNL_BUFFER then Err(InvalidConfig)
    else if p.marketId !in v.markets || !v.markets[p.marketId].active then Err(InvalidConfig)
    else
      var config := v.markets[p.marketId];
      var mark :- e.Price(p.marketId);
      var pnl :- UnrealizedPnl(v, p, mark);
      var n :- Notional(p.size, mark);
      var initialPart :- ApplyBps(n, config.initialMarginBps);
      var initial :- CheckedAdd(t.initial, initialPart);
      var maintenancePart :- ApplyBps(n, config.maintenanceMarginBps);
      var maintenance :- CheckedAdd(t.maintenance, maintenancePart);
      if p.mode != Isolated then Ok(Tally(t.pnls + [pnl], initial, maintenance, t.locked, t.isolatedLow))
      else
        var locked :- CheckedAdd(t.locked, p.margin);
        var own :- CheckedAdd(p.margin, pnl);
        Ok(Tally(t.pnls + [pnl], initial, maintenance, locked,
                 t.isolatedLow || (maintenancePart > 0 && own < maintenancePart)))
  }

  function TallyAll(v: VaultState, e: CallEnv, list: seq<Position>): (r: Result<Tally>)
    ensures r.Ok? ==> |r.value.pnls| == |list|
  {
    if list == [] then Ok(Tally([], 0, 0, 0, false))
    else
      var t :- TallyAll(v, e, list[..|list| - 1]);
      TallyOne(v, e, t, list[|list| - 1])
  }

  /** Equity of isolated positions, each counted as no less than zero, and PnL of cross positions. */
  datatype Split = Split(isolated: int, cross: int)

  function SplitOne(s: Split, p: Position, pnl: int): Result<Split> {
    if p.mode == Isolated then
      var own :- CheckedAdd(p.margin, pnl);
      var isolated :- CheckedAdd(s.isolated, if own > 0 then own else 0);
      Ok(s.(isolated := isolated))
    else
      var cross :- CheckedAdd(s.cross, pnl);
      Ok(s.(cross := cross))
  }

  function SplitAll(list: seq<Position>, pnls: seq<int>): Result<Split>
    requires |list| == |pnls|
  {
    if list == [] then Ok(Split(0, 0))
    else
      var k := |list| - 1;
      var s :- SplitAll(list[..k], pnls[..k]);
      SplitOne(s, list[k], pnls[k])
  }

  function AddAll(values: seq<int>): Result<int> {
    if values == [] then Ok(0)
    else
      var rest :- AddAll(values[..|values| - 1]);
      CheckedAdd(rest, values[|values| - 1])
  }

  function CrossMaintenance(v: VaultState, e: CallEnv, list: seq<Position>): Result<int> {
    if list == [] then Ok(0)
    else
      var rest :- CrossMaintenance(v, e, list[..|list| - 1]);
      AddCrossMaintenance(v, e, rest, list[|list| - 1])
  }

  function AddCrossMaintenance(v: VaultState, e: CallEnv, sum: int, p: Position): Result<int> {
    if p.mode != Cross then Ok(sum)
    else if p.marketId !in v.markets then Err(InvalidConfig)
    else
      var mark :- e.Price(p.marketId);
      var n :- Notional(p.size, mark);
      var part :- ApplyBps(n, v.markets[p.marketId].maintenanceMarginBps);
      CheckedAdd(sum, part)
  }

  /** The figures once all positions have been gone through. */
  function Assess(collateral: int, t: Tally, s: Split, unrealized: int,
                  crossMaintenance: Result<int>): Result<AccountHealth> {
    var crossCollateral :- CheckedSub(collateral, t.locked);
    var crossEquity :- CheckedAdd(crossCollateral, s.cross);
    var equity :- CheckedAdd(crossEquity, s.isolated);
    var free :- CheckedSub(equity, t.initial);
    var ratio :- if t.maintenance > 0 then DivPrecision(equity, t.maintenance) else Ok(I128_MAX);
    var needed :- crossMaintenance;
    Ok(AccountHealth(collateral, unrealized, equity, t.initial, t.maintenance, free, ratio,
                     (needed > 0 && crossEquity < needed) || t.isolatedLow))
  }

  function Health(v: VaultState, e: CallEnv, user: Address): Result<AccountHealth> {
    var list := PositionsOf(v.positions, user);
    var collateral :- CollateralValue(Balance(v.balances, user), e);
    if exists p | p in list :: p.owner != user then Err(Unauthorized)
    else
      var _ :- MarketsPriced(v, e, list);
      var t :- TallyAll(v, e, list);
      var _ :- CheckedSub(collateral, t.locked);
      var s :- SplitAll(list, t.pnls);
      var unrealized :- AddAll(t.pnls);
      Assess(collateral, t, s, unrealized, CrossMaintenance(v, e, list))
  }

  // ----- The same, as loops over the positions

  lemma {:induction false} MarketsErr(v: VaultState, e: CallEnv, list: seq<Position>, k: nat)
    requires k <= |list| && MarketsPriced(v, e, list[..k]).Err?
    ensures MarketsPriced(v, e, list) == MarketsPriced(v, e, list[..k])
  {
    if k < |list| {
      assert list[..|list| - 1][..k] == list[..k];
      MarketsErr(v, e, list[..|list| - 1], k);
    } else {
      assert list[..k] == list;
    }
  }

  lemma {:induction false} TallyErr(v: VaultState, e: CallEnv, list: seq<Position>, k: nat)
    requires k <= |list| && TallyAll(v, e, list[..k]).Err?
    ensures TallyAll(v, e, list) == Err(TallyAll(v, e, list[..k]).error)
  {
    if k < |list| {
      assert list[..|list| - 1][..k] == list[..k];
      TallyErr(v, e, list[..|list| - 1], k);
    } else {
      assert list[..k] == list;
    }
  }

  lemma {:induction false} SplitErr(list: seq<Position>, pnls: seq<int>, k: nat)
    requires k <= |list| == |pnls| && SplitAll(list[..k], pnls[..k]).Err?
    ensures SplitAll(list, pnls) == SplitAll(list[..k], pnls[..k])
  {
    if k < |list| {
      var n := |list| - 1;
      assert list[..n][..k] == list[..k] && pnls[..n][..k] == pnls[..k];
      SplitErr(list[..n], pnls[..n], k);
    } else {
      assert list[..k] == list && pnls[..k] == pnls;
    }
  }

  lemma {:induction false} AddErr(values: seq<int>, k: nat)
    requires k <= |values| && AddAll(values[..k]).Err?
    ensures AddAll(values) == AddAll(values[..k])
  {
    if k < |values| {
      assert values[..|values| - 1][..k] == values[..k];
      AddErr(values[..|values| - 1], k);
    } else {
      assert values[..k] == values;
    }
  }

  lemma {:induction false} CrossErr(v: VaultState, e: CallEnv, list: seq<Position>, k: nat)
    requires k <= |list| && CrossMaintenance(v, e, list[..k]).Err?
    ensures CrossMaintenance(v, e, list) == CrossMaintenance(v, e, list[..k])
  {
    if k < |list| {
      assert list[..|list| - 1][..k] == list[..k];
      CrossErr(v, e, list[..|list| - 1], k);
    } else {
      assert list[..k] == list;
    }
  }

  /** The list's markets, looked up and priced one after the other. */
  method LoadMarkets(v: VaultState, e: CallEnv, list: seq<Position>) returns (r: Result<()>)
    ensures r == MarketsPriced(v, e, list)
  {
    for i := 0 to |list|
      invariant MarketsPriced(v, e, list[..i]) == Ok(())
    {
      assert list[..i + 1][..i] == list[..i];
      if MarketsPriced(v, e, list[..i + 1]).Err? {
        MarketsErr(v, e, list, i + 1);
      }
      if list[i].marketId !in v.markets {
        return Err(InvalidConfig);
      }
      var _ :- e.Price(list[i].marketId);
    }
    assert list[..|list|] == list;
    r := Ok(());
  }

  /** The first pass, into a fixed buffer of PnLs. */
  method TallyPositions(v: VaultState, e: CallEnv, list: seq<Position>) returns (r: Result<Tally>)
    ensures r == TallyAll(v, e, list)
  {
    hide ApplyBps, Notional, UnrealizedPnl, CheckedAdd;
    var buffer := new int[PNL_BUFFER];
    var count, initial, maintenance, locked, isolatedLow := 0, 0, 0, 0, false;
    for i := 0 to |list|
      invariant count == i <= PNL_BUFFER
      invariant TallyAll(v, e, list[..i]) == Ok(Tally(buffer[..count], initial, maintenance, locked, isolatedLow))
    {
      var p := list[i];
      assert list[..i + 1][..i] == list[..i];
      if TallyAll(v, e, list[..i + 1]).Err? {
        TallyErr(v, e, list, i + 1);
      }
      if count >= PNL_BUFFER {
        return Err(InvalidConfig);
      }
      if p.marketId !in v.markets || !v.markets[p.marketId].active {
        return Err(InvalidConfig);
      }
      var config := v.markets[p.marketId];
      var mark :- e.Price(p.marketId);
      var pnl :- UnrealizedPnl(v, p, mark);
      ghost var before := buffer[..count];
      buffer[count] := pnl;
      count := count + 1;
      assert buffer[..count] == before + [pnl];
      var n :- Notional(p.size, mark);
      var initialPart :- ApplyBps(n, config.initialMarginBps);
      initial :- CheckedAdd(initial, initialPart);
      var maintenancePart :- ApplyBps(n, config.maintenanceMarginBps);
      maintenance :- CheckedAdd(maintenance, maintenancePart);
      if p.mode == Isolated {
        locked :- CheckedAdd(locked, p.margin);
        var own :- CheckedAdd(p.margin, pnl);
        if maintenancePart > 0 && own < maintenancePart {
          isolatedLow := true;
        }
      }
    }
    assert list[..|list|] == list;
    r := Ok(Tally(buffer[..count], initial, maintenance, locked, isolatedLow));
  }

  /** The second pass. */
  method SplitPositions(list: seq<Position>, pnls: seq<int>) returns (r: Result<Split>)
    requires |list| == |pnls|
    ensures r == SplitAll(list, pnls)
  {
    var isolated, cross := 0, 0;
    for i := 0 to |list|
      invariant SplitAll(list[..i], pnls[..i]) == Ok(Split(isolated, cross))
    {
      assert list[..i + 1][..i] == list[..i] && pnls[..i + 1][..i] == pnls[..i];
      if SplitAll(list[..i + 1], pnls[..i + 1]).Err? {
        SplitErr(list, pnls, i + 1);
      }
      if list[i].mode == Isolated {
        var own :- CheckedAdd(list[i].margin, pnls[i]);
        isolated :- CheckedAdd(isolated, if own > 0 then own else 0);
      } else {
        cross :- CheckedAdd(cross, pnls[i]);
      }
    }
    assert list[..|list|] == list && pnls[..|list|] == pnls;
    r := Ok(Split(isolated, cross));
  }

  method AddSigned(values: seq<int>) returns (r: Result<int>)
    ensures r == AddAll(values)
  {
    var sum := 0;
    for i := 0 to |values|
      invariant AddAll(values[..i]) == Ok(sum)
    {
      assert values[..i + 1][..i] == values[..i];
      if AddAll(values[..i + 1]).Err? {
        AddErr(values, i + 1);
      }
      sum :- CheckedAdd(sum, values[i]);
    }
    assert values[..|values|] == values;
    r := Ok(sum);
  }

  method CrossMaintenanceOf(v: VaultState, e: CallEnv, list: seq<Position>) returns (r: Result<int>)
    ensures r == CrossMaintenance(v, e, list)
  {
    var sum := 0;
    for i := 0 to |list|
      invariant CrossMaintenance(v, e, list[..i]) == Ok(sum)
    {
      var p := list[i];
      assert list[..i + 1][..i] == list[..i];
      if CrossMaintenance(v, e, list[..i + 1]).Err? {
        CrossErr(v, e, list, i + 1);
      }
      if p.mode == Cross {
        if p.marketId !in v.markets {
          return Err(InvalidConfig);
        }
        var mark :- e.Price(p.marketId);
        var n :- Notional(p.size, mark);
        var part :- ApplyBps(n, v.markets[p.marketId].maintenanceMarginBps);
        sum :- CheckedAdd(sum, part);
      }
    }
    assert list[..|list|] == list;
    r := Ok(sum);
  }

  /** The report the vault gives the engine. */
  method AccountHealthReport(v: VaultState, e: CallEnv, user: Address) returns (r: Result<AccountHealth>)
    ensures r == Health(v, e, user)
  {
    hide CollateralValue, MarketsPriced, TallyAll, SplitAll, AddAll, CrossMaintenance;
    var list := PositionsOf(v.positions, user);
    var collateral :- CollateralValue(Balance(v.balances, user), e);
    for i := 0 to |list|
      invariant forall k | 0 <= k < i :: list[k].owner == user
    {
      if list[i].owner != user {
        return Err(Unauthorized);
      }
    }
    var _ :- LoadMarkets(v, e, list);
    var tally :- TallyPositions(v, e, list);
    TallyLength(v, e, list);
    var crossCollateral :- CheckedSub(collateral, tally.locked);
    var split :- SplitPositions(list, tally.pnls);
    var unrealized :- AddSigned(tally.pnls);
    var crossEquity :- CheckedAdd(crossCollateral, split.cross);
    var equity :- CheckedAdd(crossEquity, split.isolated);
    var free :- CheckedSub(equity, tally.initial);
    var ratio := I128_MAX;
    if tally.maintenance > 0 {
      ratio :- DivPrecision(equity, tally.maintenance);
    }
    var needed :- CrossMaintenanceOf(v, e, list);
    r := Ok(AccountHealth(collateral, unrealized, equity, tally.initial, tally.maintenance, free, ratio,
                          (needed > 0 && crossEquity < needed) || tally.isolatedLow));
  }

  lemma TallyLength(v: VaultState, e: CallEnv, list: seq<Position>)
    ensures TallyAll(v, e, list).Ok? ==> |TallyAll(v, e, list).value.pnls| == |list|
  {
  }
}
