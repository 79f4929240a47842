/** The order gateway as an object that calls the engine; a failed settlement leaves no trace in either. */
module OrderGateway {
  import opened Outcomes
  import opened FixedPoint
  import opened Matching
  import opened EngineState
  import EngineSpec
  import opened EngineInvariant
  import opened PerpEngine
  import opened GatewayOrders
  import Settlement = GatewaySettlement
  import Runs = GatewayRuns

  datatype FillReceipt = FillReceipt(
    makerOwner: Address,
    takerOwner: Address,
    marketId: nat,
    size: int,
    price: int,
    makerFilled: int,
    takerFilled: int)

  class Gateway {
    const engine: Engine
    var filled: map<OrderId, FilledEntry>
    var cancelled: map<OrderId, nat>

    constructor (engine: Engine)
      ensures this.engine == engine && Book() == FillBook(map[], map[])
    {
      this.engine := engine;
      filled, cancelled := map[], map[];
    }

    function Book(): FillBook
      reads this
    {
      FillBook(filled, cancelled)
    }

    /** The deployed system as this object sees it. */
    ghost function View(now: nat): Runs.System
      reads this, engine, engine.vault
    {
      Runs.System(engine.View(), Book(), now, map[])
    }

    method EngineOpenPosition(e: CallEnv, user: Address, m: nat, size: int, isLong: bool, price: int)
      returns (r: Result<()>)
      modifies engine, engine.vault
      ensures var spec :=
        EngineSpec.Apply(old(engine.View()), e, EngineSpec.OpOpen(user, m, size, isLong, price, Cross));
        if spec.Ok? then engine.View() == spec.value && r == Ok(()) else r == Err(spec.error)
    {
      hide EngineSpec.Open, EngineSpec.Increase, EngineSpec.Reduce, EngineSpec.ChargeTradeFee, Invariant;
      var _ :- engine.OpenPosition(e, user, m, size, isLong, price, Cross);
      r := Ok(());
    }

    method EngineIncreasePosition(e: CallEnv, user: Address, id: nat, size: int, price: int) returns (r: Result<()>)
      modifies engine, engine.vault
      ensures var spec := EngineSpec.Apply(old(engine.View()), e, EngineSpec.OpIncrease(user, id, size, price));
        if spec.Ok? then engine.View() == spec.value && r == Ok(()) else r == Err(spec.error)
    {
      hide EngineSpec.Open, EngineSpec.Increase, EngineSpec.Reduce, EngineSpec.ChargeTradeFee, Invariant;
      var _ :- engine.IncreasePosition(e, user, id, size, price);
      r := Ok(());
    }

    method EngineReducePosition(e: CallEnv, user: Address, id: nat, size: int, price: int) returns (r: Result<()>)
      modifies engine, engine.vault
      ensures var spec := EngineSpec.Apply(old(engine.View()), e, EngineSpec.OpReduce(user, id, size, price));
        if spec.Ok? then engine.View() == spec.value && r == Ok(()) else r == Err(spec.error)
    {
      hide EngineSpec.Open, EngineSpec.Increase, EngineSpec.Reduce, EngineSpec.ChargeTradeFee, Invariant;
      var _ :- engine.ReducePosition(e, user, id, size, price);
      r := Ok(());
    }

    method EngineChargeTradeFee(e: CallEnv, user: Address, m: nat, size: int, price: int, isMaker: bool)
      returns (r: Result<()>)
      modifies engine, engine.vault
      ensures var spec :=
        EngineSpec.Apply(old(engine.View()), e, EngineSpec.OpChargeTradeFee(user, m, size, price, isMaker));
        if spec.Ok? then engine.View() == spec.value && r == Ok(()) else r == Err(spec.error)
    {
      hide EngineSpec.Open, EngineSpec.Increase, EngineSpec.Reduce, EngineSpec.ChargeTradeFee, Invariant;
      var _ :- engine.ChargeTradeFee(e, user, m, size, price, isMaker);
      r := Ok(());
    }

    /** The user's positions on the market, against and along the order's side. */
    method FindOnMarket(list: seq<Position>, m: nat, isLong: bool)
      returns (opposite: Option<Position>, same: Option<Position>)
      ensures opposite == Settlement.LastOn(list, m, !isLong) && same == Settlement.LastOn(list, m, isLong)
    {
      opposite, same := None, None;
      for i := 0 to |list|
        invariant opposite == Settlement.LastOn(list[..i], m, !isLong)
        invariant same == Settlement.LastOn(list[..i], m, isLong)
      {
        assert list[..i + 1][..i] == list[..i];
        if list[i].marketId != m {
          continue;
        }
        if list[i].isLong == isLong {
          same := Some(list[i]);
        } else {
          opposite := Some(list[i]);
        }
      }
      assert list[..|list|] == list;
    }

    method SettleUserSide(e: Settlement.SideEnv, owner: Address, m: nat, isLong: bool, reduceOnly: bool, size: int,
                          price: int)
      returns (r: Result<()>)
      modifies engine, engine.vault
      ensures var spec := Settlement.SettleUserSide(old(engine.View()), e, owner, m, isLong, reduceOnly, size, price);
        if spec.Ok? then engine.View() == spec.value && r == Ok(()) else r == Err(spec.error)
    {
      hide EngineSpec.Apply, Settlement.LastOn;
      var opposite, same := FindOnMarket(PositionsOf(engine.positions, owner), m, isLong);
      if opposite.Some? {
        var closeSize := if opposite.value.size < size then opposite.value.size else size;
        var _ :- EngineReducePosition(e.first, owner, opposite.value.id, closeSize, price);
        var residual := size - closeSize;
        if residual > 0 {
          if reduceOnly {
            return Err(InvalidAmount);
          }
          r := EngineOpenPosition(e.second, owner, m, residual, isLong, price);
          return;
        }
        return Ok(());
      }
      if reduceOnly {
        return Err(PositionNotFound);
      }
      if same.Some? {
        r := EngineIncreasePosition(e.first, owner, same.value.id, size, price);
      } else {
        r := EngineOpenPosition(e.first, owner, m, size, isLong, price);
      }
    }

    /** One side of a fill and its fee. */
    method SettleWithFee(e: Settlement.SideEnv, o: SignedOrder, size: int, price: int, isMaker: bool)
      returns (r: Result<()>)
      modifies engine, engine.vault
      ensures var spec := Settlement.SettleWithFee(old(engine.View()), e, o, size, price, isMaker);
        if spec.Ok? then engine.View() == spec.value && r == Ok(()) else r == Err(spec.error)
    {
      hide Settlement.SettleUserSide, EngineSpec.Apply;
      var _ :- SettleUserSide(e, o.owner, o.terms.marketId, o.terms.isLong, o.terms.reduceOnly, size, price);
      r := EngineChargeTradeFee(e.fee, o.owner, o.terms.marketId, size, price, isMaker);
    }

    method ExecuteFill(maker: Settlement.SideEnv, taker: Settlement.SideEnv, f: MatchedFill) returns (r: Result<()>)
      modifies engine, engine.vault
      ensures var spec := Settlement.ExecuteFill(old(engine.View()), maker, taker, f);
        if spec.Ok? then engine.View() == spec.value && r == Ok(()) else r == Err(spec.error)
    {
      hide Settlement.SettleWithFee;
      var _ :- SettleWithFee(maker, f.maker, f.size, f.price, true);
      r := SettleWithFee(taker, f.taker, f.size, f.price, false);
    }

    method AddFilledTo(o: SignedOrder, amount: int) returns (r: Result<int>)
      modifies this`filled
      ensures var spec := AddFilled(old(Book()), o, amount);
        if spec.Ok? then Book() == spec.value && r == Ok(Book().Filled(o.Key())) else r == Err(spec.error)
    {
      var next :- CheckedAdd(Book().Filled(o.Key()), amount);
      filled := filled[o.Key() := FilledEntry(next, o.terms.expiryTs)];
      r := Ok(next);
    }

    method SettleFillBody(now: nat, maker: Settlement.SideEnv, taker: Settlement.SideEnv, f: MatchedFill)
      returns (r: Result<FillReceipt>)
      modifies this`filled, engine, engine.vault
      ensures var executed := Settlement.ExecuteFill(old(engine.View()), maker, taker, f);
        r.Ok? <==> ValidateFill(old(Book()), now, f).None? && executed.Ok? && RecordFill(old(Book()), f).Ok?
      ensures r.Ok? ==>
        && engine.View() == Settlement.ExecuteFill(old(engine.View()), maker, taker, f).value
        && Book() == RecordFill(old(Book()), f).value
        && r.value == FillReceipt(f.maker.owner, f.taker.owner, f.maker.terms.marketId, f.size, f.price,
                                  old(Book()).Filled(f.maker.Key()) + f.size,
                                  old(Book()).Filled(f.taker.Key()) + f.size)
    {
      hide Settlement.ExecuteFill;
      var refused := ValidateFill(Book(), now, f);
      if refused.Some? {
        return Err(refused.value);
      }
      var _ :- ExecuteFill(maker, taker, f);
      var makerFilled :- AddFilledTo(f.maker, f.size);
      var takerFilled :- AddFilledTo(f.taker, f.size);
      r := Ok(FillReceipt(f.maker.owner, f.taker.owner, f.maker.terms.marketId, f.size, f.price, makerFilled,
                          takerFilled));
    }

    /** A settlement as the host runs it: all of it or, on any error in gateway or engine, none of it. */
    method SettleFill(now: nat, maker: Settlement.SideEnv, taker: Settlement.SideEnv, f: MatchedFill)
      returns (r: Result<FillReceipt>)
      modifies this`filled, engine, engine.vault
      ensures View(now) == Runs.Step(old(View(now)), Runs.SettleFill(maker, taker, f))
      ensures r.Ok? <==>
        && ValidateFill(old(Book()), now, f).None? && RecordFill(old(Book()), f).Ok?
        && Settlement.ExecuteFill(old(engine.View()), maker, taker, f).Ok?
      ensures r.Ok? ==>
        && r.value == FillReceipt(f.maker.owner, f.taker.owner, f.maker.terms.marketId, f.size, f.price,
                                  old(Book()).Filled(f.maker.Key()) + f.size,
                                  old(Book()).Filled(f.taker.Key()) + f.size)
        && r.value.makerFilled <= f.maker.terms.size && r.value.takerFilled <= f.taker.terms.size
      ensures r.Err? ==> View(now) == old(View(now))
    {
      hide Settlement.ExecuteFill;
      var savedFilled, saved, savedVault := filled, engine.Store(), engine.vault.View();
      ghost var savedBooks := engine.books;
      r := SettleFillBody(now, maker, taker, f);
      if r.Err? {
        filled := savedFilled;
        engine.RollBack(saved, savedVault, savedBooks);
      }
    }

    method CancelOrder(owner: Address, nonce: nat, expiryTs: nat)
      modifies this`cancelled
      ensures Book() == GatewayOrders.CancelOrder(old(Book()), OrderId(owner, nonce), expiryTs)
    {
      cancelled := cancelled[OrderId(owner, nonce) := expiryTs];
    }

    /** Prunes expired entries and counts them. */
    method ReclaimOrderState(now: nat, owner: Address, nonces: seq<nat>) returns (removed: nat)
      modifies this`filled, this`cancelled
      ensures Book() == Reclaim(old(Book()), now, owner, nonces)
      ensures removed == |old(filled)| - |filled| + |old(cancelled)| - |cancelled|
    {
      removed := 0;
      for i := 0 to |nonces|
        invariant Book() == Reclaim(old(Book()), now, owner, nonces[..i])
        invariant removed == |old(filled)| - |filled| + |old(cancelled)| - |cancelled|
      {
        var key := OrderId(owner, nonces[i]);
        assert nonces[..i + 1][..i] == nonces[..i];
        if key in filled && now > SaturatingAdd(filled[key].expiryTs, RECLAIM_GRACE_SECS) {
          filled := filled - {key};
          removed := removed + 1;
        }
        if key in cancelled && now > SaturatingAdd(cancelled[key], RECLAIM_GRACE_SECS) {
          cancelled := cancelled - {key};
          removed := removed + 1;
        }
      }
      assert nonces[..|nonces|] == nonces;
    }
  }
}
