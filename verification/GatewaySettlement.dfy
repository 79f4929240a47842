/** How the order gateway turns one side of a matched fill into engine calls, and what that does to exposure. */
module GatewaySettlement {
  import opened Outcomes
  import opened FixedPoint
  import opened EngineState
  import opened Accounting
  import opened VaultHealth
  import opened EngineTotals
  import opened EngineSpec
  import opened EngineArithmetic
  import opened EngineInvariant
  import opened EngineSafety
  import opened EngineRuns
  import opened GatewayOrders

  /** What the engine sees from outside during the calls for one side of a fill. */
  datatype SideEnv = SideEnv(first: CallEnv, second: CallEnv, fee: CallEnv)

  /** The last position on a market and side, as a loop over the list leaves it. */
  function LastOn(list: seq<Position>, m: nat, isLong: bool): Option<Position> {
    if list == [] then None
    else
      var p := list[|list| - 1];
      if p.marketId == m && p.isLong == isLong then Some(p) else LastOn(list[..|list| - 1], m, isLong)
  }

  /** Reduce the opposite position first and open only what is left; otherwise grow the position, or open one. */
  function SettleUserSide(s: State, e: SideEnv, owner: Address, m: nat, isLong: bool, reduceOnly: bool, size: int,
                          price: int)
    : Result<State>
  {
    var opposite, same := LastOn(s.Positions(owner), m, !isLong), LastOn(s.Positions(owner), m, isLong);
    if opposite.Some? then
      var closeSize := if opposite.value.size < size then opposite.value.size else size;
      var reduced :- Apply(s, e.first, OpReduce(owner, opposite.value.id, closeSize, price));
      var residual := size - closeSize;
      if residual <= 0 then Ok(reduced)
      else if reduceOnly then Err(InvalidAmount)
      else Apply(reduced, e.second, OpOpen(owner, m, residual, isLong, price, Cross))
    else if reduceOnly then Err(PositionNotFound)
    else if same.Some? then Apply(s, e.first, OpIncrease(owner, same.value.id, size, price))
    else Apply(s, e.first, OpOpen(owner, m, size, isLong, price, Cross))
  }

  function SettleWithFee(s: State, e: SideEnv, o: SignedOrder, size: int, price: int, isMaker: bool): Result<State> {
    var settled :- SettleUserSide(s, e, o.owner, o.terms.marketId, o.terms.isLong, o.terms.reduceOnly, size, price);
    Apply(settled, e.fee, OpChargeTradeFee(o.owner, o.terms.marketId, size, price, isMaker))
  }

  /** Both sides of a fill, the maker first, each with its fee. */
  function ExecuteFill(s: State, maker: SideEnv, taker: SideEnv, f: MatchedFill): Result<State> {
    var half :- SettleWithFee(s, maker, f.maker, f.size, f.price, true);
    SettleWithFee(half, taker, f.taker, f.size, f.price, false)
  }

  // ----- Exposure

  /** Longs less shorts of one user in one market. */
  ghost function Exposure(s: State, user: Address, m: nat): int {
    SeqTotal(SideSize(m, true), s.Positions(user)) - SeqTotal(SideSize(m, false), s.Positions(user))
  }

  /** Longs less shorts of all users in one market. */
  ghost function Imbalance(s: State, m: nat): int {
    SizeOnSide(s, m, true) - SizeOnSide(s, m, false)
  }

  function Signed(isLong: bool, size: int): int {
    if isLong then size else -size
  }

  /** One user's exposure in one market moved by `change`, and nobody else's anywhere. */
  ghost predicate Moved(s: State, t: State, user: Address, m: nat, change: int) {
    && (forall u, k :: Exposure(t, u, k) == Exposure(s, u, k) + (if u == user && k == m then change else 0))
    && (forall k :: Imbalance(t, k) == Imbalance(s, k) + (if k == m then change else 0))
  }

  lemma {:induction false} LastOnFound(list: seq<Position>, m: nat, isLong: bool)
    ensures LastOn(list, m, isLong).Some? ==>
      var p := LastOn(list, m, isLong).value; p in list && p.marketId == m && p.isLong == isLong
    ensures LastOn(list, m, isLong).None? ==> forall p | p in list :: p.marketId != m || p.isLong != isLong
  {
    if list != [] {
      LastOnFound(list[..|list| - 1], m, isLong);
    }
  }

  /** A position list in which one entry was replaced moves exposure by the change of that entry. */
  lemma ReplacedMoves(s: State, t: State, user: Address, index: nat, p: Position)
    requires index < |s.Positions(user)|
    requires t.store.positions == s.store.positions[user := Replaced(s.Positions(user), index, p)]
    requires var q := s.Positions(user)[index]; q.marketId == p.marketId && q.isLong == p.isLong
    ensures Moved(s, t, user, p.marketId, Signed(p.isLong, p.size - s.Positions(user)[index].size))
  {
    hide SeqTotal, Replaced, Exchanged;
    var list := s.Positions(user);
    ExchangedByReplace(s, t, user, index, p);
    forall k ensures SeqTotal(SideSize(k, true), t.Positions(user))
      == SeqTotal(SideSize(k, true), list) - SideSize(k, true).Of(list[index]) + SideSize(k, true).Of(p)
      && SeqTotal(SideSize(k, false), t.Positions(user))
        == SeqTotal(SideSize(k, false), list) - SideSize(k, false).Of(list[index]) + SideSize(k, false).Of(p)
    {
      ReplacedTotal(SideSize(k, true), list, index, p);
      ReplacedTotal(SideSize(k, false), list, index, p);
    }
    BothSides(s, t, list[index], p);
  }

  lemma BothSides(s: State, t: State, old0: Position, new0: Position)
    requires Exchanged(s, t, old0, new0) && old0.marketId == new0.marketId && old0.isLong == new0.isLong
    ensures forall k ::
      Imbalance(t, k)
        == Imbalance(s, k) + (if k == new0.marketId then Signed(new0.isLong, new0.size - old0.size) else 0)
  {
    forall k ensures Imbalance(t, k)
      == Imbalance(s, k) + (if k == new0.marketId then Signed(new0.isLong, new0.size - old0.size) else 0) {
      var long, short := SideSize(k, true), SideSize(k, false);
      assert Total(long, t.store.positions) == Total(long, s.store.positions) - long.Of(old0) + long.Of(new0);
      assert Total(short, t.store.positions) == Total(short, s.store.positions) - short.Of(old0) + short.Of(new0);
    }
  }

  lemma AppendedMoves(s: State, t: State, user: Address, p: Position)
    requires t.store.positions == s.store.positions[user := s.Positions(user) + [p]]
    ensures Moved(s, t, user, p.marketId, Signed(p.isLong, p.size))
  {
    ExchangedByAppend(s, t, user, p);
    forall k ensures SeqTotal(SideSize(k, true), t.Positions(user))
      == SeqTotal(SideSize(k, true), s.Positions(user)) + SideSize(k, true).Of(p)
      && SeqTotal(SideSize(k, false), t.Positions(user))
        == SeqTotal(SideSize(k, false), s.Positions(user)) + SideSize(k, false).Of(p)
    {
      SeqTotalAppend(SideSize(k, true), s.Positions(user), p);
      SeqTotalAppend(SideSize(k, false), s.Positions(user), p);
    }
    BothSides(s, t, p.(size := 0), p);
  }

  /** A successful trade call moves the caller's exposure by the size it says, on the side it acts on. */
  lemma OpenMoves(s: State, e: CallEnv, user: Address, m: nat, size: int, isLong: bool, price: int, mode: MarginMode)
    requires Invariant(s) && Open(s, e, user, m, size, isLong, price, mode).Ok?
    ensures size > 0 && Moved(s, Open(s, e, user, m, size, isLong, price, mode).value.0, user, m, Signed(isLong, size))
  {
    var trade := OpenDoes(s, e, user, m, size, isLong, price, mode);
    hide Invariant, Open, MoveInterest, CashSound, Moved;
    AppendedMoves(s, Open(s, e, user, m, size, isLong, price, mode).value.0, user, trade.after);
  }

  lemma PreparedMoves(s: State, t: State, user: Address, index: nat, trade: Trade)
    requires Prepared(s, user, index, trade) && Committed(s, t, user, trade)
    ensures var found := s.Positions(user)[index];
      Moved(s, t, user, found.marketId, Signed(found.isLong, trade.after.size - found.size))
  {
    hide MoveInterest, CashSound, FundingPnl, MarginKept, SettledOnly, Moved;
    ReplacedMoves(s, t, user, index, trade.after);
  }

  lemma IncreaseMoves(s: State, e: CallEnv, user: Address, p: Position, size: int, price: int)
    requires Invariant(s) && p in s.Positions(user) && Increase(s, e, user, p.id, size, price).Ok?
    ensures Moved(s, Increase(s, e, user, p.id, size, price).value.0, user, p.marketId, Signed(p.isLong, size))
  {
    hide Invariant, Prepared, Increase, Committed, Moved;
    var index, trade := IncreaseDoes(s, e, user, p.id, size, price);
    OnlyHolder(s, user, index, p);
    PreparedMoves(s, Increase(s, e, user, p.id, size, price).value.0, user, index, trade);
  }

  lemma ReduceMoves(s: State, e: CallEnv, user: Address, p: Position, size: int, price: int, requireMargin: bool)
    requires Invariant(s) && p in s.Positions(user) && Reduce(s, e, user, p.id, size, price, requireMargin).Ok?
    ensures Moved(s, Reduce(s, e, user, p.id, size, price, requireMargin).value.0, user, p.marketId,
                  -Signed(p.isLong, size))
  {
    hide Invariant, Prepared, Reduce, Committed, Moved;
    var index, trade := ReduceDoes(s, e, user, p.id, size, price, requireMargin);
    OnlyHolder(s, user, index, p);
    PreparedMoves(s, Reduce(s, e, user, p.id, size, price, requireMargin).value.0, user, index, trade);
  }

  lemma OnlyHolder(s: State, user: Address, index: nat, p: Position)
    requires Invariant(s) && p in s.Positions(user)
    requires index < |s.Positions(user)| && s.Positions(user)[index].id == p.id
    ensures s.Positions(user)[index] == p
  {
    var j :| 0 <= j < |s.Positions(user)| && s.Positions(user)[j] == p;
    assert s.Positions(user)[index].id == s.Positions(user)[j].id;
  }

  lemma MovedTwice(s: State, t: State, r: State, user: Address, m: nat, first: int, second: int)
    requires Moved(s, t, user, m, first) && Moved(t, r, user, m, second)
    ensures Moved(s, r, user, m, first + second)
  {
  }

  /** A settled side moves its owner's exposure by exactly the fill, whether it reduced, flipped, grew or opened. */
  lemma SideMoves(s: State, e: SideEnv, owner: Address, m: nat, isLong: bool, reduceOnly: bool, size: int, price: int)
    requires Invariant(s) && SettleUserSide(s, e, owner, m, isLong, reduceOnly, size, price).Ok?
    ensures var t := SettleUserSide(s, e, owner, m, isLong, reduceOnly, size, price).value;
      Invariant(t) && Moved(s, t, owner, m, Signed(isLong, size))
  {
    hide Invariant, Open, Increase, Reduce, Moved;
    var list := s.Positions(owner);
    LastOnFound(list, m, !isLong);
    LastOnFound(list, m, isLong);
    var opposite, same := LastOn(list, m, !isLong), LastOn(list, m, isLong);
    if opposite.Some? {
      var p := opposite.value;
      var closeSize := if p.size < size then p.size else size;
      var reduced := Apply(s, e.first, OpReduce(owner, p.id, closeSize, price)).value;
      ApplyKeeps(s, e.first, OpReduce(owner, p.id, closeSize, price));
      ReduceMoves(s, e.first, owner, p, closeSize, price, true);
      if size > closeSize {
        ApplyKeeps(reduced, e.second, OpOpen(owner, m, size - closeSize, isLong, price, Cross));
        OpenMoves(reduced, e.second, owner, m, size - closeSize, isLong, price, Cross);
        MovedTwice(s, reduced,
                   Apply(reduced, e.second, OpOpen(owner, m, size - closeSize, isLong, price, Cross)).value, owner, m,
                   Signed(isLong, closeSize), Signed(isLong, size - closeSize));
      }
    } else if same.Some? {
      ApplyKeeps(s, e.first, OpIncrease(owner, same.value.id, size, price));
      IncreaseMoves(s, e.first, owner, same.value, size, price);
    } else {
      ApplyKeeps(s, e.first, OpOpen(owner, m, size, isLong, price, Cross));
      OpenMoves(s, e.first, owner, m, size, isLong, price, Cross);
    }
  }

  lemma FeeMoves(s: State, e: CallEnv, user: Address, m: nat, size: int, price: int, isMaker: bool)
    requires Apply(s, e, OpChargeTradeFee(user, m, size, price, isMaker)).Ok?
    ensures Apply(s, e, OpChargeTradeFee(user, m, size, price, isMaker)).value.store == s.store
  {
    ChargeTradeFeeMoves(s, e, user, m, size, price, isMaker);
    hide ChargeTradeFee;
  }

  lemma SideWithFeeMoves(s: State, e: SideEnv, o: SignedOrder, size: int, price: int, isMaker: bool)
    requires Invariant(s) && SettleWithFee(s, e, o, size, price, isMaker).Ok?
    ensures var t := SettleWithFee(s, e, o, size, price, isMaker).value;
      Invariant(t) && Moved(s, t, o.owner, o.terms.marketId, Signed(o.terms.isLong, size))
  {
    hide Invariant, SettleUserSide, Apply;
    var t := SettleUserSide(s, e, o.owner, o.terms.marketId, o.terms.isLong, o.terms.reduceOnly, size, price).value;
    SideMoves(s, e, o.owner, o.terms.marketId, o.terms.isLong, o.terms.reduceOnly, size, price);
    var fee := OpChargeTradeFee(o.owner, o.terms.marketId, size, price, isMaker);
    FeeMoves(t, e.fee, o.owner, o.terms.marketId, size, price, isMaker);
    ApplyKeeps(t, e.fee, fee);
    var r := Apply(t, e.fee, fee).value;
    assert forall u, k :: Exposure(r, u, k) == Exposure(t, u, k);
    assert forall k :: Imbalance(r, k) == Imbalance(t, k);
  }

  /**
   A fill between opposite sides of one market shifts exposure from one owner to
   the other and leaves every market's imbalance alone.
   */
  lemma FillTransfersExposure(s: State, maker: SideEnv, taker: SideEnv, f: MatchedFill)
    requires Invariant(s) && ExecuteFill(s, maker, taker, f).Ok?
    requires f.maker.owner != f.taker.owner && f.maker.terms.marketId == f.taker.terms.marketId
          && f.maker.terms.isLong != f.taker.terms.isLong
    ensures var t := ExecuteFill(s, maker, taker, f).value;
      var m, change := f.maker.terms.marketId, Signed(f.maker.terms.isLong, f.size);
      && Invariant(t)
      && Exposure(t, f.maker.owner, m) == Exposure(s, f.maker.owner, m) + change
      && Exposure(t, f.taker.owner, m) == Exposure(s, f.taker.owner, m) - change
      && (forall u, k | k != m || (u != f.maker.owner && u != f.taker.owner) :: Exposure(t, u, k) == Exposure(s, u, k))
      && (forall k :: Imbalance(t, k) == Imbalance(s, k))
  {
    hide Invariant, SettleWithFee, Exposure, Imbalance;
    SideWithFeeMoves(s, maker, f.maker, f.size, f.price, true);
    SideWithFeeMoves(SettleWithFee(s, maker, f.maker, f.size, f.price, true).value, taker, f.taker, f.size, f.price,
                     false);
  }
}
