/** Market orders are matched, refused by the gateway, and rolled back, round after round. */
module MarketOrders {
  import opened Outcomes
  import opened Matching
  import opened FillLedger
  import opened LedgerSafety
  import opened LedgerRuns
  import opened MatcherService
  import opened GatewayOrders
  import opened MatchSettlement
  import Matcher

  /**
   One limit order and one market order against it, of another owner and both
   open: whatever fills the matcher returns, the first is between the two.
   */
  lemma PairIsMatched(o: Order, mo: Order, fills: seq<Match>)
    requires o.isLong != mo.isLong && o.owner != mo.owner
    requires o.filledSize < o.size && mo.filledSize < mo.size
    requires AllSound([o], [mo], fills) && MarketExhausted([o], [mo], fills)
    ensures fills != [] && fills[0].maker == o && fills[0].taker == mo
  {
    assert fills == [] ==> Remaining(mo, fills) > 0 && Remaining(o, fills) > 0;
    assert mo in [mo] && o in [o];
    assert fills != [];
    assert FillSound([o], [mo], fills, 0);
  }

  /** What becomes of an order when a fill is processed. */
  lemma OneFillKeeps(db: Db, m: Match, sigValid: Order -> bool, outcome: Settlement, id: OrderId)
    requires Sound(db) && m.fillSize > 0 && m.maker.Id() != m.taker.Id()
    requires m.maker.Id() in db.orders && m.taker.Id() in db.orders
    requires PendingKey(m) in db.fills || PersistFits(db, m)
    requires outcome.NotSettled? || (id != m.maker.Id() && id != m.taker.Id())
    ensures ProcessFill(db, m, sigValid, outcome).Filled(id) == db.Filled(id)
  {
    hide Sound, FillLedger.PersistFill, RollbackRows, PersistFits;
    if sigValid(m.maker) && sigValid(m.taker) {
      SoundIsWithinSize(db);
      PersistDoes(db, m);
      PersistSound(db, m);
      var (persisted, ok) := FillLedger.PersistFill(db, m);
      if ok && outcome.NotSettled? {
        TakeBackDoes(persisted, PendingKey(m));
      }
    }
  }

  lemma SoundIsWithinSize(db: Db)
    requires Sound(db)
    ensures WithinSize(db)
  {
  }

  /** The fills that are still to come fit, so the next one is a duplicate or fits. */
  lemma NextFits(db: Db, todo: seq<Match>)
    requires Sound(db) && PartiesKnown(db, todo) && RoomForAll(db, todo) && todo != []
    ensures PendingKey(todo[0]) in db.fills || PersistFits(db, todo[0])
    ensures todo[0].fillSize > 0 && todo[0].maker.Id() != todo[0].taker.Id()
    ensures todo[0].maker.Id() in db.orders && todo[0].taker.Id() in db.orders
  {
    hide Sound;
    NeverHalfApplied(System(db, Working(todo, None)));
  }

  /** A limit order's fill does not touch a market order. */
  lemma MarketIsNoParty(limits: seq<Order>, markets: seq<Order>, market: nat, fills: seq<Match>, k: nat, mo: Order)
    requires Loaded(limits, markets, market) && IdsDistinct(limits + markets) && mo in markets
    requires k < |fills| && FillSound(limits, markets, fills, k) && fills[k].taker.limitPrice != 0
    ensures mo.Id() != fills[k].maker.Id() && mo.Id() != fills[k].taker.Id()
  {
    var m := fills[k];
    assert m.taker in limits by {
      assert m.taker in markets ==> m.taker in limits + markets && m.taker.limitPrice == 0;
    }
    Matcher.DistinctAcross(limits, markets, m.maker, mo);
    Matcher.DistinctAcross(limits, markets, m.taker, mo);
  }

  /** Every fill that the gateway refuses comes back unsettled. */
  ghost predicate RefusedAreUnsettled(b: FillBook, now: nat, fills: seq<Match>, engine: nat -> bool,
                                      settle: nat -> Settlement) {
    forall k | 0 <= k < |fills| ::
      var refused := ValidateFill(ChainAfter(b, now, fills[..k], engine), now, MatchSettlement.Submitted(fills[k]));
      refused.Some? ==> settle(k).NotSettled?
  }

  /** After any number of a round's fills, no market order is filled further than before the round. */
  lemma {:induction false} MarketOrdersStayUnfilled(
    db: Db, b: FillBook, now: nat, limits: seq<Order>, markets: seq<Order>, market: nat, fills: seq<Match>,
    sigValid: Order -> bool, settle: nat -> Settlement, engine: nat -> bool, mo: Order, n: nat)
    requires Sound(db) && PartiesKnown(db, fills) && RoomForAll(db, fills)
    requires Loaded(limits, markets, market) && IdsDistinct(limits + markets) && AllSound(limits, markets, fills)
    requires ChainBehind(b, limits + markets, [])
    requires RefusedAreUnsettled(b, now, fills, engine, settle)
    requires mo in markets && n <= |fills|
    ensures ProcessFills(db, fills[..n], sigValid, settle).Filled(mo.Id()) == db.Filled(mo.Id())
  {
    hide Sound, PartiesKnown, RoomForAll, Loaded, IdsDistinct, ChainBehind, ProcessFill, ValidateFill, ChainAfter,
      FillSound;
    if n > 0 {
      var k := n - 1;
      MarketOrdersStayUnfilled(db, b, now, limits, markets, market, fills, sigValid, settle, engine, mo, k);
      var before := ProcessFills(db, fills[..k], sigValid, settle);
      assert fills[..n][..k] == fills[..k] && fills[..n][k] == fills[k];
      ProcessFillsSound(db, fills, sigValid, settle, k);
      assert fills[k..][0] == fills[k];
      NextFits(before, fills[k..]);
      assert FillSound(limits, markets, fills, k);
      if fills[k].taker.limitPrice == 0 {
        GatewayTakesLimitFills(b, now, limits, markets, market, fills, engine, k);
      } else {
        MarketIsNoParty(limits, markets, market, fills, k, mo);
      }
      OneFillKeeps(before, fills[k], sigValid, settle(k), mo.Id());
    }
  }
}
