/** What the order gateway says to the fills that the matcher submits in one tick. */
module MatchSettlement {
  import opened Outcomes
  import opened FixedPoint
  import opened Matching
  import opened OrderMessage
  import opened OrderIntake
  import opened GatewayOrders

  /** Orders of one market as the loading queries return them: limit orders apart from market orders, none filled up. */
  ghost predicate Loaded(limits: seq<Order>, markets: seq<Order>, market: nat) {
    && market != 0
    && (forall o | o in limits + markets ::
          o.marketId == market && FitsContract(TermsOf(o)) && 0 <= o.filledSize < o.size)
    && (forall o | o in limits :: o.limitPrice > 0)
    && (forall o | o in markets :: o.limitPrice == 0)
  }

  function ToSigned(o: Order): SignedOrder {
    SignedOrder(o.owner, TermsOf(o))
  }

  function Submitted(m: Match): MatchedFill {
    MatchedFill(ToSigned(m.maker), ToSigned(m.taker), m.fillSize, m.fillPrice)
  }

  /** The gateway after the first fills were submitted in order; `engine` says which of them the engine accepts. */
  function ChainAfter(b: FillBook, now: nat, fills: seq<Match>, engine: nat -> bool): FillBook {
    if fills == [] then b
    else
      var k := |fills| - 1;
      var before, f := ChainAfter(b, now, fills[..k], engine), Submitted(fills[k]);
      if ValidateFill(before, now, f).None? && engine(k) && RecordFill(before, f).Ok? then RecordFill(before, f).value
      else before
  }

  /** The chain has filled no more of any order than the database says, counting this tick's fills. */
  ghost predicate ChainBehind(b: FillBook, orders: seq<Order>, fills: seq<Match>) {
    forall o | o in orders :: 0 <= b.Filled(o.Id()) <= o.filledSize + FilledIn(fills, o.Id())
  }

  ghost predicate AllSound(limits: seq<Order>, markets: seq<Order>, fills: seq<Match>) {
    forall k | 0 <= k < |fills| :: FillSound(limits, markets, fills, k)
  }

  lemma RecordedFill(b: FillBook, now: nat, m: Match, id: OrderId)
    requires ValidateFill(b, now, Submitted(m)).None? && RecordFill(b, Submitted(m)).Ok?
    ensures RecordFill(b, Submitted(m)).value.Filled(id) == b.Filled(id) + m.Part(id)
    ensures RecordFill(b, Submitted(m)).value.cancelled == b.cancelled
  {
  }

  lemma {:induction false} ChainStaysBehind(b: FillBook, now: nat, limits: seq<Order>, markets: seq<Order>,
                                            fills: seq<Match>, engine: nat -> bool)
    requires AllSound(limits, markets, fills)
    requires ChainBehind(b, limits + markets, [])
    ensures ChainBehind(ChainAfter(b, now, fills, engine), limits + markets, fills)
    ensures ChainAfter(b, now, fills, engine).cancelled == b.cancelled
  {
    hide ValidateFill, RecordFill, FillSound;
    if fills != [] {
      var k := |fills| - 1;
      var rest, m := fills[..k], fills[k];
      SoundPrefix(limits, markets, fills, k);
      ChainStaysBehind(b, now, limits, markets, rest, engine);
      var before := ChainAfter(b, now, rest, engine);
      assert m.fillSize > 0 by {
        FillIsPositive(limits, markets, fills, k);
      }
      forall o | o in limits + markets
        ensures 0 <= ChainAfter(b, now, fills, engine).Filled(o.Id()) <= o.filledSize + FilledIn(fills, o.Id())
      {
        if ValidateFill(before, now, Submitted(m)).None? && RecordFill(before, Submitted(m)).Ok? {
          RecordedFill(before, now, m, o.Id());
        }
      }
      if ValidateFill(before, now, Submitted(m)).None? && RecordFill(before, Submitted(m)).Ok? {
        RecordedFill(before, now, m, m.maker.Id());
      }
    }
  }

  lemma FillIsPositive(limits: seq<Order>, markets: seq<Order>, fills: seq<Match>, k: nat)
    requires k < |fills| && FillSound(limits, markets, fills, k)
    ensures fills[k].fillSize > 0
  {
  }

  lemma SoundPrefix(limits: seq<Order>, markets: seq<Order>, fills: seq<Match>, n: nat)
    requires n <= |fills| && AllSound(limits, markets, fills)
    ensures AllSound(limits, markets, fills[..n])
  {
    forall k | 0 <= k < n ensures FillSound(limits, markets, fills[..n], k) {
      assert FillSound(limits, markets, fills, k);
      assert fills[..n][..k] == fills[..k];
    }
  }

  /** Neither expired nor cancelled on chain. */
  predicate Alive(b: FillBook, now: nat, o: Order) {
    now <= o.expiryTs && o.Id() !in b.cancelled
  }

  /**
   The gateway's checks on price, sides, owners and size are all met by the
   matcher's own rules: in whatever way the engine treats the fills before, the
   gateway takes a fill exactly when both orders are alive and the taker is not
   a market order. Fills of market orders it always refuses.
   */
  lemma GatewayTakesLimitFills(b: FillBook, now: nat, limits: seq<Order>, markets: seq<Order>, market: nat,
                               fills: seq<Match>, engine: nat -> bool, k: nat)
    requires Loaded(limits, markets, market) && AllSound(limits, markets, fills) && k < |fills|
    requires ChainBehind(b, limits + markets, [])
    ensures var m := fills[k];
      ValidateFill(ChainAfter(b, now, fills[..k], engine), now, Submitted(m)).None?
      <==> m.taker.limitPrice > 0 && Alive(b, now, m.maker) && Alive(b, now, m.taker)
  {
    var m, chain := fills[k], ChainAfter(b, now, fills[..k], engine);
    SoundPrefix(limits, markets, fills, k);
    ChainStaysBehind(b, now, limits, markets, fills[..k], engine);
    assert FillSound(limits, markets, fills, k);
    assert m.maker in limits + markets && m.taker in limits + markets;
    hide AllSound, Loaded, ChainAfter, FilledIn;
    ValidateOne(chain, now, m.maker, m.fillSize, m.fillPrice);
    if m.taker.limitPrice > 0 {
      ValidateOne(chain, now, m.taker, m.fillSize, m.fillPrice);
    }
  }

  /** An order with room and a price within its limit is refused only when it is dead. */
  lemma ValidateOne(b: FillBook, now: nat, o: Order, size: int, price: int)
    requires FitsContract(TermsOf(o)) && o.size > 0 && o.limitPrice > 0
    requires 0 <= b.Filled(o.Id()) && size > 0 && b.Filled(o.Id()) + size <= o.size
    requires if o.isLong then price <= o.limitPrice else price >= o.limitPrice
    ensures ValidateOrder(b, now, ToSigned(o), size, price).None? <==> Alive(b, now, o)
  {
  }
}
