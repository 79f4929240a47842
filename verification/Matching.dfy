/** Orders, fills, and what it means for a list of fills to respect price-time priority. */
module Matching {
  import opened Outcomes
  import opened Numbers
  import Sorting

  /** The primary key of an order row: its owner and the owner's nonce, joined by a colon no address contains. */
  datatype OrderId = OrderId(owner: string, nonce: nat)

  datatype Order = Order(
    owner: string,
    marketId: nat,
    isLong: bool,
    size: int,
    limitPrice: int,       // 0 marks a market order
    reduceOnly: bool,
    nonce: nat,
    expiryTs: nat,
    filledSize: int,
    createdAt: int,
    signature: Option<string>)
  {
    function Id(): OrderId {
      OrderId(owner, nonce)
    }
  }

  datatype Match = Match(maker: Order, taker: Order, fillSize: int, fillPrice: int) {
    function Part(id: OrderId): int {
      (if maker.Id() == id then fillSize else 0) + (if taker.Id() == id then fillSize else 0)
    }

    function Bid(): Order {
      if maker.isLong then maker else taker
    }

    function Ask(): Order {
      if maker.isLong then taker else maker
    }
  }

  /** Size the fills give to an order. */
  function FilledIn(fills: seq<Match>, id: OrderId): int {
    if fills == [] then 0 else FilledIn(fills[..|fills| - 1], id) + fills[|fills| - 1].Part(id)
  }

  /** Size of an order still open after the fills. */
  function Remaining(o: Order, fills: seq<Match>): int {
    o.size - o.filledSize - FilledIn(fills, o.Id())
  }

  /** Strictly better rank on its side of the book: better price, then earlier. */
  predicate Before(a: Order, b: Order) {
    if a.limitPrice == b.limitPrice then a.createdAt < b.createdAt
    else if a.isLong then a.limitPrice > b.limitPrice
    else a.limitPrice < b.limitPrice
  }

  // ----- Sides of the book

  function Side(orders: seq<Order>, isLong: bool): seq<Order> {
    if orders == [] then []
    else
      var last := orders[|orders| - 1];
      Side(orders[..|orders| - 1], isLong) + if last.isLong == isLong then [last] else []
  }

  lemma {:induction false} SideHolds(orders: seq<Order>, isLong: bool, o: Order)
    ensures o in Side(orders, isLong) <==> o in orders && o.isLong == isLong
  {
    if orders != [] {
      var rest := orders[..|orders| - 1];
      SideHolds(rest, isLong, o);
      assert orders == rest + [orders[|orders| - 1]];
    }
  }

  /** The rank orders any orders of one side. */
  lemma RankOrders(orders: seq<Order>, isLong: bool)
    requires forall o | o in orders :: o.isLong == isLong
    ensures Sorting.Orders(Before, multiset(orders))
  {
    assert forall o | o in multiset(orders) :: o in orders;
  }

  /** One side of the book, best first. */
  function Book(orders: seq<Order>, isLong: bool): seq<Order> {
    Sorting.Sort(Side(orders, isLong), Before)
  }

  lemma BookHolds(orders: seq<Order>, isLong: bool)
    ensures Sorting.Ranked(Book(orders, isLong), Before)
    ensures forall o :: o in Book(orders, isLong) <==> o in orders && o.isLong == isLong
  {
    var side := Side(orders, isLong);
    forall o ensures o in side <==> o in orders && o.isLong == isLong {
      SideHolds(orders, isLong, o);
    }
    RankOrders(side, isLong);
    Sorting.SortRanks(side, Before);
    forall o ensures o in Book(orders, isLong) <==> o in side {
      assert o in Book(orders, isLong) <==> o in multiset(Book(orders, isLong));
      assert o in side <==> o in multiset(side);
    }
  }

  // ----- What a list of fills must satisfy

  /** An order the database could not have returned twice. */
  ghost predicate IdsDistinct(orders: seq<Order>) {
    forall i, j | 0 <= i < j < |orders| :: orders[i].Id() != orders[j].Id()
  }

  /** Fill `k` is between opposite sides and owners, at the maker's limit, as large as both allow. */
  ghost predicate FillSound(limits: seq<Order>, markets: seq<Order>, fills: seq<Match>, k: nat)
    requires k < |fills|
  {
    var m, before := fills[k], fills[..k];
    && m.maker in limits && (m.taker in limits || m.taker in markets)
    && m.maker.isLong != m.taker.isLong
    && m.maker.owner != m.taker.owner
    && m.fillPrice == m.maker.limitPrice
    && m.fillSize == Min(Remaining(m.maker, before), Remaining(m.taker, before)) > 0
    && (m.taker in limits ==>
          && m.Ask().limitPrice <= m.fillPrice <= m.Bid().limitPrice
          && m.maker == if m.Bid().createdAt <= m.Ask().createdAt then m.Bid() else m.Ask())
  }

  /** Any better-ranked resting order passed over for `x` against `y`, if still open, belongs to y's owner. */
  ghost predicate RankRespected(limits: seq<Order>, before: seq<Match>, x: Order, y: Order) {
    forall o | o in limits && o.isLong == x.isLong && Before(o, x) && Remaining(o, before) > 0 :: o.owner == y.owner
  }

  /** An earlier market order on the same side, if still open, was passed over only for its own owner's liquidity. */
  ghost predicate QueueRespected(markets: seq<Order>, before: seq<Match>, x: Order, y: Order) {
    var queue := Side(markets, x.isLong);
    forall i, j | 0 <= i < j < |queue| && queue[j] == x && Remaining(queue[i], before) > 0 :: queue[i].owner == y.owner
  }

  ghost predicate PriorityRespected(limits: seq<Order>, markets: seq<Order>, fills: seq<Match>, k: nat)
    requires k < |fills|
  {
    var m, before := fills[k], fills[..k];
    && RankRespected(limits, before, m.maker, m.taker)
    && if m.taker in limits then RankRespected(limits, before, m.taker, m.maker)
       else QueueRespected(markets, before, m.taker, m.maker)
  }

  /** No two owners are left able to trade with each other. */
  ghost predicate Uncrossed(limits: seq<Order>, fills: seq<Match>) {
    forall bid, ask | bid in limits && ask in limits && bid.isLong && !ask.isLong && bid.owner != ask.owner
      && Remaining(bid, fills) > 0 && Remaining(ask, fills) > 0 :: bid.limitPrice < ask.limitPrice
  }

  /** A market order left open has used up every resting order it could take. */
  ghost predicate MarketExhausted(limits: seq<Order>, markets: seq<Order>, fills: seq<Match>) {
    forall mo, o | mo in markets && o in limits && o.isLong != mo.isLong && o.owner != mo.owner
      && Remaining(mo, fills) > 0 :: Remaining(o, fills) <= 0
  }

  /**
   Fill `k` is made in its turn: market sells take the bids first, then market
   buys the asks, and only when no market order can take anything more do limit
   orders meet, the better bids before the others.
   */
  ghost predicate InTurn(limits: seq<Order>, markets: seq<Order>, fills: seq<Match>, k: nat)
    requires k < |fills|
  {
    var m, before := fills[k], fills[..k];
    if m.taker in limits then
      && MarketExhausted(limits, markets, before)
      && forall bid, ask | bid in limits && ask in limits && bid.isLong && !ask.isLong && Before(bid, m.Bid()) ::
           Settled(bid, ask, before)
    else
      m.taker.isLong ==> forall mo, o | mo in markets && !mo.isLong && o in limits && o.isLong :: Idle(mo, o, before)
  }

  // ----- Appending a fill

  lemma FilledInAppend(fills: seq<Match>, m: Match, id: OrderId)
    ensures FilledIn(fills + [m], id) == FilledIn(fills, id) + m.Part(id)
  {
    assert (fills + [m])[..|fills|] == fills;
  }

  /** The two orders cannot trade with each other (any more), whatever their prices. */
  predicate Idle(x: Order, y: Order, fills: seq<Match>) {
    x.owner == y.owner || Remaining(x, fills) <= 0 || Remaining(y, fills) <= 0
  }

  predicate Settled(bid: Order, ask: Order, fills: seq<Match>) {
    Idle(bid, ask, fills) || bid.limitPrice < ask.limitPrice
  }

  lemma IdleStays(x: Order, y: Order, fills: seq<Match>, m: Match)
    requires Idle(x, y, fills) && m.fillSize > 0
    ensures Idle(x, y, fills + [m])
  {
    FilledInAppend(fills, m, x.Id());
    FilledInAppend(fills, m, y.Id());
  }

  ghost predicate AllFillsGood(limits: seq<Order>, markets: seq<Order>, fills: seq<Match>) {
    forall k | 0 <= k < |fills| :: FillSound(limits, markets, fills, k) && PriorityRespected(limits, markets, fills, k)
  }

  lemma AppendGood(limits: seq<Order>, markets: seq<Order>, fills: seq<Match>, m: Match)
    requires AllFillsGood(limits, markets, fills)
    requires FillSound(limits, markets, fills + [m], |fills|)
    requires PriorityRespected(limits, markets, fills + [m], |fills|)
    ensures AllFillsGood(limits, markets, fills + [m])
  {
    forall k | 0 <= k < |fills|
      ensures FillSound(limits, markets, fills + [m], k) && PriorityRespected(limits, markets, fills + [m], k)
    {
      assert (fills + [m])[..k] == fills[..k] && (fills + [m])[k] == fills[k];
      assert FillSound(limits, markets, fills, k) && PriorityRespected(limits, markets, fills, k);
    }
  }

  // ----- Counting open orders

  ghost function OpenOrders(all: seq<Order>, fills: seq<Match>): set<Order> {
    set o | o in all && Remaining(o, fills) > 0
  }

  lemma {:induction false} SubsetSize<T>(a: set<T>, b: set<T>)
    requires a <= b
    ensures |a| <= |b|
  {
    assert b == a + (b - a);
  }

  lemma {:induction false} OpenAtMostAll(all: seq<Order>, fills: seq<Match>)
    ensures |OpenOrders(all, fills)| <= |all|
  {
    if all != [] {
      var rest, last := all[..|all| - 1], all[|all| - 1];
      OpenAtMostAll(rest, fills);
      assert all == rest + [last];
      assert OpenOrders(all, fills) <= OpenOrders(rest, fills) + {last};
      SubsetSize(OpenOrders(all, fills), OpenOrders(rest, fills) + {last});
    }
  }

  /** Every fill closes an order, and needs two. */
  lemma FillClosesOne(all: seq<Order>, fills: seq<Match>, m: Match)
    requires IdsDistinct(all) && m.maker in all && m.taker in all && m.maker.Id() != m.taker.Id()
    requires m.fillSize == Min(Remaining(m.maker, fills), Remaining(m.taker, fills)) > 0
    ensures 2 <= |OpenOrders(all, fills)|
    ensures |OpenOrders(all, fills + [m])| <= |OpenOrders(all, fills)| - 1
  {
    var open0, open1 := OpenOrders(all, fills), OpenOrders(all, fills + [m]);
    assert {m.maker, m.taker} <= open0;
    SubsetSize({m.maker, m.taker}, open0);
    var closed := if Remaining(m.maker, fills) <= Remaining(m.taker, fills) then m.maker else m.taker;
    FilledInAppend(fills, m, closed.Id());
    forall o | o in open1 ensures o in open0 - {closed} {
      FilledInAppend(fills, m, o.Id());
    }
    SubsetSize(open1, open0 - {closed});
  }
}
