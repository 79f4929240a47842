/** The two-pass matching loop, proved against the properties of Matching. */
module Matcher {
  import opened Outcomes
  import opened Numbers
  import opened Matching
  import Sorting

  function Pending(pending: map<OrderId, int>, id: OrderId): int {
    if id in pending then pending[id] else 0
  }

  /**
   The partial-fill map says what the emitted fills say; every fill is good; no
   order is overfilled; few enough fills.
   */
  ghost predicate Tracks(limits: seq<Order>, markets: seq<Order>, pending: map<OrderId, int>, fills: seq<Match>) {
    && (forall id :: Pending(pending, id) == FilledIn(fills, id))
    && AllFillsGood(limits, markets, fills)
    && (forall o | o in limits + markets :: 0 <= FilledIn(fills, o.Id()) <= Max(0, o.size - o.filledSize))
    && |fills| + Max(1, |OpenOrders(limits + markets, fills)|) <= Max(1, |limits + markets|)
  }

  lemma NothingPending(limits: seq<Order>, markets: seq<Order>)
    ensures Tracks(limits, markets, map[], [])
  {
    OpenAtMostAll(limits + markets, []);
  }

  ghost predicate AllIdle(xs: seq<Order>, ys: seq<Order>, fills: seq<Match>) {
    forall x, y | x in xs && y in ys :: Idle(x, y, fills)
  }

  ghost predicate AllSettled(bids: seq<Order>, asks: seq<Order>, fills: seq<Match>) {
    forall bid, ask | bid in bids && ask in asks :: Settled(bid, ask, fills)
  }

  lemma AllIdleStay(xs: seq<Order>, ys: seq<Order>, fills: seq<Match>, m: Match)
    requires AllIdle(xs, ys, fills) && m.fillSize > 0
    ensures AllIdle(xs, ys, fills + [m])
  {
    forall x, y | x in xs && y in ys ensures Idle(x, y, fills + [m]) {
      IdleStays(x, y, fills, m);
    }
  }

  lemma AllSettledStay(bids: seq<Order>, asks: seq<Order>, fills: seq<Match>, m: Match)
    requires AllSettled(bids, asks, fills) && m.fillSize > 0
    ensures AllSettled(bids, asks, fills + [m])
  {
    forall bid, ask | bid in bids && ask in asks ensures Settled(bid, ask, fills + [m]) {
      if Idle(bid, ask, fills) {
        IdleStays(bid, ask, fills, m);
      }
    }
  }

  /** Position in the book: anything strictly better ranked comes earlier. */
  lemma BetterIsEarlier(book: seq<Order>, o: Order, j: nat) returns (i: nat)
    requires Sorting.Ranked(book, Before) && j < |book| && o in book && Before(o, book[j])
    ensures i < j && book[i] == o
  {
    i :| i < |book| && book[i] == o;
  }

  /** The fill a market order makes with the first resting order it can still trade with. */
  lemma MarketFillGood(limits: seq<Order>, markets: seq<Order>, fills: seq<Match>, isLong: bool, i: nat, j: nat,
                       m: Match)
    requires IdsDistinct(limits + markets) && AllFillsGood(limits, markets, fills)
    requires i < |Side(markets, !isLong)| && j < |Book(limits, isLong)|
    requires var rest, mo := Book(limits, isLong)[j], Side(markets, !isLong)[i];
      && m == Match(rest, mo, Min(Remaining(rest, fills), Remaining(mo, fills)), rest.limitPrice)
      && !Idle(rest, mo, fills)
    requires AllIdle(Side(markets, !isLong)[..i], Book(limits, isLong), fills)
    requires AllIdle(Book(limits, isLong)[..j], [Side(markets, !isLong)[i]], fills)
    ensures m.maker in limits + markets && m.taker in limits + markets && m.maker.Id() != m.taker.Id()
    ensures AllFillsGood(limits, markets, fills + [m])
  {
    var book, queue := Book(limits, isLong), Side(markets, !isLong);
    var rest, mo := book[j], queue[i];
    BookHolds(limits, isLong);
    SideHolds(markets, !isLong, mo);
    DistinctAcross(limits, markets, rest, mo);
    assert (fills + [m])[..|fills|] == fills;
    forall o | o in limits && o.isLong == rest.isLong && Before(o, rest) && Remaining(o, fills) > 0
      ensures o.owner == mo.owner
    {
      var i0 := BetterIsEarlier(book, o, j);
      assert o in book[..j];
      assert Idle(o, mo, fills);
    }
    assert RankRespected(limits, fills, rest, mo);
    forall a, b | 0 <= a < b < |queue| && queue[b] == mo && Remaining(queue[a], fills) > 0
      ensures queue[a].owner == rest.owner
    {
      SideDistinct(limits, markets, !isLong, b, i);
      assert queue[a] in queue[..i];
      assert Idle(queue[a], rest, fills);
    }
    assert QueueRespected(markets, fills, mo, rest);
    AppendGood(limits, markets, fills, m);
  }

  lemma DistinctAcross(limits: seq<Order>, markets: seq<Order>, x: Order, y: Order)
    requires IdsDistinct(limits + markets) && x in limits && y in markets
    ensures x.Id() != y.Id() && y !in limits
  {
    var i :| 0 <= i < |limits| && limits[i] == x;
    var j :| 0 <= j < |markets| && markets[j] == y;
    var all := limits + markets;
    assert all[|limits| + j] == y;
    forall k | 0 <= k < |limits| ensures limits[k].Id() != y.Id() {
      assert all[k] == limits[k];
    }
  }

  /** A queue holds no order twice. */
  lemma SideDistinct(limits: seq<Order>, markets: seq<Order>, isLong: bool, a: nat, b: nat)
    requires IdsDistinct(limits + markets)
    requires a < |Side(markets, isLong)| && b < |Side(markets, isLong)|
          && Side(markets, isLong)[a] == Side(markets, isLong)[b]
    ensures a == b
  {
    assert IdsDistinct(markets) by {
      forall i, j | 0 <= i < j < |markets| ensures markets[i].Id() != markets[j].Id() {
        assert (limits + markets)[|limits| + i] == markets[i] && (limits + markets)[|limits| + j] == markets[j];
      }
    }
    SideIdsDistinct(markets, isLong);
  }

  lemma {:induction false} SideIdsDistinct(orders: seq<Order>, isLong: bool)
    requires IdsDistinct(orders)
    ensures IdsDistinct(Side(orders, isLong))
  {
    if orders != [] {
      var rest, last := orders[..|orders| - 1], orders[|orders| - 1];
      SideIdsDistinct(rest, isLong);
      forall i | 0 <= i < |Side(rest, isLong)| ensures Side(rest, isLong)[i].Id() != last.Id() {
        SideHolds(rest, isLong, Side(rest, isLong)[i]);
      }
    }
  }

  /** The fill a bid makes with the first ask it can still trade with. */
  lemma LimitFillGood(limits: seq<Order>, markets: seq<Order>, fills: seq<Match>, i: nat, j: nat, m: Match)
    requires IdsDistinct(limits + markets) && AllFillsGood(limits, markets, fills)
    requires i < |Book(limits, true)| && j < |Book(limits, false)|
    requires var bid, ask := Book(limits, true)[i], Book(limits, false)[j];
      var maker := if bid.createdAt <= ask.createdAt then bid else ask;
      && m == Match(maker, if bid.createdAt <= ask.createdAt then ask else bid,
                    Min(Remaining(bid, fills), Remaining(ask, fills)), maker.limitPrice)
      && !Settled(bid, ask, fills)
    requires AllSettled(Book(limits, true)[..i], Book(limits, false), fills)
    requires AllSettled([Book(limits, true)[i]], Book(limits, false)[..j], fills)
    ensures m.maker in limits + markets && m.taker in limits + markets && m.maker.Id() != m.taker.Id()
    ensures AllFillsGood(limits, markets, fills + [m])
  {
    var bids, asks := Book(limits, true), Book(limits, false);
    var bid, ask := bids[i], asks[j];
    BookHolds(limits, true);
    BookHolds(limits, false);
    assert (fills + [m])[..|fills|] == fills;
    assert RankRespected(limits, fills, bid, ask) by {
      forall o | o in limits && o.isLong && Before(o, bid) && Remaining(o, fills) > 0 ensures o.owner == ask.owner {
        var i0 := BetterIsEarlier(bids, o, i);
        assert o in bids[..i];
        assert Settled(o, ask, fills);
      }
    }
    assert RankRespected(limits, fills, ask, bid) by {
      forall o | o in limits && !o.isLong && Before(o, ask) && Remaining(o, fills) > 0 ensures o.owner == bid.owner {
        var j0 := BetterIsEarlier(asks, o, j);
        assert o in asks[..j];
        assert Settled(bid, o, fills);
      }
    }
    LimitsDistinct(limits, markets, bid, ask);
    AppendGood(limits, markets, fills, m);
  }

  lemma LimitsDistinct(limits: seq<Order>, markets: seq<Order>, x: Order, y: Order)
    requires IdsDistinct(limits + markets) && x in limits && y in limits && x != y
    ensures x.Id() != y.Id()
  {
    var i :| 0 <= i < |limits| && limits[i] == x;
    var j :| 0 <= j < |limits| && limits[j] == y;
    var all := limits + markets;
    assert all[i] == x && all[j] == y;
  }

  /** Adds a fill to the map, for both orders, and to the results. */
  method Record(ghost limits: seq<Order>, ghost markets: seq<Order>, pending: map<OrderId, int>, fills: seq<Match>,
                first: OrderId, second: OrderId, m: Match)
    returns (pending': map<OrderId, int>, fills': seq<Match>)
    requires IdsDistinct(limits + markets) && Tracks(limits, markets, pending, fills)
    requires m.maker in limits + markets && m.taker in limits + markets && m.maker.Id() != m.taker.Id()
    requires {first, second} == {m.maker.Id(), m.taker.Id()}
    requires m.fillSize == Min(Remaining(m.maker, fills), Remaining(m.taker, fills)) > 0
    requires AllFillsGood(limits, markets, fills + [m])
    ensures fills' == fills + [m]
    ensures Tracks(limits, markets, pending', fills')
  {
    pending' := pending[first := Pending(pending, first) + m.fillSize];
    pending' := pending'[second := Pending(pending', second) + m.fillSize];
    fills' := fills + [m];
    FillClosesOne(limits + markets, fills, m);
    assert first != second;
    forall id ensures Pending(pending', id) == FilledIn(fills', id) {
      FilledInAppend(fills, m, id);
    }
    forall o | o in limits + markets ensures 0 <= FilledIn(fills', o.Id()) <= Max(0, o.size - o.filledSize) {
      FilledInAppend(fills, m, o.Id());
      SameId(limits + markets, o, m.maker);
      SameId(limits + markets, o, m.taker);
    }
  }

  lemma SameId(all: seq<Order>, x: Order, y: Order)
    requires IdsDistinct(all) && x in all && y in all
    ensures x.Id() == y.Id() ==> x == y
  {
  }

  lemma PendingIsFilled(limits: seq<Order>, markets: seq<Order>, pending: map<OrderId, int>, fills: seq<Match>,
                        o: Order)
    requires Tracks(limits, markets, pending, fills)
    ensures o.size - o.filledSize - Pending(pending, o.Id()) == Remaining(o, fills)
  {
  }

  /** Fills only ever shrink what is open. */
  lemma {:induction false} RemainingShrinks(limits: seq<Order>, markets: seq<Order>, earlier: seq<Match>,
                                            fills: seq<Match>, o: Order)
    requires earlier <= fills && AllFillsGood(limits, markets, fills)
    ensures Remaining(o, fills) <= Remaining(o, earlier)
    decreases |fills|
  {
    if |earlier| < |fills| {
      var rest, m := fills[..|fills| - 1], fills[|fills| - 1];
      assert FillSound(limits, markets, fills, |fills| - 1);
      forall k | 0 <= k < |rest|
        ensures FillSound(limits, markets, rest, k) && PriorityRespected(limits, markets, rest, k) {
        assert rest[..k] == fills[..k];
        assert FillSound(limits, markets, fills, k) && PriorityRespected(limits, markets, fills, k);
      }
      RemainingShrinks(limits, markets, earlier, rest, o);
    } else {
      assert earlier == fills;
    }
  }

  lemma IdleLater(limits: seq<Order>, markets: seq<Order>, xs: seq<Order>, ys: seq<Order>, earlier: seq<Match>,
                  fills: seq<Match>)
    requires earlier <= fills && AllFillsGood(limits, markets, fills) && AllIdle(xs, ys, earlier)
    ensures AllIdle(xs, ys, fills)
  {
    forall x, y | x in xs && y in ys ensures Idle(x, y, fills) {
      assert Idle(x, y, earlier);
      RemainingShrinks(limits, markets, earlier, fills, x);
      RemainingShrinks(limits, markets, earlier, fills, y);
    }
  }

  lemma SettledLater(limits: seq<Order>, markets: seq<Order>, bids: seq<Order>, asks: seq<Order>, earlier: seq<Match>,
                     fills: seq<Match>)
    requires earlier <= fills && AllFillsGood(limits, markets, fills) && AllSettled(bids, asks, earlier)
    ensures AllSettled(bids, asks, fills)
  {
    forall x, y | x in bids && y in asks ensures Settled(x, y, fills) {
      assert Settled(x, y, earlier);
      RemainingShrinks(limits, markets, earlier, fills, x);
      RemainingShrinks(limits, markets, earlier, fills, y);
    }
  }

  lemma IdleExtends(xs: seq<Order>, i: nat, y: Order, fills: seq<Match>)
    requires i < |xs| && AllIdle(xs[..i], [y], fills) && Idle(xs[i], y, fills)
    ensures AllIdle(xs[..i + 1], [y], fills)
  {
    assert xs[..i + 1] == xs[..i] + [xs[i]];
  }

  lemma IdleWhenFilled(xs: seq<Order>, y: Order, fills: seq<Match>)
    requires Remaining(y, fills) <= 0
    ensures AllIdle(xs, [y], fills)
  {
  }

  lemma IdleFromNothing(y: Order, fills: seq<Match>)
    ensures AllIdle([], [y], fills)
  {
  }

  /** After a fill of the smaller remainder, the two orders are done with each other. */
  lemma FillIdles(x: Order, y: Order, fills: seq<Match>, m: Match)
    requires m.fillSize == Min(Remaining(x, fills), Remaining(y, fills)) > 0
    requires {x, y} == {m.maker, m.taker} && x.Id() != y.Id()
    ensures Idle(x, y, fills + [m])
  {
    FilledInAppend(fills, m, x.Id());
    FilledInAppend(fills, m, y.Id());
  }

  /** One market order against the book of the other side, best first, until it is filled. */
  method TakeBook(limits: seq<Order>, markets: seq<Order>, isLong: bool, i: nat, pending0: map<OrderId, int>,
                  fills0: seq<Match>)
    returns (pending: map<OrderId, int>, fills: seq<Match>)
    requires IdsDistinct(limits + markets) && Tracks(limits, markets, pending0, fills0)
    requires i < |Side(markets, !isLong)|
    requires AllIdle(Side(markets, !isLong)[..i], Book(limits, isLong), fills0)
    ensures Tracks(limits, markets, pending, fills) && fills0 <= fills
    ensures AllIdle(Book(limits, isLong), [Side(markets, !isLong)[i]], fills)
    ensures forall k | |fills0| <= k < |fills| :: fills[k].taker == Side(markets, !isLong)[i]
  {
    hide Book, Side, IdsDistinct, AllFillsGood, AllIdle, Remaining, OpenOrders, FilledIn;
    var book, queue := Book(limits, isLong), Side(markets, !isLong);
    var mo := queue[i];
    pending, fills := pending0, fills0;
    IdleFromNothing(mo, fills);
    for j := 0 to |book|
      invariant Tracks(limits, markets, pending, fills) && fills0 <= fills
      invariant AllIdle(book[..j], [mo], fills)
      invariant forall k | |fills0| <= k < |fills| :: fills[k].taker == mo
    {
      var rest := book[j];
      PendingIsFilled(limits, markets, pending, fills, rest);
      PendingIsFilled(limits, markets, pending, fills, mo);
      var restRem := rest.size - rest.filledSize - Pending(pending, rest.Id());
      var moRem := mo.size - mo.filledSize - Pending(pending, mo.Id());
      if rest.owner == mo.owner || restRem <= 0 || moRem <= 0 {
        IdleExtends(book, j, mo, fills);
        continue;
      }
      var m := Match(rest, mo, Min(restRem, moRem), rest.limitPrice);
      IdleLater(limits, markets, queue[..i], book, fills0, fills);
      MarketFillGood(limits, markets, fills, isLong, i, j, m);
      AllIdleStay(book[..j], [mo], fills, m);
      FillIdles(rest, mo, fills, m);
      pending, fills := Record(limits, markets, pending, fills, rest.Id(), mo.Id(), m);
      IdleExtends(book, j, mo, fills);
      PendingIsFilled(limits, markets, pending, fills, mo);
      if mo.size - mo.filledSize - Pending(pending, mo.Id()) <= 0 {
        IdleWhenFilled(book, mo, fills);
        break;
      }
      assert book[..|book|] == book;
    }
    assert book[..|book|] == book;
  }

  /** One bid against the asks, best first, until it is filled or prices no longer cross. */
  method TakeAsks(limits: seq<Order>, markets: seq<Order>, i: nat, pending0: map<OrderId, int>, fills0: seq<Match>)
    returns (pending: map<OrderId, int>, fills: seq<Match>)
    requires IdsDistinct(limits + markets) && Tracks(limits, markets, pending0, fills0)
    requires i < |Book(limits, true)|
    requires AllSettled(Book(limits, true)[..i], Book(limits, false), fills0)
    ensures Tracks(limits, markets, pending, fills) && fills0 <= fills
    ensures AllSettled([Book(limits, true)[i]], Book(limits, false), fills)
    ensures forall k | |fills0| <= k < |fills| :: fills[k].Bid() == Book(limits, true)[i] && fills[k].taker in limits
  {
    BookHolds(limits, true);
    BookHolds(limits, false);
    hide Book, Side, IdsDistinct, AllFillsGood, AllSettled, Remaining, OpenOrders, FilledIn, Sorting.Ranked;
    var bids, asks := Book(limits, true), Book(limits, false);
    var bid := bids[i];
    pending, fills := pending0, fills0;
    SettledFromNothing(bid, fills);
    for j := 0 to |asks|
      invariant Tracks(limits, markets, pending, fills) && fills0 <= fills
      invariant AllSettled([bid], asks[..j], fills)
      invariant forall k | |fills0| <= k < |fills| :: fills[k].Bid() == bid && fills[k].taker in limits
    {
      var ask := asks[j];
      PendingIsFilled(limits, markets, pending, fills, bid);
      PendingIsFilled(limits, markets, pending, fills, ask);
      if bid.owner == ask.owner {
        SettledExtends(bid, asks, j, fills);
        continue;
      }
      if bid.limitPrice < ask.limitPrice {
        SettledBeyond(bid, asks, j, fills);
        break;
      }
      var bidRem := bid.size - bid.filledSize - Pending(pending, bid.Id());
      var askRem := ask.size - ask.filledSize - Pending(pending, ask.Id());
      if bidRem <= 0 || askRem <= 0 {
        SettledExtends(bid, asks, j, fills);
        continue;
      }
      var fillSize := Min(bidRem, askRem);
      var makerFirst := bid.createdAt <= ask.createdAt;
      var maker, taker := if makerFirst then bid else ask, if makerFirst then ask else bid;
      var m := Match(maker, taker, fillSize, maker.limitPrice);
      SettledLater(limits, markets, bids[..i], asks, fills0, fills);
      LimitFillGood(limits, markets, fills, i, j, m);
      AllSettledStay([bid], asks[..j], fills, m);
      FillIdles(bid, ask, fills, m);
      pending, fills := Record(limits, markets, pending, fills, bid.Id(), ask.Id(), m);
      SettledExtends(bid, asks, j, fills);
      PendingIsFilled(limits, markets, pending, fills, bid);
      if bid.size - bid.filledSize - Pending(pending, bid.Id()) <= 0 {
        SettledWhenFilled(bid, asks, fills);
        break;
      }
    }
    assert asks[..|asks|] == asks;
  }

  lemma SettledFromNothing(bid: Order, fills: seq<Match>)
    ensures AllSettled([bid], [], fills)
  {
  }

  lemma SettledExtends(bid: Order, asks: seq<Order>, j: nat, fills: seq<Match>)
    requires j < |asks| && AllSettled([bid], asks[..j], fills) && Settled(bid, asks[j], fills)
    ensures AllSettled([bid], asks[..j + 1], fills)
  {
    assert asks[..j + 1] == asks[..j] + [asks[j]];
  }

  lemma SettledWhenFilled(bid: Order, asks: seq<Order>, fills: seq<Match>)
    requires Remaining(bid, fills) <= 0
    ensures AllSettled([bid], asks, fills)
  {
  }

  /** Behind the first ask that is too expensive, all are: this is what justifies the early break. */
  lemma SettledBeyond(bid: Order, asks: seq<Order>, j: nat, fills: seq<Match>)
    requires Sorting.Ranked(asks, Before) && (forall a | a in asks :: !a.isLong)
    requires j < |asks| && AllSettled([bid], asks[..j], fills) && bid.limitPrice < asks[j].limitPrice
    ensures AllSettled([bid], asks, fills)
  {
    forall a | a in asks ensures Settled(bid, a, fills) {
      var k :| 0 <= k < |asks| && asks[k] == a;
      if k < j {
        assert a in asks[..j];
      } else if k > j {
        assert !Before(asks[k], asks[j]);
      }
    }
  }

  /**
   Matches market orders against the resting book (sells, then buys), then the
   resting book against itself. Everything the fills must satisfy is in the
   postconditions; the fills are in the order they were made.
   */
  method MatchAll(limits: seq<Order>, markets: seq<Order>) returns (fills: seq<Match>)
    requires IdsDistinct(limits + markets)
    ensures forall k | 0 <= k < |fills| ::
      FillSound(limits, markets, fills, k) && PriorityRespected(limits, markets, fills, k)
    ensures forall o | o in limits + markets :: 0 <= FilledIn(fills, o.Id()) <= Max(0, o.size - o.filledSize)
    ensures Uncrossed(limits, fills)
    ensures MarketExhausted(limits, markets, fills)
    ensures forall k | 0 <= k < |fills| :: InTurn(limits, markets, fills, k)
    ensures |fills| <= Max(0, |limits + markets| - 1)
  {
    hide Book, Side, IdsDistinct, Tracks, AllFillsGood, FillSound, PriorityRespected, Uncrossed, MarketExhausted;
    hide AllIdle, AllSettled, FilledIn, InTurn;
    var pending: map<OrderId, int> := map[];
    fills := [];
    NothingPending(limits, markets);
    var bids, asks := Book(limits, true), Book(limits, false);
    var sells, buys := Side(markets, false), Side(markets, true);
    NoneYet(bids, asks, fills);
    for i := 0 to |sells|
      invariant Tracks(limits, markets, pending, fills)
      invariant AllIdle(sells[..i], bids, fills)
      invariant forall k | 0 <= k < |fills| :: fills[k].taker in sells
    {
      ghost var earlier := fills;
      pending, fills := TakeBook(limits, markets, true, i, pending, fills);
      QueueAdvances(limits, markets, pending, sells, i, bids, earlier, fills);
    }
    ghost var afterSells := fills;
    NoneYet(asks, asks, fills);
    for i := 0 to |buys|
      invariant Tracks(limits, markets, pending, fills) && afterSells <= fills
      invariant AllIdle(buys[..i], asks, fills)
      invariant forall k | |afterSells| <= k < |fills| :: fills[k].taker in buys
    {
      ghost var earlier := fills;
      pending, fills := TakeBook(limits, markets, false, i, pending, fills);
      QueueAdvances(limits, markets, pending, buys, i, asks, earlier, fills);
    }
    ghost var afterBuys := fills;
    NoneYet(bids, asks, fills);
    assert sells[..|sells|] == sells && buys[..|buys|] == buys;
    MarketFillsInTurn(limits, markets, pending, afterSells, fills);
    for i := 0 to |bids|
      invariant Tracks(limits, markets, pending, fills) && afterBuys <= fills
      invariant AllSettled(bids[..i], asks, fills)
      invariant forall k | 0 <= k < |fills| :: InTurn(limits, markets, fills, k)
    {
      ghost var earlier := fills;
      pending, fills := TakeAsks(limits, markets, i, pending, fills);
      LimitFillsInTurn(limits, markets, pending, afterSells, afterBuys, i, earlier, fills);
      BidsAdvance(limits, markets, pending, bids, i, asks, earlier, fills);
    }
    assert bids[..|bids|] == bids;
    Conclude(limits, markets, pending, afterSells, afterBuys, fills);
  }

  lemma {:induction false} PrefixGood(limits: seq<Order>, markets: seq<Order>, fills: seq<Match>, n: nat)
    requires AllFillsGood(limits, markets, fills) && n <= |fills|
    ensures AllFillsGood(limits, markets, fills[..n])
  {
    hide FillSound, PriorityRespected;
    forall k | 0 <= k < n ensures FillSound(limits, markets, fills[..n], k)
      && PriorityRespected(limits, markets, fills[..n], k) {
      SameFill(limits, markets, fills, n, k);
    }
  }

  lemma SameFill(limits: seq<Order>, markets: seq<Order>, fills: seq<Match>, n: nat, k: nat)
    requires k < n <= |fills|
    ensures FillSound(limits, markets, fills[..n], k) == FillSound(limits, markets, fills, k)
    ensures PriorityRespected(limits, markets, fills[..n], k) == PriorityRespected(limits, markets, fills, k)
    ensures InTurn(limits, markets, fills[..n], k) == InTurn(limits, markets, fills, k)
  {
    assert fills[..n][..k] == fills[..k];
  }

  /** Market fills are in turn: the buys come when the sells can take nothing more. */
  lemma MarketFillsInTurn(limits: seq<Order>, markets: seq<Order>, pending: map<OrderId, int>,
                          afterSells: seq<Match>, fills: seq<Match>)
    requires IdsDistinct(limits + markets) && Tracks(limits, markets, pending, fills) && afterSells <= fills
    requires AllIdle(Side(markets, false), Book(limits, true), afterSells)
    requires forall k | 0 <= k < |afterSells| :: fills[k].taker in Side(markets, false)
    requires forall k | |afterSells| <= k < |fills| :: fills[k].taker in Side(markets, true)
    ensures forall k | 0 <= k < |fills| :: InTurn(limits, markets, fills, k)
  {
    hide Side, Book, AllFillsGood, OpenOrders, FilledIn, Idle, Remaining;
    forall k | 0 <= k < |fills| ensures InTurn(limits, markets, fills, k) {
      var taker := fills[k].taker;
      SideHolds(markets, false, taker);
      SideHolds(markets, true, taker);
      if taker in limits {
        DistinctAcross(limits, markets, taker, taker);
      }
      if taker.isLong {
        PrefixGood(limits, markets, fills, k);
        IdleLater(limits, markets, Side(markets, false), Book(limits, true), afterSells, fills[..k]);
        SellsIdle(limits, markets, fills[..k]);
      }
    }
  }

  lemma SellsIdle(limits: seq<Order>, markets: seq<Order>, fills: seq<Match>)
    requires AllIdle(Side(markets, false), Book(limits, true), fills)
    ensures forall mo, o | mo in markets && !mo.isLong && o in limits && o.isLong :: Idle(mo, o, fills)
  {
    hide Book, Side, Idle;
    BookHolds(limits, true);
    forall mo, o | mo in markets && !mo.isLong && o in limits && o.isLong ensures Idle(mo, o, fills) {
      SideHolds(markets, false, mo);
    }
  }

  /** The fills of one bid are in turn: market orders and better bids can do nothing more. */
  lemma LimitFillsInTurn(limits: seq<Order>, markets: seq<Order>, pending: map<OrderId, int>, afterSells: seq<Match>,
                         afterBuys: seq<Match>, i: nat, earlier: seq<Match>, fills: seq<Match>)
    requires Tracks(limits, markets, pending, fills) && afterSells <= afterBuys <= earlier <= fills
    requires AllIdle(Side(markets, false), Book(limits, true), afterSells)
    requires AllIdle(Side(markets, true), Book(limits, false), afterBuys)
    requires i < |Book(limits, true)| && AllSettled(Book(limits, true)[..i], Book(limits, false), earlier)
    requires forall k | 0 <= k < |earlier| :: InTurn(limits, markets, earlier, k)
    requires forall k | |earlier| <= k < |fills| :: fills[k].Bid() == Book(limits, true)[i] && fills[k].taker in limits
    ensures forall k | 0 <= k < |fills| :: InTurn(limits, markets, fills, k)
  {
    hide Side, Book, AllFillsGood, OpenOrders, FilledIn, InTurn, AllIdle, AllSettled, MarketExhausted;
    forall k | 0 <= k < |fills| ensures InTurn(limits, markets, fills, k) {
      if k < |earlier| {
        assert fills[..|earlier|] == earlier;
        SameFill(limits, markets, fills, |earlier|, k);
      } else {
        PrefixGood(limits, markets, fills, k);
        IdleLater(limits, markets, Side(markets, false), Book(limits, true), afterSells, fills[..k]);
        IdleLater(limits, markets, Side(markets, true), Book(limits, false), afterBuys, fills[..k]);
        SettledLater(limits, markets, Book(limits, true)[..i], Book(limits, false), earlier, fills[..k]);
        NothingForMarkets(limits, markets, fills[..k]);
        LimitInTurn(limits, markets, i, fills, k);
      }
    }
  }

  lemma LimitInTurn(limits: seq<Order>, markets: seq<Order>, i: nat, fills: seq<Match>, k: nat)
    requires k < |fills| && MarketExhausted(limits, markets, fills[..k])
    requires i < |Book(limits, true)| && AllSettled(Book(limits, true)[..i], Book(limits, false), fills[..k])
    requires fills[k].Bid() == Book(limits, true)[i] && fills[k].taker in limits
    ensures InTurn(limits, markets, fills, k)
  {
    hide Book, MarketExhausted, Settled;
    BookHolds(limits, true);
    BookHolds(limits, false);
    forall bid, ask | bid in limits && ask in limits && bid.isLong && !ask.isLong && Before(bid, fills[k].Bid())
      ensures Settled(bid, ask, fills[..k])
    {
      var j := BetterIsEarlier(Book(limits, true), bid, i);
      assert bid in Book(limits, true)[..i];
    }
  }

  lemma NoneYet(xs: seq<Order>, ys: seq<Order>, fills: seq<Match>)
    ensures AllIdle([], xs, fills) && AllSettled([], ys, fills)
  {
  }

  /** Pairs settled after each pass stay settled to the end. */
  lemma Conclude(limits: seq<Order>, markets: seq<Order>, pending: map<OrderId, int>,
                 afterSells: seq<Match>, afterBuys: seq<Match>, fills: seq<Match>)
    requires Tracks(limits, markets, pending, fills) && afterSells <= afterBuys <= fills
    requires AllIdle(Side(markets, false), Book(limits, true), afterSells)
    requires AllIdle(Side(markets, true), Book(limits, false), afterBuys)
    requires AllSettled(Book(limits, true), Book(limits, false), fills)
    ensures forall k | 0 <= k < |fills| ::
      FillSound(limits, markets, fills, k) && PriorityRespected(limits, markets, fills, k)
    ensures forall o | o in limits + markets :: 0 <= FilledIn(fills, o.Id()) <= Max(0, o.size - o.filledSize)
    ensures Uncrossed(limits, fills) && MarketExhausted(limits, markets, fills)
    ensures |fills| <= Max(0, |limits + markets| - 1)
  {
    IdleLater(limits, markets, Side(markets, false), Book(limits, true), afterSells, fills);
    IdleLater(limits, markets, Side(markets, true), Book(limits, false), afterBuys, fills);
    hide AllFillsGood, OpenOrders;
    NothingCrosses(limits, markets, fills);
    TracksMeans(limits, markets, pending, fills);
  }

  lemma TracksMeans(limits: seq<Order>, markets: seq<Order>, pending: map<OrderId, int>, fills: seq<Match>)
    requires Tracks(limits, markets, pending, fills)
    ensures forall k | 0 <= k < |fills| ::
      FillSound(limits, markets, fills, k) && PriorityRespected(limits, markets, fills, k)
    ensures forall o | o in limits + markets :: 0 <= FilledIn(fills, o.Id()) <= Max(0, o.size - o.filledSize)
    ensures |fills| <= Max(0, |limits + markets| - 1)
  {
    hide FillSound, PriorityRespected, OpenOrders, FilledIn;
  }

  lemma NothingCrosses(limits: seq<Order>, markets: seq<Order>, fills: seq<Match>)
    requires AllIdle(Side(markets, false), Book(limits, true), fills)
    requires AllIdle(Side(markets, true), Book(limits, false), fills)
    requires AllSettled(Book(limits, true), Book(limits, false), fills)
    ensures Uncrossed(limits, fills) && MarketExhausted(limits, markets, fills)
  {
    hide Book, Side, Remaining;
    BookHolds(limits, true);
    BookHolds(limits, false);
    forall bid, ask | bid in limits && ask in limits && bid.isLong && !ask.isLong ensures Settled(bid, ask, fills) {
    }
    NothingForMarkets(limits, markets, fills);
  }

  lemma NothingForMarkets(limits: seq<Order>, markets: seq<Order>, fills: seq<Match>)
    requires AllIdle(Side(markets, false), Book(limits, true), fills)
    requires AllIdle(Side(markets, true), Book(limits, false), fills)
    ensures MarketExhausted(limits, markets, fills)
  {
    hide Book, Side, Remaining;
    BookHolds(limits, true);
    BookHolds(limits, false);
    forall mo, o | mo in markets && o in limits && o.isLong != mo.isLong ensures Idle(mo, o, fills) {
      SideHolds(markets, mo.isLong, mo);
    }
  }

  lemma QueueAdvances(limits: seq<Order>, markets: seq<Order>, pending: map<OrderId, int>, queue: seq<Order>, i: nat,
                      book: seq<Order>,
                      earlier: seq<Match>, fills: seq<Match>)
    requires earlier <= fills && Tracks(limits, markets, pending, fills)
    requires i < |queue| && AllIdle(queue[..i], book, earlier) && AllIdle(book, [queue[i]], fills)
    ensures AllIdle(queue[..i + 1], book, fills)
  {
    IdleLater(limits, markets, queue[..i], book, earlier, fills);
    assert queue[..i + 1] == queue[..i] + [queue[i]];
    forall x, y | x in queue[..i + 1] && y in book ensures Idle(x, y, fills) {
      if x == queue[i] {
        assert Idle(y, x, fills);
      }
    }
  }

  lemma BidsAdvance(limits: seq<Order>, markets: seq<Order>, pending: map<OrderId, int>, bids: seq<Order>, i: nat,
                    asks: seq<Order>,
                    earlier: seq<Match>, fills: seq<Match>)
    requires earlier <= fills && Tracks(limits, markets, pending, fills)
    requires i < |bids| && AllSettled(bids[..i], asks, earlier) && AllSettled([bids[i]], asks, fills)
    ensures AllSettled(bids[..i + 1], asks, fills)
  {
    SettledLater(limits, markets, bids[..i], asks, earlier, fills);
    assert bids[..i + 1] == bids[..i] + [bids[i]];
  }
}
