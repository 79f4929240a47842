/**
 The order gateway's own bookkeeping: how much of each signed order was filled,
 which orders were cancelled, and the pruning of both once orders have expired.
 */
module GatewayOrders {
  import opened Outcomes
  import opened FixedPoint
  import opened Matching
  import opened OrderMessage

  const RECLAIM_GRACE_SECS: nat := 86_400

  datatype SignedOrder = SignedOrder(owner: string, terms: Terms) {
    function Key(): OrderId {
      OrderId(owner, terms.nonce)
    }
  }

  datatype MatchedFill = MatchedFill(maker: SignedOrder, taker: SignedOrder, size: int, price: int)

  datatype FilledEntry = FilledEntry(amount: int, expiryTs: nat)

  datatype FillBook = FillBook(filled: map<OrderId, FilledEntry>, cancelled: map<OrderId, nat>) {
    function Filled(key: OrderId): int {
      if key in filled then filled[key].amount else 0
    }
  }

  // ----- One call

  /** None when the order may take part in the fill. */
  function ValidateOrder(b: FillBook, now: nat, o: SignedOrder, size: int, price: int): Option<CoreError> {
    var t := o.terms;
    if t.size <= 0 || t.limitPrice <= 0 then Some(InvalidAmount)
    else if now > t.expiryTs then Some(OrderExpired)
    else if o.Key() in b.cancelled then Some(OrderCancelled)
    else
      var total := CheckedAdd(b.Filled(o.Key()), size);
      if total.Err? then Some(total.error)
      else if total.value > t.size then Some(OrderOverfilled)
      else if t.isLong && price > t.limitPrice then Some(PriceOutsideBand)
      else if !t.isLong && price < t.limitPrice then Some(PriceOutsideBand)
      else None
  }

  function ValidateFill(b: FillBook, now: nat, f: MatchedFill): Option<CoreError> {
    if f.size <= 0 || f.price <= 0 then Some(InvalidAmount)
    else if f.maker.owner == f.taker.owner then Some(SelfTrade)
    else if f.maker.terms.marketId == 0 || f.maker.terms.marketId != f.taker.terms.marketId then Some(InvalidConfig)
    else if f.maker.terms.isLong == f.taker.terms.isLong then Some(DirectionMismatch)
    else
      var refused := ValidateOrder(b, now, f.maker, f.size, f.price);
      if refused.Some? then refused else ValidateOrder(b, now, f.taker, f.size, f.price)
  }

  function AddFilled(b: FillBook, o: SignedOrder, amount: int): Result<FillBook> {
    var next :- CheckedAdd(b.Filled(o.Key()), amount);
    Ok(b.(filled := b.filled[o.Key() := FilledEntry(next, o.terms.expiryTs)]))
  }

  function RecordFill(b: FillBook, f: MatchedFill): Result<FillBook> {
    var half :- AddFilled(b, f.maker, f.size);
    AddFilled(half, f.taker, f.size)
  }

  function CancelOrder(b: FillBook, key: OrderId, expiryTs: nat): FillBook {
    b.(cancelled := b.cancelled[key := expiryTs])
  }

  function SaturatingAdd(a: nat, b: nat): nat {
    if a + b > U64_MAX then U64_MAX else a + b
  }

  function ReclaimKey(b: FillBook, now: nat, key: OrderId): FillBook {
    var filled := if key in b.filled && now > SaturatingAdd(b.filled[key].expiryTs, RECLAIM_GRACE_SECS)
      then b.filled - {key} else b.filled;
    var cancelled := if key in b.cancelled && now > SaturatingAdd(b.cancelled[key], RECLAIM_GRACE_SECS)
      then b.cancelled - {key} else b.cancelled;
    FillBook(filled, cancelled)
  }

  function Reclaim(b: FillBook, now: nat, owner: string, nonces: seq<nat>): FillBook {
    if nonces == [] then b
    else ReclaimKey(Reclaim(b, now, owner, nonces[..|nonces| - 1]), now, OrderId(owner, nonces[|nonces| - 1]))
  }

  // ----- Runs

  /** `executed` adds up what was really filled of each signed order, and `last` remembers who filled a key last. */
  datatype Ledger = Ledger(book: FillBook, now: nat, executed: map<SignedOrder, int>, last: map<OrderId, SignedOrder>) {
    function Executed(o: SignedOrder): int {
      if o in executed then executed[o] else 0
    }
  }

  datatype Step =
    | Tick(seconds: nat)
    | Settle(fill: MatchedFill, accepted: bool)   // whether the engine accepts both sides
    | Cancel(key: OrderId, expiryTs: nat)
    | Prune(owner: string, nonces: seq<nat>)

  const EMPTY: Ledger := Ledger(FillBook(map[], map[]), 0, map[], map[])

  predicate Accepts(l: Ledger, fill: MatchedFill) {
    ValidateFill(l.book, l.now, fill).None? && RecordFill(l.book, fill).Ok?
  }

  function Settled(l: Ledger, f: MatchedFill): Ledger
    requires RecordFill(l.book, f).Ok?
  {
    var once := l.executed[f.maker := l.Executed(f.maker) + f.size];
    var both := once[f.taker := (if f.taker in once then once[f.taker] else 0) + f.size];
    Ledger(RecordFill(l.book, f).value, l.now, both, l.last[f.maker.Key() := f.maker][f.taker.Key() := f.taker])
  }

  function Next(l: Ledger, step: Step): Ledger {
    match step
    case Tick(seconds) => l.(now := l.now + seconds)
    case Settle(fill, accepted) => if accepted && Accepts(l, fill) then Settled(l, fill) else l
    case Cancel(key, expiryTs) => l.(book := CancelOrder(l.book, key, expiryTs))
    case Prune(owner, nonces) => l.(book := Reclaim(l.book, l.now, owner, nonces))
  }

  function Run(l: Ledger, steps: seq<Step>): Ledger {
    if steps == [] then l else Next(Run(l, steps[..|steps| - 1]), steps[|steps| - 1])
  }

  // ----- What a step does to one key

  /** Pruning removes entries whose grace period is over and touches nothing else. */
  lemma {:induction false} ReclaimOnly(b: FillBook, now: nat, owner: string, nonces: seq<nat>, key: OrderId)
    ensures var r := Reclaim(b, now, owner, nonces);
      && (key in r.filled ==> key in b.filled && r.filled[key] == b.filled[key])
      && (key in r.cancelled ==> key in b.cancelled && r.cancelled[key] == b.cancelled[key])
      && (key in b.filled && key !in r.filled ==> now > SaturatingAdd(b.filled[key].expiryTs, RECLAIM_GRACE_SECS))
      && (key in b.cancelled && key !in r.cancelled ==> now > SaturatingAdd(b.cancelled[key], RECLAIM_GRACE_SECS))
  {
    if nonces != [] {
      ReclaimOnly(b, now, owner, nonces[..|nonces| - 1], key);
    }
  }

  /** The price is the order's limit or better for its owner. */
  predicate WithinLimit(o: SignedOrder, price: int) {
    if o.terms.isLong then price <= o.terms.limitPrice else o.terms.limitPrice <= price
  }

  /** The order is alive and has room for the fill at its price. */
  predicate Takes(b: FillBook, now: nat, o: SignedOrder, size: int, price: int) {
    && 0 < o.terms.size && 0 < o.terms.limitPrice && now <= o.terms.expiryTs && o.Key() !in b.cancelled
    && IsI128(b.Filled(o.Key()) + size) && b.Filled(o.Key()) + size <= o.terms.size && WithinLimit(o, price)
  }

  /** The gateway takes a fill exactly when it is between opposite sides of two owners and both orders take it. */
  lemma FillIsTakenIff(b: FillBook, now: nat, f: MatchedFill)
    ensures ValidateFill(b, now, f).None? <==>
      && 0 < f.size && 0 < f.price
      && f.maker.owner != f.taker.owner && f.maker.terms.isLong != f.taker.terms.isLong
      && f.maker.terms.marketId == f.taker.terms.marketId != 0
      && Takes(b, now, f.maker, f.size, f.price) && Takes(b, now, f.taker, f.size, f.price)
  {
  }

  /** An accepted fill, seen from one of its two orders. */
  lemma SettledOne(l: Ledger, f: MatchedFill, o: SignedOrder)
    requires Accepts(l, f) && (o == f.maker || o == f.taker)
    ensures var r := Settled(l, f);
      && r.Executed(o) == l.Executed(o) + f.size
      && o.Key() in r.book.filled
         && r.book.filled[o.Key()] == FilledEntry(l.book.Filled(o.Key()) + f.size, o.terms.expiryTs)
      && o.Key() in r.last && r.last[o.Key()] == o
      && f.size > 0 && l.now <= o.terms.expiryTs && l.book.Filled(o.Key()) + f.size <= o.terms.size
      && o.Key() !in l.book.cancelled
  {
  }

  /** The same fill, seen from any order that is not part of it. */
  lemma SettledOther(l: Ledger, f: MatchedFill, o: SignedOrder)
    requires Accepts(l, f) && o != f.maker && o != f.taker
    ensures Settled(l, f).Executed(o) == l.Executed(o)
    ensures o.Key() != f.maker.Key() && o.Key() != f.taker.Key() ==>
      var r := Settled(l, f);
      && (o.Key() in r.book.filled <==> o.Key() in l.book.filled)
      && (o.Key() in l.book.filled ==> r.book.filled[o.Key()] == l.book.filled[o.Key()])
      && (o.Key() in r.last <==> o.Key() in l.last)
      && (o.Key() in l.last ==> r.last[o.Key()] == l.last[o.Key()])
  {
  }

  // ----- No overfill

  /** The orders an owner has signed under one nonce. */
  ghost predicate SignedUnder(orders: set<SignedOrder>, key: OrderId) {
    forall o | o in orders :: o.Key() == key && FitsContract(o.terms) && o.terms.size > 0
  }

  /** Signature verification: whatever is presented under the key was signed. */
  ghost predicate Presents(step: Step, key: OrderId, orders: set<SignedOrder>) {
    step.Settle? ==>
      && (step.fill.maker.Key() == key ==> step.fill.maker in orders)
      && (step.fill.taker.Key() == key ==> step.fill.taker in orders)
  }

  predicate Tradable(o: SignedOrder) {
    o.terms.limitPrice > 0 && o.terms.marketId != 0
  }

  /** The entry that a late fill of `b` leaves is pruned while `a` can still fill. */
  predicate Outlives(a: SignedOrder, b: SignedOrder) {
    && Tradable(a) && Tradable(b) && b.terms.size >= 2
    && b.terms.expiryTs + RECLAIM_GRACE_SECS < a.terms.expiryTs
  }

  ghost predicate NoneOutlives(orders: set<SignedOrder>) {
    forall a, b | a in orders && b in orders :: !Outlives(a, b)
  }

  /**
   What has been filled of an order that can still fill is counted by its key's
   entry, and more if another order filled it last.
   */
  ghost predicate Counted(l: Ledger, key: OrderId, o: SignedOrder) {
    l.now <= o.terms.expiryTs ==>
      l.Executed(o) + (if key in l.book.filled && key in l.last && l.last[key] != o then 1 else 0) <= l.book.Filled(key)
  }

  ghost predicate KeySound(l: Ledger, key: OrderId, orders: set<SignedOrder>) {
    && (key in l.book.filled ==>
          && key in l.last && l.last[key] in orders && Tradable(l.last[key])
          && l.book.filled[key].expiryTs == l.last[key].terms.expiryTs
          && 1 <= l.book.filled[key].amount <= l.last[key].terms.size)
    && (forall o | o in orders :: 0 <= l.Executed(o) <= o.terms.size && Counted(l, key, o))
    && (forall o | o in orders && !Tradable(o) :: l.Executed(o) == 0)
  }

  lemma SettleKeepsKey(l: Ledger, f: MatchedFill, key: OrderId, orders: set<SignedOrder>)
    requires SignedUnder(orders, key) && KeySound(l, key, orders)
    requires Accepts(l, f) && Presents(Settle(f, true), key, orders)
    ensures KeySound(Settled(l, f), key, orders)
  {
    var r := Settled(l, f);
    assert f.maker.Key() != f.taker.Key();
    if f.maker.Key() == key || f.taker.Key() == key {
      var mine := if f.maker.Key() == key then f.maker else f.taker;
      SettledOne(l, f, mine);
      assert Tradable(mine);
      hide Settled, Accepts, Tradable, FitsContract;
      forall o | o in orders
        ensures 0 <= r.Executed(o) <= o.terms.size && Counted(r, key, o) && (!Tradable(o) ==> r.Executed(o) == 0) {
        assert Counted(l, key, o) && Counted(l, key, mine);
        if o != mine {
          SettledOther(l, f, o);
        }
      }
    } else {
      hide Settled, Accepts, Tradable, FitsContract;
      forall o | o in orders
        ensures 0 <= r.Executed(o) <= o.terms.size && Counted(r, key, o) && (!Tradable(o) ==> r.Executed(o) == 0) {
        assert Counted(l, key, o);
        SettledOther(l, f, o);
      }
      SettledElsewhere(l, f, key);
    }
  }

  lemma SettledElsewhere(l: Ledger, f: MatchedFill, key: OrderId)
    requires Accepts(l, f) && f.maker.Key() != key && f.taker.Key() != key
    ensures var r := Settled(l, f);
      && r.now == l.now && r.book.cancelled == l.book.cancelled
      && (key in r.book.filled <==> key in l.book.filled)
      && (key in l.book.filled ==> r.book.filled[key] == l.book.filled[key])
      && (key in r.last <==> key in l.last)
      && (key in l.last ==> r.last[key] == l.last[key])
  {
  }

  lemma PruneKeepsKey(l: Ledger, owner: string, nonces: seq<nat>, key: OrderId, orders: set<SignedOrder>)
    requires SignedUnder(orders, key) && NoneOutlives(orders) && KeySound(l, key, orders)
    ensures KeySound(Next(l, Prune(owner, nonces)), key, orders)
  {
    var r := Next(l, Prune(owner, nonces));
    ReclaimOnly(l.book, l.now, owner, nonces, key);
    hide Reclaim;
    forall o | o in orders ensures Counted(r, key, o) {
      assert Counted(l, key, o);
      if key in l.book.filled && key !in r.book.filled && l.now <= o.terms.expiryTs {
        assert !Outlives(o, l.last[key]);
      }
    }
  }

  lemma NextKeepsKey(l: Ledger, step: Step, key: OrderId, orders: set<SignedOrder>)
    requires SignedUnder(orders, key) && NoneOutlives(orders) && KeySound(l, key, orders) && Presents(step, key, orders)
    ensures KeySound(Next(l, step), key, orders)
  {
    match step
    case Settle(fill, accepted) =>
      if accepted && Accepts(l, fill) {
        SettleKeepsKey(l, fill, key, orders);
      }
    case Prune(owner, nonces) => PruneKeepsKey(l, owner, nonces, key, orders);
    case Tick(seconds) =>
      forall o | o in orders ensures Counted(Next(l, step), key, o) {
        assert Counted(l, key, o);
      }
    case Cancel(_, _) =>
      forall o | o in orders ensures Counted(Next(l, step), key, o) {
        assert Counted(l, key, o);
      }
  }

  lemma {:induction false} RunKeepsKey(steps: seq<Step>, key: OrderId, orders: set<SignedOrder>)
    requires SignedUnder(orders, key) && NoneOutlives(orders)
    requires forall step | step in steps :: Presents(step, key, orders)
    ensures KeySound(Run(EMPTY, steps), key, orders)
  {
    if steps != [] {
      RunKeepsKey(steps[..|steps| - 1], key, orders);
      NextKeepsKey(Run(EMPTY, steps[..|steps| - 1]), steps[|steps| - 1], key, orders);
    }
  }

  // ----- When an order is overfilled

  /** A counterparty of another owner for a fill of the order. */
  function Counterparty(o: SignedOrder, other: string, nonce: nat): SignedOrder {
    SignedOrder(other, Terms(o.terms.marketId, !o.terms.isLong, I128_MAX, o.terms.limitPrice, false, nonce, U64_MAX))
  }

  function FillOf(o: SignedOrder, other: string, nonce: nat, size: int): MatchedFill {
    MatchedFill(o, Counterparty(o, other, nonce), size, o.terms.limitPrice)
  }

  predicate HasRoom(l: Ledger, o: SignedOrder, size: int) {
    && Tradable(o) && FitsContract(o.terms)
    && size > 0 && 0 <= l.book.Filled(o.Key()) && l.book.Filled(o.Key()) + size <= o.terms.size
    && l.now <= o.terms.expiryTs && o.Key() !in l.book.cancelled
  }

  predicate Fresh(b: FillBook, key: OrderId) {
    key !in b.filled && key !in b.cancelled
  }

  lemma FillHappens(l: Ledger, o: SignedOrder, other: string, nonce: nat, size: int)
    requires HasRoom(l, o, size) && other != o.owner && Fresh(l.book, OrderId(other, nonce))
    ensures Accepts(l, FillOf(o, other, nonce, size))
    ensures var r := Next(l, Settle(FillOf(o, other, nonce, size), true));
      && r.now == l.now && r.book.cancelled == l.book.cancelled
      && r.Executed(o) == l.Executed(o) + size
      && o.Key() in r.book.filled
      && r.book.filled[o.Key()] == FilledEntry(l.book.Filled(o.Key()) + size, o.terms.expiryTs)
      && (forall n | n != nonce && Fresh(l.book, OrderId(other, n)) :: Fresh(r.book, OrderId(other, n)))
      && (forall p | p != o && p.owner == o.owner :: r.Executed(p) == l.Executed(p))
  {
    var f := FillOf(o, other, nonce, size);
    assert f.taker.Key() == OrderId(other, nonce);
    assert ValidateOrder(l.book, l.now, f.maker, f.size, f.price).None?;
    assert ValidateOrder(l.book, l.now, f.taker, f.size, f.price).None?;
    SettledOne(l, f, o);
  }

  /** Some nonce is above all those in use. */
  lemma {:induction false} FreshNonce(keys: set<OrderId>) returns (n: nat)
    ensures forall key | key in keys :: key.nonce < n
    decreases |keys|
  {
    if keys == {} {
      n := 0;
    } else {
      var key :| key in keys;
      var below := FreshNonce(keys - {key});
      n := if key.nonce < below then below else key.nonce + 1;
    }
  }

  /** Fill one unit of each, wait until the entry can be pruned, prune it, and fill all of the first again. */
  function Overfilling(a: SignedOrder, b: SignedOrder, other: string): seq<Step> {
    [Settle(FillOf(a, other, 0, 1), true), Settle(FillOf(b, other, 1, 1), true),
     Tick(b.terms.expiryTs + RECLAIM_GRACE_SECS + 1), Prune(a.owner, [a.terms.nonce]),
     Settle(FillOf(a, other, 2, a.terms.size), true)]
  }

  lemma OverfillingRun(a: SignedOrder, b: SignedOrder, other: string)
    ensures var steps := Overfilling(a, b, other);
      Run(EMPTY, steps) == Next(Next(Next(Next(Next(EMPTY, steps[0]), steps[1]), steps[2]), steps[3]), steps[4])
  {
    hide Next, FillOf;
    var steps := Overfilling(a, b, other);
    RunTake(EMPTY, steps, 0);
    RunTake(EMPTY, steps, 1);
    RunTake(EMPTY, steps, 2);
    RunTake(EMPTY, steps, 3);
    RunTake(EMPTY, steps, 4);
  }

  lemma RunTake(l: Ledger, steps: seq<Step>, k: nat)
    requires k < |steps|
    ensures Run(l, steps[..k + 1]) == Next(Run(l, steps[..k]), steps[k])
    ensures steps[..|steps|] == steps && Run(l, steps[..0]) == l
  {
    assert steps[..k + 1][..k] == steps[..k];
  }

  lemma OverfillingOverfills(a: SignedOrder, b: SignedOrder, key: OrderId, other: string)
    requires SignedUnder({a, b}, key) && Outlives(a, b) && other != key.owner
    ensures Run(EMPTY, Overfilling(a, b, other)).Executed(a) == a.terms.size + 1
  {
    OverfillingRun(a, b, other);
    var steps := Overfilling(a, b, other);
    assert a.Key() == b.Key() == key && a != b;
    FillHappens(EMPTY, a, other, 0, 1);
    var l1 := Next(EMPTY, steps[0]);
    FillHappens(l1, b, other, 1, 1);
    var l2 := Next(l1, steps[1]);
    var l3 := Next(l2, steps[2]);
    var l4 := Next(l3, steps[3]);
    PruneOne(l3, a.owner, a.terms.nonce);
    assert key !in l4.book.filled && key !in l4.book.cancelled && l4.now <= a.terms.expiryTs;
    assert Fresh(l2.book, OrderId(other, 2)) && Fresh(l4.book, OrderId(other, 2));
    FillHappens(l4, a, other, 2, a.terms.size);
    hide FillOf, Next;
  }

  lemma PruneOne(l: Ledger, owner: string, nonce: nat)
    ensures Next(l, Prune(owner, [nonce])) == l.(book := ReclaimKey(l.book, l.now, OrderId(owner, nonce)))
  {
    var nonces := [nonce];
    assert nonces[..0] == [] && Reclaim(l.book, l.now, owner, nonces[..0]) == l.book;
  }

  /** There is always someone else to trade with. */
  lemma SomeoneElse(owner: string) returns (other: string)
    ensures other != owner
  {
    other := owner + ".";
    assert |other| == |owner| + 1;
  }

  ghost predicate NeverOverfills(key: OrderId, orders: set<SignedOrder>) {
    forall steps: seq<Step> | forall step | step in steps :: Presents(step, key, orders) ::
      forall o | o in orders :: Run(EMPTY, steps).Executed(o) <= o.terms.size
  }

  /**
   Whatever is settled, cancelled and pruned in whatever order, no signed order
   is ever filled beyond its size, exactly when no order under its nonce expires
   more than the grace period after another one that can add to its fills.
   */
  lemma NoOverfillIff(key: OrderId, orders: set<SignedOrder>)
    requires SignedUnder(orders, key)
    ensures NeverOverfills(key, orders) <==> NoneOutlives(orders)
  {
    hide Outlives;
    if NoneOutlives(orders) {
      forall steps: seq<Step>, o | (forall step | step in steps :: Presents(step, key, orders)) && o in orders
        ensures Run(EMPTY, steps).Executed(o) <= o.terms.size
      {
        RunKeepsKey(steps, key, orders);
      }
    } else {
      var a, b :| a in orders && b in orders && Outlives(a, b);
      var other := SomeoneElse(key.owner);
      OverfillingOverfills(a, b, key, other);
      OverfillingPresents(a, b, key, other, orders);
    }
  }

  lemma OverfillingPresents(a: SignedOrder, b: SignedOrder, key: OrderId, other: string, orders: set<SignedOrder>)
    requires SignedUnder(orders, key) && a in orders && b in orders && other != key.owner
    ensures forall step | step in Overfilling(a, b, other) :: Presents(step, key, orders)
  {
    assert forall o: SignedOrder, n: nat :: Counterparty(o, other, n).Key() != key;
  }

  // ----- Cancelling

  /** A tombstone that outlasts the order. */
  ghost predicate Dead(l: Ledger, o: SignedOrder) {
    l.now > o.terms.expiryTs
    || (o.Key() in l.book.cancelled && o.terms.expiryTs <= SaturatingAdd(l.book.cancelled[o.Key()], RECLAIM_GRACE_SECS))
  }

  /** No later cancel of the key understates the order's expiry by more than the grace period. */
  ghost predicate KeepsTombstone(step: Step, o: SignedOrder) {
    step.Cancel? && step.key == o.Key() ==> o.terms.expiryTs <= SaturatingAdd(step.expiryTs, RECLAIM_GRACE_SECS)
  }

  lemma NextStaysDead(l: Ledger, step: Step, o: SignedOrder)
    requires Dead(l, o) && KeepsTombstone(step, o)
    ensures Dead(Next(l, step), o) && Next(l, step).Executed(o) == l.Executed(o)
  {
    match step
    case Settle(fill, accepted) =>
      if accepted && Accepts(l, fill) {
        if o == fill.maker || o == fill.taker {
          SettledOne(l, fill, o);
        } else {
          SettledOther(l, fill, o);
        }
      }
    case Prune(owner, nonces) => ReclaimOnly(l.book, l.now, owner, nonces, o.Key());
    case _ =>
  }

  lemma {:induction false} RunStaysDead(l: Ledger, steps: seq<Step>, o: SignedOrder)
    requires Dead(l, o) && forall step | step in steps :: KeepsTombstone(step, o)
    ensures Dead(Run(l, steps), o) && Run(l, steps).Executed(o) == l.Executed(o)
  {
    if steps != [] {
      RunStaysDead(l, steps[..|steps| - 1], o);
      NextStaysDead(Run(l, steps[..|steps| - 1]), steps[|steps| - 1], o);
    }
  }

  ghost predicate NeverFillsAgain(l: Ledger, o: SignedOrder) {
    forall steps: seq<Step> | forall step | step in steps :: !(step.Cancel? && step.key == o.Key()) ::
      Run(l, steps).Executed(o) == l.Executed(o)
  }

  /**
   Cancelling an order that still has room ends it for good exactly when the
   stated expiry is no more than the grace period too early.
   */
  lemma CancelIsFinalIff(l: Ledger, o: SignedOrder, expiryTs: nat)
    requires Tradable(o) && FitsContract(o.terms) && l.now <= o.terms.expiryTs
    requires 0 <= l.book.Filled(o.Key()) < o.terms.size
    ensures NeverFillsAgain(Next(l, Cancel(o.Key(), expiryTs)), o)
       <==> o.terms.expiryTs <= SaturatingAdd(expiryTs, RECLAIM_GRACE_SECS)
  {
    var c := Next(l, Cancel(o.Key(), expiryTs));
    if o.terms.expiryTs <= SaturatingAdd(expiryTs, RECLAIM_GRACE_SECS) {
      forall steps: seq<Step> | forall step | step in steps :: !(step.Cancel? && step.key == o.Key())
        ensures Run(c, steps).Executed(o) == c.Executed(o)
      {
        RunStaysDead(c, steps, o);
      }
    } else {
      hide NeverFillsAgain;
      var other := SomeoneElse(o.owner);
      var nonce := FreshNonce(c.book.filled.Keys + c.book.cancelled.Keys);
      CancelReopens(c, o, expiryTs, other, nonce);
    }
  }

  /** Wait out the tombstone, prune it, and fill one more unit of the order. */
  lemma CancelReopens(c: Ledger, o: SignedOrder, expiryTs: nat, other: string, nonce: nat)
    requires Tradable(o) && FitsContract(o.terms) && c.now <= o.terms.expiryTs
    requires 0 <= c.book.Filled(o.Key()) < o.terms.size
    requires other != o.owner && forall key | key in c.book.filled.Keys + c.book.cancelled.Keys :: key.nonce < nonce
    requires o.Key() in c.book.cancelled && c.book.cancelled[o.Key()] == expiryTs
    requires o.terms.expiryTs > SaturatingAdd(expiryTs, RECLAIM_GRACE_SECS)
    ensures !NeverFillsAgain(c, o)
  {
    hide FillOf, Next, HasRoom;
    var wait: nat := if c.now > expiryTs + RECLAIM_GRACE_SECS then 0 else expiryTs + RECLAIM_GRACE_SECS + 1 - c.now;
    var steps := [Tick(wait), Prune(o.owner, [o.terms.nonce]), Settle(FillOf(o, other, nonce, 1), true)];
    ReopenedRun(c, steps);
    var l1 := Next(c, steps[0]);
    TickOnly(c, wait);
    PruneOne(l1, o.owner, o.terms.nonce);
    var l2 := Next(l1, steps[1]);
    PrunedHasRoom(l1, l2, o, other, nonce);
    FillHappens(l2, o, other, nonce, 1);
    assert Run(c, steps).Executed(o) == c.Executed(o) + 1;
    assert forall step | step in steps :: !step.Cancel?;
  }

  lemma TickOnly(l: Ledger, seconds: nat)
    ensures Next(l, Tick(seconds)) == l.(now := l.now + seconds)
  {
  }

  /** Pruning the key of a cancelled order takes away its tombstone and leaves room. */
  lemma PrunedHasRoom(l: Ledger, r: Ledger, o: SignedOrder, other: string, nonce: nat)
    requires Tradable(o) && FitsContract(o.terms) && l.now <= o.terms.expiryTs
    requires o.Key() in l.book.cancelled && l.now > SaturatingAdd(l.book.cancelled[o.Key()], RECLAIM_GRACE_SECS)
    requires 0 <= l.book.Filled(o.Key()) < o.terms.size
    requires forall key | key in l.book.filled.Keys + l.book.cancelled.Keys :: key.nonce < nonce
    requires r == l.(book := ReclaimKey(l.book, l.now, o.Key()))
    ensures HasRoom(r, o, 1) && Fresh(r.book, OrderId(other, nonce))
  {
  }

  lemma ReopenedRun(l: Ledger, steps: seq<Step>)
    requires |steps| == 3
    ensures Run(l, steps) == Next(Next(Next(l, steps[0]), steps[1]), steps[2])
  {
    hide Next;
    RunTake(l, steps, 0);
    RunTake(l, steps, 1);
    RunTake(l, steps, 2);
  }
}
