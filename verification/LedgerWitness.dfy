/** A run that leaves a fill behind a job confirmed for an earlier fill of the same two orders and size. */
module LedgerWitness {
  import opened Outcomes
  import opened Matching
  import opened FillLedger
  import opened LedgerSafety
  import opened LedgerRuns
  import opened LedgerFindings

  const THIRD: Order := Order("short", 1, false, 5, 100, false, 1, 1_000, 0, 0, None)

  const WITH_THIRD: Match := Match(MAKER, THIRD, 5, 100)
  const WITH_TAKER: Match := Match(MAKER, TAKER, 5, 100)

  /** The same two orders once half of each is filled. */
  const AGAIN: Match := Match(MAKER.(filledSize := 5), TAKER.(filledSize := 5), 5, 100)

  const THIRD_HASH: TxHash := PendingHash(MAKER.Id(), THIRD.Id(), 5)
  const TAKER_HASH: TxHash := PendingHash(MAKER.Id(), TAKER.Id(), 5)
  const THIRD_KEY: FillKey := FillKey(THIRD_HASH, MAKER.Id(), THIRD.Id())
  const TAKER_KEY: FillKey := FillKey(TAKER_HASH, MAKER.Id(), TAKER.Id())
  const CHAIN_KEY: FillKey := FillKey(ChainHash(7), MAKER.Id(), TAKER.Id())

  // ----- The run

  /** A long order of ten, and short ones of five and ten. */
  const PLACE_THREE: seq<Step> := [Env(PlaceOrder(MAKER)), Env(PlaceOrder(THIRD)), Env(PlaceOrder(TAKER))]

  /** The long one is matched with five of each and both fills are queued. */
  const FIRST_FILL: seq<Step> := [Load([WITH_THIRD, WITH_TAKER]), Persist, Settle(QueuedForAuth)]
  const SECOND_FILL: seq<Step> := [Persist, Settle(QueuedForAuth), Stop]

  /** The second is signed, submitted and confirmed; the first expires and its short order is cancelled. */
  const SETTLE_SECOND: seq<Step> :=
    [Env(SignEntry(TAKER_HASH, true, Unsent)), Env(SignEntry(TAKER_HASH, false, SentWaiting(7))),
     Env(Reconcile(TAKER_HASH, PollSuccess))]
  const DROP_FIRST: seq<Step> := [Env(ExpireStale(THIRD_HASH)), Env(CancelOrder(THIRD.Id()))]

  /** What is left of the other two is matched for the same size. */
  const THIRD_FILL: seq<Step> := [Load([AGAIN]), Persist, Settle(QueuedForAuth)]

  function Book(maker: int, third: int, taker: int, cancelled: bool): map<OrderId, OrderRow> {
    map[MAKER.Id() := OrderRow(MAKER.(filledSize := maker), false),
        THIRD.Id() := OrderRow(THIRD.(filledSize := third), cancelled),
        TAKER.Id() := OrderRow(TAKER.(filledSize := taker), false)]
  }

  function JobOf(taker: OrderId, status: Status, signed: bool, chain: Option<nat>): Job {
    Job(status, Some(Payload(MAKER.Id(), taker, 5, signed, signed)), chain)
  }

  const ROW: FillRow := FillRow(5, 100)
  const THIRD_QUEUED: Job := JobOf(THIRD.Id(), Queued, false, None)
  const TAKER_QUEUED: Job := JobOf(TAKER.Id(), Queued, false, None)

  lemma IdsDiffer()
    ensures MAKER.Id() != THIRD.Id() && MAKER.Id() != TAKER.Id() && THIRD.Id() != TAKER.Id()
    ensures THIRD_KEY != TAKER_KEY && THIRD_KEY != CHAIN_KEY && TAKER_KEY != CHAIN_KEY && THIRD_HASH != TAKER_HASH
  {
    assert "maker"[0] != "short"[0] && "maker"[0] != "taker"[0] && "short"[0] != "taker"[0];
  }

  lemma BookHas(maker: int, third: int, taker: int, cancelled: bool)
    ensures var b := Book(maker, third, taker, cancelled);
      && b.Keys == {MAKER.Id(), THIRD.Id(), TAKER.Id()}
      && b[MAKER.Id()] == OrderRow(MAKER.(filledSize := maker), false)
      && b[THIRD.Id()] == OrderRow(THIRD.(filledSize := third), cancelled)
      && b[TAKER.Id()] == OrderRow(TAKER.(filledSize := taker), false)
  {
    IdsDiffer();
  }

  lemma BookMoves(maker: int, third: int, taker: int, cancelled: bool, filled: int)
    ensures var b := Book(maker, third, taker, cancelled);
      && SetFilled(b, MAKER.Id(), filled) == Book(filled, third, taker, cancelled)
      && SetFilled(b, THIRD.Id(), filled) == Book(maker, filled, taker, cancelled)
      && SetFilled(b, TAKER.Id(), filled) == Book(maker, third, filled, cancelled)
  {
    hide Book;
    IdsDiffer();
    BookHas(maker, third, taker, cancelled);
    BookHas(filled, third, taker, cancelled);
    BookHas(maker, filled, taker, cancelled);
    BookHas(maker, third, filled, cancelled);
  }

  /** Both increments of a fill of five. */
  lemma FiveMore(maker: int, third: int, taker: int, cancelled: bool, withThird: bool)
    requires maker <= 5 && (if withThird then third <= 0 else taker <= 5)
    ensures var half := Increment(Book(maker, third, taker, cancelled), MAKER.Id(), 5);
      && half.Some?
      && Increment(half.value, if withThird then THIRD.Id() else TAKER.Id(), 5)
         == Some(if withThird then Book(maker + 5, third + 5, taker, cancelled)
                 else Book(maker + 5, third, taker + 5, cancelled))
  {
    hide Book, SetFilled;
    BookHas(maker, third, taker, cancelled);
    BookMoves(maker, third, taker, cancelled, maker + 5);
    BookHas(maker + 5, third, taker, cancelled);
    BookMoves(maker + 5, third, taker, cancelled, if withThird then third + 5 else taker + 5);
  }

  lemma Persists(db: Db, m: Match, maker: int, third: int, taker: int, cancelled: bool, withThird: bool)
    requires db.orders == Book(maker, third, taker, cancelled) && PendingKey(m) !in db.fills
    requires maker <= 5 && (if withThird then third <= 0 else taker <= 5)
    requires m.fillSize == 5 && m.fillPrice == 100 && m.maker.Id() == MAKER.Id()
    requires m.taker.Id() == if withThird then THIRD.Id() else TAKER.Id()
    ensures FillLedger.PersistFill(db, m)
      == (Db(if withThird then Book(maker + 5, third + 5, taker, cancelled)
             else Book(maker + 5, third, taker + 5, cancelled), db.fills[PendingKey(m) := ROW], db.jobs), true)
  {
    hide Book, Increment;
    FiveMore(maker, third, taker, cancelled, withThird);
  }

  lemma Places()
    ensures Run(START, PLACE_THREE) == System(Db(Book(0, 0, 0, false), map[], map[]), Idle)
  {
    IdsDiffer();
    RunThree(START, PLACE_THREE[0], PLACE_THREE[1], PLACE_THREE[2]);
    var one := map[MAKER.Id() := OrderRow(MAKER, false)];
    assert Next(START, PLACE_THREE[0]).db.orders == one;
    var two := one[THIRD.Id() := OrderRow(THIRD, false)];
    assert two[TAKER.Id() := OrderRow(TAKER, false)] == Book(0, 0, 0, false);
  }

  lemma TwoFit(db: Db)
    requires db.orders == Book(0, 0, 0, false)
    ensures PartiesKnown(db, [WITH_THIRD, WITH_TAKER]) && RoomForAll(db, [WITH_THIRD, WITH_TAKER])
  {
    hide Book;
    IdsDiffer();
    BookHas(0, 0, 0, false);
    var fills := [WITH_THIRD, WITH_TAKER];
    forall id ensures FilledIn(fills, id) == WITH_THIRD.Part(id) + WITH_TAKER.Part(id) {
      assert fills[..1] == [WITH_THIRD] && [WITH_THIRD][..0] == [];
      assert FilledIn([WITH_THIRD][..0], id) == 0;
      assert FilledIn([WITH_THIRD], id) == WITH_THIRD.Part(id);
    }
  }

  lemma FirstFills(s: System)
    requires s == System(Db(Book(0, 0, 0, false), map[], map[]), Idle)
    ensures Run(s, FIRST_FILL)
      == System(Db(Book(5, 5, 0, false), map[THIRD_KEY := ROW], map[THIRD_HASH := THIRD_QUEUED]),
                Working([WITH_TAKER], None))
  {
    hide Book, FillLedger.PersistFill, RoomForAll, PartiesKnown;
    RunThree(s, FIRST_FILL[0], FIRST_FILL[1], FIRST_FILL[2]);
    TwoFit(s.db);
    assert Next(s, FIRST_FILL[0]) == s.(phase := Working([WITH_THIRD, WITH_TAKER], None));
    assert PendingKey(WITH_THIRD) == THIRD_KEY;
    Persists(s.db, WITH_THIRD, 0, 0, 0, false, true);
    assert [WITH_THIRD, WITH_TAKER][1..] == [WITH_TAKER];
  }

  lemma SecondFills(s: System)
    requires s == System(Db(Book(5, 5, 0, false), map[THIRD_KEY := ROW], map[THIRD_HASH := THIRD_QUEUED]),
                         Working([WITH_TAKER], None))
    ensures Run(s, SECOND_FILL)
      == System(Db(Book(10, 5, 5, false), map[THIRD_KEY := ROW, TAKER_KEY := ROW],
                   map[THIRD_HASH := THIRD_QUEUED, TAKER_HASH := TAKER_QUEUED]), Idle)
  {
    hide Book, FillLedger.PersistFill;
    IdsDiffer();
    RunThree(s, SECOND_FILL[0], SECOND_FILL[1], SECOND_FILL[2]);
    assert PendingKey(WITH_TAKER) == TAKER_KEY;
    Persists(s.db, WITH_TAKER, 5, 5, 0, false, false);
    assert s.db.fills[TAKER_KEY := ROW] == map[THIRD_KEY := ROW, TAKER_KEY := ROW];
    assert s.db.jobs[TAKER_HASH := TAKER_QUEUED] == map[THIRD_HASH := THIRD_QUEUED, TAKER_HASH := TAKER_QUEUED];
  }

  lemma SecondSettles(s: System)
    requires s.db == Db(Book(10, 5, 5, false), map[THIRD_KEY := ROW, TAKER_KEY := ROW],
                        map[THIRD_HASH := THIRD_QUEUED, TAKER_HASH := TAKER_QUEUED])
    ensures var jobs := map[THIRD_HASH := THIRD_QUEUED, TAKER_HASH := JobOf(TAKER.Id(), Confirmed, true, Some(7))];
      Run(s, SETTLE_SECOND)
      == s.(db := Db(Book(10, 5, 5, false), map[THIRD_KEY := ROW, CHAIN_KEY := ROW], jobs))
  {
    hide Book, Sign, ReconcileSubmitted;
    RunThree(s, SETTLE_SECOND[0], SETTLE_SECOND[1], SETTLE_SECOND[2]);
    Signs(s.db);
    Confirms(Sign(Sign(s.db, TAKER_HASH, true, Unsent), TAKER_HASH, false, SentWaiting(7)));
  }

  lemma Signs(db: Db)
    requires db.jobs == map[THIRD_HASH := THIRD_QUEUED, TAKER_HASH := TAKER_QUEUED]
    ensures Sign(Sign(db, TAKER_HASH, true, Unsent), TAKER_HASH, false, SentWaiting(7))
      == db.(jobs := map[THIRD_HASH := THIRD_QUEUED, TAKER_HASH := JobOf(TAKER.Id(), Submitted, true, Some(7))])
  {
    IdsDiffer();
    var once := TAKER_QUEUED.(payload := Some(Payload(MAKER.Id(), TAKER.Id(), 5, true, false)));
    assert db.jobs[TAKER_HASH] == TAKER_QUEUED;
    assert Sign(db, TAKER_HASH, true, Unsent) == db.(jobs := map[THIRD_HASH := THIRD_QUEUED, TAKER_HASH := once]);
  }

  lemma Confirms(db: Db)
    requires db.fills == map[THIRD_KEY := ROW, TAKER_KEY := ROW]
    requires db.jobs == map[THIRD_HASH := THIRD_QUEUED, TAKER_HASH := JobOf(TAKER.Id(), Submitted, true, Some(7))]
    ensures ReconcileSubmitted(db, TAKER_HASH, PollSuccess)
      == Db(db.orders, map[THIRD_KEY := ROW, CHAIN_KEY := ROW],
            map[THIRD_HASH := THIRD_QUEUED, TAKER_HASH := JobOf(TAKER.Id(), Confirmed, true, Some(7))])
  {
    IdsDiffer();
    assert db.jobs[TAKER_HASH] == JobOf(TAKER.Id(), Submitted, true, Some(7));
    assert Rename(db.fills, TAKER_KEY, ChainHash(7)) == map[THIRD_KEY := ROW, CHAIN_KEY := ROW];
  }

  lemma FirstDrops(s: System)
    requires s.db.orders == Book(10, 5, 5, false) && s.db.fills == map[THIRD_KEY := ROW, CHAIN_KEY := ROW]
    requires THIRD_HASH in s.db.jobs && s.db.jobs[THIRD_HASH] == THIRD_QUEUED
    ensures var r := Run(s, DROP_FIRST);
      && r.phase == s.phase && r.db.orders == Book(5, 0, 5, true) && r.db.fills == map[CHAIN_KEY := ROW]
      && r.db.jobs == s.db.jobs[THIRD_HASH := THIRD_QUEUED.(status := Failed)]
  {
    hide Book, Decrement, DeleteFills, MarkCancelled;
    RunTwo(s, DROP_FIRST[0], DROP_FIRST[1]);
    TakesBack(s.db);
    Cancels(Next(s, DROP_FIRST[0]).db);
  }

  lemma TakesBack(db: Db)
    requires db.orders == Book(10, 5, 5, false) && db.fills == map[THIRD_KEY := ROW, CHAIN_KEY := ROW]
    ensures DeleteFills(db.fills, THIRD_HASH) == map[CHAIN_KEY := ROW]
    ensures Decrement(Decrement(db.orders, MAKER.Id(), 5), THIRD.Id(), 5) == Book(5, 0, 5, false)
  {
    hide Book, SetFilled;
    IdsDiffer();
    BookHas(10, 5, 5, false);
    BookMoves(10, 5, 5, false, 5);
    BookHas(5, 5, 5, false);
    BookMoves(5, 5, 5, false, 0);
  }

  lemma Cancels(db: Db)
    requires db.orders == Book(5, 0, 5, false)
    ensures MarkCancelled(db, THIRD.Id()) == db.(orders := Book(5, 0, 5, true))
  {
    hide Book;
    IdsDiffer();
    BookHas(5, 0, 5, false);
    BookHas(5, 0, 5, true);
  }

  lemma OneFits(db: Db)
    requires db.orders == Book(5, 0, 5, true)
    ensures PartiesKnown(db, [AGAIN]) && RoomForAll(db, [AGAIN])
  {
    hide Book;
    IdsDiffer();
    BookHas(5, 0, 5, true);
    forall id ensures FilledIn([AGAIN], id) == AGAIN.Part(id) {
      assert [AGAIN][..0] == [];
      assert FilledIn([AGAIN][..0], id) == 0;
    }
  }

  lemma ThirdFills(s: System)
    requires s.phase == Idle && s.db.orders == Book(5, 0, 5, true) && s.db.fills == map[CHAIN_KEY := ROW]
    requires TAKER_HASH in s.db.jobs && s.db.jobs[TAKER_HASH] == JobOf(TAKER.Id(), Confirmed, true, Some(7))
    ensures var r := Run(s, THIRD_FILL);
      && r.phase == Working([], None)
      && r.db.orders == Book(10, 0, 10, true) && r.db.fills == map[CHAIN_KEY := ROW, TAKER_KEY := ROW]
      && r.db.jobs == s.db.jobs[TAKER_HASH := JobOf(TAKER.Id(), Confirmed, false, Some(7))]
  {
    hide Book, FillLedger.PersistFill, RoomForAll, PartiesKnown;
    IdsDiffer();
    RunThree(s, THIRD_FILL[0], THIRD_FILL[1], THIRD_FILL[2]);
    OneFits(s.db);
    assert Next(s, THIRD_FILL[0]) == s.(phase := Working([AGAIN], None));
    assert PendingKey(AGAIN) == TAKER_KEY;
    Persists(s.db, AGAIN, 5, 0, 5, true, false);
    assert s.db.fills[TAKER_KEY := ROW] == map[CHAIN_KEY := ROW, TAKER_KEY := ROW];
    assert [AGAIN][1..] == [];
  }

  // ----- What it loads is what the matcher makes of the orders

  ghost predicate Matched(limits: seq<Order>, fills: seq<Match>) {
    && (forall k | 0 <= k < |fills| :: FillSound(limits, [], fills, k) && PriorityRespected(limits, [], fills, k))
    && Uncrossed(limits, fills)
  }

  lemma FilledByTwo(m: Match, n: Match, id: OrderId)
    ensures FilledIn([], id) == 0 && FilledIn([m], id) == m.Part(id)
    ensures FilledIn([m, n], id) == m.Part(id) + n.Part(id)
  {
    assert [m][..0] == [] && [m, n][..1] == [m];
  }

  lemma FirstRoundMatches()
    ensures Matched([MAKER, THIRD, TAKER], [WITH_THIRD, WITH_TAKER])
  {
    hide FilledIn;
    IdsDiffer();
    var limits, fills := [MAKER, THIRD, TAKER], [WITH_THIRD, WITH_TAKER];
    assert fills[..1] == [WITH_THIRD] && fills[..0] == [];
    forall id ensures FilledIn([], id) == 0 && FilledIn([WITH_THIRD], id) == WITH_THIRD.Part(id)
      && FilledIn(fills, id) == WITH_THIRD.Part(id) + WITH_TAKER.Part(id) {
      FilledByTwo(WITH_THIRD, WITH_TAKER, id);
    }
    assert FillSound(limits, [], fills, 0) && FillSound(limits, [], fills, 1);
    assert Remaining(MAKER, fills) == 0;
  }

  lemma SecondRoundMatches()
    ensures Matched([AGAIN.maker, AGAIN.taker], [AGAIN])
  {
    hide FilledIn;
    IdsDiffer();
    var limits := [AGAIN.maker, AGAIN.taker];
    assert [AGAIN][..0] == [];
    forall id ensures FilledIn([], id) == 0 && FilledIn([AGAIN], id) == AGAIN.Part(id) {
      FilledByTwo(AGAIN, AGAIN, id);
    }
    assert FillSound(limits, [], [AGAIN], 0);
    assert Remaining(AGAIN.maker, [AGAIN]) == 0;
  }

  const WHOLE: seq<Step> := PLACE_THREE + FIRST_FILL + SECOND_FILL + SETTLE_SECOND + DROP_FIRST + THIRD_FILL

  /**
   Both orders are filled ten of ten with five settled on chain: the other five
   stand behind the job that confirmed the first five, whatever anyone does.
   */
  lemma ConfirmedJobStrands(steps: seq<Step>)
    ensures var db := Run(START, WHOLE).db;
      && db.Filled(MAKER.Id()) == 10 && db.Filled(TAKER.Id()) == 10
      && db.fills == map[CHAIN_KEY := ROW, TAKER_KEY := ROW]
      && TAKER_HASH in db.jobs && db.jobs[TAKER_HASH].status == Confirmed
    ensures Stranded(Run(START, WHOLE + steps), AGAIN)
  {
    hide Run, Next, Book, Stranded;
    var a, b := PLACE_THREE, PLACE_THREE + FIRST_FILL;
    var c := b + SECOND_FILL;
    var d := c + SETTLE_SECOND;
    var g := d + DROP_FIRST;
    RunAppend(START, a, FIRST_FILL);
    RunAppend(START, b, SECOND_FILL);
    RunAppend(START, c, SETTLE_SECOND);
    RunAppend(START, d, DROP_FIRST);
    RunAppend(START, g, THIRD_FILL);
    RunAppend(START, WHOLE, steps);
    Places();
    FirstFills(Run(START, a));
    SecondFills(Run(START, b));
    SecondSettles(Run(START, c));
    FirstDrops(Run(START, d));
    ThirdFills(Run(START, g));
    FullBook();
    StartSound();
    LedgerRuns.RunSound(START, WHOLE);
    IsStranded(Run(START, WHOLE), AGAIN);
    StrandedForever(Run(START, WHOLE), AGAIN, steps);
  }

  lemma FullBook()
    ensures var orders := Book(10, 0, 10, true);
      && MAKER.Id() in orders && orders[MAKER.Id()].order.filledSize == 10
      && TAKER.Id() in orders && orders[TAKER.Id()].order.filledSize == 10
  {
  }
}
