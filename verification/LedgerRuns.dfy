/** One matcher working through its fills while everyone else acts in between. */
module LedgerRuns {
  import opened Outcomes
  import opened Numbers
  import opened Matching
  import opened FillLedger
  import opened LedgerSafety

  /** Idle, or with fills still to process and possibly one persisted but not yet settled. */
  datatype Phase = Idle | Working(todo: seq<Match>, inHand: Option<Match>)

  datatype System = System(db: Db, phase: Phase)

  datatype Step =
    | Env(op: EnvOp)
    | Load(fills: seq<Match>)     // read the orders and match them
    | Skip                        // out of band, or a signature that cannot verify
    | Persist
    | Settle(outcome: Settlement)
    | Stop                        // the tick ends, or dies, here

  /** Fills between different stored orders. */
  ghost predicate PartiesKnown(db: Db, fills: seq<Match>) {
    forall m | m in fills ::
      m.fillSize > 0 && m.maker.Id() != m.taker.Id() && m.maker.Id() in db.orders && m.taker.Id() in db.orders
  }

  /** Every order has room for all of its fills at once. */
  ghost predicate RoomForAll(db: Db, fills: seq<Match>) {
    forall id | id in db.orders :: db.Filled(id) + FilledIn(fills, id) <= db.orders[id].order.size
  }

  ghost function Next(s: System, step: Step): System {
    match step
    case Env(op) => s.(db := ApplyEnv(s.db, op))
    case Load(fills) =>
      if s.phase.Idle? && PartiesKnown(s.db, fills) && RoomForAll(s.db, fills) then s.(phase := Working(fills, None))
      else s
    case Skip =>
      if s.phase.Working? && s.phase.inHand.None? && s.phase.todo != [] then
        s.(phase := Working(s.phase.todo[1..], None))
      else s
    case Persist =>
      if s.phase.Working? && s.phase.inHand.None? && s.phase.todo != [] then
        var (after, ok) := PersistFill(s.db, s.phase.todo[0]);
        System(after, Working(s.phase.todo[1..], if ok then Some(s.phase.todo[0]) else None))
      else s
    case Settle(outcome) =>
      if s.phase.Working? && s.phase.inHand.Some? then
        System(ExecuteSettlement(s.db, s.phase.inHand.value, outcome), Working(s.phase.todo, None))
      else s
    case Stop => s.(phase := Idle)
  }

  ghost function Run(s: System, steps: seq<Step>): System {
    if steps == [] then s else Next(Run(s, steps[..|steps| - 1]), steps[|steps| - 1])
  }

  ghost predicate SystemSound(s: System) {
    && Sound(s.db)
    && (s.phase.Working? ==>
          && PartiesKnown(s.db, s.phase.todo) && RoomForAll(s.db, s.phase.todo)
          && (s.phase.inHand.Some? ==> Unsettled(s.db, s.phase.inHand.value)))
  }

  // ----- Fills from the front

  lemma {:induction false} FilledInFirst(fills: seq<Match>, id: OrderId)
    requires fills != []
    ensures FilledIn(fills, id) == fills[0].Part(id) + FilledIn(fills[1..], id)
  {
    if |fills| > 1 {
      var front := fills[..|fills| - 1];
      FilledInFirst(front, id);
      assert front[1..] == fills[1..][..|fills| - 2] && fills[1..][|fills| - 2] == fills[|fills| - 1];
    } else {
      assert fills[..0] == [] && fills[1..] == [];
    }
  }

  lemma {:induction false} UnnamedGetsNothing(fills: seq<Match>, id: OrderId)
    requires forall m | m in fills :: m.maker.Id() != id && m.taker.Id() != id
    ensures FilledIn(fills, id) == 0
  {
    if fills != [] {
      UnnamedGetsNothing(fills[..|fills| - 1], id);
    }
  }

  lemma {:induction false} FillsGiveNoLess(fills: seq<Match>, id: OrderId)
    requires forall m | m in fills :: m.fillSize > 0
    ensures FilledIn(fills, id) >= 0
  {
    if fills != [] {
      FillsGiveNoLess(fills[..|fills| - 1], id);
    }
  }

  // ----- Steps

  /** Once the insert has gone through, neither guard can refuse. */
  lemma NeverHalfApplied(s: System)
    requires SystemSound(s) && s.phase.Working? && s.phase.inHand.None? && s.phase.todo != []
    ensures var m := s.phase.todo[0];
      PendingKey(m) in s.db.fills || PersistFits(s.db, m)
  {
    hide Sound;
    var todo := s.phase.todo;
    forall id | id == todo[0].maker.Id() || id == todo[0].taker.Id()
      ensures id in s.db.orders && s.db.Filled(id) + todo[0].fillSize <= s.db.orders[id].order.size
    {
      FilledInFirst(todo, id);
      FillsGiveNoLess(todo[1..], id);
    }
  }

  lemma PersistStepSound(s: System)
    requires SystemSound(s)
    ensures SystemSound(Next(s, Persist))
  {
    hide Sound, PersistFill, PersistFits, Unsettled;
    if s.phase.Working? && s.phase.inHand.None? && s.phase.todo != [] {
      var m, rest := s.phase.todo[0], s.phase.todo[1..];
      NeverHalfApplied(s);
      PersistSound(s.db, m);
      PersistRoom(s.db, s.phase.todo);
    }
  }

  lemma PersistRoom(db: Db, todo: seq<Match>)
    requires todo != [] && PartiesKnown(db, todo) && RoomForAll(db, todo) && Sound(db)
    requires PendingKey(todo[0]) in db.fills || PersistFits(db, todo[0])
    ensures PartiesKnown(PersistFill(db, todo[0]).0, todo[1..]) && RoomForAll(PersistFill(db, todo[0]).0, todo[1..])
  {
    var (after, ok) := PersistFill(db, todo[0]);
    PersistDoes(db, todo[0]);
    PersistKeepsSizes(db, todo[0]);
    hide PersistFill, PersistFits, RowsSane, JobsLive, Balanced, WithinSize;
    forall id | id in after.orders ensures after.Filled(id) + FilledIn(todo[1..], id) <= after.orders[id].order.size {
      FilledInFirst(todo, id);
      assert db.Filled(id) + FilledIn(todo, id) <= db.orders[id].order.size;
    }
  }

  lemma PersistKeepsSizes(db: Db, m: Match)
    ensures var after := PersistFill(db, m).0;
      after.orders.Keys == db.orders.Keys
      && forall id | id in db.orders :: after.orders[id].order.size == db.orders[id].order.size
  {
  }

  lemma SettleStepSound(s: System, outcome: Settlement)
    requires SystemSound(s)
    ensures SystemSound(Next(s, Settle(outcome)))
  {
    hide RowsSane, JobsLive, Balanced, WithinSize, ExecuteSettlement, Unsettled;
    if s.phase.Working? && s.phase.inHand.Some? {
      var m := s.phase.inHand.value;
      SettlementSound(s.db, m, outcome);
      SettlementKeepsSizes(s.db, m, outcome);
      LessFilledHasRoom(s.db, ExecuteSettlement(s.db, m, outcome), s.phase.todo);
    }
  }

  lemma SettlementKeepsSizes(db: Db, m: Match, outcome: Settlement)
    ensures var after := ExecuteSettlement(db, m, outcome);
      after.orders.Keys == db.orders.Keys
      && forall id | id in db.orders :: after.orders[id].order.size == db.orders[id].order.size
  {
  }

  lemma LessFilledHasRoom(db: Db, after: Db, fills: seq<Match>)
    requires PartiesKnown(db, fills) && RoomForAll(db, fills) && WithinSize(after)
    requires db.orders.Keys <= after.orders.Keys
    requires forall id | id in db.orders ::
      after.Filled(id) <= db.Filled(id) && after.orders[id].order.size == db.orders[id].order.size
    ensures PartiesKnown(after, fills) && RoomForAll(after, fills)
  {
    forall id | id in after.orders ensures after.Filled(id) + FilledIn(fills, id) <= after.orders[id].order.size {
      if id in db.orders {
        assert db.Filled(id) + FilledIn(fills, id) <= db.orders[id].order.size;
      } else {
        UnnamedGetsNothing(fills, id);
      }
    }
  }

  lemma EnvStepSound(s: System, op: EnvOp)
    requires SystemSound(s)
    ensures SystemSound(Next(s, Env(op)))
  {
    EnvSound(s.db, op);
    hide ApplyEnv, Unsettled, RowsSane, Balanced, JobsLive, WithinSize;
    if s.phase.Working? {
      LessFilledHasRoom(s.db, ApplyEnv(s.db, op), s.phase.todo);
    }
  }

  lemma SkipStepSound(s: System)
    requires SystemSound(s)
    ensures SystemSound(Next(s, Skip))
  {
    hide Sound;
    if s.phase.Working? && s.phase.inHand.None? && s.phase.todo != [] {
      var todo := s.phase.todo;
      forall id | id in s.db.orders ensures s.db.Filled(id) + FilledIn(todo[1..], id) <= s.db.orders[id].order.size {
        FilledInFirst(todo, id);
        assert s.db.Filled(id) + FilledIn(todo, id) <= s.db.orders[id].order.size;
      }
    }
  }

  /** The books balance in every reachable state, whatever the interleaving. */
  lemma {:induction false} RunSound(s: System, steps: seq<Step>)
    requires SystemSound(s)
    ensures SystemSound(Run(s, steps))
  {
    if steps != [] {
      var before, step := Run(s, steps[..|steps| - 1]), steps[|steps| - 1];
      RunSound(s, steps[..|steps| - 1]);
      match step
      case Env(op) => EnvStepSound(before, op);
      case Load(_) =>
      case Skip => SkipStepSound(before);
      case Persist => PersistStepSound(before);
      case Settle(outcome) => SettleStepSound(before, outcome);
      case Stop =>
    }
  }

  /**
   From an empty database: filledSize is the size of the live fills, never over
   the order's size, and a queued job has exactly one live row.
   */
  lemma LedgerBalances(steps: seq<Step>)
    ensures var db := Run(System(Db(map[], map[], map[]), Idle), steps).db;
      && (forall id | id in db.orders ::
            0 <= db.orders[id].order.filledSize == FilledByRows(db.fills, id) <= db.orders[id].order.size)
      && (forall hash | hash in db.jobs && db.jobs[hash].status == Queued ::
            exists k | k in db.fills :: k.hash == hash && forall q | q in db.fills && q.hash == hash :: q == k)
  {
    var start := System(Db(map[], map[], map[]), Idle);
    RunSound(start, steps);
    var db := Run(start, steps).db;
    hide Run;
    FilledNonNegative(db);
    forall hash | hash in db.jobs && db.jobs[hash].status == Queued
      ensures exists k | k in db.fills :: k.hash == hash && forall q | q in db.fills && q.hash == hash :: q == k
    {
      OneRow(db, hash);
    }
  }

  lemma FilledNonNegative(db: Db)
    requires Sound(db)
    ensures forall id | id in db.orders ::
      0 <= db.orders[id].order.filledSize == FilledByRows(db.fills, id) <= db.orders[id].order.size
  {
    hide JobsLive;
    assert forall k | k in db.fills :: db.fills[k].size > 0 by {
      forall k | k in db.fills ensures db.fills[k].size > 0 {
        assert FillSane(db, k);
      }
    }
    hide RowsSane, FilledByRows;
    forall id | id in db.orders
      ensures 0 <= db.orders[id].order.filledSize == FilledByRows(db.fills, id) <= db.orders[id].order.size
    {
      RowsNonNegative(db.fills, id);
    }
  }

  lemma OneRow(db: Db, hash: TxHash)
    requires Sound(db) && hash in db.jobs && db.jobs[hash].Active()
    ensures exists k | k in db.fills :: k.hash == hash && forall q | q in db.fills && q.hash == hash :: q == k
  {
    hide Balanced, WithinSize;
    assert JobLive(db, hash);
    var p := db.jobs[hash].payload.value;
    var k := FillKey(hash, p.maker, p.taker);
    assert k in db.fills;
    forall q | q in db.fills && q.hash == hash ensures q == k {
      assert FillSane(db, q);
    }
  }

  // ----- Where the fills come from

  /** Orders as loaded at the start of a tick: rows of the database. */
  ghost predicate LoadedFrom(db: Db, orders: seq<Order>) {
    forall o | o in orders :: o.Id() in db.orders && db.orders[o.Id()].order == o
  }

  /** What the matcher emits for loaded orders is what a tick may start with. */
  lemma MatchesFit(db: Db, limits: seq<Order>, markets: seq<Order>, fills: seq<Match>)
    requires WithinSize(db) && LoadedFrom(db, limits + markets)
    requires forall k | 0 <= k < |fills| :: FillSound(limits, markets, fills, k)
    requires forall o | o in limits + markets :: FilledIn(fills, o.Id()) <= Max(0, o.size - o.filledSize)
    ensures PartiesKnown(db, fills) && RoomForAll(db, fills)
  {
    forall m | m in fills
      ensures m.fillSize > 0 && m.maker.Id() != m.taker.Id() && m.maker in limits + markets
            && m.taker in limits + markets
    {
      var k :| 0 <= k < |fills| && fills[k] == m;
      assert FillSound(limits, markets, fills, k);
    }
    forall id | id in db.orders ensures db.Filled(id) + FilledIn(fills, id) <= db.orders[id].order.size {
      if m :| m in fills && (m.maker.Id() == id || m.taker.Id() == id) {
        var o := if m.maker.Id() == id then m.maker else m.taker;
        assert FilledIn(fills, o.Id()) <= Max(0, o.size - o.filledSize);
      } else {
        UnnamedGetsNothing(fills, id);
      }
    }
  }
}
