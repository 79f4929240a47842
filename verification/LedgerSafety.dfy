/** The books balance after every routine, in every interleaving with one matcher. */
module LedgerSafety {
  import opened Outcomes
  import opened MapSums
  import opened Matching
  import opened FillLedger

  // ----- Sums over fill rows

  lemma RowAdded(fills: map<FillKey, FillRow>, k: FillKey, row: FillRow, id: OrderId)
    requires k !in fills
    ensures FilledByRows(fills[k := row], id) == FilledByRows(fills, id) + k.Part(id, row.size)
  {
    SumSet(PartsOf(fills, id), k, k.Part(id, row.size));
    assert PartsOf(fills[k := row], id) == PartsOf(fills, id)[k := k.Part(id, row.size)];
  }

  lemma RowRemoved(fills: map<FillKey, FillRow>, k: FillKey, id: OrderId)
    requires k in fills
    ensures FilledByRows(fills - {k}, id) == FilledByRows(fills, id) - k.Part(id, fills[k].size)
  {
    SumRemove(PartsOf(fills, id), k);
    assert PartsOf(fills - {k}, id) == PartsOf(fills, id) - {k};
  }

  lemma RowsNonNegative(fills: map<FillKey, FillRow>, id: OrderId)
    requires forall k | k in fills :: fills[k].size > 0
    ensures FilledByRows(fills, id) >= 0
  {
    SumNonNegative(PartsOf(fills, id));
  }

  /** An order nobody names has nothing filled. */
  lemma {:induction false} UnnamedIsUnfilled(fills: map<FillKey, FillRow>, id: OrderId)
    requires forall k | k in fills :: k.maker != id && k.taker != id
    ensures FilledByRows(fills, id) == 0
    decreases |fills|
  {
    if fills == map[] {
      assert PartsOf(fills, id) == map[];
    } else {
      var k := Pick(fills);
      UnnamedIsUnfilled(fills - {k}, id);
      RowRemoved(fills, k, id);
    }
  }

  /** A live row is part of what its orders have filled, so taking it back never hits the clamp. */
  lemma ClampNeverBinds(db: Db, k: FillKey)
    requires Sound(db) && k in db.fills
    ensures db.fills[k].size <= db.Filled(k.maker) && db.fills[k].size <= db.Filled(k.taker)
  {
    assert FillSane(db, k);
    assert forall q | q in db.fills :: db.fills[q].size > 0 by {
      forall q | q in db.fills ensures db.fills[q].size > 0 {
        assert FillSane(db, q);
      }
    }
    hide JobsLive, RowsSane, FilledByRows;
    forall id | id == k.maker || id == k.taker ensures db.fills[k].size <= db.Filled(id) {
      RowRemoved(db.fills, k, id);
      RowsNonNegative(db.fills - {k}, id);
    }
  }

  /** A pending hash determines its row. */
  lemma DeleteIsOne(db: Db, k: FillKey)
    requires RowsSane(db) && k in db.fills && k.hash.PendingHash?
    ensures DeleteFills(db.fills, k.hash) == db.fills - {k}
  {
    forall q | q in db.fills && q.hash == k.hash ensures q == k {
      assert FillSane(db, q) && FillSane(db, k);
    }
    hide FillSane;
    assert DeleteFills(db.fills, k.hash).Keys == (db.fills - {k}).Keys;
  }

  // ----- Persisting

  predicate PersistFits(db: Db, m: Match) {
    && m.maker.Id() in db.orders && m.taker.Id() in db.orders
    && db.Filled(m.maker.Id()) + m.fillSize <= db.orders[m.maker.Id()].order.size
    && db.Filled(m.taker.Id()) + m.fillSize <= db.orders[m.taker.Id()].order.size
  }

  /** Persisting a fill keeps the books balanced exactly when it is a duplicate or both guards admit it. */
  lemma PersistBalancedIff(db: Db, m: Match)
    requires Sound(db) && m.fillSize > 0 && m.maker.Id() != m.taker.Id()
    requires m.maker.Id() in db.orders && m.taker.Id() in db.orders
    ensures Balanced(PersistFill(db, m).0) <==> PendingKey(m) in db.fills || PersistFits(db, m)
  {
    hide JobsLive, RowsSane, FilledByRows;
    var key, row := PendingKey(m), FillRow(m.fillSize, m.fillPrice);
    var after := PersistFill(db, m).0;
    if key !in db.fills {
      forall id ensures FilledByRows(after.fills, id) == FilledByRows(db.fills, id) + key.Part(id, m.fillSize) {
        RowAdded(db.fills, key, row, id);
      }
      assert db.orders[m.maker.Id()].order.filledSize == FilledByRows(db.fills, m.maker.Id());
      assert db.orders[m.taker.Id()].order.filledSize == FilledByRows(db.fills, m.taker.Id());
      if PersistFits(db, m) {
        forall id | id in after.orders ensures after.orders[id].order.filledSize == FilledByRows(after.fills, id) {
          assert db.orders[id].order.filledSize == FilledByRows(db.fills, id);
        }
      } else {
        assert after.orders[m.taker.Id()].order.filledSize == db.orders[m.taker.Id()].order.filledSize;
      }
    }
  }

  /** Rows stay sane when orders keep their keys and rows are only dropped. */
  lemma SaneAfter(db: Db, after: Db)
    requires RowsSane(db) && after.orders.Keys == db.orders.Keys
    requires forall k | k in after.fills :: k in db.fills && after.fills[k] == db.fills[k]
    ensures RowsSane(after)
  {
    forall k | k in after.fills ensures FillSane(after, k) {
      assert FillSane(db, k);
    }
  }

  /** Jobs stay live when none changes and no active job's row is dropped. */
  lemma LiveAfter(db: Db, after: Db)
    requires JobsLive(db) && after.jobs == db.jobs
    requires forall k | k in db.fills && k.hash in db.jobs && db.jobs[k.hash].Active() :: k in after.fills
    ensures JobsLive(after)
  {
    forall hash | hash in after.jobs ensures JobLive(after, hash) {
      assert JobLive(db, hash);
    }
  }

  lemma PersistDoes(db: Db, m: Match)
    requires WithinSize(db) && m.fillSize > 0 && m.maker.Id() != m.taker.Id()
    requires PendingKey(m) in db.fills || PersistFits(db, m)
    ensures var (after, ok) := PersistFill(db, m);
      && WithinSize(after)
      && after.fills == (if ok then db.fills[PendingKey(m) := FillRow(m.fillSize, m.fillPrice)] else db.fills)
      && after.orders.Keys == db.orders.Keys && after.jobs == db.jobs
      && (ok <==> PendingKey(m) !in db.fills)
      && (forall id :: after.Filled(id) == db.Filled(id) + if ok then m.Part(id) else 0)
  {
  }

  /** The fill is live and no queued or submitted job has its hash: between persisting and settling. */
  ghost predicate Unsettled(db: Db, m: Match) {
    && PendingKey(m) in db.fills
    && (PendingKey(m).hash in db.jobs ==> !db.jobs[PendingKey(m).hash].Active())
  }

  lemma RowsSaneAfterPersist(db: Db, m: Match)
    requires RowsSane(db) && WithinSize(db) && m.fillSize > 0 && m.maker.Id() != m.taker.Id()
    requires PendingKey(m) in db.fills || PersistFits(db, m)
    ensures RowsSane(PersistFill(db, m).0)
  {
    PersistDoes(db, m);
    var key := PendingKey(m);
    var after := PersistFill(db, m).0;
    hide PersistFill, WithinSize;
    forall k | k in after.fills ensures FillSane(after, k) {
      assert k != key || key in db.fills ==> FillSane(db, k);
    }
  }

  lemma PersistSound(db: Db, m: Match)
    requires Sound(db) && m.fillSize > 0 && m.maker.Id() != m.taker.Id()
    requires PendingKey(m) in db.fills || PersistFits(db, m)
    requires m.maker.Id() in db.orders && m.taker.Id() in db.orders
    ensures Sound(PersistFill(db, m).0)
    ensures PersistFill(db, m).1 ==> Unsettled(PersistFill(db, m).0, m)
  {
    PersistBalancedIff(db, m);
    RowsSaneAfterPersist(db, m);
    PersistDoes(db, m);
    if PendingKey(m) !in db.fills {
      AbsentIsInactive(db, m);
    }
    hide PersistFill, Balanced, WithinSize, RowsSane, JobsLive, PersistFits;
    LiveAfter(db, PersistFill(db, m).0);
  }

  /** No live row, no queued or submitted job. */
  lemma AbsentIsInactive(db: Db, m: Match)
    requires JobsLive(db) && PendingKey(m) !in db.fills
    ensures PendingKey(m).hash in db.jobs ==> !db.jobs[PendingKey(m).hash].Active()
  {
    assert PendingKey(m).hash in db.jobs ==> JobLive(db, PendingKey(m).hash);
  }

  // ----- Taking a fill back

  lemma DecrementDoes(orders: map<OrderId, OrderRow>, id: OrderId, size: int)
    requires id in orders && 0 <= size <= orders[id].order.filledSize
    ensures var after := Decrement(orders, id, size);
      && after.Keys == orders.Keys
      && forall other | other in orders :: after[other].order
           == orders[other].order.(filledSize := orders[other].order.filledSize - if other == id then size else 0)
  {
  }

  lemma DecrementBoth(orders: map<OrderId, OrderRow>, a: OrderId, b: OrderId, size: int)
    requires a in orders && b in orders && a != b
    requires 0 <= size <= orders[a].order.filledSize && size <= orders[b].order.filledSize
    ensures var after := Decrement(Decrement(orders, a, size), b, size);
      && after.Keys == orders.Keys
      && forall id | id in orders :: after[id].order
           == orders[id].order.(filledSize := orders[id].order.filledSize - (if a == id then size else 0)
                                                                          - (if b == id then size else 0))
  {
    DecrementDoes(orders, a, size);
    var once := Decrement(orders, a, size);
    DecrementDoes(once, b, size);
    hide Decrement;
    forall id | id in orders
      ensures Decrement(once, b, size)[id].order
        == orders[id].order.(filledSize := orders[id].order.filledSize - (if a == id then size else 0)
                                                                       - (if b == id then size else 0))
    {
      assert id in once;
    }
  }

  lemma RowFacts(db: Db, k: FillKey)
    requires Sound(db) && k in db.fills && k.hash.PendingHash?
    ensures k.maker in db.orders && k.taker in db.orders && k.maker != k.taker
    ensures db.fills[k].size == k.hash.size > 0
    ensures DeleteFills(db.fills, k.hash) == db.fills - {k}
    ensures k.hash.size <= db.Filled(k.maker) && k.hash.size <= db.Filled(k.taker)
  {
    hide JobsLive, Balanced, WithinSize, DeleteFills;
    DeleteIsOne(db, k);
    ClampNeverBinds(db, k);
    assert FillSane(db, k);
  }

  /** Exactly one row is gone, and its size with it from exactly the two orders it names. */
  ghost predicate TakenBack(db: Db, after: Db, k: FillKey)
    requires k in db.fills
  {
    && after.fills == db.fills - {k} && after.orders.Keys == db.orders.Keys
    && forall id :: after.Filled(id) == db.Filled(id) - k.Part(id, db.fills[k].size)
  }

  lemma TakeBackDoes(db: Db, k: FillKey)
    requires Sound(db) && k in db.fills && k.hash.PendingHash?
    ensures var after := RollbackRows(db, k.maker, k.taker, k.hash.size);
      && after.fills == db.fills - {k} && after.jobs == db.jobs && after.orders.Keys == db.orders.Keys
      && forall id | id in db.orders :: after.orders[id].order
           == db.orders[id].order.(filledSize := db.orders[id].order.filledSize - k.Part(id, k.hash.size))
  {
    hide Sound, DeleteFills, Decrement;
    RowFacts(db, k);
    assert k.hash == PendingHash(k.maker, k.taker, k.hash.size) by {
      RowHash(db, k);
    }
    DecrementBoth(db.orders, k.maker, k.taker, k.hash.size);
  }

  lemma RowHash(db: Db, k: FillKey)
    requires Sound(db) && k in db.fills && k.hash.PendingHash?
    ensures k.hash == PendingHash(k.maker, k.taker, db.fills[k].size)
  {
    hide JobsLive, Balanced, WithinSize;
    assert FillSane(db, k);
  }

  lemma TakeBackBalances(db: Db, after: Db, k: FillKey)
    requires Balanced(db) && WithinSize(db) && k in db.fills && k.hash.PendingHash?
          && db.fills[k].size == k.hash.size > 0
    requires after.fills == db.fills - {k} && after.orders.Keys == db.orders.Keys
    requires forall id | id in db.orders ::
      after.orders[id].order
        == db.orders[id].order.(filledSize := db.orders[id].order.filledSize - k.Part(id, k.hash.size))
    ensures Balanced(after) && WithinSize(after)
  {
    hide FilledByRows;
    forall id | id in after.orders ensures after.orders[id].order.filledSize == FilledByRows(after.fills, id) {
      RowRemoved(db.fills, k, id);
      assert db.orders[id].order.filledSize == FilledByRows(db.fills, id);
    }
  }

  /** Deleting a live row and decrementing both its orders undoes exactly its part of each. */
  lemma TakeBackSound(db: Db, k: FillKey)
    requires Sound(db) && k in db.fills && k.hash.PendingHash?
    ensures var after := RollbackRows(db, k.maker, k.taker, k.hash.size);
      && RowsSane(after) && Balanced(after) && WithinSize(after)
      && TakenBack(db, after, k)
  {
    hide RowsSane, Balanced, WithinSize, JobsLive, RollbackRows;
    var after := RollbackRows(db, k.maker, k.taker, k.hash.size);
    RowFacts(db, k);
    TakeBackDoes(db, k);
    SaneAfter(db, after);
    TakeBackBalances(db, after, k);
  }

  lemma RollbackSound(db: Db, m: Match)
    requires Sound(db) && Unsettled(db, m)
    ensures Sound(RollbackFill(db, m))
    ensures forall id :: RollbackFill(db, m).Filled(id) <= db.Filled(id)
    ensures RollbackFill(db, m).orders.Keys == db.orders.Keys
  {
    hide RowsSane, Balanced, WithinSize, JobsLive, RollbackRows;
    var k := PendingKey(m);
    RowFacts(db, k);
    TakeBackDoes(db, k);
    TakeBackSound(db, k);
    LiveAfter(db, RollbackFill(db, m));
  }

  /** Changing one job, to one that is live if active, keeps the rest. */
  lemma JobsOnly(db: Db, after: Db, hash: TxHash)
    requires Sound(db) && hash in after.jobs
    requires after == db.(jobs := db.jobs[hash := after.jobs[hash]])
    requires JobLive(after, hash)
    ensures Sound(after)
  {
    assert RowsSane(after) by {
      SaneAfter(db, after);
    }
    hide RowsSane;
    forall h | h in after.jobs ensures JobLive(after, h) {
      if h != hash {
        assert JobLive(db, h);
      }
    }
  }

  lemma SettlementSound(db: Db, m: Match, outcome: Settlement)
    requires Sound(db) && Unsettled(db, m)
    ensures Sound(ExecuteSettlement(db, m, outcome))
    ensures forall id :: ExecuteSettlement(db, m, outcome).Filled(id) <= db.Filled(id)
    ensures ExecuteSettlement(db, m, outcome).orders.Keys == db.orders.Keys
  {
    hide RowsSane, Balanced, WithinSize, JobsLive, RollbackFill;
    if outcome.NotSettled? {
      RollbackSound(db, m);
    } else {
      var after := ExecuteSettlement(db, m, outcome);
      JobsOnly(db, after, PendingKey(m).hash);
    }
  }

  // ----- Everyone else

  /**
   What steps outside the matcher may do between two of its own: orders stay,
   nothing more gets filled, a fill in the matcher's hands stays.
   */
  ghost predicate Harmless(db: Db, after: Db) {
    && db.orders.Keys <= after.orders.Keys
    && (forall id | id in db.orders ::
          after.Filled(id) <= db.Filled(id) && after.orders[id].order.size == db.orders[id].order.size)
    && (forall m :: Unsettled(db, m) ==> Unsettled(after, m))
  }

  lemma JobsOnlyHarmless(db: Db, after: Db, hash: TxHash)
    requires hash in db.jobs && db.jobs[hash].Active() && hash in after.jobs
    requires after == db.(jobs := db.jobs[hash := after.jobs[hash]])
    ensures Harmless(db, after)
  {
  }

  lemma RenameMoves(fills: map<FillKey, FillRow>, k: FillKey, tag: nat, id: OrderId)
    ensures FilledByRows(Rename(fills, k, ChainHash(tag)), id) == FilledByRows(fills, id)
  {
    var renamed := k.(hash := ChainHash(tag));
    if k in fills && renamed !in fills {
      RowRemoved(fills, k, id);
      RowAdded(fills - {k}, renamed, fills[k], id);
    }
  }

  lemma RenamedRowsSane(db: Db, after: Db, k: FillKey, tag: nat)
    requires RowsSane(db) && after.orders == db.orders
    requires after.fills == Rename(db.fills, k, ChainHash(tag))
    ensures RowsSane(after)
  {
    forall q | q in after.fills ensures FillSane(after, q) {
      if q in db.fills {
        assert FillSane(db, q);
      } else {
        assert FillSane(db, k);
      }
    }
  }

  lemma RenameBalances(db: Db, after: Db, k: FillKey, tag: nat)
    requires Balanced(db) && after.orders == db.orders
    requires after.fills == Rename(db.fills, k, ChainHash(tag))
    ensures Balanced(after)
  {
    hide Rename, FilledByRows;
    forall id | id in after.orders ensures after.orders[id].order.filledSize == FilledByRows(after.fills, id) {
      RenameMoves(db.fills, k, tag, id);
    }
  }

  /** Only rows under the confirmed job's pending hash are renamed. */
  lemma ConfirmJobs(db: Db, hash: TxHash, chain: nat)
    requires JobsLive(db) && hash in db.jobs && db.jobs[hash].Active() && db.jobs[hash].payload.Some?
    ensures JobsLive(Confirm(db, hash, chain)) && Harmless(db, Confirm(db, hash, chain))
  {
    var after := Confirm(db, hash, chain);
    assert JobLive(db, hash);
    forall h | h in after.jobs ensures JobLive(after, h) {
      if h != hash {
        assert JobLive(db, h);
      }
    }
  }

  lemma ConfirmSound(db: Db, hash: TxHash, chain: nat)
    requires Sound(db) && hash in db.jobs && db.jobs[hash].Active() && db.jobs[hash].payload.Some?
    ensures Sound(Confirm(db, hash, chain)) && Harmless(db, Confirm(db, hash, chain))
  {
    hide RowsSane, Balanced, JobsLive, Rename;
    var p := db.jobs[hash].payload.value;
    var k, after := FillKey(hash, p.maker, p.taker), Confirm(db, hash, chain);
    ConfirmJobs(db, hash, chain);
    RenamedRowsSane(db, after, k, chain);
    RenameBalances(db, after, k, chain);
  }

  lemma SignSound(db: Db, hash: TxHash, byMaker: bool, sent: Sent)
    requires Sound(db)
    ensures Sound(Sign(db, hash, byMaker, sent)) && Harmless(db, Sign(db, hash, byMaker, sent))
  {
    hide RowsSane, Balanced, WithinSize;
    var after := Sign(db, hash, byMaker, sent);
    if after != db {
      assert JobLive(db, hash);
      JobsOnly(db, after, hash);
      JobsOnlyHarmless(db, after, hash);
    }
  }

  lemma ResubmitSound(db: Db, hash: TxHash, sent: Sent)
    requires Sound(db)
    ensures Sound(ResubmitJob(db, hash, sent)) && Harmless(db, ResubmitJob(db, hash, sent))
  {
    hide RowsSane, Balanced, WithinSize, Confirm;
    var after := ResubmitJob(db, hash, sent);
    if after != db {
      assert JobLive(db, hash);
      if sent.SentSuccess? {
        ConfirmSound(db, hash, sent.chain);
      } else {
        JobsOnly(db, after, hash);
        JobsOnlyHarmless(db, after, hash);
      }
    }
  }

  lemma ReconcileSound(db: Db, hash: TxHash, poll: Poll)
    requires Sound(db)
    ensures Sound(ReconcileSubmitted(db, hash, poll)) && Harmless(db, ReconcileSubmitted(db, hash, poll))
  {
    hide RowsSane, Balanced, WithinSize, Confirm, ResubmitJob;
    var after := ReconcileSubmitted(db, hash, poll);
    if after != db {
      assert JobLive(db, hash);
      match poll
      case PollSuccess => ConfirmSound(db, hash, db.jobs[hash].submittedHash.value);
      case PollFailed =>
        JobsOnly(db, after, hash);
        JobsOnlyHarmless(db, after, hash);
      case PollNotFound(sent) => ResubmitSound(db, hash, sent);
    }
  }

  /**
   A submitted job whose transaction fell off the network keeps its hash, so the
   claim refuses it and nothing happens.
   */
  lemma NotFoundIsNeverResubmitted(db: Db, hash: TxHash, sent: Sent)
    ensures ReconcileSubmitted(db, hash, PollNotFound(sent)) == db
  {
  }

  /** A queued job still short of a signature. */
  predicate Stale(db: Db, hash: TxHash) {
    && hash in db.jobs && db.jobs[hash].status == Queued
    && var p := db.jobs[hash].payload; p.Some? ==> !p.value.makerSigned || !p.value.takerSigned
  }

  lemma ExpireDoes(db: Db, hash: TxHash)
    requires Sound(db) && Stale(db, hash)
    ensures db.jobs[hash].payload.Some?
    ensures var p := db.jobs[hash].payload.value;
      var k := FillKey(hash, p.maker, p.taker);
      && k in db.fills && k.hash.PendingHash? && p.size == hash.size
      && ExpireStaleQueued(db, hash) == RollbackRows(db, k.maker, k.taker, k.hash.size)
           .(jobs := db.jobs[hash := db.jobs[hash].(status := Failed)])
  {
    hide RowsSane, Balanced, WithinSize, RollbackRows;
    assert JobLive(db, hash);
    var p := db.jobs[hash].payload.value;
    TakeBackDoes(db, FillKey(hash, p.maker, p.taker));
  }

  /** Expiring a stale job fails it and takes back exactly its fill; any other job it leaves alone. */
  lemma ExpireSound(db: Db, hash: TxHash)
    requires Sound(db)
    ensures Sound(ExpireStaleQueued(db, hash)) && Harmless(db, ExpireStaleQueued(db, hash))
    ensures !Stale(db, hash) ==> ExpireStaleQueued(db, hash) == db
    ensures Stale(db, hash) ==>
      && db.jobs[hash].payload.Some?
      && var after, p := ExpireStaleQueued(db, hash), db.jobs[hash].payload.value;
         var k := FillKey(hash, p.maker, p.taker);
      && after.jobs == db.jobs[hash := db.jobs[hash].(status := Failed)]
      && k in db.fills && TakenBack(db, after, k)
  {
    hide ExpireStaleQueued, RollbackRows, RowsSane, Balanced, WithinSize, JobsLive, Harmless, TakenBack;
    var after := ExpireStaleQueued(db, hash);
    if Stale(db, hash) {
      ExpireDoes(db, hash);
      var p := db.jobs[hash].payload.value;
      var k := FillKey(hash, p.maker, p.taker);
      var undone := RollbackRows(db, k.maker, k.taker, k.hash.size);
      RowFacts(db, k);
      TakeBackDoes(db, k);
      TakeBackSound(db, k);
      FailingKeeps(undone, hash, after);
      ExpiredJobsLive(db, hash, after);
      ExpiredHarmless(db, hash, k, after);
      TakenBackIgnoresJobs(db, undone, after, k);
    } else {
      NotStale(db, hash);
      UnchangedIsHarmless(db);
    }
  }

  lemma NotStale(db: Db, hash: TxHash)
    requires !Stale(db, hash)
    ensures ExpireStaleQueued(db, hash) == db
  {
  }

  lemma UnchangedIsHarmless(db: Db)
    ensures Harmless(db, db)
  {
  }

  lemma TakenBackIgnoresJobs(db: Db, undone: Db, after: Db, k: FillKey)
    requires k in db.fills && TakenBack(db, undone, k) && after == undone.(jobs := after.jobs)
    ensures TakenBack(db, after, k)
  {
    assert forall id :: after.Filled(id) == undone.Filled(id);
  }

  lemma FailingKeeps(undone: Db, hash: TxHash, after: Db)
    requires RowsSane(undone) && Balanced(undone) && WithinSize(undone)
    requires after == undone.(jobs := after.jobs)
    ensures RowsSane(after) && Balanced(after) && WithinSize(after)
  {
    SaneAfter(undone, after);
  }

  lemma ExpiredJobsLive(db: Db, hash: TxHash, after: Db)
    requires JobsLive(db) && hash in db.jobs
    requires after.jobs == db.jobs[hash := db.jobs[hash].(status := Failed)]
    requires forall k | k in db.fills && k.hash != hash :: k in after.fills
    ensures JobsLive(after)
  {
    forall h | h in after.jobs ensures JobLive(after, h) {
      if h != hash {
        assert JobLive(db, h);
      }
    }
  }

  lemma ExpiredHarmless(db: Db, hash: TxHash, k: FillKey, after: Db)
    requires hash in db.jobs && db.jobs[hash].Active() && k.hash == hash && k.hash.PendingHash? && k.hash.size > 0
    requires after.jobs == db.jobs[hash := db.jobs[hash].(status := Failed)]
    requires after.fills == db.fills - {k} && after.orders.Keys == db.orders.Keys
    requires forall id | id in db.orders ::
      after.orders[id].order
        == db.orders[id].order.(filledSize := db.orders[id].order.filledSize - k.Part(id, k.hash.size))
    ensures Harmless(db, after)
  {
  }

  lemma PlaceSound(db: Db, o: Order)
    requires Sound(db)
    ensures Sound(InsertOrder(db, o)) && Harmless(db, InsertOrder(db, o))
  {
    var after := InsertOrder(db, o);
    if after != db {
      PlacedRowsSane(db, o);
      assert JobsLive(after) by {
        LiveAfter(db, after);
      }
      hide RowsSane, JobsLive, FilledByRows;
      NobodyNames(db, o.Id());
      UnnamedIsUnfilled(db.fills, o.Id());
    }
  }

  lemma PlacedRowsSane(db: Db, o: Order)
    requires RowsSane(db)
    ensures RowsSane(InsertOrder(db, o))
  {
    var after := InsertOrder(db, o);
    forall k | k in after.fills ensures FillSane(after, k) {
      assert FillSane(db, k);
    }
  }

  lemma NobodyNames(db: Db, id: OrderId)
    requires RowsSane(db) && id !in db.orders
    ensures forall k | k in db.fills :: k.maker != id && k.taker != id
  {
    forall k | k in db.fills ensures k.maker != id && k.taker != id {
      assert FillSane(db, k);
    }
  }

  lemma CancelSound(db: Db, id: OrderId)
    requires Sound(db)
    ensures Sound(MarkCancelled(db, id)) && Harmless(db, MarkCancelled(db, id))
  {
    hide RowsSane, JobsLive, FilledByRows;
    var after := MarkCancelled(db, id);
    SaneAfter(db, after);
    LiveAfter(db, after);
  }

  /** Every step outside the matcher keeps the books and is harmless to a matcher in the middle of a tick. */
  lemma EnvSound(db: Db, op: EnvOp)
    requires Sound(db)
    ensures Sound(ApplyEnv(db, op)) && Harmless(db, ApplyEnv(db, op))
  {
    hide Sound, Harmless, Sign, ReconcileSubmitted, ResubmitJob, ExpireStaleQueued, InsertOrder, MarkCancelled;
    match op
    case PlaceOrder(o) => PlaceSound(db, o);
    case CancelOrder(id) => CancelSound(db, id);
    case SignEntry(hash, byMaker, sent) => SignSound(db, hash, byMaker, sent);
    case Reconcile(hash, poll) => ReconcileSound(db, hash, poll);
    case ResubmitReady(hash, sent) => ResubmitSound(db, hash, sent);
    case ExpireStale(hash) => ExpireSound(db, hash);
  }
}
