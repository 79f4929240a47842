/** The matcher and the reconciler as routines over stored rows, statement by statement. */
module MatcherService {
  import opened Outcomes
  import opened Numbers
  import opened Matching
  import opened FillLedger
  import opened LedgerSafety
  import opened LedgerRuns
  import opened PriceBand
  import Matcher

  class Database {
    var orders: map<OrderId, OrderRow>
    var fills: map<FillKey, FillRow>
    var jobs: map<TxHash, Job>

    function View(): Db
      reads this
    {
      Db(orders, fills, jobs)
    }

    constructor ()
      ensures View() == Db(map[], map[], map[])
    {
      orders, fills, jobs := map[], map[], map[];
    }

    /** UPDATE … SET filledSize = filledSize + size WHERE id AND filledSize + size <= size. */
    method IncrementFilled(id: OrderId, size: int) returns (updated: bool)
      modifies this`orders
      ensures var r := Increment(old(orders), id, size); updated == r.Some? && orders == r.GetOr(old(orders))
    {
      if id !in orders || orders[id].order.filledSize + size > orders[id].order.size {
        return false;
      }
      var row := orders[id];
      orders := orders[id := row.(order := row.order.(filledSize := row.order.filledSize + size))];
      updated := true;
    }

    /** UPDATE … SET filledSize = GREATEST(0, filledSize - size) WHERE id. */
    method DecrementFilled(id: OrderId, size: int)
      modifies this`orders
      ensures orders == Decrement(old(orders), id, size)
    {
      if id in orders {
        var row := orders[id];
        orders := orders[id := row.(order := row.order.(filledSize := Max(0, row.order.filledSize - size)))];
      }
    }

    method PersistFill(m: Match) returns (persisted: bool)
      modifies this`orders, this`fills
      ensures (View(), persisted) == FillLedger.PersistFill(old(View()), m)
    {
      var key := PendingKey(m);
      if key in fills {
        return false;
      }
      fills := fills[key := FillRow(m.fillSize, m.fillPrice)];
      var makerUpdated := IncrementFilled(m.maker.Id(), m.fillSize);
      if !makerUpdated {
        return false;
      }
      var takerUpdated := IncrementFilled(m.taker.Id(), m.fillSize);
      persisted := takerUpdated;
    }

    method RollbackFill(m: Match)
      modifies this`orders, this`fills
      ensures View() == FillLedger.RollbackFill(old(View()), m)
    {
      fills := DeleteFills(fills, PendingKey(m).hash);
      DecrementFilled(m.maker.Id(), m.fillSize);
      DecrementFilled(m.taker.Id(), m.fillSize);
    }

    /** Settles a persisted fill; anything but success or queueing rolls it back. */
    method ExecuteSettlement(m: Match, outcome: Settlement)
      modifies this
      ensures View() == FillLedger.ExecuteSettlement(old(View()), m, outcome)
    {
      var hash := PendingKey(m).hash;
      match outcome
      case NotSettled => RollbackFill(m);
      case SettledSigned(chain) =>
        if hash in jobs {
          jobs := jobs[hash := jobs[hash].(status := Confirmed, submittedHash := Some(chain))];
        } else {
          jobs := jobs[hash := Job(Confirmed, None, Some(chain))];
        }
      case QueuedForAuth =>
        var payload := Some(Payload(m.maker.Id(), m.taker.Id(), m.fillSize, false, false));
        if hash in jobs {
          jobs := jobs[hash := jobs[hash].(payload := payload)];
        } else {
          jobs := jobs[hash := Job(Queued, payload, None)];
        }
    }

    method ExpireStaleQueued(hash: TxHash)
      modifies this
      ensures View() == FillLedger.ExpireStaleQueued(old(View()), hash)
    {
      if hash !in jobs || jobs[hash].status != Queued {
        return;
      }
      var job := jobs[hash];
      if job.payload.Some? {
        var p := job.payload.value;
        if p.makerSigned && p.takerSigned {
          return;
        }
        fills := DeleteFills(fills, PendingHash(p.maker, p.taker, p.size));
        DecrementFilled(p.maker, p.size);
        DecrementFilled(p.taker, p.size);
      }
      jobs := jobs[hash := job.(status := Failed)];
    }

    /** UPDATE "Fill" SET txHash … for the job's row; the unique constraint refuses an existing target. */
    method RenameFill(key: FillKey, chain: nat)
      modifies this`fills
      ensures fills == Rename(old(fills), key, ChainHash(chain))
    {
      var renamed := key.(hash := ChainHash(chain));
      if key in fills && renamed !in fills {
        var row := fills[key];
        fills := fills - {key};
        fills := fills[renamed := row];
      }
    }

    /** The claim, the submission and its brief poll, as one step. */
    method ResubmitJob(hash: TxHash, sent: Sent)
      modifies this
      ensures View() == FillLedger.ResubmitJob(old(View()), hash, sent)
    {
      if hash !in jobs || jobs[hash].payload.None? {
        return;
      }
      var job := jobs[hash];
      var p := job.payload.value;
      if !p.makerSigned || !p.takerSigned {
        return;
      }
      if job.status != Queued && !(job.status == Submitted && job.submittedHash.None?) {
        return;
      }
      match sent
      case Unsent =>
        jobs := jobs[hash := job.(status := Submitted)];
      case SendError =>
        jobs := jobs[hash := job.(status := Failed)];
      case SentSuccess(chain) =>
        jobs := jobs[hash := job.(status := Confirmed, submittedHash := Some(chain))];
        RenameFill(FillKey(hash, p.maker, p.taker), chain);
      case SentFailed(chain) =>
        jobs := jobs[hash := job.(status := Failed, submittedHash := Some(chain))];
      case SentWaiting(chain) =>
        jobs := jobs[hash := job.(status := Submitted, submittedHash := Some(chain))];
    }

    method ReconcileSubmitted(hash: TxHash, poll: Poll)
      modifies this
      ensures View() == FillLedger.ReconcileSubmitted(old(View()), hash, poll)
    {
      if hash !in jobs || jobs[hash].status != Submitted || jobs[hash].submittedHash.None? {
        return;
      }
      var job := jobs[hash];
      match poll
      case PollSuccess =>
        jobs := jobs[hash := job.(status := Confirmed)];
        if job.payload.Some? {
          RenameFill(FillKey(hash, job.payload.value.maker, job.payload.value.taker), job.submittedHash.value);
        }
      case PollFailed =>
        jobs := jobs[hash := job.(status := Failed)];
      case PollNotFound(sent) =>
        ResubmitJob(hash, sent);
    }

    method CancelPoisonOrder(id: OrderId)
      modifies this`orders
      ensures View() == MarkCancelled(old(View()), id)
    {
      if id in orders {
        orders := orders[id := orders[id].(cancelled := true)];
      }
    }

    method Process(m: Match, sigValid: Order -> bool, outcome: Settlement)
      modifies this
      ensures View() == ProcessFill(old(View()), m, sigValid, outcome)
    {
      var poisoned := false;
      if !sigValid(m.maker) {
        CancelPoisonOrder(m.maker.Id());
        poisoned := true;
      }
      if !sigValid(m.taker) {
        CancelPoisonOrder(m.taker.Id());
        poisoned := true;
      }
      if poisoned {
        return;
      }
      var ok := PersistFill(m);
      if ok {
        ExecuteSettlement(m, outcome);
      }
    }

    /**
     One tick of one market. The loaded orders, the oracle price, which
     signatures verify and how each settlement goes come from outside.
     */
    method Tick(limits: seq<Order>, markets: seq<Order>, oracle: Option<int>, bps: nat,
                sigValid: Order -> bool, settle: nat -> Settlement)
      returns (matches: seq<Match>)
      requires Sound(View()) && LoadedFrom(View(), limits + markets) && IdsDistinct(limits + markets)
      modifies this
      ensures var inBand := InBand(limits, oracle, bps);
        forall k | 0 <= k < |matches| ::
          && FillSound(inBand, markets, matches, k) && PriorityRespected(inBand, markets, matches, k)
          && InTurn(inBand, markets, matches, k)
      ensures var inBand := InBand(limits, oracle, bps);
        Uncrossed(inBand, matches) && MarketExhausted(inBand, markets, matches)
      ensures View() == ProcessFills(old(View()), matches, sigValid, settle)
      ensures Sound(View())
    {
      hide Sound, LoadedFrom, PartiesKnown, RoomForAll, IdsDistinct, PriorityRespected, FillSound, InBand, ProcessFill,
        WithinOracleBand, InTurn, Uncrossed, MarketExhausted;
      var inBand := InBand(limits, oracle, bps);
      InBandDistinct(limits, markets, oracle, bps);
      matches := Matcher.MatchAll(inBand, markets);
      InBandFits(View(), limits, markets, oracle, bps, matches);
      ProcessFillsSound(View(), matches, sigValid, settle, |matches|);
      assert matches[..|matches|] == matches;
      for k := 0 to |matches|
        invariant View() == ProcessFills(old(View()), matches[..k], sigValid, settle)
      {
        var m := matches[k];
        FillsAreInBand(limits, oracle, bps, markets, matches, k);
        // No match is skipped for its price.
        assert oracle.Some? && WithinOracleBand(m.fillPrice, oracle.value, bps);
        assert matches[..k + 1][..k] == matches[..k] && matches[..k + 1][k] == m;
        Process(m, sigValid, settle(k));
      }
    }
  }

  lemma InBandFits(db: Db, limits: seq<Order>, markets: seq<Order>, oracle: Option<int>, bps: nat, fills: seq<Match>)
    requires Sound(db) && LoadedFrom(db, limits + markets)
    requires forall k | 0 <= k < |fills| :: FillSound(InBand(limits, oracle, bps), markets, fills, k)
    requires forall o | o in InBand(limits, oracle, bps) + markets ::
      0 <= FilledIn(fills, o.Id()) <= Max(0, o.size - o.filledSize)
    ensures PartiesKnown(db, fills) && RoomForAll(db, fills)
  {
    hide FillSound, PartiesKnown, RoomForAll, WithinOracleBand;
    MatchesFit(db, InBand(limits, oracle, bps), markets, fills);
  }

  /**
   A fill with an unverifiable signature cancels the order behind it; any other
   is persisted and, unless it was there already, settled.
   */
  function ProcessFill(db: Db, m: Match, sigValid: Order -> bool, outcome: Settlement): Db {
    if sigValid(m.maker) && sigValid(m.taker) then
      var (persisted, ok) := FillLedger.PersistFill(db, m);
      if ok then FillLedger.ExecuteSettlement(persisted, m, outcome) else persisted
    else
      var once := if sigValid(m.maker) then db else MarkCancelled(db, m.maker.Id());
      if sigValid(m.taker) then once else MarkCancelled(once, m.taker.Id())
  }

  /**
   A fill cancels exactly those of its two orders whose signature does not
   verify, and if there is one it changes nothing else; if there is none it
   cancels nothing.
   */
  lemma PoisonIsCancelled(db: Db, m: Match, sigValid: Order -> bool, outcome: Settlement)
    requires m.maker.Id() != m.taker.Id()
    ensures var after := ProcessFill(db, m, sigValid, outcome);
      && after.orders.Keys == db.orders.Keys
      && (forall id | id in db.orders ::
            after.orders[id].cancelled
            == (db.orders[id].cancelled || (id == m.maker.Id() && !sigValid(m.maker))
                || (id == m.taker.Id() && !sigValid(m.taker))))
      && (!sigValid(m.maker) || !sigValid(m.taker) ==>
            && after.fills == db.fills && after.jobs == db.jobs
            && forall id | id in db.orders :: after.orders[id].order == db.orders[id].order)
  {
    hide FillLedger.PersistFill, FillLedger.ExecuteSettlement, MarkCancelled;
    if sigValid(m.maker) && sigValid(m.taker) {
      PersistCancelsNothing(db, m);
      SettlementCancelsNothing(FillLedger.PersistFill(db, m).0, m, outcome);
    } else {
      var once := if sigValid(m.maker) then db else MarkCancelled(db, m.maker.Id());
      MarksOne(db, m.maker.Id());
      MarksOne(once, m.taker.Id());
    }
  }

  lemma MarksOne(db: Db, id: OrderId)
    ensures var after := MarkCancelled(db, id);
      && after.orders.Keys == db.orders.Keys && after.fills == db.fills && after.jobs == db.jobs
      && forall k | k in db.orders ::
           && after.orders[k].cancelled == (db.orders[k].cancelled || k == id)
           && after.orders[k].order == db.orders[k].order
  {
  }

  lemma PersistCancelsNothing(db: Db, m: Match)
    ensures var after := FillLedger.PersistFill(db, m).0;
      after.orders.Keys == db.orders.Keys
      && forall id | id in db.orders :: after.orders[id].cancelled == db.orders[id].cancelled
  {
  }

  lemma SettlementCancelsNothing(db: Db, m: Match, outcome: Settlement)
    ensures var after := FillLedger.ExecuteSettlement(db, m, outcome);
      after.orders.Keys == db.orders.Keys
      && forall id | id in db.orders :: after.orders[id].cancelled == db.orders[id].cancelled
  {
  }

  function ProcessFills(db: Db, fills: seq<Match>, sigValid: Order -> bool, settle: nat -> Settlement): Db {
    if fills == [] then db
    else
      var k := |fills| - 1;
      ProcessFill(ProcessFills(db, fills[..k], sigValid, settle), fills[k], sigValid, settle(k))
  }

  /**
   Processing any number of a tick's fills, with any mix of poisoned, duplicate,
   settled and rolled-back ones, keeps the books and leaves room for the rest.
   */
  lemma {:induction false} ProcessFillsSound(db: Db, fills: seq<Match>, sigValid: Order -> bool,
                                             settle: nat -> Settlement, k: nat)
    requires Sound(db) && PartiesKnown(db, fills) && RoomForAll(db, fills) && k <= |fills|
    ensures var after := ProcessFills(db, fills[..k], sigValid, settle);
      Sound(after) && PartiesKnown(after, fills[k..]) && RoomForAll(after, fills[k..])
  {
    hide Sound, PartiesKnown, RoomForAll, ProcessFill;
    if k == 0 {
      assert fills[0..] == fills;
    } else {
      ProcessFillsSound(db, fills, sigValid, settle, k - 1);
      assert fills[..k][..k - 1] == fills[..k - 1] && fills[..k][k - 1] == fills[k - 1];
      assert fills[k - 1..][0] == fills[k - 1] && fills[k - 1..][1..] == fills[k..];
      OneFillSound(ProcessFills(db, fills[..k - 1], sigValid, settle), fills[k - 1..], sigValid, settle(k - 1));
    }
  }

  lemma OneFillSound(db: Db, todo: seq<Match>, sigValid: Order -> bool, outcome: Settlement)
    requires Sound(db) && PartiesKnown(db, todo) && RoomForAll(db, todo) && todo != []
    ensures var after := ProcessFill(db, todo[0], sigValid, outcome);
      Sound(after) && PartiesKnown(after, todo[1..]) && RoomForAll(after, todo[1..])
  {
    hide Sound, PartiesKnown, RoomForAll, MarkCancelled, FillLedger.PersistFill, FillLedger.ExecuteSettlement;
    var m := todo[0];
    if sigValid(m.maker) && sigValid(m.taker) {
      StepsOfOneMatch(System(db, Working(todo, None)), outcome);
    } else {
      SkipAfterCancels(db, ProcessFill(db, m, sigValid, outcome), todo, m.maker.Id(), m.taker.Id());
    }
  }

  lemma InBandDistinct(limits: seq<Order>, markets: seq<Order>, oracle: Option<int>, bps: nat)
    requires IdsDistinct(limits + markets)
    ensures IdsDistinct(InBand(limits, oracle, bps) + markets)
  {
    assert IdsDistinct(limits) by {
      forall i, j | 0 <= i < j < |limits| ensures limits[i].Id() != limits[j].Id() {
        assert (limits + markets)[i] == limits[i] && (limits + markets)[j] == limits[j];
      }
    }
    assert IdsDistinct(markets) by {
      forall i, j | 0 <= i < j < |markets| ensures markets[i].Id() != markets[j].Id() {
        assert (limits + markets)[|limits| + i] == markets[i] && (limits + markets)[|limits| + j] == markets[j];
      }
    }
    var kept := InBand(limits, oracle, bps);
    forall i, j | 0 <= i < |kept| && 0 <= j < |markets| ensures kept[i].Id() != markets[j].Id() {
      assert kept[i] in kept;
      Matcher.DistinctAcross(limits, markets, kept[i], markets[j]);
    }
  }

  lemma SkipAfterCancels(before: Db, after: Db, todo: seq<Match>, a: OrderId, b: OrderId)
    requires Sound(before) && PartiesKnown(before, todo) && RoomForAll(before, todo) && todo != []
    requires after == MarkCancelled(before, a) || after == MarkCancelled(before, b)
          || after == MarkCancelled(MarkCancelled(before, a), b)
    ensures Sound(after) && PartiesKnown(after, todo[1..]) && RoomForAll(after, todo[1..])
  {
    hide MarkCancelled, Sound, PartiesKnown, RoomForAll;
    var s := System(before, Working(todo, None));
    EnvStepSound(s, CancelOrder(a));
    EnvStepSound(s, CancelOrder(b));
    EnvStepSound(s.(db := MarkCancelled(before, a)), CancelOrder(b));
    SkipStepSound(s.(db := after));
  }

  lemma StepsOfOneMatch(s: System, outcome: Settlement)
    requires SystemSound(s) && s.phase.Working? && s.phase.inHand.None? && s.phase.todo != []
    ensures var (db, ok) := FillLedger.PersistFill(s.db, s.phase.todo[0]);
      var settled := if ok then FillLedger.ExecuteSettlement(db, s.phase.todo[0], outcome) else db;
      Sound(settled) && PartiesKnown(settled, s.phase.todo[1..]) && RoomForAll(settled, s.phase.todo[1..])
  {
    hide Sound, PartiesKnown, RoomForAll, FillLedger.PersistFill, FillLedger.ExecuteSettlement;
    PersistStepSound(s);
    SettleStepSound(Next(s, Persist), outcome);
  }
}
