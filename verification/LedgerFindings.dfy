/** Reachable states of the fill ledger from which nothing moves on, and when they arise. */
module LedgerFindings {
  import opened Outcomes
  import opened Matching
  import opened FillLedger
  import opened LedgerSafety
  import opened LedgerRuns

  // ----- A fill queued over a job that is already over

  /** The job of the hash will still be signed, submitted or expired. */
  predicate Pursued(db: Db, hash: TxHash) {
    hash in db.jobs && db.jobs[hash].Active()
  }

  /**
   A fill that stays after settlement was settled just now, or has a job that
   will settle or undo it, unless it was queued over a job that its hash already
   had: queueing renews the payload of such a job but not its status, whether it
   failed or was confirmed for an earlier fill of the same size.
   */
  lemma SettlementPursuesIff(db: Db, m: Match, outcome: Settlement)
    requires Sound(db) && Unsettled(db, m)
    ensures var after, hash := ExecuteSettlement(db, m, outcome), PendingKey(m).hash;
      (PendingKey(m) in after.fills ==> outcome.SettledSigned? || Pursued(after, hash))
      <==> !(outcome.QueuedForAuth? && hash in db.jobs)
  {
    if outcome.NotSettled? {
      RowHash(db, PendingKey(m));
      TakeBackDoes(db, PendingKey(m));
      hide RollbackRows;
    }
    hide Sound;
  }

  predicate Over(db: Db, hash: TxHash) {
    hash in db.jobs && (db.jobs[hash].status == Failed || db.jobs[hash].status == Confirmed)
  }

  /** The fill's row stands under its pending hash, its job is over, and no matcher has the fill in hand. */
  ghost predicate Stranded(s: System, m: Match) {
    && SystemSound(s)
    && PendingKey(m) in s.db.fills && Over(s.db, PendingKey(m).hash)
    && (s.phase.Working? && s.phase.inHand.Some? ==> PendingKey(s.phase.inHand.value) != PendingKey(m))
  }

  lemma EnvLeavesStranded(db: Db, m: Match, op: EnvOp)
    requires Sound(db) && PendingKey(m) in db.fills && Over(db, PendingKey(m).hash)
    ensures PendingKey(m) in ApplyEnv(db, op).fills && Over(ApplyEnv(db, op), PendingKey(m).hash)
  {
    hide RowsSane, Balanced, WithinSize;
    if op.ExpireStale? && op.hash in db.jobs {
      assert JobLive(db, op.hash);
    }
  }

  lemma PersistLeavesStranded(db: Db, m: Match, other: Match)
    requires PendingKey(m) in db.fills && Over(db, PendingKey(m).hash)
    ensures var (after, ok) := FillLedger.PersistFill(db, other);
      && PendingKey(m) in after.fills && Over(after, PendingKey(m).hash)
      && (ok ==> PendingKey(other) != PendingKey(m))
  {
  }

  lemma SettleLeavesStranded(db: Db, m: Match, other: Match, outcome: Settlement)
    requires PendingKey(m) in db.fills && Over(db, PendingKey(m).hash) && PendingKey(other) != PendingKey(m)
    ensures var after := ExecuteSettlement(db, other, outcome);
      PendingKey(m) in after.fills && Over(after, PendingKey(m).hash)
  {
  }

  lemma StepLeavesStranded(s: System, m: Match, step: Step)
    requires Stranded(s, m)
    ensures Stranded(Next(s, step), m)
  {
    hide SystemSound, Over, FillLedger.PersistFill, ExecuteSettlement, ApplyEnv;
    StepIsSound(s, step);
    SoundInside(s);
    match step
    case Env(op) => EnvLeavesStranded(s.db, m, op);
    case Persist =>
      if s.phase.Working? && s.phase.inHand.None? && s.phase.todo != [] {
        PersistLeavesStranded(s.db, m, s.phase.todo[0]);
      }
    case Settle(outcome) =>
      if s.phase.Working? && s.phase.inHand.Some? {
        SettleLeavesStranded(s.db, m, s.phase.inHand.value, outcome);
      }
    case _ =>
  }

  lemma StepIsSound(s: System, step: Step)
    requires SystemSound(s)
    ensures SystemSound(Next(s, step))
  {
    hide SystemSound, Next;
    RunOne(s, step);
    LedgerRuns.RunSound(s, [step]);
  }

  lemma SoundInside(s: System)
    requires SystemSound(s)
    ensures Sound(s.db)
  {
  }

  /** Whatever anyone does from there, the row stays and nothing settles, renames or undoes it. */
  lemma {:induction false} StrandedForever(s: System, m: Match, steps: seq<Step>)
    requires Stranded(s, m)
    ensures Stranded(Run(s, steps), m)
  {
    hide Stranded, Next;
    if steps != [] {
      StrandedForever(s, m, steps[..|steps| - 1]);
      StepLeavesStranded(Run(s, steps[..|steps| - 1]), m, steps[|steps| - 1]);
    }
  }

  /** Which is where queueing over an existing job leads. */
  lemma QueueingOverStrands(s: System)
    requires SystemSound(s) && s.phase.Working? && s.phase.inHand.Some?
    requires PendingKey(s.phase.inHand.value).hash in s.db.jobs
    ensures Stranded(Next(s, Settle(QueuedForAuth)), s.phase.inHand.value)
  {
    hide Sound;
    StepIsSound(s, Settle(QueuedForAuth));
  }

  /**
   A fill settled with stored signatures keeps its row under the pending hash,
   so from then on every fill of the same two orders and size is taken for a
   duplicate of it and dropped.
   */
  lemma SignedFillBlocksRepeats(s: System, chain: nat, steps: seq<Step>, again: Match)
    requires SystemSound(s) && s.phase.Working? && s.phase.inHand.Some?
    requires PendingKey(again) == PendingKey(s.phase.inHand.value)
    ensures var later := Run(Next(s, Settle(SettledSigned(chain))), steps).db;
      FillLedger.PersistFill(later, again) == (later, false)
  {
    hide Sound, Next, Run, Stranded;
    var after := Next(s, Settle(SettledSigned(chain)));
    StepIsSound(s, Settle(SettledSigned(chain)));
    SignedIsOver(s, chain);
    IsStranded(after, again);
    StrandedForever(after, again, steps);
    RowStands(Run(after, steps), again);
  }

  lemma SignedIsOver(s: System, chain: nat)
    requires SystemSound(s) && s.phase.Working? && s.phase.inHand.Some?
    ensures var after, key := Next(s, Settle(SettledSigned(chain))), PendingKey(s.phase.inHand.value);
      after.phase.Working? && after.phase.inHand.None? && key in after.db.fills && Over(after.db, key.hash)
  {
    hide Sound;
  }

  lemma RowStands(s: System, m: Match)
    requires Stranded(s, m)
    ensures PendingKey(m) in s.db.fills
  {
  }

  lemma IsStranded(s: System, m: Match)
    requires SystemSound(s) && s.phase.Working? && s.phase.inHand.None?
    requires PendingKey(m) in s.db.fills && Over(s.db, PendingKey(m).hash)
    ensures Stranded(s, m)
  {
  }

  // ----- Reaching them

  const MAKER: Order := Order("maker", 1, true, 10, 100, false, 1, 1_000, 0, 0, None)
  const TAKER: Order := Order("taker", 1, false, 10, 100, false, 1, 1_000, 0, 0, None)
  const FILL: Match := Match(MAKER, TAKER, 10, 100)
  const HASH: TxHash := PendingHash(MAKER.Id(), TAKER.Id(), 10)
  const KEY: FillKey := FillKey(HASH, MAKER.Id(), TAKER.Id())
  const START: System := System(Db(map[], map[], map[]), Idle)

  /** Two crossing orders are placed. */
  const PLACE: seq<Step> := [Env(PlaceOrder(MAKER)), Env(PlaceOrder(TAKER))]

  /** They are matched, persisted and queued for their owners' signatures. */
  const QUEUE: seq<Step> := [Load([FILL]), Persist, Settle(QueuedForAuth)]

  function Rows(filled: int): map<OrderId, OrderRow> {
    map[MAKER.Id() := OrderRow(MAKER.(filledSize := filled), false),
        TAKER.Id() := OrderRow(TAKER.(filledSize := filled), false)]
  }

  function QueuedJob(makerSigned: bool, takerSigned: bool): Job {
    Job(Queued, Some(Payload(MAKER.Id(), TAKER.Id(), 10, makerSigned, takerSigned)), None)
  }

  lemma {:induction false} RunAppend(s: System, a: seq<Step>, b: seq<Step>)
    ensures Run(s, a + b) == Run(Run(s, a), b)
  {
    hide Next;
    if b == [] {
      assert a + b == a;
    } else {
      assert (a + b)[..|a + b| - 1] == a + b[..|b| - 1];
      RunAppend(s, a, b[..|b| - 1]);
    }
  }

  lemma RunOne(s: System, step: Step)
    ensures Run(s, [step]) == Next(s, step)
  {
    assert [step][..0] == [];
    assert Run(s, [step][..0]) == s;
  }

  lemma RunTwo(s: System, a: Step, b: Step)
    ensures Run(s, [a, b]) == Next(Next(s, a), b)
  {
    hide Next;
    RunOne(s, a);
    RunOne(Next(s, a), b);
    RunAppend(s, [a], [b]);
    assert [a] + [b] == [a, b];
  }

  lemma RunThree(s: System, a: Step, b: Step, c: Step)
    ensures Run(s, [a, b, c]) == Next(Next(Next(s, a), b), c)
  {
    hide Next;
    RunTwo(s, a, b);
    RunOne(Next(Next(s, a), b), c);
    RunAppend(s, [a, b], [c]);
    assert [a, b] + [c] == [a, b, c];
  }

  lemma Placed()
    ensures Run(START, PLACE) == System(Db(Rows(0), map[], map[]), Idle)
  {
    RunTwo(START, PLACE[0], PLACE[1]);
    var once := map[MAKER.Id() := OrderRow(MAKER, false)];
    assert Next(START, PLACE[0]).db.orders == once;
    assert once[TAKER.Id() := OrderRow(TAKER, false)] == Rows(0);
  }

  lemma FillFits(db: Db)
    requires db.orders == Rows(0)
    ensures PartiesKnown(db, [FILL]) && RoomForAll(db, [FILL])
  {
    assert forall id :: FilledIn([FILL], id) == FILL.Part(id) by {
      assert [FILL][..0] == [];
      assert forall id :: FilledIn([FILL][..0], id) == 0;
    }
  }

  /** Matching and queueing the two orders, whatever job their hash already has. */
  lemma Queues(s: System)
    requires s.phase == Idle && s.db.orders == Rows(0) && s.db.fills == map[]
    ensures var r := Run(s, QUEUE);
      var queued := QueuedJob(false, false);
      && r.phase == Working([], None) && r.db.orders == Rows(10) && r.db.fills == map[KEY := FillRow(10, 100)]
      && r.db.jobs == s.db.jobs[HASH := if HASH in s.db.jobs then s.db.jobs[HASH].(payload := queued.payload)
                                        else queued]
  {
    RunThree(s, QUEUE[0], QUEUE[1], QUEUE[2]);
    FillFits(s.db);
    var s1 := Next(s, Load([FILL]));
    assert s1 == s.(phase := Working([FILL], None));
    assert PendingKey(FILL) == KEY;
    Persists(s.db);
    var s2 := Next(s1, Persist);
    assert [FILL][1..] == [];
    assert s2 == System(FillLedger.PersistFill(s.db, FILL).0, Working([], Some(FILL)));
  }

  lemma Persists(db: Db)
    requires db.orders == Rows(0) && db.fills == map[]
    ensures FillLedger.PersistFill(db, FILL)
         == (Db(Rows(10), map[KEY := FillRow(10, 100)], db.jobs), true)
  {
    var maker := Increment(Rows(0), MAKER.Id(), 10);
    assert maker == Some(Rows(0)[MAKER.Id() := OrderRow(MAKER.(filledSize := 10), false)]);
    var taker := Increment(maker.value, TAKER.Id(), 10);
    assert taker.Some? && taker.value == Rows(10);
  }

  // ----- A submitted job that the network forgot

  /** Both owners sign, and the second signature's submission is under way as transaction 7. */
  const SUBMIT: seq<Step> := [Env(SignEntry(HASH, true, Unsent)), Env(SignEntry(HASH, false, SentWaiting(7)))]

  lemma Submits(s: System)
    requires HASH in s.db.jobs && s.db.jobs[HASH] == QueuedJob(false, false)
    ensures var r := Run(s, SUBMIT);
      r.db == s.db.(jobs := s.db.jobs[HASH := QueuedJob(true, true).(status := Submitted, submittedHash := Some(7))])
  {
    RunTwo(s, SUBMIT[0], SUBMIT[1]);
    var once := s.db.jobs[HASH := QueuedJob(true, false)];
    assert Next(s, SUBMIT[0]).db.jobs == once;
    assert once[HASH := QueuedJob(true, true).(status := Submitted, submittedHash := Some(7))]
        == s.db.jobs[HASH := QueuedJob(true, true).(status := Submitted, submittedHash := Some(7))];
  }

  /**
   A reachable job with both signatures and a hash whose transaction the network
   no longer knows: whatever a resubmission would have brought, nothing is done.
   */
  lemma ForgottenJobIsReachable()
    ensures var db := Run(START, PLACE + QUEUE + SUBMIT).db;
      && HASH in db.jobs && db.jobs[HASH].status == Submitted && db.jobs[HASH].submittedHash == Some(7)
      && db.jobs[HASH].payload.Some? && db.jobs[HASH].payload.value.makerSigned
      && db.jobs[HASH].payload.value.takerSigned
      && forall sent :: ReconcileSubmitted(db, HASH, PollNotFound(sent)) == db
  {
    hide Run, Next, Rows;
    RunAppend(START, PLACE + QUEUE, SUBMIT);
    RunAppend(START, PLACE, QUEUE);
    Placed();
    Queues(Run(START, PLACE));
    Submits(Run(START, PLACE + QUEUE));
  }

  // ----- A fill behind a failed job

  /** The signatures never come, the job expires, and the orders are matched again. */
  const RETRY: seq<Step> := [Stop, Env(ExpireStale(HASH))]

  lemma Expires(s: System)
    requires s.db.orders == Rows(10) && s.db.fills == map[KEY := FillRow(10, 100)]
    requires HASH in s.db.jobs && s.db.jobs[HASH] == QueuedJob(false, false)
    ensures var r := Run(s, RETRY);
      && r.phase == Idle && r.db.orders == Rows(0) && r.db.fills == map[]
      && r.db.jobs == s.db.jobs[HASH := QueuedJob(false, false).(status := Failed)]
  {
    RunTwo(s, RETRY[0], RETRY[1]);
    assert DeleteFills(s.db.fills, HASH) == map[];
    var once := Decrement(Rows(10), MAKER.Id(), 10);
    assert once == Rows(10)[MAKER.Id() := OrderRow(MAKER.(filledSize := 0), false)];
    assert Decrement(once, TAKER.Id(), 10) == Rows(0);
  }

  /** A live fill whose job has failed is reachable, and stays so whatever anyone does. */
  lemma StrandedFillIsReachable(steps: seq<Step>)
    ensures var db := Run(START, PLACE + QUEUE + RETRY + QUEUE).db;
      KEY in db.fills && HASH in db.jobs && db.jobs[HASH].status == Failed
    ensures Stranded(Run(START, PLACE + QUEUE + RETRY + QUEUE + steps), FILL)
  {
    hide Run, Next, Rows, Sound, Stranded;
    RunAppend(START, PLACE + QUEUE + RETRY, QUEUE);
    RunAppend(START, PLACE + QUEUE, RETRY);
    RunAppend(START, PLACE, QUEUE);
    Placed();
    Queues(Run(START, PLACE));
    Expires(Run(START, PLACE + QUEUE));
    Queues(Run(START, PLACE + QUEUE + RETRY));
    StartSound();
    LedgerRuns.RunSound(START, PLACE + QUEUE + RETRY + QUEUE);
    var s := Run(START, PLACE + QUEUE + RETRY + QUEUE);
    IsStranded(s, FILL);
    StrandedForever(s, FILL, steps);
    RunAppend(START, PLACE + QUEUE + RETRY + QUEUE, steps);
  }

  lemma StartSound()
    ensures SystemSound(START)
  {
    assert forall id :: FilledByRows(START.db.fills, id) == 0;
  }
}
