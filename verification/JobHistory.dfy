/** A job's status says what was reported of it, over every run from the empty database. */
module JobHistory {
  import opened Outcomes
  import opened Matching
  import opened FillLedger
  import opened LedgerSafety
  import opened LedgerRuns
  import opened LedgerFindings

  // ----- What steps report of a job

  /** The network, or the matcher's own submission, reports that transaction `chain` settled the job's fill. */
  ghost predicate Succeeds(s: System, step: Step, hash: TxHash, chain: nat) {
    match step
    case Env(Reconcile(h, poll)) =>
      h == hash && poll.PollSuccess? && hash in s.db.jobs && s.db.jobs[hash].status == Submitted
      && s.db.jobs[hash].submittedHash == Some(chain)
    case Env(ResubmitReady(h, sent)) => h == hash && sent == SentSuccess(chain) && Claimable(s.db, hash)
    case Settle(outcome) =>
      outcome == SettledSigned(chain) && s.phase.Working? && s.phase.inHand.Some?
      && PendingKey(s.phase.inHand.value).hash == hash
    case _ => false
  }

  /** A submission or its transaction is reported to have failed, or the signatures never came. */
  ghost predicate Fails(s: System, step: Step, hash: TxHash) {
    match step
    case Env(Reconcile(h, poll)) =>
      h == hash && poll.PollFailed? && hash in s.db.jobs && s.db.jobs[hash].status == Submitted
      && s.db.jobs[hash].submittedHash.Some?
    case Env(ResubmitReady(h, sent)) => h == hash && (sent.SendError? || sent.SentFailed?) && Claimable(s.db, hash)
    case Env(SignEntry(h, byMaker, sent)) => h == hash && sent.SendError? && Completes(s.db, hash, byMaker)
    case Env(ExpireStale(h)) => h == hash && Stale(s.db, hash)
    case _ => false
  }

  /** The job goes out to the network as transaction `chain`. */
  ghost predicate Submits(s: System, step: Step, hash: TxHash, chain: nat) {
    match step
    case Env(ResubmitReady(h, sent)) => h == hash && sent == SentWaiting(chain) && Claimable(s.db, hash)
    case Env(SignEntry(h, byMaker, sent)) =>
      h == hash && !sent.Unsent? && !sent.SendError? && sent.chain == chain && Completes(s.db, hash, byMaker)
    case _ => false
  }

  /** The job can be claimed: both have signed, and it is queued, or was claimed and never got a hash. */
  predicate Claimable(db: Db, hash: TxHash) {
    && hash in db.jobs && db.jobs[hash].payload.Some?
    && db.jobs[hash].payload.value.makerSigned && db.jobs[hash].payload.value.takerSigned
    && (db.jobs[hash].status == Queued || (db.jobs[hash].status == Submitted && db.jobs[hash].submittedHash.None?))
  }

  /** This signature makes the pair complete. */
  predicate Completes(db: Db, hash: TxHash, byMaker: bool) {
    && hash in db.jobs && db.jobs[hash].status == Queued && db.jobs[hash].payload.Some?
    && (byMaker || db.jobs[hash].payload.value.makerSigned) && (!byMaker || db.jobs[hash].payload.value.takerSigned)
  }

  function StatusOf(db: Db, hash: TxHash): Option<Status> {
    if hash in db.jobs then Some(db.jobs[hash].status) else None
  }

  // ----- Reports are recorded

  /**
   A reported success confirms the job under that transaction; when it comes from
   the network the fill's row moves to the transaction's hash if that is free.
   */
  lemma SuccessIsRecorded(s: System, step: Step, hash: TxHash, chain: nat)
    requires SystemSound(s) && Succeeds(s, step, hash, chain)
    ensures var after := Next(s, step).db;
      && StatusOf(after, hash) == Some(Confirmed) && after.jobs[hash].submittedHash == Some(chain)
      && (step.Env? ==>
            && s.db.jobs[hash].payload.Some?
            && var p := s.db.jobs[hash].payload.value;
               var key := FillKey(hash, p.maker, p.taker);
               var renamed := FillKey(ChainHash(chain), p.maker, p.taker);
            && key in s.db.fills
            && after.fills
               == if renamed in s.db.fills then s.db.fills else (s.db.fills - {key})[renamed := s.db.fills[key]])
  {
    hide RowsSane, Balanced, WithinSize;
    if step.Env? {
      assert JobLive(s.db, hash);
    }
  }

  /** A reported failure fails the job. */
  lemma FailureIsRecorded(s: System, step: Step, hash: TxHash)
    requires Fails(s, step, hash)
    ensures StatusOf(Next(s, step).db, hash) == Some(Failed)
  {
  }

  /** A submission is recorded with its transaction. */
  lemma SubmissionIsRecorded(s: System, step: Step, hash: TxHash, chain: nat)
    requires Submits(s, step, hash, chain)
    ensures StatusOf(Next(s, step).db, hash) == Some(Submitted)
    ensures Next(s, step).db.jobs[hash].submittedHash == Some(chain)
  {
  }

  // ----- And nothing else changes a status

  /** A queued job was never sent. */
  ghost predicate QueuedUnsent(db: Db) {
    forall hash | hash in db.jobs && db.jobs[hash].status == Queued :: db.jobs[hash].submittedHash.None?
  }

  lemma StepKeepsUnsent(s: System, step: Step)
    requires QueuedUnsent(s.db)
    ensures QueuedUnsent(Next(s, step).db)
  {
    match step
    case Env(op) => EnvKeepsUnsent(s.db, op);
    case Persist => PersistKeepsJobs(s.db, s.phase);
    case _ =>
  }

  lemma EnvKeepsUnsent(db: Db, op: EnvOp)
    requires QueuedUnsent(db)
    ensures QueuedUnsent(ApplyEnv(db, op))
  {
  }

  lemma {:induction false} RunUnsent(steps: seq<Step>)
    ensures QueuedUnsent(Run(START, steps).db)
  {
    hide Next, QueuedUnsent;
    if steps == [] {
      NothingQueued();
    } else {
      RunUnsent(steps[..|steps| - 1]);
      StepKeepsUnsent(Run(START, steps[..|steps| - 1]), steps[|steps| - 1]);
    }
  }

  lemma NothingQueued()
    ensures QueuedUnsent(START.db)
  {
  }

  /** What a step may have done to the job of a hash. */
  ghost predicate Explained(s: System, step: Step, hash: TxHash, job: Job) {
    && (job.status == Confirmed ==>
          || (job.submittedHash.Some? && Succeeds(s, step, hash, job.submittedHash.value))
          || (StatusOf(s.db, hash) == Some(Confirmed) && s.db.jobs[hash].submittedHash == job.submittedHash))
    && (job.status == Failed ==> Fails(s, step, hash) || StatusOf(s.db, hash) == Some(Failed))
    && (job.status == Submitted && job.submittedHash.Some? ==>
          || Submits(s, step, hash, job.submittedHash.value)
          || (StatusOf(s.db, hash) == Some(Submitted) && s.db.jobs[hash].submittedHash == job.submittedHash))
  }

  lemma StepOnJob(s: System, step: Step, hash: TxHash)
    requires QueuedUnsent(s.db) && hash in Next(s, step).db.jobs
    ensures Explained(s, step, hash, Next(s, step).db.jobs[hash])
  {
    hide QueuedUnsent, Explained, ApplyEnv, FillLedger.PersistFill, ExecuteSettlement;
    match step
    case Env(op) => EnvOnJob(s, op, hash);
    case Settle(outcome) =>
      if s.phase.Working? && s.phase.inHand.Some? {
        SettleOnJob(s, outcome, hash);
      } else {
        SameJob(s, step, hash);
      }
    case Persist =>
      PersistKeepsJobs(s.db, s.phase);
      SameJob(s, step, hash);
    case _ => SameJob(s, step, hash);
  }

  lemma PersistKeepsJobs(db: Db, phase: Phase)
    ensures Next(System(db, phase), Persist).db.jobs == db.jobs
  {
  }

  lemma SameJob(s: System, step: Step, hash: TxHash)
    requires hash in s.db.jobs
    ensures Explained(s, step, hash, s.db.jobs[hash])
  {
  }

  lemma SettleOnJob(s: System, outcome: Settlement, hash: TxHash)
    requires s.phase.Working? && s.phase.inHand.Some?
    requires hash in ExecuteSettlement(s.db, s.phase.inHand.value, outcome).jobs
    ensures Explained(s, Settle(outcome), hash, ExecuteSettlement(s.db, s.phase.inHand.value, outcome).jobs[hash])
  {
  }

  lemma EnvOnJob(s: System, op: EnvOp, hash: TxHash)
    requires QueuedUnsent(s.db) && hash in ApplyEnv(s.db, op).jobs
    ensures Explained(s, Env(op), hash, ApplyEnv(s.db, op).jobs[hash])
  {
    hide QueuedUnsent, Explained, Sign, ReconcileSubmitted, ResubmitJob, ExpireStaleQueued;
    match op
    case SignEntry(h, byMaker, sent) => SignOnJob(s, h, byMaker, sent, hash);
    case Reconcile(h, poll) => ReconcileOnJob(s, h, poll, hash);
    case ResubmitReady(h, sent) => ResubmitOnJob(s, h, sent, hash);
    case ExpireStale(h) => ExpireOnJob(s, h, hash);
    case _ => SameJob(s, Env(op), hash);
  }

  lemma SignOnJob(s: System, h: TxHash, byMaker: bool, sent: Sent, hash: TxHash)
    requires QueuedUnsent(s.db) && hash in Sign(s.db, h, byMaker, sent).jobs
    ensures Explained(s, Env(SignEntry(h, byMaker, sent)), hash, Sign(s.db, h, byMaker, sent).jobs[hash])
  {
  }

  lemma ReconcileOnJob(s: System, h: TxHash, poll: Poll, hash: TxHash)
    requires hash in ReconcileSubmitted(s.db, h, poll).jobs
    ensures Explained(s, Env(Reconcile(h, poll)), hash, ReconcileSubmitted(s.db, h, poll).jobs[hash])
  {
    hide Rename;
  }

  lemma ResubmitOnJob(s: System, h: TxHash, sent: Sent, hash: TxHash)
    requires QueuedUnsent(s.db) && hash in ResubmitJob(s.db, h, sent).jobs
    ensures Explained(s, Env(ResubmitReady(h, sent)), hash, ResubmitJob(s.db, h, sent).jobs[hash])
  {
    hide Rename;
  }

  lemma ExpireOnJob(s: System, h: TxHash, hash: TxHash)
    requires hash in ExpireStaleQueued(s.db, h).jobs
    ensures Explained(s, Env(ExpireStale(h)), hash, ExpireStaleQueued(s.db, h).jobs[hash])
  {
    hide RollbackRows;
    JobsStay(s.db, h);
  }

  lemma JobsStay(db: Db, h: TxHash)
    ensures forall maker, taker, size :: RollbackRows(db, maker, taker, size).jobs == db.jobs
  {
  }

  // ----- So every status has its report

  ghost predicate Happened(steps: seq<Step>, k: nat, hash: TxHash, job: Job) {
    && k < |steps|
    && var s := Run(START, steps[..k]);
    && (job.status == Confirmed ==>
          job.submittedHash.Some? && Succeeds(s, steps[k], hash, job.submittedHash.value))
    && (job.status == Failed ==> Fails(s, steps[k], hash))
    && (job.status == Submitted && job.submittedHash.Some? ==> Submits(s, steps[k], hash, job.submittedHash.value))
  }

  /**
   Over every run from the empty database, a confirmed job's transaction was
   reported to have succeeded, a failed job was reported failed or expired, and a
   submitted job's transaction is one that was sent for it.
   */
  lemma {:induction false} StatusWasReported(steps: seq<Step>, hash: TxHash) returns (k: nat)
    requires hash in Run(START, steps).db.jobs
    requires var job := Run(START, steps).db.jobs[hash];
      job.status == Confirmed || job.status == Failed || (job.status == Submitted && job.submittedHash.Some?)
    ensures Happened(steps, k, hash, Run(START, steps).db.jobs[hash])
  {
    hide Next, QueuedUnsent, Succeeds, Fails, Submits;
    var n := |steps| - 1;
    assert steps != [] by {
      NothingAtStart(steps, hash);
    }
    RunUnsent(steps[..n]);
    StepOnJob(Run(START, steps[..n]), steps[n], hash);
    k := n;
    if !Happened(steps, n, hash, Run(START, steps).db.jobs[hash]) {
      k := StatusWasReported(steps[..n], hash);
      assert steps[..n][..k] == steps[..k];
    }
  }

  lemma NothingAtStart(steps: seq<Step>, hash: TxHash)
    requires hash in Run(START, steps).db.jobs
    ensures steps != []
  {
  }

  // ----- Nothing is sent unsigned

  ghost predicate SubmittedSigned(db: Db) {
    forall hash | hash in db.jobs && db.jobs[hash].status == Submitted ::
      db.jobs[hash].payload.Some? && db.jobs[hash].payload.value.makerSigned && db.jobs[hash].payload.value.takerSigned
  }

  lemma StepKeepsSigned(s: System, step: Step)
    requires SystemSound(s) && SubmittedSigned(s.db)
    ensures SubmittedSigned(Next(s, step).db)
  {
    hide Sound, RoomForAll, PartiesKnown;
    match step
    case Env(op) => EnvKeepsSigned(s.db, op);
    case Persist => PersistKeepsJobs(s.db, s.phase);
    case _ =>
  }

  lemma EnvKeepsSigned(db: Db, op: EnvOp)
    requires SubmittedSigned(db)
    ensures SubmittedSigned(ApplyEnv(db, op))
  {
    hide Rename, DeleteFills, Decrement;
  }

  /** In every run a submitted job carries both signatures. */
  lemma {:induction false} SubmittedIsSigned(steps: seq<Step>)
    ensures SubmittedSigned(Run(START, steps).db)
  {
    hide Next, SubmittedSigned, SystemSound;
    if steps == [] {
      NothingSubmitted();
    } else {
      var rest := steps[..|steps| - 1];
      SubmittedIsSigned(rest);
      StartSound();
      LedgerRuns.RunSound(START, rest);
      StepKeepsSigned(Run(START, rest), steps[|steps| - 1]);
    }
  }

  lemma NothingSubmitted()
    ensures SubmittedSigned(START.db)
  {
  }

  predicate SignedBy(db: Db, hash: TxHash, byMaker: bool) {
    && hash in db.jobs && db.jobs[hash].payload.Some?
    && if byMaker then db.jobs[hash].payload.value.makerSigned else db.jobs[hash].payload.value.takerSigned
  }

  /** A signature appears only when its owner signs. */
  lemma StepSigns(s: System, step: Step, hash: TxHash, byMaker: bool)
    requires SignedBy(Next(s, step).db, hash, byMaker) && !SignedBy(s.db, hash, byMaker)
    ensures step.Env? && step.op.SignEntry? && step.op.hash == hash && step.op.byMaker == byMaker
  {
    match step
    case Env(op) => EnvSigns(s.db, op, hash, byMaker);
    case Persist => PersistKeepsJobs(s.db, s.phase);
    case _ =>
  }

  lemma EnvSigns(db: Db, op: EnvOp, hash: TxHash, byMaker: bool)
    requires SignedBy(ApplyEnv(db, op), hash, byMaker) && !SignedBy(db, hash, byMaker)
    ensures op.SignEntry? && op.hash == hash && op.byMaker == byMaker
  {
    hide Rename, DeleteFills, Decrement;
  }

  /** Over every run, each signature on a job was given by its owner. */
  lemma {:induction false} SignatureWasGiven(steps: seq<Step>, hash: TxHash, byMaker: bool) returns (k: nat)
    requires SignedBy(Run(START, steps).db, hash, byMaker)
    ensures k < |steps| && steps[k].Env? && steps[k].op.SignEntry?
    ensures steps[k].op.hash == hash && steps[k].op.byMaker == byMaker
  {
    hide Next, SignedBy;
    assert steps != [] by {
      NothingSigned(steps, hash, byMaker);
    }
    var n := |steps| - 1;
    if SignedBy(Run(START, steps[..n]).db, hash, byMaker) {
      k := SignatureWasGiven(steps[..n], hash, byMaker);
    } else {
      StepSigns(Run(START, steps[..n]), steps[n], hash, byMaker);
      k := n;
    }
  }

  lemma NothingSigned(steps: seq<Step>, hash: TxHash, byMaker: bool)
    requires SignedBy(Run(START, steps).db, hash, byMaker)
    ensures steps != []
  {
  }
}
