/**
 Order, Fill and TxJob rows, and what each database routine of the matcher, the
 sign route and the reconciler does to them. Each routine is one atomic step.
 */
module FillLedger {
  import opened Outcomes
  import opened MapSums
  import opened Numbers
  import opened Matching

  /** The pseudo-hash of an off-chain fill, taken as injective, or the hash of an on-chain transaction. */
  datatype TxHash = PendingHash(maker: OrderId, taker: OrderId, size: int) | ChainHash(tag: nat)

  /** `order.filledSize` is the row's filledSize column. */
  datatype OrderRow = OrderRow(order: Order, cancelled: bool)

  datatype FillKey = FillKey(hash: TxHash, maker: OrderId, taker: OrderId) {
    /** What a row of this key and size contributes to an order. */
    function Part(id: OrderId, size: int): int {
      (if maker == id then size else 0) + (if taker == id then size else 0)
    }
  }

  datatype FillRow = FillRow(size: int, price: int)

  datatype Status = Queued | Submitted | Confirmed | Failed

  datatype Payload = Payload(maker: OrderId, taker: OrderId, size: int, makerSigned: bool, takerSigned: bool)

  /**
   A job row, keyed by the fill's pending hash; `submittedHash` is the tag of a
   ChainHash. A job inserted as already confirmed has an empty payload.
   */
  datatype Job = Job(status: Status, payload: Option<Payload>, submittedHash: Option<nat>) {
    predicate Active() {
      status == Queued || status == Submitted
    }
  }

  datatype Db = Db(orders: map<OrderId, OrderRow>, fills: map<FillKey, FillRow>, jobs: map<TxHash, Job>) {
    function Filled(id: OrderId): int {
      if id in orders then orders[id].order.filledSize else 0
    }
  }

  // ----- Rows

  function SetFilled(orders: map<OrderId, OrderRow>, id: OrderId, filled: int): map<OrderId, OrderRow> {
    if id in orders then orders[id := orders[id].(order := orders[id].order.(filledSize := filled))] else orders
  }

  /** The guarded increment: None when no row satisfies the guard. */
  function Increment(orders: map<OrderId, OrderRow>, id: OrderId, size: int): Option<map<OrderId, OrderRow>> {
    if id in orders && orders[id].order.filledSize + size <= orders[id].order.size
    then Some(SetFilled(orders, id, orders[id].order.filledSize + size))
    else None
  }

  /** The clamped decrement. */
  function Decrement(orders: map<OrderId, OrderRow>, id: OrderId, size: int): map<OrderId, OrderRow> {
    if id in orders then SetFilled(orders, id, Max(0, orders[id].order.filledSize - size)) else orders
  }

  function DeleteFills(fills: map<FillKey, FillRow>, hash: TxHash): map<FillKey, FillRow> {
    map k | k in fills && k.hash != hash :: fills[k]
  }

  /** The unique constraint refuses a rename onto an existing row. */
  function Rename(fills: map<FillKey, FillRow>, key: FillKey, hash: TxHash): map<FillKey, FillRow> {
    var renamed := key.(hash := hash);
    if key in fills && renamed !in fills then (fills - {key})[renamed := fills[key]] else fills
  }

  function PendingKey(m: Match): FillKey {
    FillKey(PendingHash(m.maker.Id(), m.taker.Id(), m.fillSize), m.maker.Id(), m.taker.Id())
  }

  // ----- Matcher

  /** Inserts the fill unless it exists, then increments both orders; a failed guard stops half way. */
  function PersistFill(db: Db, m: Match): (Db, bool) {
    var key := PendingKey(m);
    if key in db.fills then (db, false)
    else
      var inserted := db.(fills := db.fills[key := FillRow(m.fillSize, m.fillPrice)]);
      var maker := Increment(inserted.orders, m.maker.Id(), m.fillSize);
      if maker.None? then (inserted, false)
      else
        var half := inserted.(orders := maker.value);
        var taker := Increment(half.orders, m.taker.Id(), m.fillSize);
        if taker.None? then (half, false) else (half.(orders := taker.value), true)
  }

  function RollbackFill(db: Db, m: Match): Db {
    RollbackRows(db, m.maker.Id(), m.taker.Id(), m.fillSize)
  }

  function RollbackRows(db: Db, maker: OrderId, taker: OrderId, size: int): Db {
    db.(fills := DeleteFills(db.fills, PendingHash(maker, taker, size)),
        orders := Decrement(Decrement(db.orders, maker, size), taker, size))
  }

  /** How on-chain settlement of a persisted fill went. */
  datatype Settlement = NotSettled | SettledSigned(chain: nat) | QueuedForAuth

  function ExecuteSettlement(db: Db, m: Match, outcome: Settlement): Db {
    var hash := PendingKey(m).hash;
    match outcome
    case NotSettled => RollbackFill(db, m)
    case SettledSigned(chain) =>
      var job := if hash in db.jobs then db.jobs[hash].(status := Confirmed, submittedHash := Some(chain))
                 else Job(Confirmed, None, Some(chain));
      db.(jobs := db.jobs[hash := job])
    case QueuedForAuth =>
      var payload := Some(Payload(m.maker.Id(), m.taker.Id(), m.fillSize, false, false));
      var job := if hash in db.jobs then db.jobs[hash].(payload := payload) else Job(Queued, payload, None);
      db.(jobs := db.jobs[hash := job])
  }

  // ----- Everyone else

  /** How a submission went once its job was claimed; Unsent stops before anything was sent or recorded. */
  datatype Sent = Unsent | SendError | SentSuccess(chain: nat) | SentFailed(chain: nat) | SentWaiting(chain: nat)

  datatype Poll = PollSuccess | PollFailed | PollNotFound(resubmitted: Sent)

  datatype EnvOp =
    | PlaceOrder(order: Order)
    | CancelOrder(id: OrderId)
    | SignEntry(hash: TxHash, byMaker: bool, sent: Sent)
    | Reconcile(hash: TxHash, poll: Poll)
    | ResubmitReady(hash: TxHash, sent: Sent)
    | ExpireStale(hash: TxHash)

  function SetJob(db: Db, hash: TxHash, job: Job): Db {
    db.(jobs := db.jobs[hash := job])
  }

  /** The sign route: merge one signature into a queued job; whoever completes the pair claims and submits it. */
  function Sign(db: Db, hash: TxHash, byMaker: bool, sent: Sent): Db {
    if hash !in db.jobs || db.jobs[hash].status != Queued || db.jobs[hash].payload.None? then db
    else
      var job, p := db.jobs[hash], db.jobs[hash].payload.value;
      var merged := if byMaker then p.(makerSigned := true) else p.(takerSigned := true);
      var signed := job.(payload := Some(merged));
      if !(merged.makerSigned && merged.takerSigned) then SetJob(db, hash, signed)
      else if sent.Unsent? then SetJob(db, hash, signed.(status := Submitted))
      else if sent.SendError? then SetJob(db, hash, signed.(status := Failed))
      else SetJob(db, hash, signed.(status := Submitted, submittedHash := Some(sent.chain)))
  }

  /** Marks the job confirmed and renames its fill row to the on-chain hash. */
  function Confirm(db: Db, hash: TxHash, chain: nat): Db
    requires hash in db.jobs && db.jobs[hash].payload.Some?
  {
    var job, p := db.jobs[hash], db.jobs[hash].payload.value;
    SetJob(db, hash, job.(status := Confirmed, submittedHash := Some(chain)))
      .(fills := Rename(db.fills, FillKey(hash, p.maker, p.taker), ChainHash(chain)))
  }

  function ReconcileSubmitted(db: Db, hash: TxHash, poll: Poll): Db {
    if hash !in db.jobs || db.jobs[hash].status != Submitted || db.jobs[hash].submittedHash.None? then db
    else
      var job := db.jobs[hash];
      match poll
      case PollSuccess =>
        if job.payload.Some? then Confirm(db, hash, job.submittedHash.value)
        else SetJob(db, hash, job.(status := Confirmed))
      case PollFailed => SetJob(db, hash, job.(status := Failed))
      case PollNotFound(sent) => ResubmitJob(db, hash, sent)
  }

  /** The claim admits a queued job, or a submitted one that never got a hash. */
  function ResubmitJob(db: Db, hash: TxHash, sent: Sent): Db {
    if hash !in db.jobs || db.jobs[hash].payload.None? then db
    else
      var job, p := db.jobs[hash], db.jobs[hash].payload.value;
      if !p.makerSigned || !p.takerSigned then db
      else if job.status != Queued && !(job.status == Submitted && job.submittedHash.None?) then db
      else
        match sent
        case Unsent => SetJob(db, hash, job.(status := Submitted))
        case SendError => SetJob(db, hash, job.(status := Failed))
        case SentSuccess(chain) => Confirm(db, hash, chain)
        case SentFailed(chain) => SetJob(db, hash, job.(status := Failed, submittedHash := Some(chain)))
        case SentWaiting(chain) => SetJob(db, hash, job.(status := Submitted, submittedHash := Some(chain)))
  }

  /** A queued job whose signatures never came: undo its fill and fail it. */
  function ExpireStaleQueued(db: Db, hash: TxHash): Db {
    if hash !in db.jobs || db.jobs[hash].status != Queued then db
    else
      var job := db.jobs[hash];
      if job.payload.Some? && job.payload.value.makerSigned && job.payload.value.takerSigned then db
      else
        var undone := if job.payload.None? then db
                      else RollbackRows(db, job.payload.value.maker, job.payload.value.taker, job.payload.value.size);
        SetJob(undone, hash, job.(status := Failed))
  }

  /** Intake inserts an unfilled order; an existing id is left alone. */
  function InsertOrder(db: Db, o: Order): Db {
    if o.Id() in db.orders || o.size <= 0 then db
    else db.(orders := db.orders[o.Id() := OrderRow(o.(filledSize := 0), false)])
  }

  function MarkCancelled(db: Db, id: OrderId): Db {
    if id in db.orders then db.(orders := db.orders[id := db.orders[id].(cancelled := true)]) else db
  }

  function ApplyEnv(db: Db, op: EnvOp): Db {
    match op
    case PlaceOrder(o) => InsertOrder(db, o)
    case CancelOrder(id) => MarkCancelled(db, id)
    case SignEntry(hash, byMaker, sent) => Sign(db, hash, byMaker, sent)
    case Reconcile(hash, poll) => ReconcileSubmitted(db, hash, poll)
    case ResubmitReady(hash, sent) => ResubmitJob(db, hash, sent)
    case ExpireStale(hash) => ExpireStaleQueued(db, hash)
  }

  // ----- The books

  ghost function PartsOf(fills: map<FillKey, FillRow>, id: OrderId): map<FillKey, int> {
    map k | k in fills :: k.Part(id, fills[k].size)
  }

  /** Size of all live fill rows naming the order. */
  ghost function FilledByRows(fills: map<FillKey, FillRow>, id: OrderId): int {
    Sum(PartsOf(fills, id))
  }

  predicate FillSane(db: Db, k: FillKey)
    requires k in db.fills
  {
    && db.fills[k].size > 0
    && k.maker in db.orders && k.taker in db.orders && k.maker != k.taker
    && (k.hash.PendingHash? ==> k.hash == PendingHash(k.maker, k.taker, db.fills[k].size))
  }

  ghost predicate Balanced(db: Db) {
    forall id | id in db.orders :: db.orders[id].order.filledSize == FilledByRows(db.fills, id)
  }

  ghost predicate WithinSize(db: Db) {
    forall id | id in db.orders ::
      db.orders[id].order.Id() == id && db.orders[id].order.filledSize <= db.orders[id].order.size
  }

  /** A queued or submitted job's fill row is live under its pending hash, and names the job's parties and size. */
  ghost predicate JobLive(db: Db, hash: TxHash)
    requires hash in db.jobs
  {
    db.jobs[hash].Active() ==>
      && db.jobs[hash].payload.Some?
      && var p := db.jobs[hash].payload.value;
         hash == PendingHash(p.maker, p.taker, p.size) && FillKey(hash, p.maker, p.taker) in db.fills
  }

  ghost predicate RowsSane(db: Db) {
    forall k | k in db.fills :: FillSane(db, k)
  }

  ghost predicate JobsLive(db: Db) {
    forall hash | hash in db.jobs :: JobLive(db, hash)
  }

  ghost predicate Sound(db: Db) {
    RowsSane(db) && Balanced(db) && WithinSize(db) && JobsLive(db)
  }
}
