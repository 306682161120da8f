/** The rows of the image-job protocol and the meaning of each repository transaction on them. */
module JobRows {
  import opened Options

  type JobId = nat
  type VehicleId = nat
  type AssetId = nat
  type WorkerId = nat
  type ClaimToken = nat
  type BatchKey = nat
  type Time = int

  datatype JobStatus = Created | Queued | Processing | Completed | Failed | Retrying | Cancelled
  datatype AttemptStatus = Claimed | Started | Succeeded | Fell
  datatype VehicleStatus = Draft | Uploading | VehicleProcessing | Ready | PartiallyFailed | Archived
  datatype UsageEvent = BackgroundRemovalCompleted(job: JobId) | VehicleProcessingBatchCreated(job: JobId)

  datatype FailureKind =
    | Authorization | ContentBlocked | Internal | InvalidImage | InvalidRequest | Network | PaymentRequired
    | NonCarImage | Provider429 | Provider5xx | Timeout | UnsupportedFormat | UnusableProviderResult

  datatype Job = Job(
    vehicle: VehicleId, asset: AssetId, batch: Option<BatchKey>, createdAt: Time, status: JobStatus,
    attemptCount: nat, maxAttempts: nat, worker: Option<WorkerId>, claimExpiresAt: Option<Time>,
    nextAttemptAt: Option<Time>, error: Option<FailureKind>)

  datatype Attempt = Attempt(status: AttemptStatus, retryable: Option<bool>)

  datatype OutboxRow = OutboxRow(
    attemptCount: nat, nextAttemptAt: Time, createdAt: Time, claim: Option<ClaimToken>, claimExpiresAt: Option<Time>,
    published: bool)

  datatype Db = Db(
    jobs: map<JobId, Job>, attempts: map<(JobId, nat), Attempt>, usage: multiset<UsageEvent>, assets: multiset<JobId>,
    outbox: map<JobId, OutboxRow>, invalid: set<AssetId>, vehicles: map<VehicleId, VehicleStatus>)

  predicate Terminal(s: JobStatus) {
    s == Completed || s == Failed || s == Cancelled
  }

  predicate Active(s: JobStatus) {
    s == Created || s == Queued || s == Processing || s == Retrying
  }

  /** A queue message for the job is not recorded as sent. */
  predicate AwaitsPublication(s: JobStatus) {
    s == Created || s == Retrying
  }

  predicate NeedsAttention(s: JobStatus) {
    s == Failed || s == Cancelled
  }

  // ----- the vehicle -----

  /** `a` is listed before `b` when jobs are ordered newest first. */
  predicate NewerOrSame(jobs: map<JobId, Job>, a: JobId, b: JobId)
    requires a in jobs && b in jobs
  {
    jobs[a].createdAt > jobs[b].createdAt || (jobs[a].createdAt == jobs[b].createdAt && a >= b)
  }

  predicate BelongsTo(jobs: map<JobId, Job>, id: JobId, v: VehicleId) {
    id in jobs && jobs[id].vehicle == v
  }

  ghost predicate IsLatest(jobs: map<JobId, Job>, v: VehicleId, id: JobId) {
    BelongsTo(jobs, id, v) && forall other :: BelongsTo(jobs, other, v) ==> NewerOrSame(jobs, id, other)
  }

  predicate InBatchOf(jobs: map<JobId, Job>, latest: JobId, id: JobId)
    requires latest in jobs && id in jobs
  {
    if jobs[latest].batch.Some? then jobs[id].batch == jobs[latest].batch else id == latest
  }

  ghost predicate AnyActive(jobs: map<JobId, Job>, v: VehicleId) {
    exists id :: BelongsTo(jobs, id, v) && Active(jobs[id].status)
  }

  /** The batch of the vehicle's newest job holds a failed or cancelled job. */
  ghost predicate LatestBatchFailed(jobs: map<JobId, Job>, v: VehicleId) {
    exists latest, id :: IsLatest(jobs, v, latest) && BelongsTo(jobs, id, v) && InBatchOf(jobs, latest, id) && NeedsAttention(jobs[id].status)
  }

  /** What a transaction that finishes a job leaves as the vehicle's status. */
  ghost function Settled(jobs: map<JobId, Job>, vehicles: map<VehicleId, VehicleStatus>, v: VehicleId): map<VehicleId, VehicleStatus> {
    if AnyActive(jobs, v) || v !in vehicles || vehicles[v] != VehicleProcessing then vehicles
    else vehicles[v := if LatestBatchFailed(jobs, v) then PartiallyFailed else Ready]
  }

  // ----- claiming, completing and failing a job -----

  datatype ClaimResult = NotFound | TerminalJob | AwaitingPublication | ClaimBusy | NotReady | JobClaimed(attemptNumber: nat)

  predicate LeaseExpired(job: Job, now: Time) {
    job.status == Processing && job.claimExpiresAt.Some? && job.claimExpiresAt.value <= now
  }

  /** Marks attempt `n` of the job failed if it is still open. */
  function CloseAttempt(attempts: map<(JobId, nat), Attempt>, id: JobId, n: nat, retryable: bool): map<(JobId, nat), Attempt> {
    if (id, n) in attempts && attempts[(id, n)].status in {Claimed, Started}
    then attempts[(id, n) := Attempt(Fell, Some(retryable))] else attempts
  }

  function Leased(job: Job, worker: WorkerId, expiresAt: Time): Job {
    job.(attemptCount := job.attemptCount + 1, claimExpiresAt := Some(expiresAt), nextAttemptAt := None,
         status := Processing, worker := Some(worker))
  }

  function Released(job: Job, status: JobStatus, error: Option<FailureKind>, nextAttemptAt: Option<Time>): Job {
    job.(claimExpiresAt := None, error := error, nextAttemptAt := nextAttemptAt, status := status, worker := None)
  }

  /** The retry budget ran out while a lease was held: the attempt and the job fail. */
  ghost function Exhaust(db: Db, id: JobId): Db
    requires id in db.jobs
  {
    var job := db.jobs[id];
    var jobs := db.jobs[id := Released(job, Failed, Some(Internal), job.nextAttemptAt)];
    db.(attempts := CloseAttempt(db.attempts, id, job.attemptCount, false), jobs := jobs,
        vehicles := Settled(jobs, db.vehicles, job.vehicle))
  }

  /** A worker takes the lease: a new started attempt, the expired one closed. */
  ghost function Lease(db: Db, id: JobId, worker: WorkerId, now: Time, expiresAt: Time): Db
    requires id in db.jobs
  {
    var job := db.jobs[id];
    var closed := if LeaseExpired(job, now) then CloseAttempt(db.attempts, id, job.attemptCount, true) else db.attempts;
    db.(jobs := db.jobs[id := Leased(job, worker, expiresAt)],
        attempts := closed[(id, job.attemptCount + 1) := Attempt(Started, None)])
  }

  function ClaimOutcome(db: Db, id: JobId, now: Time): ClaimResult {
    if id !in db.jobs then NotFound
    else
      var job := db.jobs[id];
      if Terminal(job.status) then TerminalJob
      else if AwaitsPublication(job.status) then AwaitingPublication
      else if job.status == Processing && !LeaseExpired(job, now) then ClaimBusy
      else if job.status != Queued && !LeaseExpired(job, now) then NotReady
      else if LeaseExpired(job, now) && job.attemptCount >= job.maxAttempts then TerminalJob
      else JobClaimed(job.attemptCount + 1)
  }

  ghost function Claim(db: Db, id: JobId, worker: WorkerId, now: Time, expiresAt: Time): Db {
    match ClaimOutcome(db, id, now)
    case JobClaimed(_) => Lease(db, id, worker, now, expiresAt)
    case TerminalJob => if Terminal(db.jobs[id].status) then db else Exhaust(db, id)
    case _ => db
  }

  datatype CompleteResult = CompletionNotFound | AlreadyCompleted | CompletionClaimLost | CompletionStored

  function CompleteOutcome(db: Db, id: JobId, worker: WorkerId): CompleteResult {
    if id !in db.jobs then CompletionNotFound
    else if db.jobs[id].status == Completed && id in db.assets then AlreadyCompleted
    else if db.jobs[id].status != Processing || db.jobs[id].worker != Some(worker) then CompletionClaimLost
    else CompletionStored
  }

  function Succeed(attempts: map<(JobId, nat), Attempt>, id: JobId, n: nat): map<(JobId, nat), Attempt> {
    if (id, n) in attempts && attempts[(id, n)].status == Started
    then attempts[(id, n) := Attempt(Succeeded, Some(false))] else attempts
  }

  ghost function Complete(db: Db, id: JobId, worker: WorkerId, attemptNumber: nat): Db {
    if CompleteOutcome(db, id, worker) != CompletionStored then db
    else
      var job := db.jobs[id];
      var jobs := db.jobs[id := Released(job, Completed, None, None)];
      db.(assets := db.assets + multiset{id}, usage := db.usage + multiset{BackgroundRemovalCompleted(id)},
          attempts := Succeed(db.attempts, id, attemptNumber), jobs := jobs, vehicles := Settled(jobs, db.vehicles, job.vehicle))
  }

  datatype FailResult = FailureNotFound | FailureClaimLost | RetryScheduled | FailureStored

  function RetryableKind(kind: FailureKind): bool {
    match kind
    case Network | Provider429 | Provider5xx | Timeout => true
    case _ => false
  }

  predicate BlamesImage(kind: FailureKind) {
    kind == InvalidImage || kind == NonCarImage || kind == UnsupportedFormat
  }

  function FailOutcome(db: Db, id: JobId, worker: WorkerId, retryable: bool): FailResult {
    if id !in db.jobs then FailureNotFound
    else if db.jobs[id].status != Processing || db.jobs[id].worker != Some(worker) then FailureClaimLost
    else if retryable && db.jobs[id].attemptCount < db.jobs[id].maxAttempts then RetryScheduled
    else FailureStored
  }

  function FallAttempt(attempts: map<(JobId, nat), Attempt>, id: JobId, n: nat, retryable: bool): map<(JobId, nat), Attempt> {
    if (id, n) in attempts && attempts[(id, n)].status == Started
    then attempts[(id, n) := Attempt(Fell, Some(retryable))] else attempts
  }

  function Unpublished(row: OutboxRow, nextAttemptAt: Time): OutboxRow {
    row.(attemptCount := 0, claim := None, claimExpiresAt := None, nextAttemptAt := nextAttemptAt, published := false)
  }

  ghost function Fail(db: Db, id: JobId, worker: WorkerId, attemptNumber: nat, kind: FailureKind, retryable: bool, nextAttemptAt: Time): Db {
    match FailOutcome(db, id, worker, retryable)
    case RetryScheduled =>
      db.(attempts := FallAttempt(db.attempts, id, attemptNumber, true),
          jobs := db.jobs[id := Released(db.jobs[id], Retrying, Some(kind), Some(nextAttemptAt))],
          outbox := if id in db.outbox then db.outbox[id := Unpublished(db.outbox[id], nextAttemptAt)] else db.outbox)
    case FailureStored =>
      var job := db.jobs[id];
      var jobs := db.jobs[id := Released(job, Failed, Some(kind), None)];
      db.(attempts := FallAttempt(db.attempts, id, attemptNumber, false), jobs := jobs,
          invalid := if BlamesImage(kind) then db.invalid + {job.asset} else db.invalid,
          vehicles := Settled(jobs, db.vehicles, job.vehicle))
    case _ => db
  }

  // ----- the outbox -----

  predicate Dispatchable(db: Db, id: JobId, now: Time) {
    && id in db.outbox && id in db.jobs && !db.outbox[id].published && db.outbox[id].nextAttemptAt <= now
    && (db.outbox[id].claimExpiresAt == None || db.outbox[id].claimExpiresAt.value <= now)
    && AwaitsPublication(db.jobs[id].status)
  }

  function ClaimedRow(row: OutboxRow, token: ClaimToken, expiresAt: Time): OutboxRow {
    row.(attemptCount := row.attemptCount + 1, claim := Some(token), claimExpiresAt := Some(expiresAt))
  }

  function ClaimRows(db: Db, chosen: set<JobId>, token: ClaimToken, expiresAt: Time): Db {
    db.(outbox := map id | id in db.outbox :: if id in chosen then ClaimedRow(db.outbox[id], token, expiresAt) else db.outbox[id])
  }

  /** The acknowledgement is still owed: the claim matches, and the job still awaits publication. */
  predicate Acknowledges(db: Db, id: JobId, token: ClaimToken) {
    && id in db.outbox && db.outbox[id].claim == Some(token) && !db.outbox[id].published
    && id in db.jobs && AwaitsPublication(db.jobs[id].status)
  }

  function PublishedRow(row: OutboxRow): OutboxRow {
    row.(claim := None, claimExpiresAt := None, published := true)
  }

  function QueuedJob(job: Job): Job {
    job.(nextAttemptAt := None, status := Queued)
  }

  function MarkRows(db: Db, ids: set<JobId>, token: ClaimToken): Db {
    db.(outbox := map id | id in db.outbox :: if id in ids && Acknowledges(db, id, token) then PublishedRow(db.outbox[id]) else db.outbox[id],
        jobs := map id | id in db.jobs :: if id in ids && Acknowledges(db, id, token) then QueuedJob(db.jobs[id]) else db.jobs[id])
  }

  predicate Releases(db: Db, id: JobId, token: ClaimToken) {
    id in db.outbox && db.outbox[id].claim == Some(token) && !db.outbox[id].published
  }

  function ReleaseRow(db: Db, id: JobId, token: ClaimToken, nextAttemptAt: Time): Db {
    if Releases(db, id, token)
    then db.(outbox := db.outbox[id := db.outbox[id].(claim := None, claimExpiresAt := None, nextAttemptAt := nextAttemptAt)])
    else db
  }

  // ----- reserving a batch -----

  predicate Processable(s: VehicleStatus) {
    s == Draft || s == Ready || s == PartiallyFailed
  }

  datatype NewJob = NewJob(asset: AssetId, createdAt: Time, maxAttempts: nat)

  function ReservedJob(v: VehicleId, batch: BatchKey, n: NewJob): Job {
    Job(v, n.asset, Some(batch), n.createdAt, Created, 0, n.maxAttempts, None, None, None, None)
  }

  function ReservedRow(n: NewJob): OutboxRow {
    OutboxRow(0, n.createdAt, n.createdAt, None, None, false)
  }

  function Reserve(db: Db, v: VehicleId, batch: BatchKey, added: map<JobId, NewJob>, usageJob: JobId): Db {
    db.(vehicles := db.vehicles[v := VehicleProcessing],
        jobs := map id | id in db.jobs.Keys + added.Keys :: if id in added then ReservedJob(v, batch, added[id]) else db.jobs[id],
        outbox := map id | id in db.outbox.Keys + added.Keys :: if id in added then ReservedRow(added[id]) else db.outbox[id],
        usage := db.usage + multiset{VehicleProcessingBatchCreated(usageJob)})
  }
}
