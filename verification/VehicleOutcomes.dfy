/** A vehicle's status follows the newest batch alone, in every state of every run. */
module VehicleOutcomes {
  import opened JobRows
  import opened Options
  import opened JobInvariants
  import opened JobProtocol
  import opened JobProtocolSteps
  import opened JobProtocolTheorems

  type Newest = map<VehicleId, set<JobId>>

  /** `jobs` are exactly the vehicle's jobs of one batch, and all its other jobs are older. */
  ghost predicate IsNewestBatch(jobs: map<JobId, Job>, v: VehicleId, batch: set<JobId>) {
    && batch != {}
    && (exists key :: forall id :: id in batch <==> BelongsTo(jobs, id, v) && jobs[id].batch == Some(key))
    && forall id, other :: id in batch && BelongsTo(jobs, other, v) && other !in batch ==> jobs[other].createdAt < jobs[id].createdAt
  }

  /** `newest` names the newest batch of every vehicle that was ever processed. */
  ghost predicate BatchesOk(jobs: map<JobId, Job>, newest: Newest) {
    && (forall id :: id in jobs ==> jobs[id].vehicle in newest)
    && forall v :: v in newest ==> IsNewestBatch(jobs, v, newest[v])
  }

  ghost predicate AnyFailed(jobs: map<JobId, Job>, batch: set<JobId>) {
    exists id :: id in batch && id in jobs && NeedsAttention(jobs[id].status)
  }

  /** A vehicle without active jobs needs attention exactly if its newest batch holds a failed or cancelled job. */
  ghost predicate OutcomeOk(jobs: map<JobId, Job>, vehicles: map<VehicleId, VehicleStatus>, newest: Newest) {
    forall v :: v in newest && !AnyActive(jobs, v) ==>
      v in vehicles && vehicles[v] == if AnyFailed(jobs, newest[v]) then PartiallyFailed else Ready
  }

  // ----- the newest job belongs to the newest batch -----

  lemma LatestIsInNewestBatch(jobs: map<JobId, Job>, v: VehicleId, batch: set<JobId>)
    requires IsNewestBatch(jobs, v, batch)
    ensures LatestBatchFailed(jobs, v) <==> AnyFailed(jobs, batch)
  {
    var key :| forall id :: id in batch <==> BelongsTo(jobs, id, v) && jobs[id].batch == Some(key);
    forall latest | IsLatest(jobs, v, latest) ensures latest in batch {
      var b :| b in batch;
      assert NewerOrSame(jobs, latest, b);
    }
    if AnyFailed(jobs, batch) {
      var id :| id in batch && id in jobs && NeedsAttention(jobs[id].status);
      var mine := set i | i in jobs && jobs[i].vehicle == v;
      assert id in mine;
      var latest := NewestExists(jobs, mine);
      assert IsLatest(jobs, v, latest);
      assert InBatchOf(jobs, latest, id);
    }
  }

  // ----- one transaction -----

  /** The same jobs, of the same vehicles and batches. */
  ghost predicate SameBatches(a: map<JobId, Job>, b: map<JobId, Job>) {
    a.Keys == b.Keys && forall id :: id in a ==>
      b[id].vehicle == a[id].vehicle && b[id].batch == a[id].batch && b[id].createdAt == a[id].createdAt
  }

  lemma NewestBatchKept(a: map<JobId, Job>, b: map<JobId, Job>, v: VehicleId, batch: set<JobId>)
    requires IsNewestBatch(a, v, batch)
    requires forall id :: BelongsTo(b, id, v) <==> BelongsTo(a, id, v)
    requires forall id :: BelongsTo(a, id, v) && BelongsTo(b, id, v) ==> b[id].batch == a[id].batch && b[id].createdAt == a[id].createdAt
    ensures IsNewestBatch(b, v, batch)
  {
    var key :| forall id :: id in batch <==> BelongsTo(a, id, v) && a[id].batch == Some(key);
    assert forall id :: id in batch <==> BelongsTo(b, id, v) && b[id].batch == Some(key);
  }

  lemma NewestBatchMembers(jobs: map<JobId, Job>, v: VehicleId, batch: set<JobId>)
    requires IsNewestBatch(jobs, v, batch)
    ensures forall id :: id in batch ==> BelongsTo(jobs, id, v)
  {
  }

  lemma SameStatusesSameFailures(a: map<JobId, Job>, b: map<JobId, Job>, batch: set<JobId>)
    requires forall id :: id in batch ==> id in a && id in b && b[id].status == a[id].status
    ensures AnyFailed(a, batch) <==> AnyFailed(b, batch)
  {
  }

  lemma BatchesKept(a: map<JobId, Job>, b: map<JobId, Job>, newest: Newest)
    requires SameBatches(a, b) && BatchesOk(a, newest)
    ensures BatchesOk(b, newest)
  {
    hide IsNewestBatch;
    forall v | v in newest ensures IsNewestBatch(b, v, newest[v]) {
      NewestBatchKept(a, b, v, newest[v]);
    }
  }

  lemma FailedElsewhere(jobs: map<JobId, Job>, newest: Newest, id: JobId, job: Job, v: VehicleId)
    requires BatchesOk(jobs, newest) && id in jobs && v in newest && v != jobs[id].vehicle
    ensures AnyFailed(jobs[id := job], newest[v]) <==> AnyFailed(jobs, newest[v])
  {
    hide IsNewestBatch, AnyFailed;
    NewestBatchMembers(jobs, v, newest[v]);
    SameStatusesSameFailures(jobs, jobs[id := job], newest[v]);
  }

  /** Finishing a job gives its vehicle the outcome of the newest batch once nothing is active. */
  lemma FinishGivesOutcome(jobs: map<JobId, Job>, vehicles: map<VehicleId, VehicleStatus>, newest: Newest, id: JobId, job: Job)
    requires VehiclesOk(jobs, vehicles) && BatchesOk(jobs, newest) && OutcomeOk(jobs, vehicles, newest)
    requires id in jobs && jobs[id].vehicle in vehicles && Active(jobs[id].status) && !Active(job.status)
    requires job.vehicle == jobs[id].vehicle && job.batch == jobs[id].batch && job.createdAt == jobs[id].createdAt
    ensures BatchesOk(jobs[id := job], newest)
    ensures OutcomeOk(jobs[id := job], Settled(jobs[id := job], vehicles, job.vehicle), newest)
  {
    hide IsNewestBatch, LatestBatchFailed, AnyFailed, VehiclesOk, AnyActive, OutcomeOk;
    var after := jobs[id := job];
    BatchesKept(jobs, after, newest);
    var settled := Settled(after, vehicles, job.vehicle);
    forall v | v in newest && !AnyActive(after, v)
      ensures v in settled && settled[v] == if AnyFailed(after, newest[v]) then PartiallyFailed else Ready
    {
      OutcomeAfterFinish(jobs, vehicles, newest, id, job, v);
    }
    OutcomeOkOf(after, settled, newest);
  }

  lemma OutcomeOkOf(jobs: map<JobId, Job>, vehicles: map<VehicleId, VehicleStatus>, newest: Newest)
    requires forall v :: v in newest && !AnyActive(jobs, v) ==>
      v in vehicles && vehicles[v] == if AnyFailed(jobs, newest[v]) then PartiallyFailed else Ready
    ensures OutcomeOk(jobs, vehicles, newest)
  {
  }

  lemma OutcomeAfterFinish(jobs: map<JobId, Job>, vehicles: map<VehicleId, VehicleStatus>, newest: Newest, id: JobId, job: Job, v: VehicleId)
    requires VehiclesOk(jobs, vehicles) && BatchesOk(jobs, newest) && OutcomeOk(jobs, vehicles, newest)
    requires id in jobs && jobs[id].vehicle in vehicles && Active(jobs[id].status) && !Active(job.status)
    requires job.vehicle == jobs[id].vehicle && job.batch == jobs[id].batch && job.createdAt == jobs[id].createdAt
    requires v in newest && !AnyActive(jobs[id := job], v)
    ensures var after, settled := jobs[id := job], Settled(jobs[id := job], vehicles, job.vehicle);
            v in settled && settled[v] == if AnyFailed(after, newest[v]) then PartiallyFailed else Ready
  {
    hide IsNewestBatch, LatestBatchFailed, AnyFailed, AnyActive, BatchesOk;
    var after := jobs[id := job];
    BatchesKept(jobs, after, newest);
    if v == job.vehicle {
      WasProcessing(jobs, vehicles, id);
      NewestOf(after, newest, v);
      LatestIsInNewestBatch(after, v, newest[v]);
    } else {
      OtherVehiclesKeep(jobs, id, job, v);
      FailedElsewhere(jobs, newest, id, job, v);
    }
  }

  lemma NewestOf(jobs: map<JobId, Job>, newest: Newest, v: VehicleId)
    requires BatchesOk(jobs, newest) && v in newest
    ensures IsNewestBatch(jobs, v, newest[v])
  {
  }

  lemma WasProcessing(jobs: map<JobId, Job>, vehicles: map<VehicleId, VehicleStatus>, id: JobId)
    requires VehiclesOk(jobs, vehicles) && id in jobs && jobs[id].vehicle in vehicles && Active(jobs[id].status)
    ensures vehicles[jobs[id].vehicle] == VehicleProcessing
  {
    assert BelongsTo(jobs, id, jobs[id].vehicle);
  }

  /** A transaction that changes no finished job and no job's activity leaves every outcome. */
  lemma QuietKeepsOutcome(a: map<JobId, Job>, b: map<JobId, Job>, vehicles: map<VehicleId, VehicleStatus>, newest: Newest)
    requires SameBatches(a, b) && BatchesOk(a, newest) && OutcomeOk(a, vehicles, newest)
    requires forall id :: id in a ==> (Active(b[id].status) <==> Active(a[id].status)) && (!Active(a[id].status) ==> b[id] == a[id])
    ensures BatchesOk(b, newest) && OutcomeOk(b, vehicles, newest)
  {
    hide IsNewestBatch, AnyFailed, AnyActive, OutcomeOk;
    BatchesKept(a, b, newest);
    forall v | v in newest && !AnyActive(b, v)
      ensures v in vehicles && vehicles[v] == if AnyFailed(b, newest[v]) then PartiallyFailed else Ready
    {
      QuietVehicle(a, b, vehicles, newest, v);
    }
    OutcomeOkOf(b, vehicles, newest);
  }

  lemma QuietVehicle(a: map<JobId, Job>, b: map<JobId, Job>, vehicles: map<VehicleId, VehicleStatus>, newest: Newest, v: VehicleId)
    requires SameBatches(a, b) && BatchesOk(a, newest) && OutcomeOk(a, vehicles, newest) && v in newest && !AnyActive(b, v)
    requires forall id :: id in a ==> (Active(b[id].status) <==> Active(a[id].status)) && (!Active(a[id].status) ==> b[id] == a[id])
    ensures v in vehicles && vehicles[v] == if AnyFailed(b, newest[v]) then PartiallyFailed else Ready
  {
    hide IsNewestBatch, AnyFailed;
    NewestOf(a, newest, v);
    NoneActive(a, b, v);
    SettledJobsSame(a, b, v, newest[v]);
  }

  lemma NoneActive(a: map<JobId, Job>, b: map<JobId, Job>, v: VehicleId)
    requires SameBatches(a, b) && forall id :: id in a ==> (Active(b[id].status) <==> Active(a[id].status))
    ensures AnyActive(a, v) ==> AnyActive(b, v)
  {
    if AnyActive(a, v) {
      var w :| BelongsTo(a, w, v) && Active(a[w].status);
      assert BelongsTo(b, w, v) && Active(b[w].status);
    }
  }

  lemma SettledJobsSame(a: map<JobId, Job>, b: map<JobId, Job>, v: VehicleId, batch: set<JobId>)
    requires a.Keys == b.Keys && IsNewestBatch(a, v, batch) && !AnyActive(a, v)
    requires forall id :: id in a && !Active(a[id].status) ==> b[id] == a[id]
    ensures AnyFailed(a, batch) <==> AnyFailed(b, batch)
  {
    hide IsNewestBatch, AnyFailed;
    NewestBatchMembers(a, v, batch);
    SameStatusesSameFailures(a, b, batch);
  }

  // ----- all steps -----

  ghost predicate OutcomesOk(s: Sys) {
    BatchesOk(s.db.jobs, s.newest) && OutcomeOk(s.db.jobs, s.db.vehicles, s.newest)
  }

  lemma ClaimOutcomes(db: Db, newest: Newest, job: JobId, w: WorkerId, now: Time, leaseUntil: Time)
    requires DbOk(db) && BatchesOk(db.jobs, newest) && OutcomeOk(db.jobs, db.vehicles, newest)
    ensures var b := Claim(db, job, w, now, leaseUntil); BatchesOk(b.jobs, newest) && OutcomeOk(b.jobs, b.vehicles, newest)
  {
    hide DbOk, BatchesOk, OutcomeOk, Settled, CloseAttempt, VehiclesOk;
    if ClaimOutcome(db, job, now).JobClaimed? {
      QuietKeepsOutcome(db.jobs, Claim(db, job, w, now, leaseUntil).jobs, db.vehicles, newest);
    } else if ClaimOutcome(db, job, now) == TerminalJob && !Terminal(db.jobs[job].status) {
      VehicleRow(db, job);
      FinishGivesOutcome(db.jobs, db.vehicles, newest, job, Exhaust(db, job).jobs[job]);
    }
  }

  lemma VehicleRow(db: Db, id: JobId)
    requires DbOk(db) && id in db.jobs
    ensures db.jobs[id].vehicle in db.vehicles && VehiclesOk(db.jobs, db.vehicles)
  {
    RowsOf(db, id);
    hide VehiclesOk;
  }

  lemma CompleteOutcomes(db: Db, newest: Newest, job: JobId, w: WorkerId, n: nat)
    requires DbOk(db) && BatchesOk(db.jobs, newest) && OutcomeOk(db.jobs, db.vehicles, newest)
    ensures var b := Complete(db, job, w, n); BatchesOk(b.jobs, newest) && OutcomeOk(b.jobs, b.vehicles, newest)
  {
    hide DbOk, BatchesOk, OutcomeOk, Settled, Succeed, VehiclesOk;
    if CompleteOutcome(db, job, w) == CompletionStored {
      VehicleRow(db, job);
      FinishGivesOutcome(db.jobs, db.vehicles, newest, job, Complete(db, job, w, n).jobs[job]);
    }
  }

  lemma FailOutcomes(db: Db, newest: Newest, job: JobId, w: WorkerId, n: nat, kind: FailureKind, retryable: bool, at: Time)
    requires DbOk(db) && BatchesOk(db.jobs, newest) && OutcomeOk(db.jobs, db.vehicles, newest)
    ensures var b := Fail(db, job, w, n, kind, retryable, at); BatchesOk(b.jobs, newest) && OutcomeOk(b.jobs, b.vehicles, newest)
  {
    hide DbOk, BatchesOk, OutcomeOk, Settled, FallAttempt, VehiclesOk;
    var b := Fail(db, job, w, n, kind, retryable, at);
    if FailOutcome(db, job, w, retryable) == FailureStored {
      VehicleRow(db, job);
      FinishGivesOutcome(db.jobs, db.vehicles, newest, job, b.jobs[job]);
    } else if FailOutcome(db, job, w, retryable) == RetryScheduled {
      QuietKeepsOutcome(db.jobs, b.jobs, db.vehicles, newest);
    }
  }

  lemma ReserveOutcomes(s: Sys, step: Step)
    requires SysOk(s) && OutcomesOk(s) && step.ReserveBatch? && Enabled(s, step)
    ensures OutcomesOk(Apply(s, step))
  {
    hide SysOk, IsNewestBatch, AnyFailed, AnyActive, OutcomeOk;
    var t := Apply(s, step);
    ReservedIsNewest(s, step);
    forall v | v in t.newest ensures IsNewestBatch(t.db.jobs, v, t.newest[v]) {
      if v != step.vehicle { OtherBatchKept(s, step, v); }
    }
    forall v | v in t.newest && !AnyActive(t.db.jobs, v)
      ensures v in t.db.vehicles && t.db.vehicles[v] == if AnyFailed(t.db.jobs, t.newest[v]) then PartiallyFailed else Ready
    {
      OtherOutcomeKept(s, step, v);
    }
    OutcomeOkOf(t.db.jobs, t.db.vehicles, t.newest);
  }

  lemma ReservedIsNewest(s: Sys, step: Step)
    requires step.ReserveBatch? && Enabled(s, step)
    ensures IsNewestBatch(Apply(s, step).db.jobs, step.vehicle, step.added.Keys)
    ensures AnyActive(Apply(s, step).db.jobs, step.vehicle)
  {
    var t := Apply(s, step);
    assert forall id :: id in step.added.Keys <==> BelongsTo(t.db.jobs, id, step.vehicle) && t.db.jobs[id].batch == Some(step.batch) by {
      assert forall id :: BelongsTo(t.db.jobs, id, step.vehicle) && id !in step.added ==> BelongsTo(s.db.jobs, id, step.vehicle);
    }
    assert BelongsTo(t.db.jobs, step.usageJob, step.vehicle) && Active(t.db.jobs[step.usageJob].status);
  }

  /** Other vehicles have the same jobs, with the same rows, after a reservation. */
  lemma OtherJobsKept(s: Sys, step: Step, v: VehicleId)
    requires step.ReserveBatch? && Enabled(s, step) && v != step.vehicle
    ensures var jobs := Apply(s, step).db.jobs;
            forall id :: (BelongsTo(jobs, id, v) <==> BelongsTo(s.db.jobs, id, v)) && (BelongsTo(jobs, id, v) ==> jobs[id] == s.db.jobs[id])
  {
  }

  lemma OtherBatchKept(s: Sys, step: Step, v: VehicleId)
    requires OutcomesOk(s) && step.ReserveBatch? && Enabled(s, step) && v in s.newest && v != step.vehicle
    ensures IsNewestBatch(Apply(s, step).db.jobs, v, s.newest[v])
  {
    hide IsNewestBatch, Apply, Enabled;
    OtherJobsKept(s, step, v);
    NewestBatchKept(s.db.jobs, Apply(s, step).db.jobs, v, s.newest[v]);
  }

  lemma OtherOutcomeKept(s: Sys, step: Step, v: VehicleId)
    requires OutcomesOk(s) && step.ReserveBatch? && Enabled(s, step) && v in s.newest && v != step.vehicle
    requires !AnyActive(Apply(s, step).db.jobs, v)
    ensures v in s.db.vehicles
    ensures s.db.vehicles[v] == if AnyFailed(Apply(s, step).db.jobs, s.newest[v]) then PartiallyFailed else Ready
  {
    hide IsNewestBatch, Apply, Enabled, AnyFailed;
    var jobs := Apply(s, step).db.jobs;
    OtherJobsKept(s, step, v);
    NewestOf(s.db.jobs, s.newest, v);
    NewestBatchMembers(s.db.jobs, v, s.newest[v]);
    SameStatusesSameFailures(s.db.jobs, jobs, s.newest[v]);
  }

  lemma StepKeepsOutcomes(s: Sys, step: Step)
    requires SysOk(s) && OutcomesOk(s) && Enabled(s, step)
    ensures OutcomesOk(Apply(s, step))
  {
    hide DbOk, QueueOk, WorkersOk, TokensOk, SentOk, GuardOk, BatchesOk, OutcomeOk, Claim, Complete, Fail, Reserve;
    match step {
      case ReserveBatch(_, _, _, _) => ReserveOutcomes(s, step);
      case ClaimJob(w, at, leaseUntil, _, _) => ClaimOutcomes(s.db, s.newest, s.workers[w].job, w, at, leaseUntil);
      case CompleteJob(w, _) => CompleteOutcomes(s.db, s.newest, s.workers[w].job, w, s.workers[w].phase.attempt);
      case FailJob(w, kind, at, _) =>
        FailOutcomes(s.db, s.newest, s.workers[w].job, w, s.workers[w].phase.attempt, kind, RetryableKind(kind), at);
      case MarkPublished(token, ids) => QuietKeepsOutcome(s.db.jobs, MarkRows(s.db, ids, token).jobs, s.db.vehicles, s.newest);
      case _ =>
    }
  }

  lemma {:induction false} RunKeepsOutcomes(states: seq<Sys>, steps: seq<Step>, i: nat)
    requires IsRun(states, steps) && i < |states|
    ensures OutcomesOk(states[i])
    decreases i
  {
    hide SysOk, Enabled, Apply;
    if i > 0 {
      RunKeepsOutcomes(states, steps, i - 1);
      RunIsOk(states, steps, i - 1);
      assert Enabled(states[i - 1], steps[i - 1]) && states[i - 1 + 1] == Apply(states[i - 1], steps[i - 1]);
      StepKeepsOutcomes(states[i - 1], steps[i - 1]);
    }
  }

  /**
   * In every state of every run, a vehicle that was ever processed is PROCESSING exactly while one of its jobs is active;
   * otherwise it is PARTIALLY_FAILED exactly if its newest batch holds a failed or cancelled job, whatever earlier batches did.
   */
  lemma VehicleFollowsNewestBatch(states: seq<Sys>, steps: seq<Step>, i: nat, v: VehicleId)
    requires IsRun(states, steps) && i < |states| && v in states[i].newest && v in states[i].db.vehicles
    ensures var (jobs, status) := (states[i].db.jobs, states[i].db.vehicles[v]);
            var active := exists id :: id in jobs && jobs[id].vehicle == v && jobs[id].status in {Created, Queued, Processing, Retrying};
            var failed := exists id :: id in states[i].newest[v] && id in jobs && jobs[id].status in {Failed, Cancelled};
            && (status == VehicleProcessing <==> active)
            && (status == PartiallyFailed <==> !active && failed)
            && (status == Ready <==> !active && !failed)
    ensures IsNewestBatch(states[i].db.jobs, v, states[i].newest[v])
  {
    hide Enabled, Apply, Initial, QueueOk, WorkersOk, TokensOk, SentOk, GuardOk, NoStrays, JobOk, IsNewestBatch;
    RunKeepsOutcomes(states, steps, i);
    RunIsOk(states, steps, i);
    ActiveJobs(states[i].db.jobs, v);
    FailedJobs(states[i].db.jobs, states[i].newest[v]);
    hide AnyFailed, AnyActive;
  }

  lemma ActiveJobs(jobs: map<JobId, Job>, v: VehicleId)
    ensures AnyActive(jobs, v) <==>
              exists id :: id in jobs && jobs[id].vehicle == v && jobs[id].status in {Created, Queued, Processing, Retrying}
  {
    if AnyActive(jobs, v) {
      var id :| BelongsTo(jobs, id, v) && Active(jobs[id].status);
      assert id in jobs && jobs[id].status in {Created, Queued, Processing, Retrying};
    }
    if id :| id in jobs && jobs[id].vehicle == v && jobs[id].status in {Created, Queued, Processing, Retrying} {
      assert BelongsTo(jobs, id, v) && Active(jobs[id].status);
    }
  }

  lemma FailedJobs(jobs: map<JobId, Job>, batch: set<JobId>)
    ensures AnyFailed(jobs, batch) <==> exists id :: id in batch && id in jobs && jobs[id].status in {Failed, Cancelled}
  {
  }
}
