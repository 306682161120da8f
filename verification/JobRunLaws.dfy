/** Leases, retries and publication over runs, told from the steps alone. */
module JobRunLaws {
  import opened JobRows
  import opened Options
  import opened JobInvariants
  import opened JobTransactions
  import opened JobLaws
  import opened WorkerOutcomes
  import opened JobProtocol
  import opened JobProtocolSteps
  import opened JobProtocolTheorems

  lemma StepOf(states: seq<Sys>, steps: seq<Step>, i: nat)
    requires IsRun(states, steps) && i < |steps|
    ensures SysOk(states[i]) && Enabled(states[i], steps[i]) && states[i + 1] == Apply(states[i], steps[i])
  {
    hide SysOk, Enabled, Apply, Initial;
    RunIsOk(states, steps, i);
  }

  /** The step is taken by worker `w`, whose job is `id`. */
  predicate ByWorkerOf(s: Sys, w: WorkerId, id: JobId) {
    w in s.workers && s.workers[w].job == id
  }

  /** The leased job's row, as far as the lease goes. */
  lemma LeaseOf(s: Sys, id: JobId)
    requires SysOk(s) && id in s.db.jobs
    ensures s.db.jobs[id].status == Processing <==> s.db.jobs[id].worker.Some?
    ensures s.db.jobs[id].status == Processing <==> s.db.jobs[id].claimExpiresAt.Some?
    ensures s.db.jobs[id].attemptCount <= s.db.jobs[id].maxAttempts
  {
    hide QueueOk, WorkersOk, TokensOk, SentOk, GuardOk, DbOk;
    BudgetRow(s.db, id);
  }

  // ----- a running lease -----

  /** `w` holds the job until `until`. */
  predicate HeldUntil(s: Sys, id: JobId, w: WorkerId, until: Time) {
    id in s.db.jobs && s.db.jobs[id].worker == Some(w) && s.db.jobs[id].claimExpiresAt == Some(until) && s.db.jobs[id].status == Processing
  }

  /** The step neither ends the holder's execution nor claims the job at or after `until`. */
  predicate WithinLease(s: Sys, step: Step, id: JobId, w: WorkerId, until: Time) {
    && ((step.CompleteJob? || step.FailJob?) ==> step.worker != w)
    && (step.ClaimJob? && ByWorkerOf(s, step.worker, id) ==> step.at < until)
  }

  lemma ClaimKeepsOther(db: Db, job: JobId, w: WorkerId, now: Time, leaseUntil: Time, id: JobId)
    requires id in db.jobs && id != job
    ensures id in Claim(db, job, w, now, leaseUntil).jobs && Claim(db, job, w, now, leaseUntil).jobs[id] == db.jobs[id]
  {
    hide Settled;
  }

  lemma CompleteKeepsOther(db: Db, job: JobId, w: WorkerId, n: nat, id: JobId)
    requires id in db.jobs && id != job
    ensures id in Complete(db, job, w, n).jobs && Complete(db, job, w, n).jobs[id] == db.jobs[id]
  {
    hide Settled;
  }

  lemma FailKeepsOther(db: Db, job: JobId, w: WorkerId, n: nat, kind: FailureKind, retryable: bool, at: Time, id: JobId)
    requires id in db.jobs && id != job
    ensures id in Fail(db, job, w, n, kind, retryable, at).jobs && Fail(db, job, w, n, kind, retryable, at).jobs[id] == db.jobs[id]
  {
    hide Settled;
  }

  /** Neither a claim before the lease ends nor anything another worker does moves the leased job. */
  lemma LeaseOutlastsStep(s: Sys, step: Step, id: JobId, w: WorkerId, until: Time)
    requires SysOk(s) && Enabled(s, step) && HeldUntil(s, id, w, until) && WithinLease(s, step, id, w, until)
    ensures var t := Apply(s, step); id in t.db.jobs && t.db.jobs[id] == s.db.jobs[id]
    ensures step.ClaimJob? && ByWorkerOf(s, step.worker, id) ==> Apply(s, step).db == s.db && Apply(s, step).doomed == s.doomed
  {
    hide DbOk, QueueOk, WorkersOk, TokensOk, SentOk, GuardOk, Claim, Complete, Fail, ClaimOutcome, CompleteOutcome, FailOutcome;
    match step {
      case ClaimJob(v, at, leaseUntil, _, _) =>
        ClaimRefusals(s.db, s.workers[v].job, v, at, leaseUntil);
        if s.workers[v].job != id { ClaimKeepsOther(s.db, s.workers[v].job, v, at, leaseUntil, id); }
      case CompleteJob(v, _) =>
        if s.workers[v].job != id { CompleteKeepsOther(s.db, s.workers[v].job, v, s.workers[v].phase.attempt, id); }
        else { OthersDoNotComplete(s.db, id, v, s.workers[v].phase.attempt); }
      case FailJob(v, kind, at, _) =>
        if s.workers[v].job != id { FailKeepsOther(s.db, s.workers[v].job, v, s.workers[v].phase.attempt, kind, RetryableKind(kind), at, id); }
        else { OthersDoNotFail(s.db, id, v, s.workers[v].phase.attempt, kind, RetryableKind(kind), at); }
      case _ => UnrelatedKeeps(s, step, id);
    }
  }

  lemma UnrelatedKeeps(s: Sys, step: Step, id: JobId)
    requires Enabled(s, step) && !step.ClaimJob? && !step.CompleteJob? && !step.FailJob?
    requires id in s.db.jobs && s.db.jobs[id].status == Processing
    ensures id in Apply(s, step).db.jobs && Apply(s, step).db.jobs[id] == s.db.jobs[id]
  {
  }

  /** Step `i` is a claim of `id` by `w`, and it is granted: the worker executes afterwards. */
  ghost predicate GrantedAt(states: seq<Sys>, steps: seq<Step>, i: nat, id: JobId, w: WorkerId)
    requires |states| == |steps| + 1 && i < |steps|
  {
    && steps[i].ClaimJob? && steps[i].worker == w && ByWorkerOf(states[i], w, id)
    && w in states[i + 1].workers && states[i + 1].workers[w].phase.Executing?
  }

  /** Between a grant and state `j`, no step disturbs the lease. */
  ghost predicate Quiet(states: seq<Sys>, steps: seq<Step>, i: nat, j: nat, id: JobId, w: WorkerId)
    requires |states| == |steps| + 1 && i < j < |states| && steps[i].ClaimJob?
  {
    forall k :: i < k < j ==> WithinLease(states[k], steps[k], id, w, steps[i].leaseUntil)
  }

  lemma GrantedClaimHolds(s: Sys, step: Step, id: JobId)
    requires SysOk(s) && Enabled(s, step) && step.ClaimJob? && ByWorkerOf(s, step.worker, id)
    requires step.worker in Apply(s, step).workers && Apply(s, step).workers[step.worker].phase.Executing?
    ensures HeldUntil(Apply(s, step), id, step.worker, step.leaseUntil)
  {
    hide DbOk, QueueOk, WorkersOk, TokensOk, SentOk, GuardOk, Settled, CloseAttempt;
  }

  /** From a granted claim on, the lease stands through every step that neither its holder takes nor comes too late. */
  lemma {:induction false} LeaseStands(states: seq<Sys>, steps: seq<Step>, i: nat, j: nat, id: JobId, w: WorkerId)
    requires |states| == |steps| + 1 && i < j < |states| && GrantedAt(states, steps, i, id, w) && Quiet(states, steps, i, j, id, w)
    requires IsRun(states, steps)
    ensures HeldUntil(states[j], id, w, steps[i].leaseUntil)
    ensures id in states[i + 1].db.jobs && states[j].db.jobs[id] == states[i + 1].db.jobs[id]
    decreases j
  {
    hide SysOk, Enabled, Apply, Initial, WithinLease, IsRun;
    StepOf(states, steps, j - 1);
    if j == i + 1 {
      GrantedClaimHolds(states[i], steps[i], id);
    } else {
      LeaseStands(states, steps, i, j - 1, id, w);
      LeaseOutlastsStep(states[j - 1], steps[j - 1], id, w, steps[i].leaseUntil);
    }
  }

  /** Before its end nobody can take over a lease: the claim changes no row, and its message stays to be delivered again. */
  lemma LeaseIsExclusive(states: seq<Sys>, steps: seq<Step>, i: nat, j: nat, id: JobId, w: WorkerId)
    requires |states| == |steps| + 1 && i < j < |steps| && GrantedAt(states, steps, i, id, w) && Quiet(states, steps, i, j, id, w)
    requires steps[j].ClaimJob? && ByWorkerOf(states[j], steps[j].worker, id) && steps[j].at < steps[i].leaseUntil
    requires IsRun(states, steps)
    ensures states[j + 1].db == states[j].db && states[j + 1].doomed == states[j].doomed
  {
    hide SysOk, Enabled, Apply, IsRun;
    LeaseStands(states, steps, i, j, id, w);
    StepOf(states, steps, j);
    LeaseOutlastsStep(states[j], steps[j], id, w, steps[i].leaseUntil);
  }

  /** What a claim does to a queued job, or to one whose lease has ended. */
  lemma ClaimStepGrants(s: Sys, step: Step, id: JobId)
    requires SysOk(s) && Enabled(s, step) && step.ClaimJob? && ByWorkerOf(s, step.worker, id) && id in s.db.jobs
    requires s.db.jobs[id].status == Queued
             || (s.db.jobs[id].status == Processing && s.db.jobs[id].claimExpiresAt.Some? && s.db.jobs[id].claimExpiresAt.value <= step.at)
    ensures var t, w, n := Apply(s, step), step.worker, s.db.jobs[id].attemptCount;
            if s.db.jobs[id].status == Queued || n < s.db.jobs[id].maxAttempts
            then Granted(s.db, t.db, id, w, step.leaseUntil) && w in t.workers && t.workers[w].phase == Executing(n + 1) && t.doomed == s.doomed
            else id in t.db.jobs && t.db.jobs[id].status == Failed && t.db.jobs[id].error == Some(Internal) && w !in t.workers
  {
    hide DbOk, QueueOk, WorkersOk, TokensOk, SentOk, GuardOk, Claim, ClaimOutcome, Granted;
    var w, n := step.worker, s.db.jobs[id].attemptCount;
    if s.db.jobs[id].status == Queued {
      QueuedClaimIsGranted(s.db, id, w, step.at, step.leaseUntil);
    } else if n < s.db.jobs[id].maxAttempts {
      EndedLeaseIsTakenOver(s.db, id, w, step.at, step.leaseUntil);
    } else {
      ExhaustedLeaseFails(s.db, id, w, step.at, step.leaseUntil);
    }
  }

  /** In every run, a claim of a queued job is granted, at any time. */
  lemma QueuedJobsAreClaimed(states: seq<Sys>, steps: seq<Step>, i: nat, id: JobId)
    requires |states| == |steps| + 1 && i < |steps| && steps[i].ClaimJob? && ByWorkerOf(states[i], steps[i].worker, id)
    requires id in states[i].db.jobs && states[i].db.jobs[id].status == Queued
    requires IsRun(states, steps)
    ensures GrantedAt(states, steps, i, id, steps[i].worker)
    ensures Granted(states[i].db, states[i + 1].db, id, steps[i].worker, steps[i].leaseUntil)
    ensures HeldUntil(states[i + 1], id, steps[i].worker, steps[i].leaseUntil)
  {
    hide SysOk, Enabled, Apply, IsRun, Granted;
    StepOf(states, steps, i);
    ClaimStepGrants(states[i], steps[i], id);
    GrantedClaimHolds(states[i], steps[i], id);
  }

  /** In every run, once a lease has ended with its attempt unfinished, a claim starts the next attempt or, without budget, fails the job. */
  lemma EndedLeasesAreReclaimed(states: seq<Sys>, steps: seq<Step>, i: nat, j: nat, id: JobId, w: WorkerId)
    requires |states| == |steps| + 1 && i < j < |steps| && GrantedAt(states, steps, i, id, w) && Quiet(states, steps, i, j, id, w)
    requires steps[j].ClaimJob? && ByWorkerOf(states[j], steps[j].worker, id) && steps[j].at >= steps[i].leaseUntil
    requires IsRun(states, steps)
    ensures id in states[j].db.jobs
    ensures var job, v := states[j].db.jobs[id], steps[j].worker;
            if job.attemptCount < job.maxAttempts
            then && Granted(states[j].db, states[j + 1].db, id, v, steps[j].leaseUntil)
                 && v in states[j + 1].workers && states[j + 1].workers[v].phase == Executing(job.attemptCount + 1)
            else id in states[j + 1].db.jobs && states[j + 1].db.jobs[id].status == Failed
  {
    hide SysOk, Enabled, Apply, IsRun, Granted, Quiet;
    LeaseStands(states, steps, i, j, id, w);
    StepOf(states, steps, j);
    LeaseOf(states[j], id);
    ClaimStepGrants(states[j], steps[j], id);
  }

  // ----- completion and failure -----

  /** The worker's job still names it: then it executes that job's latest attempt, which is open. */
  lemma HolderExecutes(s: Sys, id: JobId, w: WorkerId)
    requires SysOk(s) && ByWorkerOf(s, w, id) && id in s.db.jobs && s.db.jobs[id].worker == Some(w)
    ensures var n := s.db.jobs[id].attemptCount;
            && s.workers[w].phase == Executing(n) && s.db.jobs[id].status == Processing
            && (id, n) in s.db.attempts && s.db.attempts[(id, n)].status == Started && id in s.db.outbox
  {
    hide QueueOk, TokensOk, SentOk, GuardOk, DbOk;
    RowsOf(s.db, id);
  }

  lemma HolderStepCompletes(s: Sys, step: Step, id: JobId)
    requires SysOk(s) && Enabled(s, step) && step.CompleteJob? && ByWorkerOf(s, step.worker, id)
    requires id in s.db.jobs && s.db.jobs[id].worker == Some(step.worker)
    ensures var a, b, n := s.db, Apply(s, step).db, s.db.jobs[id].attemptCount;
            && id in b.jobs && b.jobs[id].status == Completed
            && b.usage == a.usage + multiset{BackgroundRemovalCompleted(id)} && b.assets == a.assets + multiset{id}
            && (id, n) in b.attempts && b.attempts[(id, n)].status == Succeeded
    ensures Apply(s, step).doomed == s.doomed + if step.reported then {s.workers[step.worker].message} else {}
  {
    hide SysOk, Complete, CompleteOutcome;
    HolderExecutes(s, id, step.worker);
    HolderCompletes(s.db, id, step.worker, s.db.jobs[id].attemptCount);
  }

  lemma HolderStepFails(s: Sys, step: Step, id: JobId)
    requires SysOk(s) && Enabled(s, step) && step.FailJob? && ByWorkerOf(s, step.worker, id)
    requires id in s.db.jobs && s.db.jobs[id].worker == Some(step.worker)
    ensures FailsOrRetries(s.db, Apply(s, step).db, id, step.kind, step.nextAttemptAt)
    ensures Apply(s, step).doomed == s.doomed + if step.reported then {s.workers[step.worker].message} else {}
  {
    hide SysOk, Fail, FailOutcome, FailsOrRetries;
    HolderExecutes(s, id, step.worker);
    var n := s.db.jobs[id].attemptCount;
    FailureLeaves(s.db, id, step.worker, n, step.kind, step.nextAttemptAt);
    HolderFailure(s.db, id, step.worker, n, step.kind, RetryableKind(step.kind), step.nextAttemptAt);
  }

  lemma FailureLeaves(db: Db, id: JobId, w: WorkerId, n: nat, kind: FailureKind, at: Time)
    requires id in db.jobs && id in db.outbox && db.jobs[id].status == Processing && db.jobs[id].worker == Some(w)
    ensures FailsOrRetries(db, Fail(db, id, w, n, kind, RetryableKind(kind), at), id, kind, at)
  {
    RetryableKinds(kind);
    hide Fail, FailOutcome, RetryableKind, BlamesImage;
    if RetryableKind(kind) && db.jobs[id].attemptCount < db.jobs[id].maxAttempts {
      HolderIsRetried(db, id, w, n, kind, RetryableKind(kind), at);
    } else {
      HolderFails(db, id, w, n, kind, RetryableKind(kind), at);
    }
  }

  /**
   * Retried exactly for a kind that may pass, within the budget: then job and outbox row wait until the given time.
   * Otherwise failed for good, and the image is blamed for its own faults only.
   */
  ghost predicate FailsOrRetries(a: Db, b: Db, id: JobId, kind: FailureKind, nextAttemptAt: Time) {
    && id in a.jobs && id in a.outbox && id in b.jobs && id in b.outbox
    && var retried := kind in {Network, Provider429, Provider5xx, Timeout} && a.jobs[id].attemptCount < a.jobs[id].maxAttempts;
       && b.jobs[id].status == (if retried then Retrying else Failed) && b.jobs[id].error == Some(kind) && b.jobs[id].worker == None
       && (retried ==>
             && b.jobs[id].nextAttemptAt == Some(nextAttemptAt)
             && b.outbox[id] == OutboxRow(0, nextAttemptAt, a.outbox[id].createdAt, None, None, false)
             && b.invalid == a.invalid)
       && (!retried ==>
             && b.outbox == a.outbox
             && b.invalid == if kind in {InvalidImage, NonCarImage, UnsupportedFormat} then a.invalid + {a.jobs[id].asset} else a.invalid)
  }

  /** In every run, the completion of the worker its job names is stored, once, and the attempt with it. */
  lemma HoldersComplete(states: seq<Sys>, steps: seq<Step>, i: nat, id: JobId)
    requires |states| == |steps| + 1 && i < |steps| && steps[i].CompleteJob? && ByWorkerOf(states[i], steps[i].worker, id)
    requires id in states[i].db.jobs && states[i].db.jobs[id].worker == Some(steps[i].worker)
    requires IsRun(states, steps)
    ensures var a, b, n := states[i].db, states[i + 1].db, states[i].db.jobs[id].attemptCount;
            && id in b.jobs && b.jobs[id].status == Completed
            && b.usage == a.usage + multiset{BackgroundRemovalCompleted(id)} && b.assets == a.assets + multiset{id}
            && (id, n) in b.attempts && b.attempts[(id, n)].status == Succeeded
  {
    hide SysOk, Enabled, Apply, IsRun;
    StepOf(states, steps, i);
    HolderStepCompletes(states[i], steps[i], id);
  }

  /** In every run, a lease holder's failure is retried exactly for a kind that may pass and within the budget. */
  lemma HoldersFailOrRetry(states: seq<Sys>, steps: seq<Step>, i: nat, id: JobId)
    requires |states| == |steps| + 1 && i < |steps| && steps[i].FailJob? && ByWorkerOf(states[i], steps[i].worker, id)
    requires id in states[i].db.jobs && states[i].db.jobs[id].worker == Some(steps[i].worker)
    requires IsRun(states, steps)
    ensures FailsOrRetries(states[i].db, states[i + 1].db, id, steps[i].kind, steps[i].nextAttemptAt)
  {
    hide SysOk, Enabled, Apply, IsRun, FailsOrRetries;
    StepOf(states, steps, i);
    HolderStepFails(states[i], steps[i], id);
  }

  // ----- why jobs fail -----

  /** Step `k` is a failure, of a kind no retry helps, reported by the worker that held the job. */
  ghost predicate PermanentFailureAt(states: seq<Sys>, steps: seq<Step>, k: nat, id: JobId)
    requires |states| == |steps| + 1
  {
    && k < |steps| && steps[k].FailJob? && steps[k].kind !in {Network, Provider429, Provider5xx, Timeout}
    && ByWorkerOf(states[k], steps[k].worker, id) && id in states[k].db.jobs && states[k].db.jobs[id].worker == Some(steps[k].worker)
  }

  lemma FailingClaim(db: Db, job: JobId, w: WorkerId, now: Time, leaseUntil: Time, id: JobId)
    requires id in db.jobs && db.jobs[id].status != Failed
    requires var b := Claim(db, job, w, now, leaseUntil); id in b.jobs && b.jobs[id].status == Failed
    ensures var b := Claim(db, job, w, now, leaseUntil);
            b.jobs[id].attemptCount == db.jobs[id].attemptCount >= db.jobs[id].maxAttempts == b.jobs[id].maxAttempts
  {
    hide Settled, CloseAttempt;
  }

  lemma FailingFail(db: Db, job: JobId, w: WorkerId, n: nat, kind: FailureKind, at: Time, id: JobId)
    requires id in db.jobs && db.jobs[id].status != Failed
    requires var b := Fail(db, job, w, n, kind, RetryableKind(kind), at); id in b.jobs && b.jobs[id].status == Failed
    ensures var b := Fail(db, job, w, n, kind, RetryableKind(kind), at);
            b.jobs[id].attemptCount == db.jobs[id].attemptCount && db.jobs[id].maxAttempts == b.jobs[id].maxAttempts
    ensures db.jobs[id].attemptCount >= db.jobs[id].maxAttempts
            || (kind !in {Network, Provider429, Provider5xx, Timeout} && job == id && db.jobs[id].worker == Some(w))
  {
    hide Settled, FallAttempt;
    RetryableKinds(kind);
  }

  lemma CompletionFailsNone(db: Db, job: JobId, w: WorkerId, n: nat, id: JobId)
    requires id in db.jobs && db.jobs[id].status != Failed
    ensures var b := Complete(db, job, w, n); id in b.jobs && b.jobs[id].status != Failed
  {
    hide Settled, Succeed;
  }

  lemma OtherStepFailsNone(s: Sys, step: Step, id: JobId)
    requires Enabled(s, step) && !step.ClaimJob? && !step.CompleteJob? && !step.FailJob? && id in Apply(s, step).db.jobs
    requires id in s.db.jobs ==> s.db.jobs[id].status != Failed
    ensures Apply(s, step).db.jobs[id].status != Failed
  {
  }

  lemma ClaimFrame(db: Db, job: JobId, w: WorkerId, now: Time, leaseUntil: Time)
    ensures var b := Claim(db, job, w, now, leaseUntil); b.jobs.Keys == db.jobs.Keys && b.outbox == db.outbox
  {
    hide Settled, CloseAttempt;
  }

  lemma CompleteFrame(db: Db, job: JobId, w: WorkerId, n: nat)
    ensures var b := Complete(db, job, w, n); b.jobs.Keys == db.jobs.Keys && b.outbox == db.outbox
  {
    hide Settled, Succeed;
  }

  lemma FailFrame(db: Db, job: JobId, w: WorkerId, n: nat, kind: FailureKind, retryable: bool, at: Time, id: JobId)
    ensures var b := Fail(db, job, w, n, kind, retryable, at);
            && b.jobs.Keys == db.jobs.Keys && b.outbox.Keys == db.outbox.Keys
            && (id in db.outbox && (id in db.jobs ==> db.jobs[id].status != Processing) ==> b.outbox[id] == db.outbox[id])
  {
    hide Settled, FallAttempt;
  }

  /** A worker's transaction keeps the jobs, and the outbox row of any job that is not being processed. */
  lemma WorkerFrame(s: Sys, step: Step, id: JobId)
    requires Enabled(s, step) && (step.ClaimJob? || step.CompleteJob? || step.FailJob?)
    ensures var b := Apply(s, step).db;
            && b.jobs.Keys == s.db.jobs.Keys
            && (id in s.db.outbox && (id in s.db.jobs ==> s.db.jobs[id].status != Processing) ==> id in b.outbox && b.outbox[id] == s.db.outbox[id])
  {
    hide Claim, ClaimOutcome, Complete, CompleteOutcome, Fail, FailOutcome;
    match step {
      case ClaimJob(w, at, leaseUntil, _, _) => ClaimFrame(s.db, s.workers[w].job, w, at, leaseUntil);
      case CompleteJob(w, _) => CompleteFrame(s.db, s.workers[w].job, w, s.workers[w].phase.attempt);
      case FailJob(w, kind, at, _) => FailFrame(s.db, s.workers[w].job, w, s.workers[w].phase.attempt, kind, RetryableKind(kind), at, id);
    }
  }

  /** The step by which a job comes to be failed. */
  lemma FailingStep(s: Sys, step: Step, id: JobId)
    requires SysOk(s) && Enabled(s, step) && id in Apply(s, step).db.jobs && Apply(s, step).db.jobs[id].status == Failed
    requires id in s.db.jobs ==> s.db.jobs[id].status != Failed
    ensures id in s.db.jobs && Apply(s, step).db.jobs[id].attemptCount == s.db.jobs[id].attemptCount
    ensures Apply(s, step).db.jobs[id].maxAttempts == s.db.jobs[id].maxAttempts
    ensures s.db.jobs[id].attemptCount == s.db.jobs[id].maxAttempts
            || (step.FailJob? && step.kind !in {Network, Provider429, Provider5xx, Timeout} && ByWorkerOf(s, step.worker, id)
                && s.db.jobs[id].worker == Some(step.worker))
  {
    hide DbOk, QueueOk, WorkersOk, TokensOk, SentOk, GuardOk, Claim, ClaimOutcome, Complete, CompleteOutcome, Fail, FailOutcome;
    if step.ClaimJob? || step.CompleteJob? || step.FailJob? { WorkerFrame(s, step, id); } else { OtherStepFailsNone(s, step, id); }
    LeaseOf(s, id);
    match step {
      case ClaimJob(w, at, leaseUntil, _, _) => FailingClaim(s.db, s.workers[w].job, w, at, leaseUntil, id);
      case CompleteJob(w, _) => CompletionFailsNone(s.db, s.workers[w].job, w, s.workers[w].phase.attempt, id);
      case FailJob(w, kind, at, _) => FailingFail(s.db, s.workers[w].job, w, s.workers[w].phase.attempt, kind, at, id);
    }
  }

  /** In every run, a job is failed only after its whole budget or a permanent failure of its lease holder. */
  lemma {:induction false} JobsFailForCause(states: seq<Sys>, steps: seq<Step>, i: nat, id: JobId)
    requires |states| == |steps| + 1 && i < |states| && id in states[i].db.jobs && states[i].db.jobs[id].status == Failed
    requires IsRun(states, steps)
    ensures states[i].db.jobs[id].attemptCount == states[i].db.jobs[id].maxAttempts ||
            exists k :: 0 <= k < i && PermanentFailureAt(states, steps, k, id)
    decreases i
  {
    hide SysOk, Enabled, Apply, PermanentFailureAt, Initial;
    if i > 0 {
      StepOf(states, steps, i - 1);
      if id in states[i - 1].db.jobs && states[i - 1].db.jobs[id].status == Failed {
        JobsFailForCause(states, steps, i - 1, id);
        FinishedForGood(states, steps, id, i - 1, i);
      } else {
        FailingStep(states[i - 1], steps[i - 1], id);
        PermanentFailureHere(states, steps, i - 1, id);
      }
    } else {
      NoJobsAtFirst(states[0]);
    }
  }

  lemma NoJobsAtFirst(s: Sys)
    requires Initial(s)
    ensures s.db.jobs == map[]
  {
  }

  lemma PermanentFailureHere(states: seq<Sys>, steps: seq<Step>, k: nat, id: JobId)
    requires |states| == |steps| + 1 && k < |steps|
    ensures (steps[k].FailJob? && steps[k].kind !in {Network, Provider429, Provider5xx, Timeout} && ByWorkerOf(states[k], steps[k].worker, id)
             && id in states[k].db.jobs && states[k].db.jobs[id].worker == Some(steps[k].worker)) ==>
              PermanentFailureAt(states, steps, k, id)
  {
  }

  // ----- publication -----

  lemma RowsExist(s: Sys, id: JobId)
    requires SysOk(s) && id in s.db.jobs
    ensures id in s.db.outbox && OutboxAgrees(s.db.jobs[id], s.db.outbox[id])
  {
    hide QueueOk, WorkersOk, TokensOk, SentOk, GuardOk;
    PublishedAgrees(s.db, id);
  }

  /** In every run, a dispatcher whose claim on a row stands records the message it sent: the row is published and the job queued. */
  lemma StandingClaimsAreRecorded(states: seq<Sys>, steps: seq<Step>, i: nat, id: JobId)
    requires |states| == |steps| + 1 && i < |steps| && steps[i].MarkPublished? && id in steps[i].ids
    requires id in states[i].db.outbox && id in states[i].db.jobs
    requires IsRun(states, steps)
    ensures id in states[i + 1].db.outbox && id in states[i + 1].db.jobs
    ensures if states[i].db.outbox[id].claim == Some(steps[i].token)
            then states[i + 1].db.outbox[id].published && states[i + 1].db.outbox[id].claim == None && states[i + 1].db.jobs[id].status == Queued
            else states[i + 1].db.outbox[id] == states[i].db.outbox[id] && states[i + 1].db.jobs[id] == states[i].db.jobs[id]
  {
    hide IsRun, SysOk, MarkRows;
    StepOf(states, steps, i);
    RowsExist(states[i], id);
    StatusesMean(states[i].db.jobs[id].status);
    StandingClaimIsRecorded(states[i].db, steps[i].ids, steps[i].token, id);
  }

  /** The row is claimed by token `t` until `until`. */
  predicate ClaimedBy(s: Sys, id: JobId, t: ClaimToken, until: Time) {
    && id in s.db.outbox && id in s.db.jobs && !s.db.outbox[id].published
    && s.db.outbox[id].claim == Some(t) && s.db.outbox[id].claimExpiresAt == Some(until)
  }

  lemma DispatchersLeaveClaims(s: Sys, step: Step, id: JobId, t: ClaimToken, until: Time)
    requires Enabled(s, step) && ClaimedBy(s, id, t, until) && !step.ClaimJob? && !step.CompleteJob? && !step.FailJob? && !step.ReserveBatch?
    requires (step.MarkPublished? ==> step.token != t || id !in step.ids) && (step.ReleaseClaim? ==> step.token != t || step.id != id)
    requires !(step.ClaimOutbox? && id in step.chosen)
    ensures ClaimedBy(Apply(s, step), id, t, until)
  {
  }

  lemma ReservationsLeaveClaims(s: Sys, step: Step, id: JobId, t: ClaimToken, until: Time)
    requires Enabled(s, step) && ClaimedBy(s, id, t, until) && step.ReserveBatch?
    ensures ClaimedBy(Apply(s, step), id, t, until)
  {
  }

  lemma ClaimOutlastsStep(s: Sys, step: Step, id: JobId, t: ClaimToken, until: Time)
    requires SysOk(s) && Enabled(s, step) && ClaimedBy(s, id, t, until)
    requires (step.MarkPublished? ==> step.token != t || id !in step.ids) && (step.ReleaseClaim? ==> step.token != t || step.id != id)
    requires !(step.ClaimOutbox? && id in step.chosen)
    ensures ClaimedBy(Apply(s, step), id, t, until)
  {
    RowsExist(s, id);
    StatusesMean(s.db.jobs[id].status);
    hide SysOk, Enabled, Apply;
    if step.ClaimJob? || step.CompleteJob? || step.FailJob? {
      WorkerFrame(s, step, id);
    } else if step.ReserveBatch? {
      ReservationsLeaveClaims(s, step, id, t, until);
    } else {
      DispatchersLeaveClaims(s, step, id, t, until);
    }
  }

  /** After step `i` claimed the row for its token, no step up to `j` records, releases or claims it. */
  ghost predicate ClaimLeftAlone(states: seq<Sys>, steps: seq<Step>, i: nat, j: nat, id: JobId)
    requires |states| == |steps| + 1 && i < j < |states| && steps[i].ClaimOutbox?
  {
    forall k :: i < k < j ==>
      && (steps[k].MarkPublished? ==> steps[k].token != states[i].nextToken || id !in steps[k].ids)
      && (steps[k].ReleaseClaim? ==> steps[k].token != states[i].nextToken || steps[k].id != id)
      && !(steps[k].ClaimOutbox? && id in steps[k].chosen)
  }

  lemma ClaimIsTaken(s: Sys, step: Step, id: JobId)
    requires Enabled(s, step) && step.ClaimOutbox? && id in step.chosen
    ensures ClaimedBy(Apply(s, step), id, s.nextToken, step.leaseUntil)
  {
    DispatchableMeans(s.db, id, step.at);
    RowsAreClaimed(s.db, step.chosen, s.nextToken, step.leaseUntil, id);
  }

  lemma {:induction false} ClaimOutlasts(states: seq<Sys>, steps: seq<Step>, i: nat, j: nat, id: JobId)
    requires |states| == |steps| + 1 && i < j < |states| && steps[i].ClaimOutbox? && id in steps[i].chosen
    requires ClaimLeftAlone(states, steps, i, j, id)
    requires IsRun(states, steps)
    ensures ClaimedBy(states[j], id, states[i].nextToken, steps[i].leaseUntil)
    decreases j
  {
    hide SysOk, Enabled, Apply, IsRun, ClaimedBy;
    StepOf(states, steps, j - 1);
    if j == i + 1 {
      ClaimIsTaken(states[i], steps[i], id);
    } else {
      ClaimOutlasts(states, steps, i, j - 1, id);
      ClaimOutlastsStep(states[j - 1], steps[j - 1], id, states[i].nextToken, steps[i].leaseUntil);
    }
  }

  /** In every run, a row that a dispatcher claimed and left alone is not claimed again before that claim ends. */
  lemma OutboxClaimsAreExclusive(states: seq<Sys>, steps: seq<Step>, i: nat, j: nat, id: JobId)
    requires |states| == |steps| + 1 && i < j < |steps| && steps[i].ClaimOutbox? && id in steps[i].chosen
    requires ClaimLeftAlone(states, steps, i, j, id) && steps[j].ClaimOutbox? && id in steps[j].chosen
    requires IsRun(states, steps)
    ensures steps[i].leaseUntil <= steps[j].at
  {
    hide SysOk, Apply, IsRun, Dispatchable;
    ClaimOutlasts(states, steps, i, j, id);
    StepOf(states, steps, j);
    DispatchableMeans(states[j].db, id, steps[j].at);
  }
}
