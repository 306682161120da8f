/** One delivered message from claim to report: the bounded claim loop, the execution and its bookkeeping. */
module ProcessingWorkers {
  import opened JobRows
  import opened Options
  import opened JobInvariants
  import opened JobLaws
  import opened JobTransactions
  import opened WorkerOutcomes
  import opened JobProtocol
  import opened JobProtocolSteps
  import opened Repositories
  import opened RetryTiming

  const PROCESSING_PUBLICATION_WAIT_ATTEMPTS: nat := 5

  /** How running the image pipeline went; a failure may carry the provider's wait hint. */
  datatype Execution = Executed | ExecutionFailed(kind: FailureKind, retryAfter: Option<real>)

  datatype WorkerOptions = WorkerOptions(claimTtl: int, retryBase: int, retryMaximum: int) {
    predicate Valid() {
      && MINIMUM_DURATION_MS <= claimTtl <= MAXIMUM_DURATION_MS
      && ValidTiming(retryBase, retryMaximum)
    }
  }

  /**
   * What the rest of the system does meanwhile: the rows the n-th transaction of this delivery finds, the
   * clock it reads before it, how the execution goes and the jitter drawn. Nothing relates one entry to the
   * next: other workers and dispatchers may have moved any row in between.
   */
  datatype Surroundings = Surroundings(found: nat -> Db, clock: nat -> Time, execution: Execution, random: real)

  class ProcessingWorker {
    const jobs: ProcessingWorkerRepository
    const options: WorkerOptions

    /** The source's constructor throws for options that are not valid. */
    constructor (jobs: ProcessingWorkerRepository, options: WorkerOptions)
      requires options.Valid()
      ensures this.jobs == jobs && this.options == options
    {
      this.jobs, this.options := jobs, options;
    }

    /** Claims the job; asks again, a bounded number of times, while its dispatcher has not recorded it as queued. */
    method Claim(id: JobId, worker: WorkerId, around: Surroundings) returns (claim: ClaimResult, claims: nat)
      modifies jobs.database
      ensures 1 <= claims <= 5
      ensures forall i :: 0 <= i < claims - 1 ==> ClaimOutcome(around.found(i), id, around.clock(i)) == AwaitingPublication
      ensures claim == ClaimOutcome(around.found(claims - 1), id, around.clock(claims - 1))
      ensures claim == AwaitingPublication ==> claims == 5
      ensures jobs.database.Rows() ==
              JobRows.Claim(around.found(claims - 1), id, worker, around.clock(claims - 1), around.clock(claims - 1) + options.claimTtl)
    {
      hide JobRows.Claim, ClaimOutcome;
      claims := 0;
      while true
        invariant 0 <= claims < PROCESSING_PUBLICATION_WAIT_ATTEMPTS
        invariant forall i :: 0 <= i < claims ==> ClaimOutcome(around.found(i), id, around.clock(i)) == AwaitingPublication
        decreases PROCESSING_PUBLICATION_WAIT_ATTEMPTS - claims
      {
        jobs.database.Load(around.found(claims));
        var now := around.clock(claims);
        claim := jobs.ClaimJob(id, worker, now, now + options.claimTtl);
        claims := claims + 1;
        if claim != AwaitingPublication || claims >= PROCESSING_PUBLICATION_WAIT_ATTEMPTS { return; }
      }
    }

    /**
     * Handles one delivery. The report follows the last transaction, which is the claim itself or, once
     * claimed, the completion or failure of exactly the attempt that was claimed. A report that lets the queue
     * delete the message is made only when the job needs no message any more.
     */
    method Process(id: JobId, worker: WorkerId, around: Surroundings) returns (result: ProcessResult, claims: nat)
      requires options.Valid() && 0.0 <= around.random <= 1.0
      modifies jobs.database
      ensures 1 <= claims <= 5
      ensures forall i :: 0 <= i < claims - 1 ==> ClaimOutcome(around.found(i), id, around.clock(i)) == AwaitingPublication
      ensures var at, before, after := around.clock(claims - 1), around.found(claims - 1), around.found(claims);
              match ClaimOutcome(before, id, at)
              case JobClaimed(n) =>
                (match around.execution
                 case Executed =>
                   && result == AfterCompletion(CompleteOutcome(after, id, worker))
                   && jobs.database.Rows() == Complete(after, id, worker, n)
                 case ExecutionFailed(kind, hint) =>
                   var next := around.clock(claims) + RetryDelay(n, options.retryBase, options.retryMaximum, around.random, hint);
                   && result == AfterFailure(FailOutcome(after, id, worker, RetryableKind(kind)))
                   && jobs.database.Rows() == Fail(after, id, worker, n, kind, RetryableKind(kind), next))
              case refused =>
                && result == AfterClaim(refused)
                && jobs.database.Rows() == JobRows.Claim(before, id, worker, at, at + options.claimTtl)
                && (refused == AwaitingPublication ==> claims == 5)
      ensures MayDelete(result) && Undisturbed(around, id, worker, claims) ==> NeedsNoMessage(jobs.database.Rows(), id)
    {
      hide JobRows.Claim, ClaimOutcome, Complete, CompleteOutcome, Fail, FailOutcome, RetryDelay, NeedsNoMessage, DbOk, KnowsAttempt;
      var claim;
      claim, claims := Claim(id, worker, around);
      var claimedAt := around.clock(claims - 1);
      if !claim.JobClaimed? {
        RefusalIsSafe(around.found(claims - 1), id, worker, claimedAt, claimedAt + options.claimTtl);
        return AfterClaim(claim), claims;
      }
      var n := claim.attemptNumber;
      AttemptsCountFromOne(around.found(claims - 1), id, claimedAt);
      jobs.database.Load(around.found(claims));
      match around.execution {
        case Executed =>
          var completion := jobs.CompleteJob(id, worker, n);
          result := AfterCompletion(completion);
          CompletionIsSafe(around.found(claims), id, worker, n);
        case ExecutionFailed(kind, hint) =>
          var next := around.clock(claims) + RetryDelay(n, options.retryBase, options.retryMaximum, around.random, hint);
          var failure := jobs.FailJob(id, worker, n, kind, RetryableKind(kind), next);
          result := AfterFailure(failure);
          FailureIsSafe(around.found(claims), id, worker, n, kind, RetryableKind(kind), next);
      }
    }
  }

  /** The rows found are those of a reachable state, in which the worker still knows the attempt it claimed. */
  ghost predicate Undisturbed(around: Surroundings, id: JobId, worker: WorkerId, claims: nat)
    requires claims >= 1
  {
    && DbOk(around.found(claims - 1)) && DbOk(around.found(claims))
    && match ClaimOutcome(around.found(claims - 1), id, around.clock(claims - 1))
       case JobClaimed(n) => KnowsAttempt(around.found(claims), id, worker, n)
       case _ => true
  }

  /** The worker may finish the job: it is processing and names the worker. */
  predicate Holds(db: Db, id: JobId, worker: WorkerId) {
    id in db.jobs && db.jobs[id].status == Processing && db.jobs[id].worker == Some(worker)
  }

  /** A refused claim is reported for redelivery exactly while the job waits for its dispatcher or another lease runs. */
  lemma RefusalReports(db: Db, id: JobId, now: Time)
    ensures var claim := ClaimOutcome(db, id, now);
            && (claim.JobClaimed? <==>
                  && id in db.jobs
                  && (db.jobs[id].status == Queued
                      || (db.jobs[id].status == Processing && db.jobs[id].claimExpiresAt.Some? && db.jobs[id].claimExpiresAt.value <= now
                          && db.jobs[id].attemptCount < db.jobs[id].maxAttempts)))
            && (!claim.JobClaimed? ==>
                  AfterClaim(claim) ==
                    if id !in db.jobs then Ignored(IgnoredNotFound)
                    else if db.jobs[id].status in {Created, Retrying} then RetryDelivery
                    else if db.jobs[id].status == Processing && !(db.jobs[id].claimExpiresAt.Some? && db.jobs[id].claimExpiresAt.value <= now)
                    then RetryDelivery
                    else Ignored(IgnoredTerminal))
  {
  }

  /** A finished execution is reported for redelivery exactly when the worker could not record it. */
  lemma FinishReports(db: Db, id: JobId, worker: WorkerId, kind: FailureKind)
    ensures AfterCompletion(CompleteOutcome(db, id, worker)) ==
            if Holds(db, id, worker) || (id in db.jobs && db.jobs[id].status == Completed && id in db.assets) then ProcessCompleted else RetryDelivery
    ensures AfterFailure(FailOutcome(db, id, worker, RetryableKind(kind))) ==
            if !Holds(db, id, worker) then RetryDelivery
            else if kind in {Network, Provider429, Provider5xx, Timeout} && db.jobs[id].attemptCount < db.jobs[id].maxAttempts
            then ProcessRetryScheduled else ProcessFailed
  {
    RetryableKinds(kind);
  }

  lemma AttemptsCountFromOne(db: Db, id: JobId, now: Time)
    ensures ClaimOutcome(db, id, now).JobClaimed? ==> ClaimOutcome(db, id, now).attemptNumber >= 1
  {
  }

  lemma RefusalIsSafe(db: Db, id: JobId, worker: WorkerId, now: Time, leaseUntil: Time)
    requires !ClaimOutcome(db, id, now).JobClaimed?
    ensures DbOk(db) && MayDelete(AfterClaim(ClaimOutcome(db, id, now))) ==> NeedsNoMessage(JobRows.Claim(db, id, worker, now, leaseUntil), id)
  {
    if DbOk(db) {
      if id in db.jobs { ClaimMoves(db, id, worker, now, leaseUntil); }
    }
  }

  lemma CompletionIsSafe(db: Db, id: JobId, worker: WorkerId, n: nat)
    ensures DbOk(db) && KnowsAttempt(db, id, worker, n) && MayDelete(AfterCompletion(CompleteOutcome(db, id, worker))) ==>
              NeedsNoMessage(Complete(db, id, worker, n), id)
  {
    if DbOk(db) && KnowsAttempt(db, id, worker, n) && id in db.jobs { CompleteMoves(db, id, worker, n); }
  }

  lemma FailureIsSafe(db: Db, id: JobId, worker: WorkerId, n: nat, kind: FailureKind, retryable: bool, next: Time)
    ensures DbOk(db) && KnowsAttempt(db, id, worker, n) && MayDelete(AfterFailure(FailOutcome(db, id, worker, retryable))) ==>
              NeedsNoMessage(Fail(db, id, worker, n, kind, retryable, next), id)
  {
    if DbOk(db) && KnowsAttempt(db, id, worker, n) && id in db.jobs { FailMoves(db, id, worker, n, kind, retryable, next); }
  }
}
