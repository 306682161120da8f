/** What each transaction does to the rows it moves, field by field. */
module JobLaws {
  import opened JobRows
  import opened Options

  // ----- claims -----

  /** Which claims are refused, and that a refused claim changes nothing. */
  lemma ClaimRefusals(db: Db, id: JobId, worker: WorkerId, now: Time, expiresAt: Time)
    ensures var r, b := ClaimOutcome(db, id, now), Claim(db, id, worker, now, expiresAt);
            && (id !in db.jobs ==> r == NotFound && b == db)
            && (id in db.jobs && db.jobs[id].status in {Completed, Failed, Cancelled} ==> r == TerminalJob && b == db)
            && (id in db.jobs && db.jobs[id].status in {Created, Retrying} ==> r == AwaitingPublication && b == db)
            && (id in db.jobs && db.jobs[id].status == Processing && (db.jobs[id].claimExpiresAt.Some? ==> now < db.jobs[id].claimExpiresAt.value) ==>
                  r == ClaimBusy && b == db)
  {
  }

  /** A granted claim: the lease, a new started attempt, and the previous one failed if it was still open. */
  ghost predicate Granted(a: Db, b: Db, id: JobId, worker: WorkerId, expiresAt: Time) {
    && id in a.jobs
    && var n := a.jobs[id].attemptCount;
       && b == a.(jobs := b.jobs, attempts := b.attempts)
       && b.jobs == a.jobs[id := a.jobs[id].(status := Processing, worker := Some(worker), attemptCount := n + 1,
                                             claimExpiresAt := Some(expiresAt), nextAttemptAt := None)]
       && (id, n + 1) in b.attempts && b.attempts[(id, n + 1)] == Attempt(Started, None)
       && ((id, n) in a.attempts && a.jobs[id].status == Processing && a.attempts[(id, n)].status == Started ==>
             (id, n) in b.attempts && b.attempts[(id, n)] == Attempt(Fell, Some(true)))
       && forall other, m {:trigger (other, m) in b.attempts} {:trigger b.attempts[(other, m)]} ::
            (other, m) in a.attempts && (other, m) != (id, n) && (other, m) != (id, n + 1) ==>
              (other, m) in b.attempts && b.attempts[(other, m)] == a.attempts[(other, m)]
  }

  /** A claim of a queued job is granted at any time. */
  lemma QueuedClaimIsGranted(db: Db, id: JobId, worker: WorkerId, now: Time, expiresAt: Time)
    requires id in db.jobs && db.jobs[id].status == Queued
    ensures ClaimOutcome(db, id, now) == JobClaimed(db.jobs[id].attemptCount + 1)
    ensures Granted(db, Claim(db, id, worker, now, expiresAt), id, worker, expiresAt)
  {
  }

  /** A lease that has ended is taken over while the budget lasts. */
  lemma EndedLeaseIsTakenOver(db: Db, id: JobId, worker: WorkerId, now: Time, expiresAt: Time)
    requires id in db.jobs && db.jobs[id].status == Processing && db.jobs[id].claimExpiresAt.Some? && db.jobs[id].claimExpiresAt.value <= now
    requires db.jobs[id].attemptCount < db.jobs[id].maxAttempts
    ensures ClaimOutcome(db, id, now) == JobClaimed(db.jobs[id].attemptCount + 1)
    ensures Granted(db, Claim(db, id, worker, now, expiresAt), id, worker, expiresAt)
  {
  }

  /** Otherwise the job fails, and so does its open attempt. */
  lemma ExhaustedLeaseFails(db: Db, id: JobId, worker: WorkerId, now: Time, expiresAt: Time)
    requires id in db.jobs && db.jobs[id].status == Processing && db.jobs[id].claimExpiresAt.Some? && db.jobs[id].claimExpiresAt.value <= now
    requires db.jobs[id].attemptCount >= db.jobs[id].maxAttempts
    ensures ClaimOutcome(db, id, now) == TerminalJob
    ensures var b, n := Claim(db, id, worker, now, expiresAt), db.jobs[id].attemptCount;
            && b == db.(jobs := b.jobs, attempts := b.attempts, vehicles := b.vehicles)
            && b.jobs == db.jobs[id := db.jobs[id].(status := Failed, worker := None, claimExpiresAt := None, error := Some(Internal))]
            && ((id, n) in db.attempts && db.attempts[(id, n)].status == Started ==>
                  b.attempts == db.attempts[(id, n) := Attempt(Fell, Some(false))])
  {
    hide Settled;
  }

  /** The three cases together: what a claim of a queued or processing job comes to, by the time alone. */
  lemma ClaimGrants(db: Db, id: JobId, worker: WorkerId, now: Time, expiresAt: Time)
    ensures var r, b := ClaimOutcome(db, id, now), Claim(db, id, worker, now, expiresAt);
            id in db.jobs ==>
              && (db.jobs[id].status == Queued ==> r == JobClaimed(db.jobs[id].attemptCount + 1) && Granted(db, b, id, worker, expiresAt))
              && (db.jobs[id].status == Processing && db.jobs[id].claimExpiresAt.Some? && db.jobs[id].claimExpiresAt.value <= now ==>
                    if db.jobs[id].attemptCount < db.jobs[id].maxAttempts
                    then r == JobClaimed(db.jobs[id].attemptCount + 1) && Granted(db, b, id, worker, expiresAt)
                    else r == TerminalJob && id in b.jobs && b.jobs[id].status == Failed)
  {
    hide Claim, ClaimOutcome, Granted;
    if id in db.jobs {
      if db.jobs[id].status == Queued { QueuedClaimIsGranted(db, id, worker, now, expiresAt); }
      if db.jobs[id].status == Processing && db.jobs[id].claimExpiresAt.Some? && db.jobs[id].claimExpiresAt.value <= now {
        if db.jobs[id].attemptCount < db.jobs[id].maxAttempts {
          EndedLeaseIsTakenOver(db, id, worker, now, expiresAt);
        } else {
          ExhaustedLeaseFails(db, id, worker, now, expiresAt);
        }
      }
    }
  }

  // ----- completion -----

  /** The lease holder's completion is stored: one asset, one charge, the attempt and the job succeed together. */
  lemma HolderCompletes(db: Db, id: JobId, worker: WorkerId, n: nat)
    requires id in db.jobs && db.jobs[id].status == Processing && db.jobs[id].worker == Some(worker)
    ensures CompleteOutcome(db, id, worker) == CompletionStored
    ensures var b := Complete(db, id, worker, n);
            && b == db.(jobs := b.jobs, attempts := b.attempts, assets := b.assets, usage := b.usage, vehicles := b.vehicles)
            && b.jobs == db.jobs[id := db.jobs[id].(status := Completed, worker := None, claimExpiresAt := None,
                                                    nextAttemptAt := None, error := None)]
            && b.assets == db.assets + multiset{id} && b.usage == db.usage + multiset{BackgroundRemovalCompleted(id)}
            && ((id, n) in db.attempts && db.attempts[(id, n)].status == Started ==>
                  b.attempts == db.attempts[(id, n) := Attempt(Succeeded, Some(false))])
  {
    hide Settled;
  }

  /** Nobody else's is, and a job that was already completed says so. */
  lemma OthersDoNotComplete(db: Db, id: JobId, worker: WorkerId, n: nat)
    requires id in db.jobs ==> db.jobs[id].status != Processing || db.jobs[id].worker != Some(worker)
    ensures Complete(db, id, worker, n) == db
    ensures CompleteOutcome(db, id, worker) ==
            if id !in db.jobs then CompletionNotFound
            else if db.jobs[id].status == Completed && id in db.assets then AlreadyCompleted else CompletionClaimLost
  {
  }

  // ----- failure -----

  /** The kinds a provider may recover from. */
  lemma RetryableKinds(kind: FailureKind)
    ensures RetryableKind(kind) <==> kind in {Network, Provider429, Provider5xx, Timeout}
    ensures BlamesImage(kind) <==> kind in {InvalidImage, NonCarImage, UnsupportedFormat}
  {
  }

  /** A failure that asked for a retry within the budget: job and outbox row wait for the given time. */
  lemma HolderIsRetried(db: Db, id: JobId, worker: WorkerId, n: nat, kind: FailureKind, requestRetry: bool, nextAttemptAt: Time)
    requires id in db.jobs && db.jobs[id].status == Processing && db.jobs[id].worker == Some(worker)
    requires requestRetry && db.jobs[id].attemptCount < db.jobs[id].maxAttempts
    ensures FailOutcome(db, id, worker, requestRetry) == RetryScheduled
    ensures var b := Fail(db, id, worker, n, kind, requestRetry, nextAttemptAt);
            && b == db.(jobs := b.jobs, attempts := b.attempts, outbox := b.outbox)
            && b.jobs == db.jobs[id := db.jobs[id].(status := Retrying, worker := None, claimExpiresAt := None,
                                                    nextAttemptAt := Some(nextAttemptAt), error := Some(kind))]
            && (id in db.outbox ==>
                  b.outbox == db.outbox[id := OutboxRow(0, nextAttemptAt, db.outbox[id].createdAt, None, None, false)])
            && ((id, n) in db.attempts && db.attempts[(id, n)].status == Started ==>
                  b.attempts == db.attempts[(id, n) := Attempt(Fell, Some(true))])
  {
  }

  /** Any other failure of the lease holder is final; the image is blamed for its own faults only. */
  lemma HolderFails(db: Db, id: JobId, worker: WorkerId, n: nat, kind: FailureKind, requestRetry: bool, nextAttemptAt: Time)
    requires id in db.jobs && db.jobs[id].status == Processing && db.jobs[id].worker == Some(worker)
    requires !requestRetry || db.jobs[id].attemptCount >= db.jobs[id].maxAttempts
    ensures FailOutcome(db, id, worker, requestRetry) == FailureStored
    ensures var b := Fail(db, id, worker, n, kind, requestRetry, nextAttemptAt);
            && b == db.(jobs := b.jobs, attempts := b.attempts, invalid := b.invalid, vehicles := b.vehicles)
            && b.jobs == db.jobs[id := db.jobs[id].(status := Failed, worker := None, claimExpiresAt := None,
                                                    nextAttemptAt := None, error := Some(kind))]
            && b.invalid == (if kind in {InvalidImage, NonCarImage, UnsupportedFormat} then db.invalid + {db.jobs[id].asset} else db.invalid)
            && ((id, n) in db.attempts && db.attempts[(id, n)].status == Started ==>
                  b.attempts == db.attempts[(id, n) := Attempt(Fell, Some(false))])
  {
    hide Settled;
  }

  /** What the lease holder's failure leaves, by the request and the budget alone. */
  lemma HolderFailure(db: Db, id: JobId, worker: WorkerId, n: nat, kind: FailureKind, requestRetry: bool, nextAttemptAt: Time)
    ensures var r, b := FailOutcome(db, id, worker, requestRetry), Fail(db, id, worker, n, kind, requestRetry, nextAttemptAt);
            id in db.jobs && db.jobs[id].status == Processing && db.jobs[id].worker == Some(worker) ==>
              && id in b.jobs
              && if requestRetry && db.jobs[id].attemptCount < db.jobs[id].maxAttempts
                 then r == RetryScheduled && b.jobs[id].status == Retrying && b.jobs[id].nextAttemptAt == Some(nextAttemptAt)
                 else r == FailureStored && b.jobs[id].status == Failed
  {
    hide Fail, FailOutcome;
    if id in db.jobs && db.jobs[id].status == Processing && db.jobs[id].worker == Some(worker) {
      if requestRetry && db.jobs[id].attemptCount < db.jobs[id].maxAttempts {
        HolderIsRetried(db, id, worker, n, kind, requestRetry, nextAttemptAt);
      } else {
        HolderFails(db, id, worker, n, kind, requestRetry, nextAttemptAt);
      }
    }
  }

  lemma OthersDoNotFail(db: Db, id: JobId, worker: WorkerId, n: nat, kind: FailureKind, requestRetry: bool, nextAttemptAt: Time)
    requires id in db.jobs ==> db.jobs[id].status != Processing || db.jobs[id].worker != Some(worker)
    ensures Fail(db, id, worker, n, kind, requestRetry, nextAttemptAt) == db
    ensures FailOutcome(db, id, worker, requestRetry) == if id !in db.jobs then FailureNotFound else FailureClaimLost
  {
  }

  // ----- the outbox -----

  /** A row may be claimed exactly when it is unpublished and due, its job still waits, and no lease on it is running. */
  lemma DispatchableMeans(db: Db, id: JobId, now: Time)
    ensures Dispatchable(db, id, now) <==>
              && id in db.outbox && id in db.jobs && db.jobs[id].status in {Created, Retrying}
              && !db.outbox[id].published && db.outbox[id].nextAttemptAt <= now
              && !(db.outbox[id].claimExpiresAt.Some? && now < db.outbox[id].claimExpiresAt.value)
  {
  }

  /** Claiming gives each chosen row the token until the given time, one publication attempt more, and changes nothing else. */
  lemma RowsAreClaimed(db: Db, chosen: set<JobId>, token: ClaimToken, expiresAt: Time, id: JobId)
    requires id in db.outbox
    ensures var b := ClaimRows(db, chosen, token, expiresAt);
            && b == db.(outbox := b.outbox) && b.outbox.Keys == db.outbox.Keys
            && b.outbox[id] == if id in chosen
                               then OutboxRow(db.outbox[id].attemptCount + 1, db.outbox[id].nextAttemptAt, db.outbox[id].createdAt,
                                              Some(token), Some(expiresAt), db.outbox[id].published)
                               else db.outbox[id]
  {
  }

  /** A claim taken until `L` keeps the row from being claimed at any time before `L`. */
  lemma ClaimedUntil(db: Db, chosen: set<JobId>, token: ClaimToken, L: Time, id: JobId, now: Time)
    requires id in chosen && now < L
    ensures !Dispatchable(ClaimRows(db, chosen, token, L), id, now)
  {
  }

  /** Under a standing claim, a sent message's row is published and its job queued; no other row moves. */
  lemma StandingClaimIsRecorded(db: Db, ids: set<JobId>, token: ClaimToken, id: JobId)
    requires id in db.outbox && id in db.jobs
    ensures var b, stands := MarkRows(db, ids, token),
                             id in ids && db.outbox[id].claim == Some(token) && !db.outbox[id].published && db.jobs[id].status in {Created, Retrying};
            && b == db.(outbox := b.outbox, jobs := b.jobs) && b.outbox.Keys == db.outbox.Keys && b.jobs.Keys == db.jobs.Keys
            && b.outbox[id] == (if stands then db.outbox[id].(claim := None, claimExpiresAt := None, published := true) else db.outbox[id])
            && b.jobs[id] == (if stands then db.jobs[id].(status := Queued, nextAttemptAt := None) else db.jobs[id])
  {
  }

  /** Releasing under one's own claim frees the row until the given time. */
  lemma OwnClaimIsReleased(db: Db, id: JobId, token: ClaimToken, nextAttemptAt: Time)
    ensures ReleaseRow(db, id, token, nextAttemptAt) ==
            if id in db.outbox && db.outbox[id].claim == Some(token) && !db.outbox[id].published
            then db.(outbox := db.outbox[id := OutboxRow(db.outbox[id].attemptCount, nextAttemptAt, db.outbox[id].createdAt, None, None, false)])
            else db
  {
  }

  // ----- statuses -----

  /** Which statuses count as running, finished and failed. */
  lemma StatusesMean(s: JobStatus)
    ensures Active(s) <==> s in {Created, Queued, Processing, Retrying}
    ensures Terminal(s) <==> s in {Completed, Failed, Cancelled}
    ensures AwaitsPublication(s) <==> s in {Created, Retrying}
    ensures NeedsAttention(s) <==> s in {Failed, Cancelled}
  {
  }
}
