/** Every transaction keeps the job invariants. */
module JobTransactions {
  import opened JobRows
  import opened Options
  import opened JobInvariants

  /** The worker that holds the lease of `id` knows the number of the running attempt. */
  predicate KnowsAttempt(db: Db, id: JobId, worker: WorkerId, attemptNumber: nat) {
    id in db.jobs && db.jobs[id].status == Processing && db.jobs[id].worker == Some(worker) ==> attemptNumber == db.jobs[id].attemptCount
  }

  lemma LeaseKeepsOk(db: Db, id: JobId, worker: WorkerId, now: Time, expiresAt: Time)
    requires DbOk(db) && ClaimOutcome(db, id, now).JobClaimed?
    ensures DbOk(Lease(db, id, worker, now, expiresAt))
  {
    hide DbOk, Ledger, OthersKept, VehiclesOk, NoStrays, Settled;
    var b := Lease(db, id, worker, now, expiresAt);
    RowsOf(db, id);
    LeasedAttempts(db, id, worker, now, expiresAt);
    StaysActive(db.jobs, db.vehicles, id, b.jobs[id]);
    OneJobKeepsOk(db, b, id);
  }

  /** The claim opens one attempt and closes the expired one. */
  lemma LeasedAttempts(db: Db, id: JobId, worker: WorkerId, now: Time, expiresAt: Time)
    requires id in db.jobs && id in db.outbox && Budgeted(db.jobs[id]) && Ledger(db.attempts, id, db.jobs[id])
    requires ClaimOutcome(db, id, now).JobClaimed?
    ensures var b := Lease(db, id, worker, now, expiresAt);
            && Ledger(b.attempts, id, b.jobs[id])
            && OthersKept(db.attempts, b.attempts, id)
  {
    var b, job := Lease(db, id, worker, now, expiresAt), db.jobs[id];
    if LeaseExpired(job, now) {
      var dropped := Released(job, Failed, None, None);
      AttemptEnds(db.attempts, id, job, dropped, Attempt(Fell, Some(true)));
      var closed := CloseAttempt(db.attempts, id, job.attemptCount, true);
      AttemptStarts(closed, id, dropped, b.jobs[id]);
      hide Ledger, SameAttempts;
      forall other | other != id ensures SameAttempts(db.attempts, b.attempts, other) {
        SameAttemptsTrans(db.attempts, closed, b.attempts, other);
      }
    } else {
      AttemptStarts(db.attempts, id, job, b.jobs[id]);
    }
  }

  /** A transaction that ends the running attempt and settles the vehicle. */
  lemma FinishedIsOk(db: Db, b: Db, id: JobId, attempt: Attempt)
    requires DbOk(db) && id in db.jobs && id in b.jobs && db.jobs[id].status == Processing
    requires b.jobs == db.jobs[id := b.jobs[id]] && Terminal(b.jobs[id].status)
    requires b.jobs[id] == db.jobs[id].(status := b.jobs[id].status, worker := None, claimExpiresAt := None,
                                        error := b.jobs[id].error, nextAttemptAt := b.jobs[id].nextAttemptAt)
    requires b.attempts == db.attempts[(id, db.jobs[id].attemptCount) := attempt]
    requires attempt.status == ExpectedStatus(b.jobs[id], db.jobs[id].attemptCount)
    requires b.outbox == db.outbox
    requires if b.jobs[id].status == Completed
             then b.usage == db.usage + multiset{BackgroundRemovalCompleted(id)} && b.assets == db.assets + multiset{id}
             else b.usage == db.usage && b.assets == db.assets
    requires b.vehicles == Settled(b.jobs, db.vehicles, db.jobs[id].vehicle)
    ensures DbOk(b)
  {
    hide DbOk, Ledger, OthersKept, VehiclesOk, NoStrays, Settled;
    RowsOf(db, id);
    AttemptEnds(db.attempts, id, db.jobs[id], b.jobs[id], attempt);
    SettledIsOk(db.jobs, db.vehicles, id, b.jobs[id]);
    OneJobKeepsOk(db, b, id);
  }

  /** The running attempt of a processing job is open. */
  lemma RunningAttempt(db: Db, id: JobId)
    requires DbOk(db) && id in db.jobs && db.jobs[id].status == Processing
    ensures (id, db.jobs[id].attemptCount) in db.attempts && db.attempts[(id, db.jobs[id].attemptCount)].status == Started
  {
    assert JobOk(db, id);
    assert (id, db.jobs[id].attemptCount) in db.attempts;
  }

  lemma ExhaustKeepsOk(db: Db, id: JobId)
    requires DbOk(db) && id in db.jobs && db.jobs[id].status == Processing
    ensures DbOk(Exhaust(db, id))
  {
    RunningAttempt(db, id);
    hide DbOk, Settled;
    FinishedIsOk(db, Exhaust(db, id), id, Attempt(Fell, Some(false)));
  }

  lemma ClaimKeepsOk(db: Db, id: JobId, worker: WorkerId, now: Time, expiresAt: Time)
    requires DbOk(db)
    ensures DbOk(Claim(db, id, worker, now, expiresAt))
  {
    hide DbOk, Exhaust, Lease;
    if ClaimOutcome(db, id, now).JobClaimed? {
      LeaseKeepsOk(db, id, worker, now, expiresAt);
    } else if ClaimOutcome(db, id, now) == TerminalJob && !Terminal(db.jobs[id].status) {
      ExhaustKeepsOk(db, id);
    }
  }

  lemma CompleteKeepsOk(db: Db, id: JobId, worker: WorkerId, attemptNumber: nat)
    requires DbOk(db) && KnowsAttempt(db, id, worker, attemptNumber)
    ensures DbOk(Complete(db, id, worker, attemptNumber))
  {
    if CompleteOutcome(db, id, worker) == CompletionStored {
      RunningAttempt(db, id);
      hide DbOk, Settled;
      FinishedIsOk(db, Complete(db, id, worker, attemptNumber), id, Attempt(Succeeded, Some(false)));
    }
  }

  lemma RetryKeepsOk(db: Db, id: JobId, worker: WorkerId, attemptNumber: nat, kind: FailureKind, retryable: bool, nextAttemptAt: Time)
    requires DbOk(db) && KnowsAttempt(db, id, worker, attemptNumber)
    requires FailOutcome(db, id, worker, retryable) == RetryScheduled
    ensures DbOk(Fail(db, id, worker, attemptNumber, kind, retryable, nextAttemptAt))
  {
    hide DbOk, Ledger, OthersKept, VehiclesOk, NoStrays, Settled;
    var b := Fail(db, id, worker, attemptNumber, kind, retryable, nextAttemptAt);
    RowsOf(db, id);
    RunningAttempt(db, id);
    AttemptEnds(db.attempts, id, db.jobs[id], b.jobs[id], Attempt(Fell, Some(true)));
    StaysActive(db.jobs, db.vehicles, id, b.jobs[id]);
    OneJobKeepsOk(db, b, id);
  }

  lemma FinalFailureKeepsOk(db: Db, id: JobId, worker: WorkerId, attemptNumber: nat, kind: FailureKind, retryable: bool, nextAttemptAt: Time)
    requires DbOk(db) && KnowsAttempt(db, id, worker, attemptNumber)
    requires FailOutcome(db, id, worker, retryable) == FailureStored
    ensures DbOk(Fail(db, id, worker, attemptNumber, kind, retryable, nextAttemptAt))
  {
    RunningAttempt(db, id);
    hide DbOk, Settled;
    FinishedIsOk(db, Fail(db, id, worker, attemptNumber, kind, retryable, nextAttemptAt), id, Attempt(Fell, Some(false)));
  }

  lemma FailKeepsOk(db: Db, id: JobId, worker: WorkerId, attemptNumber: nat, kind: FailureKind, retryable: bool, nextAttemptAt: Time)
    requires DbOk(db) && KnowsAttempt(db, id, worker, attemptNumber)
    ensures DbOk(Fail(db, id, worker, attemptNumber, kind, retryable, nextAttemptAt))
  {
    hide DbOk;
    if FailOutcome(db, id, worker, retryable) == RetryScheduled {
      RetryKeepsOk(db, id, worker, attemptNumber, kind, retryable, nextAttemptAt);
    } else if FailOutcome(db, id, worker, retryable) == FailureStored {
      FinalFailureKeepsOk(db, id, worker, attemptNumber, kind, retryable, nextAttemptAt);
    }
  }

  // ----- outbox transactions change neither attempts, charges nor vehicles -----

  /** Same jobs and rows up to publication, with every job as active as before. */
  lemma OutboxStepKeepsOk(a: Db, b: Db)
    requires DbOk(a)
    requires b == a.(jobs := b.jobs, outbox := b.outbox) && b.jobs.Keys == a.jobs.Keys && b.outbox.Keys == a.outbox.Keys
    requires forall id :: id in a.jobs ==> b.jobs[id] == a.jobs[id] || (AwaitsPublication(a.jobs[id].status) && b.jobs[id] == QueuedJob(a.jobs[id]))
    requires forall id :: id in a.jobs ==> id in b.outbox && OutboxAgrees(b.jobs[id], b.outbox[id])
    ensures DbOk(b)
  {
    OutboxStepRows(a, b);
    OutboxStepVehicles(a, b);
    OutboxStepStrays(a, b);
  }

  lemma OutboxStepStrays(a: Db, b: Db)
    requires NoStrays(a)
    requires b == a.(jobs := b.jobs, outbox := b.outbox) && b.jobs.Keys == a.jobs.Keys && b.outbox.Keys == a.outbox.Keys
    ensures NoStrays(b)
  {
  }

  lemma OutboxStepVehicles(a: Db, b: Db)
    requires VehiclesOk(a.jobs, a.vehicles) && a.vehicles == b.vehicles && b.jobs.Keys == a.jobs.Keys
    requires forall id :: id in a.jobs ==> b.jobs[id] == a.jobs[id] || (AwaitsPublication(a.jobs[id].status) && b.jobs[id] == QueuedJob(a.jobs[id]))
    ensures VehiclesOk(b.jobs, b.vehicles)
  {
    forall u ensures AnyActive(b.jobs, u) <==> AnyActive(a.jobs, u) {
      SameActivity(a.jobs, b.jobs, u);
    }
    hide AnyActive;
  }

  lemma OutboxStepRows(a: Db, b: Db)
    requires DbOk(a)
    requires b == a.(jobs := b.jobs, outbox := b.outbox) && b.jobs.Keys == a.jobs.Keys && b.outbox.Keys == a.outbox.Keys
    requires forall id :: id in a.jobs ==> b.jobs[id] == a.jobs[id] || (AwaitsPublication(a.jobs[id].status) && b.jobs[id] == QueuedJob(a.jobs[id]))
    requires forall id :: id in a.jobs ==> id in b.outbox && OutboxAgrees(b.jobs[id], b.outbox[id])
    ensures forall id :: id in b.jobs ==> JobOk(b, id)
  {
    hide DbOk, Ledger, NoStrays, VehiclesOk;
    forall id | id in b.jobs ensures JobOk(b, id) {
      RowsOf(a, id);
      QueuedLedger(a.attempts, id, a.jobs[id]);
    }
  }

  lemma QueuedLedger(a: Attempts, id: JobId, job: Job)
    requires Ledger(a, id, job)
    ensures AwaitsPublication(job.status) ==> Ledger(a, id, QueuedJob(job))
  {
  }

  lemma SameActivity(a: map<JobId, Job>, b: map<JobId, Job>, u: VehicleId)
    requires a.Keys == b.Keys
    requires forall id :: id in a ==> b[id].vehicle == a[id].vehicle && (Active(b[id].status) <==> Active(a[id].status))
    ensures AnyActive(b, u) <==> AnyActive(a, u)
  {
    if AnyActive(a, u) {
      var w :| BelongsTo(a, w, u) && Active(a[w].status);
      assert BelongsTo(b, w, u);
    }
    if AnyActive(b, u) {
      var w :| BelongsTo(b, w, u) && Active(b[w].status);
      assert BelongsTo(a, w, u);
    }
  }

  lemma ClaimRowsKeepsOk(db: Db, chosen: set<JobId>, token: ClaimToken, now: Time, expiresAt: Time)
    requires DbOk(db) && forall id :: id in chosen ==> Dispatchable(db, id, now)
    ensures DbOk(ClaimRows(db, chosen, token, expiresAt))
  {
    hide DbOk, Ledger, NoStrays, VehiclesOk;
    var b := ClaimRows(db, chosen, token, expiresAt);
    forall id | id in db.jobs ensures id in b.outbox && OutboxAgrees(b.jobs[id], b.outbox[id]) {
      RowsOf(db, id);
    }
    OutboxStepKeepsOk(db, b);
  }

  lemma MarkRowsKeepsOk(db: Db, ids: set<JobId>, token: ClaimToken)
    requires DbOk(db)
    ensures DbOk(MarkRows(db, ids, token))
  {
    hide DbOk, Ledger, NoStrays, VehiclesOk;
    var b := MarkRows(db, ids, token);
    forall id | id in db.jobs ensures id in b.outbox && OutboxAgrees(b.jobs[id], b.outbox[id]) {
      RowsOf(db, id);
    }
    OutboxStepKeepsOk(db, b);
  }

  lemma ReleaseRowKeepsOk(db: Db, id: JobId, token: ClaimToken, nextAttemptAt: Time)
    requires DbOk(db)
    ensures DbOk(ReleaseRow(db, id, token, nextAttemptAt))
  {
    hide DbOk, Ledger, NoStrays, VehiclesOk;
    var b := ReleaseRow(db, id, token, nextAttemptAt);
    forall i | i in db.jobs ensures i in b.outbox && OutboxAgrees(b.jobs[i], b.outbox[i]) {
      RowsOf(db, i);
    }
    OutboxStepKeepsOk(db, b);
  }

  // ----- reserving a batch -----

  /** The conditional vehicle claim succeeds, and the new job ids and retry budgets are as the schema makes them. */
  ghost predicate MayReserve(db: Db, v: VehicleId, added: map<JobId, NewJob>, usageJob: JobId) {
    && v in db.vehicles && Processable(db.vehicles[v])
    && added != map[] && usageJob in added && added.Keys !! db.jobs.Keys
    && forall id :: id in added ==> added[id].maxAttempts > 0
  }

  lemma ReserveKeepsOk(db: Db, v: VehicleId, batch: BatchKey, added: map<JobId, NewJob>, usageJob: JobId)
    requires DbOk(db) && MayReserve(db, v, added, usageJob)
    ensures DbOk(Reserve(db, v, batch, added, usageJob))
  {
    hide DbOk, JobOk, NoStrays, VehiclesOk, MayReserve;
    var b := Reserve(db, v, batch, added, usageJob);
    ReserveVehicles(db, v, batch, added, usageJob);
    ReserveStrays(db, v, batch, added, usageJob);
    forall id | id in b.jobs ensures JobOk(b, id) {
      if id in added {
        ReservedIsOk(db, v, batch, added, usageJob, id);
      } else {
        OlderIsOk(db, v, batch, added, usageJob, id);
      }
    }
    DbOkOf(b);
  }

  lemma DbOkOf(b: Db)
    requires (forall id :: id in b.jobs ==> JobOk(b, id)) && VehiclesOk(b.jobs, b.vehicles) && NoStrays(b)
    ensures DbOk(b)
  {
    hide JobOk, VehiclesOk, NoStrays;
  }

  lemma ReserveVehicles(db: Db, v: VehicleId, batch: BatchKey, added: map<JobId, NewJob>, usageJob: JobId)
    requires DbOk(db) && MayReserve(db, v, added, usageJob)
    ensures var b := Reserve(db, v, batch, added, usageJob); VehiclesOk(b.jobs, b.vehicles)
  {
    var b := Reserve(db, v, batch, added, usageJob);
    forall u | u in b.vehicles ensures b.vehicles[u] == VehicleProcessing <==> AnyActive(b.jobs, u) {
      ReservedActivity(db, v, batch, added, usageJob, u);
    }
  }

  lemma ReserveStrays(db: Db, v: VehicleId, batch: BatchKey, added: map<JobId, NewJob>, usageJob: JobId)
    requires DbOk(db) && MayReserve(db, v, added, usageJob)
    ensures NoStrays(db) && NoStrays(Reserve(db, v, batch, added, usageJob))
  {
    hide JobOk, VehiclesOk;
    var b := Reserve(db, v, batch, added, usageJob);
    assert b.outbox.Keys == b.jobs.Keys;
  }

  lemma OlderIsOk(db: Db, v: VehicleId, batch: BatchKey, added: map<JobId, NewJob>, usageJob: JobId, id: JobId)
    requires DbOk(db) && MayReserve(db, v, added, usageJob) && id in db.jobs
    ensures JobOk(Reserve(db, v, batch, added, usageJob), id)
  {
    var b := Reserve(db, v, batch, added, usageJob);
    assert JobOk(db, id);
    OlderRowsStay(db, v, batch, added, usageJob, id);
    hide DbOk, JobOk, SameRows;
    SameRowsStayOk(db, b, id);
  }

  lemma OlderRowsStay(db: Db, v: VehicleId, batch: BatchKey, added: map<JobId, NewJob>, usageJob: JobId, id: JobId)
    requires MayReserve(db, v, added, usageJob) && id in db.jobs && id in db.outbox
    ensures SameRows(db, Reserve(db, v, batch, added, usageJob), id)
  {
  }

  lemma ReservedIsOk(db: Db, v: VehicleId, batch: BatchKey, added: map<JobId, NewJob>, usageJob: JobId, id: JobId)
    requires NoStrays(db) && MayReserve(db, v, added, usageJob) && id in added
    ensures JobOk(Reserve(db, v, batch, added, usageJob), id)
  {
    var b := Reserve(db, v, batch, added, usageJob);
    assert forall n: nat {:trigger (id, n) in b.attempts} :: (id, n) !in db.attempts;
    assert BackgroundRemovalCompleted(id) !in db.usage;
    assert id !in db.assets;
  }

  lemma ReservedActivity(db: Db, v: VehicleId, batch: BatchKey, added: map<JobId, NewJob>, usageJob: JobId, u: VehicleId)
    requires MayReserve(db, v, added, usageJob)
    ensures AnyActive(Reserve(db, v, batch, added, usageJob).jobs, u) <==> u == v || AnyActive(db.jobs, u)
  {
    var jobs := Reserve(db, v, batch, added, usageJob).jobs;
    assert BelongsTo(jobs, usageJob, v) && Active(jobs[usageJob].status);
    if AnyActive(db.jobs, u) {
      var w :| BelongsTo(db.jobs, w, u) && Active(db.jobs[w].status);
      assert BelongsTo(jobs, w, u) && Active(jobs[w].status);
    }
    if AnyActive(jobs, u) {
      var w :| BelongsTo(jobs, w, u) && Active(jobs[w].status);
      if w !in added { assert BelongsTo(db.jobs, w, u) && Active(db.jobs[w].status); }
    }
  }
}
