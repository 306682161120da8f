/** What every transaction keeps of one job's rows, and how far each one moves the job. */
module JobInvariants {
  import opened JobRows
  import opened Options

  type Attempts = map<(JobId, nat), Attempt>

  // ----- one job's rows -----

  /** Attempts are numbered 1 to attemptCount and all but the last have failed. */
  ghost predicate Ledger(attempts: Attempts, id: JobId, job: Job) {
    && (forall n: nat {:trigger (id, n) in attempts} :: (id, n) in attempts <==> 1 <= n <= job.attemptCount)
    && (forall n: nat {:trigger attempts[(id, n)]} :: 1 <= n <= job.attemptCount ==> attempts[(id, n)].status == ExpectedStatus(job, n))
  }

  function ExpectedStatus(job: Job, n: nat): AttemptStatus {
    if n == job.attemptCount && job.status == Processing then Started
    else if n == job.attemptCount && job.status == Completed then Succeeded
    else Fell
  }

  predicate Budgeted(job: Job) {
    && job.attemptCount <= job.maxAttempts && job.maxAttempts > 0
    && (AwaitsPublication(job.status) || job.status == Queued ==> job.attemptCount < job.maxAttempts)
    && (job.status == Processing || job.status == Completed || job.status == Failed ==> job.attemptCount >= 1)
    && (job.status == Created ==> job.attemptCount == 0)
    && (job.status == Processing <==> job.worker.Some?)
    && (job.status == Processing <==> job.claimExpiresAt.Some?)
  }

  /** The outbox row is unpublished exactly while the job awaits publication, and published rows carry no claim. */
  predicate OutboxAgrees(job: Job, row: OutboxRow) {
    && (row.published <==> !AwaitsPublication(job.status))
    && (row.published ==> row.claim == None)
  }

  /** Charged once and stored once if completed, never otherwise. */
  predicate Charged(db: Db, id: JobId)
    requires id in db.jobs
  {
    var times := if db.jobs[id].status == Completed then 1 else 0;
    db.usage[BackgroundRemovalCompleted(id)] == times && db.assets[id] == times
  }

  ghost predicate JobOk(db: Db, id: JobId) {
    && id in db.jobs && id in db.outbox && db.jobs[id].vehicle in db.vehicles
    && Budgeted(db.jobs[id]) && OutboxAgrees(db.jobs[id], db.outbox[id]) && Ledger(db.attempts, id, db.jobs[id]) && Charged(db, id)
  }

  /** Rows exist only for jobs. */
  ghost predicate NoStrays(db: Db) {
    && db.outbox.Keys == db.jobs.Keys
    && (forall id, n {:trigger (id, n) in db.attempts} :: (id, n) in db.attempts ==> id in db.jobs)
    && (forall id {:trigger BackgroundRemovalCompleted(id)} :: BackgroundRemovalCompleted(id) in db.usage ==> id in db.jobs)
    && (forall id :: id in db.assets ==> id in db.jobs)
  }

  /** A vehicle is processing exactly while one of its jobs is active. */
  ghost predicate VehiclesOk(jobs: map<JobId, Job>, vehicles: map<VehicleId, VehicleStatus>) {
    forall v :: v in vehicles ==> (vehicles[v] == VehicleProcessing <==> AnyActive(jobs, v))
  }

  ghost predicate DbOk(db: Db) {
    && (forall id :: id in db.jobs ==> JobOk(db, id))
    && VehiclesOk(db.jobs, db.vehicles)
    && NoStrays(db)
  }

  // ----- frames: transactions on one job leave the others alone -----

  ghost predicate SameAttempts(a: Attempts, b: Attempts, id: JobId) {
    && (forall n: nat {:trigger (id, n) in b} :: (id, n) in a <==> (id, n) in b)
    && (forall n: nat {:trigger b[(id, n)]} :: (id, n) in a && (id, n) in b ==> a[(id, n)] == b[(id, n)])
  }

  ghost predicate OthersKept(a: Attempts, b: Attempts, id: JobId) {
    forall other :: other != id ==> SameAttempts(a, b, other)
  }

  /** The two databases agree on everything that belongs to job `id`. */
  ghost predicate SameRows(a: Db, b: Db, id: JobId) {
    && (id in a.jobs <==> id in b.jobs) && (id in a.jobs ==> a.jobs[id] == b.jobs[id])
    && (id in a.outbox <==> id in b.outbox) && (id in a.outbox ==> a.outbox[id] == b.outbox[id])
    && SameAttempts(a.attempts, b.attempts, id)
    && a.usage[BackgroundRemovalCompleted(id)] == b.usage[BackgroundRemovalCompleted(id)]
    && a.assets[id] == b.assets[id]
  }

  lemma SameRowsStayOk(a: Db, b: Db, id: JobId)
    requires SameRows(a, b, id) && JobOk(a, id) && a.vehicles.Keys <= b.vehicles.Keys
    ensures JobOk(b, id)
  {
    SameLedger(a.attempts, b.attempts, id, b.jobs[id]);
    hide Ledger;
  }

  lemma SameLedger(a: Attempts, b: Attempts, id: JobId, job: Job)
    requires SameAttempts(a, b, id) && Ledger(a, id, job)
    ensures Ledger(b, id, job)
  {
    forall n: nat ensures (id, n) in b <==> 1 <= n <= job.attemptCount {
      assert (id, n) in a <==> 1 <= n <= job.attemptCount;
    }
    forall n: nat | 1 <= n <= job.attemptCount ensures b[(id, n)].status == ExpectedStatus(job, n) {
      assert (id, n) in a && (id, n) in b;
    }
  }

  /** Only job `id` may differ, and its vehicle keeps to `Settled` or stays. */
  ghost predicate TouchesOnly(a: Db, b: Db, id: JobId) {
    && a.vehicles.Keys == b.vehicles.Keys
    && (forall other :: other != id ==> SameRows(a, b, other))
  }

  /** A transaction that rewrites the rows of one job, adding at most its charge and its asset. */
  lemma OneJobChanges(a: Db, b: Db, id: JobId)
    requires id in a.jobs && id in b.jobs && b.jobs == a.jobs[id := b.jobs[id]]
    requires b.outbox == a.outbox || (id in a.outbox && id in b.outbox && b.outbox == a.outbox[id := b.outbox[id]])
    requires OthersKept(a.attempts, b.attempts, id)
    requires b.usage == a.usage || b.usage == a.usage + multiset{BackgroundRemovalCompleted(id)}
    requires b.assets == a.assets || b.assets == a.assets + multiset{id}
    requires a.vehicles.Keys == b.vehicles.Keys
    ensures TouchesOnly(a, b, id)
  {
    hide SameAttempts;
  }

  // ----- one job's attempts -----

  /** Attempt `n` of `id` is set. */
  lemma OneAttemptChanges(a: Attempts, id: JobId, n: nat, attempt: Attempt)
    ensures OthersKept(a, a[(id, n) := attempt], id)
    ensures forall m: nat {:trigger (id, m) in a[(id, n) := attempt]} :: (id, m) in a[(id, n) := attempt] <==> (id, m) in a || m == n
    ensures forall m: nat {:trigger a[(id, n) := attempt][(id, m)]} :: m != n && (id, m) in a ==> a[(id, n) := attempt][(id, m)] == a[(id, m)]
    ensures a[(id, n) := attempt][(id, n)] == attempt
  {
  }

  /** The running attempt of a job that leaves the processing state gets its final status. */
  lemma AttemptEnds(a: Attempts, id: JobId, job: Job, job': Job, attempt: Attempt)
    requires Ledger(a, id, job) && job.status == Processing && job.attemptCount >= 1
    requires job'.attemptCount == job.attemptCount && job'.status != Processing
    requires attempt.status == ExpectedStatus(job', job.attemptCount)
    ensures (id, job.attemptCount) in a && a[(id, job.attemptCount)].status == Started
    ensures Ledger(a[(id, job.attemptCount) := attempt], id, job')
    ensures OthersKept(a, a[(id, job.attemptCount) := attempt], id)
  {
    OneAttemptChanges(a, id, job.attemptCount, attempt);
    hide SameAttempts;
    var b := a[(id, job.attemptCount) := attempt];
    assert (id, job.attemptCount) in a;
    forall n: nat | 1 <= n <= job.attemptCount ensures b[(id, n)].status == ExpectedStatus(job', n) {
      assert (id, n) in a;
    }
  }

  /** A new attempt starts behind attempts that have all failed. */
  lemma AttemptStarts(a: Attempts, id: JobId, job: Job, job': Job)
    requires Ledger(a, id, job) && job.status != Processing && job.status != Completed
    requires job'.attemptCount == job.attemptCount + 1 && job'.status == Processing
    ensures Ledger(a[(id, job.attemptCount + 1) := Attempt(Started, None)], id, job')
    ensures OthersKept(a, a[(id, job.attemptCount + 1) := Attempt(Started, None)], id)
  {
    OneAttemptChanges(a, id, job.attemptCount + 1, Attempt(Started, None));
    hide SameAttempts;
    var b := a[(id, job.attemptCount + 1) := Attempt(Started, None)];
    forall n: nat | 1 <= n <= job'.attemptCount ensures b[(id, n)].status == ExpectedStatus(job', n) {
      if n <= job.attemptCount { assert (id, n) in a; }
    }
  }

  lemma SameAttemptsTrans(a: Attempts, b: Attempts, c: Attempts, id: JobId)
    requires SameAttempts(a, b, id) && SameAttempts(b, c, id)
    ensures SameAttempts(a, c, id)
  {
    forall n: nat ensures (id, n) in a <==> (id, n) in c {
      assert (id, n) in a <==> (id, n) in b;
    }
    forall n: nat | (id, n) in a && (id, n) in c ensures a[(id, n)] == c[(id, n)] {
      assert (id, n) in b && a[(id, n)] == b[(id, n)];
    }
  }

  // ----- the vehicle after a finished job -----

  lemma OtherVehiclesKeep(jobs: map<JobId, Job>, id: JobId, job: Job, u: VehicleId)
    requires id in jobs && jobs[id].vehicle == job.vehicle
    requires u != job.vehicle || (Active(jobs[id].status) && Active(job.status))
    ensures AnyActive(jobs, u) <==> AnyActive(jobs[id := job], u)
  {
    var after := jobs[id := job];
    if AnyActive(jobs, u) {
      var w :| BelongsTo(jobs, w, u) && Active(jobs[w].status);
      assert BelongsTo(after, w, u) && Active(after[w].status);
    }
    if AnyActive(after, u) {
      var w :| BelongsTo(after, w, u) && Active(after[w].status);
      assert BelongsTo(jobs, w, u) && Active(jobs[w].status);
    }
  }

  /** Finishing a job settles its vehicle. */
  lemma SettledIsOk(jobs: map<JobId, Job>, vehicles: map<VehicleId, VehicleStatus>, id: JobId, job: Job)
    requires VehiclesOk(jobs, vehicles) && id in jobs && jobs[id].vehicle == job.vehicle
    requires Active(jobs[id].status) && !Active(job.status)
    ensures VehiclesOk(jobs[id := job], Settled(jobs[id := job], vehicles, job.vehicle))
    ensures Settled(jobs[id := job], vehicles, job.vehicle).Keys == vehicles.Keys
  {
    assert BelongsTo(jobs, id, job.vehicle);
    hide LatestBatchFailed;
    var after := Settled(jobs[id := job], vehicles, job.vehicle);
    forall u | u in after ensures after[u] == VehicleProcessing <==> AnyActive(jobs[id := job], u) {
      if u != job.vehicle { OtherVehiclesKeep(jobs, id, job, u); }
    }
  }

  lemma StaysActive(jobs: map<JobId, Job>, vehicles: map<VehicleId, VehicleStatus>, id: JobId, job: Job)
    requires VehiclesOk(jobs, vehicles) && id in jobs && jobs[id].vehicle == job.vehicle
    requires Active(jobs[id].status) && Active(job.status)
    ensures VehiclesOk(jobs[id := job], vehicles)
  {
    forall u | u in vehicles ensures vehicles[u] == VehicleProcessing <==> AnyActive(jobs[id := job], u) {
      OtherVehiclesKeep(jobs, id, job, u);
    }
  }

  lemma NoStraysKept(a: Db, b: Db, id: JobId)
    requires NoStrays(a) && TouchesOnly(a, b, id) && id in b.jobs && id in b.outbox && b.jobs.Keys == a.jobs.Keys
    ensures NoStrays(b)
  {
    forall i, n | (i, n) in b.attempts ensures i in b.jobs {
      if i != id { SameRowsKeepStrays(a, b, i); assert (i, n) in a.attempts; }
    }
    forall i | BackgroundRemovalCompleted(i) in b.usage ensures i in b.jobs {
      if i != id { SameRowsKeepStrays(a, b, i); }
    }
    forall i | i in b.assets ensures i in b.jobs {
      if i != id { SameRowsKeepStrays(a, b, i); }
    }
    forall i ensures i in b.outbox <==> i in b.jobs {
      if i != id { SameRowsKeepStrays(a, b, i); }
    }
    assert b.outbox.Keys == b.jobs.Keys;
  }

  lemma SameRowsKeepStrays(a: Db, b: Db, i: JobId)
    requires SameRows(a, b, i)
    ensures forall n: nat {:trigger (i, n) in b.attempts} :: (i, n) in b.attempts ==> (i, n) in a.attempts
    ensures BackgroundRemovalCompleted(i) in b.usage <==> BackgroundRemovalCompleted(i) in a.usage
    ensures i in b.assets <==> i in a.assets
    ensures (i in b.outbox <==> i in a.outbox) && (i in b.jobs <==> i in a.jobs)
  {
  }

  lemma TouchedIsOk(a: Db, b: Db, id: JobId)
    requires DbOk(a) && TouchesOnly(a, b, id) && id in a.jobs && JobOk(b, id)
    requires VehiclesOk(b.jobs, b.vehicles) && b.jobs.Keys == a.jobs.Keys
    ensures DbOk(b)
  {
    NoStraysKept(a, b, id) by { assert id in b.outbox; }
    hide JobOk, SameRows, NoStrays, VehiclesOk;
    forall other | other in b.jobs ensures JobOk(b, other) {
      if other != id { SameRowsStayOk(a, b, other); }
    }
  }

  /** What the invariant says about one job. */
  lemma RowsOf(db: Db, id: JobId)
    requires DbOk(db) && id in db.jobs
    ensures id in db.outbox && db.jobs[id].vehicle in db.vehicles
    ensures Budgeted(db.jobs[id]) && OutboxAgrees(db.jobs[id], db.outbox[id]) && Ledger(db.attempts, id, db.jobs[id]) && Charged(db, id)
    ensures VehiclesOk(db.jobs, db.vehicles) && NoStrays(db)
  {
    assert JobOk(db, id);
    hide Ledger, VehiclesOk, NoStrays;
  }

  /** A transaction on one job keeps the invariant if it leaves that job's rows and the vehicles in order. */
  lemma OneJobKeepsOk(a: Db, b: Db, id: JobId)
    requires DbOk(a) && id in a.jobs && id in b.jobs && id in a.outbox && id in b.outbox
    requires b.jobs == a.jobs[id := b.jobs[id]] && b.outbox == a.outbox[id := b.outbox[id]]
    requires OthersKept(a.attempts, b.attempts, id) && a.vehicles.Keys == b.vehicles.Keys
    requires b.usage == a.usage || b.usage == a.usage + multiset{BackgroundRemovalCompleted(id)}
    requires b.assets == a.assets || b.assets == a.assets + multiset{id}
    requires Budgeted(b.jobs[id]) && OutboxAgrees(b.jobs[id], b.outbox[id]) && Ledger(b.attempts, id, b.jobs[id]) && Charged(b, id)
    requires b.jobs[id].vehicle in b.vehicles && VehiclesOk(b.jobs, b.vehicles)
    ensures DbOk(b)
  {
    hide DbOk, Ledger, OthersKept, VehiclesOk, Budgeted, OutboxAgrees, Charged, TouchesOnly;
    assert JobOk(b, id);
    OneJobChanges(a, b, id);
    hide JobOk;
    TouchedIsOk(a, b, id);
  }

  // ----- the newest job of a vehicle -----

  lemma {:induction false} NewestExists(jobs: map<JobId, Job>, some: set<JobId>) returns (m: JobId)
    requires some != {} && some <= jobs.Keys
    ensures m in some && forall other :: other in some ==> NewerOrSame(jobs, m, other)
    decreases some
  {
    var x :| x in some;
    if some == {x} {
      m := x;
    } else {
      var rest := NewestExists(jobs, some - {x});
      m := if NewerOrSame(jobs, rest, x) then rest else x;
      forall other | other in some ensures NewerOrSame(jobs, m, other) {
        if other != x { assert NewerOrSame(jobs, rest, other); }
      }
    }
  }

  ghost predicate BatchFailed(jobs: map<JobId, Job>, v: VehicleId, latest: JobId)
    requires latest in jobs
  {
    exists id :: BelongsTo(jobs, id, v) && InBatchOf(jobs, latest, id) && NeedsAttention(jobs[id].status)
  }

  lemma LatestIsUnique(jobs: map<JobId, Job>, v: VehicleId, latest: JobId)
    requires IsLatest(jobs, v, latest)
    ensures LatestBatchFailed(jobs, v) <==> BatchFailed(jobs, v, latest)
  {
    if LatestBatchFailed(jobs, v) {
      var other, id :| IsLatest(jobs, v, other) && BelongsTo(jobs, id, v) && InBatchOf(jobs, other, id) && NeedsAttention(jobs[id].status);
      assert NewerOrSame(jobs, latest, other) && NewerOrSame(jobs, other, latest);
    }
  }
}
