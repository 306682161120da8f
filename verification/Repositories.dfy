/** The two repositories over one database; each method is one transaction, statement by statement. */
module Repositories {
  import opened JobRows
  import opened Options
  import opened JobInvariants
  import opened JobLaws

  class Database {
    var jobs: map<JobId, Job>
    var attempts: map<(JobId, nat), Attempt>
    var usage: multiset<UsageEvent>
    var assets: multiset<JobId>
    var outbox: map<JobId, OutboxRow>
    var invalid: set<AssetId>
    var vehicles: map<VehicleId, VehicleStatus>

    ghost function Rows(): Db
      reads this
    {
      Db(jobs, attempts, usage, assets, outbox, invalid, vehicles)
    }

    constructor (vehicles: map<VehicleId, VehicleStatus>)
      ensures Rows() == Db(map[], map[], multiset{}, multiset{}, map[], {}, vehicles)
    {
      jobs, attempts, usage, assets, outbox, invalid := map[], map[], multiset{}, multiset{}, map[], {};
      this.vehicles := vehicles;
    }

    /** Takes over the rows that other transactions left. */
    method Load(rows: Db)
      modifies this
      ensures Rows() == rows
    {
      jobs, attempts, usage, assets := rows.jobs, rows.attempts, rows.usage, rows.assets;
      outbox, invalid, vehicles := rows.outbox, rows.invalid, rows.vehicles;
    }
  }

  class ProcessingWorkerRepository {
    const database: Database

    constructor (database: Database)
      ensures this.database == database
    {
      this.database := database;
    }

    method FindLatestJob(v: VehicleId) returns (latest: Option<JobId>)
      ensures latest.Some? ==> IsLatest(database.jobs, v, latest.value)
      ensures latest == None ==> forall id :: !BelongsTo(database.jobs, id, v)
    {
      var jobs := database.jobs;
      var mine := set id | id in jobs && jobs[id].vehicle == v;
      assert forall id :: id in mine <==> BelongsTo(jobs, id, v);
      if mine == {} { return None; }
      ghost var any := NewestExists(jobs, mine);
      var newest :| newest in mine && forall other :: other in mine ==> NewerOrSame(jobs, newest, other);
      return Some(newest);
    }

    /** Settles the vehicle when its last active job has finished. */
    method UpdateVehicleStatus(v: VehicleId)
      modifies database`vehicles
      ensures database.vehicles == Settled(database.jobs, old(database.vehicles), v)
    {
      var jobs := database.jobs;
      var active := set id | id in jobs && jobs[id].vehicle == v && Active(jobs[id].status);
      if |active| > 0 {
        var id :| id in active;
        assert BelongsTo(jobs, id, v) && Active(jobs[id].status);
        return;
      }
      assert forall id :: BelongsTo(jobs, id, v) && Active(jobs[id].status) ==> id in active;
      var latest := FindLatestJob(v);
      var failed := {};
      if latest.Some? {
        failed := set id | id in jobs && jobs[id].vehicle == v && NeedsAttention(jobs[id].status) && InBatchOf(jobs, latest.value, id);
        LatestIsUnique(jobs, v, latest.value);
        assert failed != {} <==> BatchFailed(jobs, v, latest.value) by {
          if failed != {} { var id :| id in failed; assert BelongsTo(jobs, id, v); }
          if id :| BelongsTo(jobs, id, v) && InBatchOf(jobs, latest.value, id) && NeedsAttention(jobs[id].status) { assert id in failed; }
        }
      }
      if v in database.vehicles && database.vehicles[v] == VehicleProcessing {
        database.vehicles := database.vehicles[v := if |failed| > 0 then PartiallyFailed else Ready];
      }
    }

    method ClaimJob(id: JobId, worker: WorkerId, now: Time, claimExpiresAt: Time) returns (result: ClaimResult)
      modifies database
      ensures result == ClaimOutcome(old(database.Rows()), id, now)
      ensures database.Rows() == Claim(old(database.Rows()), id, worker, now, claimExpiresAt)
      ensures id in old(database.jobs) && old(database.jobs[id]).status == Queued ==>
                && result == JobClaimed(old(database.jobs[id]).attemptCount + 1)
                && Granted(old(database.Rows()), database.Rows(), id, worker, claimExpiresAt)
      ensures id in old(database.jobs) && old(database.jobs[id]).status == Processing && old(database.jobs[id]).claimExpiresAt.Some? ==>
                var until, n := old(database.jobs[id]).claimExpiresAt.value, old(database.jobs[id]).attemptCount;
                if now < until then result == ClaimBusy && database.Rows() == old(database.Rows())
                else if n < old(database.jobs[id]).maxAttempts
                then result == JobClaimed(n + 1) && Granted(old(database.Rows()), database.Rows(), id, worker, claimExpiresAt)
                else result == TerminalJob && id in database.jobs && database.jobs[id].status == Failed
    {
      ClaimRefusals(database.Rows(), id, worker, now, claimExpiresAt);
      ClaimGrants(database.Rows(), id, worker, now, claimExpiresAt);
      hide AnyActive, LatestBatchFailed, Settled, Granted;
      if id !in database.jobs { return NotFound; }
      var job := database.jobs[id];
      if job.status == Completed || job.status == Failed || job.status == Cancelled { return TerminalJob; }
      // A message may overtake the record of its own publication.
      if job.status == Created || job.status == Retrying { return AwaitingPublication; }
      var expiredProcessingClaim := LeaseExpired(job, now);
      if job.status == Processing && !expiredProcessingClaim { return ClaimBusy; }
      if job.status != Queued && !expiredProcessingClaim { return NotReady; }
      if expiredProcessingClaim && job.attemptCount >= job.maxAttempts {
        database.attempts := CloseAttempt(database.attempts, id, job.attemptCount, false);
        database.jobs := database.jobs[id := Released(job, Failed, Some(Internal), job.nextAttemptAt)];
        UpdateVehicleStatus(job.vehicle);
        return TerminalJob;
      }
      database.jobs := database.jobs[id := Leased(job, worker, claimExpiresAt)];
      if expiredProcessingClaim {
        database.attempts := CloseAttempt(database.attempts, id, job.attemptCount, true);
      }
      var attemptNumber := job.attemptCount + 1;
      database.attempts := database.attempts[(id, attemptNumber) := Attempt(Started, None)];
      return JobClaimed(attemptNumber);
    }

    method CompleteJob(id: JobId, worker: WorkerId, attemptNumber: nat) returns (result: CompleteResult)
      modifies database
      ensures result == CompleteOutcome(old(database.Rows()), id, worker)
      ensures database.Rows() == Complete(old(database.Rows()), id, worker, attemptNumber)
      ensures result == CompletionStored <==>
                id in old(database.jobs) && old(database.jobs[id]).status == Processing && old(database.jobs[id]).worker == Some(worker)
      ensures result == CompletionStored ==>
                && id in database.jobs && database.jobs[id].status == Completed && database.jobs[id].worker == None
                && database.assets == old(database.assets) + multiset{id}
                && database.usage == old(database.usage) + multiset{BackgroundRemovalCompleted(id)}
      ensures result != CompletionStored ==> database.Rows() == old(database.Rows())
    {
      hide AnyActive, LatestBatchFailed, Settled;
      if id !in database.jobs { return CompletionNotFound; }
      var job := database.jobs[id];
      if job.status == Completed && id in database.assets { return AlreadyCompleted; }
      if job.status != Processing || job.worker != Some(worker) { return CompletionClaimLost; }
      database.assets := database.assets + multiset{id};
      database.usage := database.usage + multiset{BackgroundRemovalCompleted(id)};
      database.attempts := Succeed(database.attempts, id, attemptNumber);
      database.jobs := database.jobs[id := Released(job, Completed, None, None)];
      UpdateVehicleStatus(job.vehicle);
      return CompletionStored;
    }

    method FailJob(id: JobId, worker: WorkerId, attemptNumber: nat, kind: FailureKind, requestRetry: bool, nextAttemptAt: Time)
      returns (result: FailResult)
      modifies database
      ensures result == FailOutcome(old(database.Rows()), id, worker, requestRetry)
      ensures database.Rows() == Fail(old(database.Rows()), id, worker, attemptNumber, kind, requestRetry, nextAttemptAt)
      ensures id in old(database.jobs) && old(database.jobs[id]).status == Processing && old(database.jobs[id]).worker == Some(worker) ==>
                && id in database.jobs
                && if requestRetry && old(database.jobs[id]).attemptCount < old(database.jobs[id]).maxAttempts
                   then result == RetryScheduled && database.jobs[id].status == Retrying && database.jobs[id].nextAttemptAt == Some(nextAttemptAt)
                   else result == FailureStored && database.jobs[id].status == Failed
    {
      hide AnyActive, LatestBatchFailed, Settled, FallAttempt, Released, Unpublished, BlamesImage;
      HolderFailure(database.Rows(), id, worker, attemptNumber, kind, requestRetry, nextAttemptAt);
      if id !in database.jobs { return FailureNotFound; }
      var job := database.jobs[id];
      if job.status != Processing || job.worker != Some(worker) { return FailureClaimLost; }
      var retryable := requestRetry && job.attemptCount < job.maxAttempts;
      database.attempts := FallAttempt(database.attempts, id, attemptNumber, retryable);
      if retryable {
        StoreRetry(id, job, kind, nextAttemptAt);
        return RetryScheduled;
      }
      StoreFailure(id, job, kind);
      return FailureStored;
    }

    /** The rest of a failure that is retried. */
    method StoreRetry(id: JobId, job: Job, kind: FailureKind, nextAttemptAt: Time)
      modifies database`jobs, database`outbox
      ensures database.jobs == old(database.jobs)[id := Released(job, Retrying, Some(kind), Some(nextAttemptAt))]
      ensures database.outbox == if id in old(database.outbox) then old(database.outbox)[id := Unpublished(old(database.outbox)[id], nextAttemptAt)]
                                 else old(database.outbox)
    {
      hide Released, Unpublished;
      database.jobs := database.jobs[id := Released(job, Retrying, Some(kind), Some(nextAttemptAt))];
      if id in database.outbox {
        database.outbox := database.outbox[id := Unpublished(database.outbox[id], nextAttemptAt)];
      }
    }

    /** The rest of a failure that is not retried. */
    method StoreFailure(id: JobId, job: Job, kind: FailureKind)
      modifies database`jobs, database`invalid, database`vehicles
      ensures database.jobs == old(database.jobs)[id := Released(job, Failed, Some(kind), None)]
      ensures database.invalid == if BlamesImage(kind) then old(database.invalid) + {job.asset} else old(database.invalid)
      ensures database.vehicles == Settled(database.jobs, old(database.vehicles), job.vehicle)
    {
      hide Settled, Released;
      database.jobs := database.jobs[id := Released(job, Failed, Some(kind), None)];
      if BlamesImage(kind) { database.invalid := database.invalid + {job.asset}; }
      UpdateVehicleStatus(job.vehicle);
    }
  }

  function SetOf(ids: seq<JobId>): set<JobId> {
    set id: JobId | id in ids
  }

  /** `a` is dispatched before `b`. */
  predicate EarlierRow(outbox: map<JobId, OutboxRow>, a: JobId, b: JobId) {
    a in outbox && b in outbox &&
    (outbox[a].createdAt < outbox[b].createdAt || (outbox[a].createdAt == outbox[b].createdAt && a < b))
  }

  /** Rows come oldest first, and those created together by their identifiers. */
  lemma EarlierRowIsOlder(outbox: map<JobId, OutboxRow>, a: JobId, b: JobId)
    requires a in outbox && b in outbox
    ensures EarlierRow(outbox, a, b) ==> outbox[a].createdAt <= outbox[b].createdAt
    ensures outbox[a].createdAt < outbox[b].createdAt ==> EarlierRow(outbox, a, b)
    ensures outbox[a].createdAt == outbox[b].createdAt ==> (EarlierRow(outbox, a, b) <==> a < b)
  {
  }

  class ProcessingOutboxRepository {
    const database: Database

    constructor (database: Database)
      ensures this.database == database
    {
      this.database := database;
    }

    /** Leases the oldest dispatchable rows, at most `limit` of them. */
    method ClaimPendingOutbox(token: ClaimToken, now: Time, claimExpiresAt: Time, jobIds: Option<set<JobId>>, limit: nat)
      returns (rows: seq<JobId>)
      modifies database`outbox
      ensures database.Rows() == ClaimRows(old(database.Rows()), SetOf(rows), token, claimExpiresAt)
      ensures |rows| <= limit
      ensures forall i :: 0 <= i < |rows| ==> Dispatchable(old(database.Rows()), rows[i], now) && (jobIds.Some? ==> rows[i] in jobIds.value)
      ensures forall i, j :: 0 <= i < j < |rows| ==> EarlierRow(old(database.outbox), rows[i], rows[j])
      ensures forall id :: Dispatchable(old(database.Rows()), id, now) && (jobIds.Some? ==> id in jobIds.value) && id !in rows ==>
                |rows| == limit && forall i :: 0 <= i < |rows| ==> EarlierRow(old(database.outbox), rows[i], id)
    {
      var jobs, outbox := database.jobs, database.outbox;
      ghost var db := database.Rows();
      var candidates := set id | id in outbox && id in jobs && !outbox[id].published && outbox[id].nextAttemptAt <= now
        && (outbox[id].claimExpiresAt == None || outbox[id].claimExpiresAt.value <= now)
        && AwaitsPublication(jobs[id].status) && (jobIds.Some? ==> id in jobIds.value);
      ghost var all := candidates;
      assert forall id :: id in all <==> Dispatchable(db, id, now) && (jobIds.Some? ==> id in jobIds.value);
      rows := [];
      while candidates != {} && |rows| < limit
        invariant candidates <= all && (forall id :: id in all <==> id in candidates || id in rows)
        invariant |rows| <= limit
        invariant forall i :: 0 <= i < |rows| ==> rows[i] in all
        invariant forall i, j :: 0 <= i < j < |rows| ==> EarlierRow(outbox, rows[i], rows[j])
        invariant forall i, id :: 0 <= i < |rows| && id in candidates ==> EarlierRow(outbox, rows[i], id)
        decreases candidates
      {
        ghost var any := OldestExists(outbox, candidates);
        var oldest :| oldest in candidates && forall other :: other in candidates && other != oldest ==> EarlierRow(outbox, oldest, other);
        rows := rows + [oldest];
        candidates := candidates - {oldest};
      }
      database.outbox := map id | id in outbox :: if id in rows then ClaimedRow(outbox[id], token, claimExpiresAt) else outbox[id];
      assert database.outbox == ClaimRows(db, SetOf(rows), token, claimExpiresAt).outbox;
    }

    lemma {:induction false} OldestExists(outbox: map<JobId, OutboxRow>, some: set<JobId>) returns (oldest: JobId)
      requires some != {} && some <= outbox.Keys
      ensures oldest in some && forall other :: other in some && other != oldest ==> EarlierRow(outbox, oldest, other)
      decreases some
    {
      var x :| x in some;
      if some == {x} {
        oldest := x;
      } else {
        var rest := OldestExists(outbox, some - {x});
        oldest := if EarlierRow(outbox, x, rest) then x else rest;
        forall other | other in some && other != oldest ensures EarlierRow(outbox, oldest, other) {
          if other != x && other != rest { assert EarlierRow(outbox, rest, other); }
        }
      }
    }

    /** Records one sent message, unless its claim was lost. */
    method MarkOutboxPublished(id: JobId, token: ClaimToken) returns (marked: bool)
      modifies database`outbox, database`jobs
      ensures marked == Acknowledges(old(database.Rows()), id, token)
      ensures marked <==>
                && id in old(database.outbox) && old(database.outbox[id]).claim == Some(token) && !old(database.outbox[id]).published
                && id in old(database.jobs) && old(database.jobs[id]).status in {Created, Retrying}
      ensures database.Rows() == MarkRows(old(database.Rows()), {id}, token)
    {
      ghost var db := database.Rows();
      if id !in database.outbox || database.outbox[id].claim != Some(token) || database.outbox[id].published
         || id !in database.jobs || !AwaitsPublication(database.jobs[id].status) {
        assert database.outbox == MarkRows(db, {id}, token).outbox && database.jobs == MarkRows(db, {id}, token).jobs;
        return false;
      }
      database.jobs := database.jobs[id := QueuedJob(database.jobs[id])];
      database.outbox := database.outbox[id := PublishedRow(database.outbox[id])];
      assert database.outbox == MarkRows(db, {id}, token).outbox && database.jobs == MarkRows(db, {id}, token).jobs;
      return true;
    }

    /** Records the sent messages whose claims still stand, and reports them in order. */
    method MarkOutboxPublishedBatch(ids: seq<JobId>, token: ClaimToken) returns (acknowledged: seq<JobId>)
      requires forall i, j :: 0 <= i < j < |ids| ==> ids[i] != ids[j]
      modifies database`outbox, database`jobs
      ensures acknowledged == AcknowledgedOf(old(database.Rows()), ids, token)
      ensures database.Rows() == MarkRows(old(database.Rows()), SetOf(ids), token)
    {
      ghost var db := database.Rows();
      var jobs, outbox := database.jobs, database.outbox;
      acknowledged := [];
      for i := 0 to |ids|
        invariant acknowledged == AcknowledgedOf(db, ids[..i], token)
      {
        assert ids[..i + 1] == ids[..i] + [ids[i]];
        if ids[i] in outbox && outbox[ids[i]].claim == Some(token) && !outbox[ids[i]].published
           && ids[i] in jobs && AwaitsPublication(jobs[ids[i]].status) {
          acknowledged := acknowledged + [ids[i]];
        }
      }
      assert ids[..|ids|] == ids;
      database.outbox := map id | id in outbox :: if id in acknowledged then PublishedRow(outbox[id]) else outbox[id];
      database.jobs := map id | id in jobs :: if id in acknowledged then QueuedJob(jobs[id]) else jobs[id];
      AcknowledgedAreMarked(db, ids, token, database.outbox, database.jobs);
    }

    method ReleaseOutboxClaim(id: JobId, token: ClaimToken, nextAttemptAt: Time) returns (released: bool)
      modifies database`outbox
      ensures released == Releases(old(database.Rows()), id, token)
      ensures released <==> id in old(database.outbox) && old(database.outbox[id]).claim == Some(token) && !old(database.outbox[id]).published
      ensures database.Rows() == ReleaseRow(old(database.Rows()), id, token, nextAttemptAt)
    {
      if id in database.outbox && database.outbox[id].claim == Some(token) && !database.outbox[id].published {
        database.outbox := database.outbox[id := database.outbox[id].(claim := None, claimExpiresAt := None, nextAttemptAt := nextAttemptAt)];
        return true;
      }
      return false;
    }
  }

  /** The commands, in order, whose rows still carry the claim. */
  ghost function AcknowledgedOf(db: Db, ids: seq<JobId>, token: ClaimToken): seq<JobId> {
    if ids == [] then []
    else AcknowledgedOf(db, ids[..|ids| - 1], token) + (if Acknowledges(db, ids[|ids| - 1], token) then [ids[|ids| - 1]] else [])
  }

  lemma {:induction false} AcknowledgedMembers(db: Db, ids: seq<JobId>, token: ClaimToken)
    ensures forall id :: id in AcknowledgedOf(db, ids, token) <==> id in ids && Acknowledges(db, id, token)
    decreases |ids|
  {
    if ids != [] {
      AcknowledgedMembers(db, ids[..|ids| - 1], token);
      assert ids == ids[..|ids| - 1] + [ids[|ids| - 1]];
    }
  }

  /** The acknowledged messages of a list are those of its first part, and then those of the rest. */
  lemma {:induction false} AcknowledgedInOrder(db: Db, a: seq<JobId>, b: seq<JobId>, token: ClaimToken)
    ensures AcknowledgedOf(db, a + b, token) == AcknowledgedOf(db, a, token) + AcknowledgedOf(db, b, token)
    decreases |b|
  {
    if b == [] {
      assert a + b == a;
    } else {
      var last := |b| - 1;
      AcknowledgedInOrder(db, a, b[..last], token);
      assert (a + b)[..|a + b| - 1] == a + b[..last];
    }
  }

  lemma AcknowledgedAreMarked(db: Db, ids: seq<JobId>, token: ClaimToken, outbox: map<JobId, OutboxRow>, jobs: map<JobId, Job>)
    requires outbox == map id | id in db.outbox :: if id in AcknowledgedOf(db, ids, token) then PublishedRow(db.outbox[id]) else db.outbox[id]
    requires jobs == map id | id in db.jobs :: if id in AcknowledgedOf(db, ids, token) then QueuedJob(db.jobs[id]) else db.jobs[id]
    ensures MarkRows(db, SetOf(ids), token) == db.(outbox := outbox, jobs := jobs)
  {
    AcknowledgedMembers(db, ids, token);
    hide Acknowledges;
    var marked := MarkRows(db, SetOf(ids), token);
    assert marked.outbox == outbox;
    assert marked.jobs == jobs;
  }

  ghost function MarkedOneByOne(db: Db, ids: seq<JobId>, token: ClaimToken): Db
    decreases |ids|
  {
    if ids == [] then db else MarkedOneByOne(MarkRows(db, {ids[0]}, token), ids[1..], token)
  }

  /** Marking one message, then others, marks them all. */
  lemma MarkInTwoSteps(db: Db, first: JobId, others: set<JobId>, token: ClaimToken)
    requires first !in others
    ensures MarkRows(MarkRows(db, {first}, token), others, token) == MarkRows(db, {first} + others, token)
  {
    var after, all := MarkRows(db, {first}, token), MarkRows(db, {first} + others, token);
    assert forall id :: id in others ==> (Acknowledges(after, id, token) <==> Acknowledges(db, id, token));
    hide Acknowledges;
    assert MarkRows(after, others, token).jobs == all.jobs;
    assert MarkRows(after, others, token).outbox == all.outbox;
  }

  lemma MarkingNothing(db: Db, token: ClaimToken)
    ensures MarkRows(db, {}, token) == db
  {
    assert MarkRows(db, {}, token).jobs == db.jobs && MarkRows(db, {}, token).outbox == db.outbox;
  }

  /** One batched acknowledgement is the same as acknowledging its messages one at a time. */
  lemma {:induction false} BatchMarksLikeSingles(db: Db, ids: seq<JobId>, token: ClaimToken)
    requires forall i, j :: 0 <= i < j < |ids| ==> ids[i] != ids[j]
    ensures MarkRows(db, SetOf(ids), token) == MarkedOneByOne(db, ids, token)
    decreases |ids|
  {
    hide MarkRows;
    if ids == [] {
      assert SetOf(ids) == {};
      MarkingNothing(db, token);
    } else {
      var first, rest := ids[0], ids[1..];
      var others := SetOf(rest);
      BatchMarksLikeSingles(MarkRows(db, {first}, token), rest, token);
      MarkInTwoSteps(db, first, others, token);
      assert ids == [first] + rest;
      assert SetOf(ids) == {first} + others;
      assert MarkedOneByOne(db, ids, token) == MarkedOneByOne(MarkRows(db, {first}, token), rest, token);
    }
  }
}
