/** Every step of the protocol keeps the system invariant. */
module JobProtocolSteps {
  import opened JobRows
  import opened Options
  import opened JobInvariants
  import opened JobTransactions
  import opened WorkerOutcomes
  import opened JobProtocol

  // ----- worker steps -----

  lemma JobOfWorker(s: Sys, w: WorkerId)
    requires SysOk(s) && w in s.workers
    ensures s.workers[w].job in s.db.jobs
    ensures s.workers[w].phase.Executing? ==> KnowsAttempt(s.db, s.workers[w].job, w, s.workers[w].phase.attempt)
    ensures s.workers[w].phase == Delivered ==> s.db.jobs[s.workers[w].job].worker != Some(w)
  {
    hide DbOk, TokensOk, SentOk, GuardOk;
  }

  /** `NOT_READY` is never reported: every status is covered by an earlier branch. */
  lemma NotReadyIsUnreachable(db: Db, id: JobId, now: Time)
    ensures ClaimOutcome(db, id, now) != NotReady
  {
  }

  lemma PublishedAgrees(db: Db, id: JobId)
    requires DbOk(db) && id in db.jobs
    ensures id in db.outbox && OutboxAgrees(db.jobs[id], db.outbox[id])
  {
    RowsOf(db, id);
  }

  lemma ClaimedKeepsOk(s: Sys, step: Step)
    requires SysOk(s) && step.ClaimJob? && Enabled(s, step)
    requires ClaimOutcome(s.db, s.workers[step.worker].job, step.at).JobClaimed?
    ensures SysOk(Apply(s, step))
  {
    hide DbOk, QueueOk, WorkersOk, TokensOk, SentOk, GuardOk;
    JobOfWorker(s, step.worker);
    ClaimKeepsOk(s.db, s.workers[step.worker].job, step.worker, step.at, step.leaseUntil);
    LeasedQueueOk(s, step);
    LeasedWorkersOk(s, step);
    LeasedGuardOk(s, step);
  }

  lemma LeasedGuardOk(s: Sys, step: Step)
    requires SysOk(s) && step.ClaimJob? && Enabled(s, step)
    requires ClaimOutcome(s.db, s.workers[step.worker].job, step.at).JobClaimed?
    ensures GuardOk(Apply(s, step).db.jobs, s.messages, s.queued, s.doomed)
  {
    hide DbOk, SentOk, TokensOk, QueueOk, WorkersOk;
    var id, t := s.workers[step.worker].job, Apply(s, step);
    forall i | i in t.db.jobs && !Terminal(t.db.jobs[i].status) && !AwaitsPublication(t.db.jobs[i].status)
      ensures HasSafe(s.messages, s.queued, s.doomed, i)
    {
      assert i in s.db.jobs && !Terminal(s.db.jobs[i].status) && !AwaitsPublication(s.db.jobs[i].status);
    }
  }

  lemma LeasedQueueOk(s: Sys, step: Step)
    requires SysOk(s) && step.ClaimJob? && Enabled(s, step)
    requires ClaimOutcome(s.db, s.workers[step.worker].job, step.at).JobClaimed?
    ensures QueueOk(Apply(s, step).db.jobs, s.messages, s.queued, s.doomed, s.nextMessage)
  {
    hide DbOk, SentOk, TokensOk, GuardOk, WorkersOk, ClaimOutcome;
  }

  lemma LeasedWorkersOk(s: Sys, step: Step)
    requires SysOk(s) && step.ClaimJob? && Enabled(s, step)
    requires ClaimOutcome(s.db, s.workers[step.worker].job, step.at).JobClaimed?
    ensures var t := Apply(s, step); WorkersOk(t.db.jobs, s.messages, t.workers, s.nextWorker)
  {
    hide DbOk, SentOk, TokensOk, GuardOk;
  }

  /** The claim transaction moves only its own job, and a terminal answer leaves that job needing no message. */
  lemma ClaimMoves(db: Db, id: JobId, w: WorkerId, now: Time, leaseUntil: Time)
    requires DbOk(db) && id in db.jobs && !ClaimOutcome(db, id, now).JobClaimed?
    ensures var b := Claim(db, id, w, now, leaseUntil);
            && DbOk(b) && MovesOnly(db, b, id) && ClaimKeptOrDropped(db, b, id)
            && (b == db || NeedsNoMessage(b, id))
            && (MayDelete(AfterClaim(ClaimOutcome(db, id, now))) ==> NeedsNoMessage(b, id))
            && (b.jobs[id] == db.jobs[id] || b.jobs[id].worker == None)
  {
    hide DbOk;
    ClaimKeepsOk(db, id, w, now, leaseUntil);
    var b := Claim(db, id, w, now, leaseUntil);
    PublishedAgrees(b, id);
  }

  lemma AwaitingChangesNothing(db: Db, id: JobId, w: WorkerId, now: Time, leaseUntil: Time)
    ensures ClaimOutcome(db, id, now) == AwaitingPublication ==> Claim(db, id, w, now, leaseUntil) == db
  {
  }

  lemma ClaimStepKeepsOk(s: Sys, step: Step)
    requires SysOk(s) && step.ClaimJob? && Enabled(s, step)
    ensures SysOk(Apply(s, step))
  {
    hide DbOk, QueueOk, WorkersOk, TokensOk, SentOk, GuardOk, Claim, ClaimOutcome, MovesOnly, ClaimKeptOrDropped, NeedsNoMessage;
    var w, id := step.worker, s.workers[step.worker].job;
    JobOfWorker(s, w);
    if ClaimOutcome(s.db, id, step.at).JobClaimed? {
      ClaimedKeepsOk(s, step);
    } else {
      ClaimMoves(s.db, id, w, step.at, step.leaseUntil);
      AwaitingChangesNothing(s.db, id, w, step.at, step.leaseUntil);
      if !(ClaimOutcome(s.db, id, step.at) == AwaitingPublication && step.again) {
        FinishKeepsOk(s, w, Claim(s.db, id, w, step.at, step.leaseUntil), AfterClaim(ClaimOutcome(s.db, id, step.at)), step.reported);
      }
    }
  }

  lemma CompleteMoves(db: Db, id: JobId, w: WorkerId, attempt: nat)
    requires DbOk(db) && id in db.jobs && KnowsAttempt(db, id, w, attempt)
    ensures var b := Complete(db, id, w, attempt);
            && DbOk(b) && MovesOnly(db, b, id) && ClaimKeptOrDropped(db, b, id)
            && (b == db || NeedsNoMessage(b, id))
            && (MayDelete(AfterCompletion(CompleteOutcome(db, id, w))) ==> NeedsNoMessage(b, id))
            && (b.jobs[id] == db.jobs[id] || b.jobs[id].worker == None)
  {
    hide DbOk;
    CompleteKeepsOk(db, id, w, attempt);
    PublishedAgrees(Complete(db, id, w, attempt), id);
  }

  lemma FailMoves(db: Db, id: JobId, w: WorkerId, attempt: nat, kind: FailureKind, retryable: bool, nextAttemptAt: Time)
    requires DbOk(db) && id in db.jobs && KnowsAttempt(db, id, w, attempt)
    ensures var b := Fail(db, id, w, attempt, kind, retryable, nextAttemptAt);
            && DbOk(b) && MovesOnly(db, b, id) && ClaimKeptOrDropped(db, b, id)
            && (b == db || NeedsNoMessage(b, id))
            && (MayDelete(AfterFailure(FailOutcome(db, id, w, retryable))) ==> NeedsNoMessage(b, id))
            && (b.jobs[id] == db.jobs[id] || b.jobs[id].worker == None)
  {
    hide DbOk;
    FailKeepsOk(db, id, w, attempt, kind, retryable, nextAttemptAt);
    PublishedAgrees(db, id);
    PublishedAgrees(Fail(db, id, w, attempt, kind, retryable, nextAttemptAt), id);
  }

  lemma ExecutionStepKeepsOk(s: Sys, step: Step)
    requires SysOk(s) && (step.CompleteJob? || step.FailJob?) && Enabled(s, step)
    ensures SysOk(Apply(s, step))
  {
    var w, id, n := step.worker, s.workers[step.worker].job, s.workers[step.worker].phase.attempt;
    JobOfWorker(s, w);
    hide DbOk, QueueOk, WorkersOk, TokensOk, SentOk, GuardOk, MovesOnly, ClaimKeptOrDropped, NeedsNoMessage, Finish;
    if step.CompleteJob? {
      CompleteMoves(s.db, id, w, n);
      FinishKeepsOk(s, w, Complete(s.db, id, w, n), AfterCompletion(CompleteOutcome(s.db, id, w)), step.reported);
    } else {
      FailMoves(s.db, id, w, n, step.kind, RetryableKind(step.kind), step.nextAttemptAt);
      FinishKeepsOk(s, w, Fail(s.db, id, w, n, step.kind, RetryableKind(step.kind), step.nextAttemptAt),
                    AfterFailure(FailOutcome(s.db, id, w, RetryableKind(step.kind))), step.reported);
    }
  }

  // ----- queue and worker life cycle -----

  lemma DeliverStepKeepsOk(s: Sys, step: Step)
    requires SysOk(s) && (step.Deliver? || step.WorkerStops?) && Enabled(s, step)
    ensures SysOk(Apply(s, step))
  {
    hide DbOk, QueueOk, TokensOk, SentOk, GuardOk;
  }

  lemma DispatcherStopsKeepsOk(s: Sys, step: Step)
    requires SysOk(s) && step.DispatcherStops? && Enabled(s, step)
    ensures SysOk(Apply(s, step))
  {
    hide DbOk, QueueOk, WorkersOk, GuardOk;
    var t := Apply(s, step);
    forall k, i | k in t.dispatchers && i in t.dispatchers[k] && OwesAcknowledgement(t.db.outbox, t.dispatchers, k, i)
      ensures Safe(t.messages, t.queued, t.doomed, t.dispatchers[k][i].value, i)
    {
      assert OwesAcknowledgement(s.db.outbox, s.dispatchers, k, i);
    }
  }

  lemma DeleteStepKeepsOk(s: Sys, step: Step)
    requires SysOk(s) && step.Delete? && Enabled(s, step)
    ensures SysOk(Apply(s, step))
  {
    hide DbOk, QueueOk, WorkersOk, TokensOk, SentOk, GuardOk, Safe;
    DeletedQueueOk(s, step);
    SafeAfterDelete(s, step);
    GuardKept(s, Apply(s, step));
    SentKept(s, Apply(s, step));
  }

  /** Acknowledgements stay backed when safe messages stay safe. */
  lemma SentKept(s: Sys, t: Sys)
    requires SentOk(s.db.outbox, s.messages, s.queued, s.doomed, s.dispatchers)
    requires t.db.outbox == s.db.outbox && t.dispatchers == s.dispatchers
    requires forall m, id :: Safe(s.messages, s.queued, s.doomed, m, id) ==> Safe(t.messages, t.queued, t.doomed, m, id)
    ensures SentOk(t.db.outbox, t.messages, t.queued, t.doomed, t.dispatchers)
  {
    hide Safe;
    forall k, i | k in t.dispatchers && i in t.dispatchers[k] && OwesAcknowledgement(t.db.outbox, t.dispatchers, k, i)
      ensures Safe(t.messages, t.queued, t.doomed, t.dispatchers[k][i].value, i)
    {
      assert OwesAcknowledgement(s.db.outbox, s.dispatchers, k, i);
    }
  }

  lemma DeletedQueueOk(s: Sys, step: Step)
    requires QueueOk(s.db.jobs, s.messages, s.queued, s.doomed, s.nextMessage) && step.Delete? && Enabled(s, step)
    ensures var t := Apply(s, step); QueueOk(t.db.jobs, t.messages, t.queued, t.doomed, t.nextMessage)
  {
  }

  lemma SafeAfterDelete(s: Sys, step: Step)
    requires step.Delete? && Enabled(s, step)
    ensures var t := Apply(s, step);
            forall m, id :: Safe(s.messages, s.queued, s.doomed, m, id) ==> Safe(t.messages, t.queued, t.doomed, m, id)
  {
  }

  lemma SafeAfterPublish(s: Sys, step: Step)
    requires QueueOk(s.db.jobs, s.messages, s.queued, s.doomed, s.nextMessage) && step.Publish? && Enabled(s, step)
    ensures var t := Apply(s, step);
            forall m, id :: Safe(s.messages, s.queued, s.doomed, m, id) ==> Safe(t.messages, t.queued, t.doomed, m, id)
  {
  }

  /** Jobs stay guarded when safe messages stay safe. */
  lemma GuardKept(s: Sys, t: Sys)
    requires GuardOk(s.db.jobs, s.messages, s.queued, s.doomed) && t.db.jobs == s.db.jobs
    requires forall m, id :: Safe(s.messages, s.queued, s.doomed, m, id) ==> Safe(t.messages, t.queued, t.doomed, m, id)
    ensures GuardOk(t.db.jobs, t.messages, t.queued, t.doomed)
  {
    hide Safe;
    forall id | id in t.db.jobs && !Terminal(t.db.jobs[id].status) && !AwaitsPublication(t.db.jobs[id].status)
      ensures HasSafe(t.messages, t.queued, t.doomed, id)
    {
      assert HasSafe(s.messages, s.queued, s.doomed, id);
      var m :| Safe(s.messages, s.queued, s.doomed, m, id);
      assert Safe(t.messages, t.queued, t.doomed, m, id);
    }
  }

  // ----- dispatcher steps -----

  lemma PublishStepKeepsOk(s: Sys, step: Step)
    requires SysOk(s) && step.Publish? && Enabled(s, step)
    ensures SysOk(Apply(s, step))
  {
    PublishedQueueOk(s, step);
    PublishedSentOk(s, step);
    hide DbOk, QueueOk, WorkersOk, TokensOk, SentOk, GuardOk;
  }

  lemma PublishedQueueOk(s: Sys, step: Step)
    requires SysOk(s) && step.Publish? && Enabled(s, step)
    ensures var t := Apply(s, step);
            && QueueOk(t.db.jobs, t.messages, t.queued, t.doomed, t.nextMessage)
            && WorkersOk(t.db.jobs, t.messages, t.workers, t.nextWorker)
            && GuardOk(t.db.jobs, t.messages, t.queued, t.doomed)
            && TokensOk(t.db.outbox, t.dispatchers, t.nextToken)
  {
    PublishedIsJob(s, step);
    PublishedQueue(s, step);
    PublishedWorkers(s, step);
    PublishedTokens(s, step);
    SafeAfterPublish(s, step);
    hide DbOk, SentOk, QueueOk, WorkersOk, TokensOk, GuardOk, Safe;
    GuardKept(s, Apply(s, step));
  }

  lemma PublishedIsJob(s: Sys, step: Step)
    requires SysOk(s) && step.Publish? && Enabled(s, step)
    ensures step.id in s.db.jobs
  {
    hide QueueOk, WorkersOk, SentOk, GuardOk, JobOk, VehiclesOk;
    assert step.id in s.db.outbox && s.db.outbox.Keys == s.db.jobs.Keys;
  }

  lemma PublishedQueue(s: Sys, step: Step)
    requires QueueOk(s.db.jobs, s.messages, s.queued, s.doomed, s.nextMessage) && step.Publish? && Enabled(s, step) && step.id in s.db.jobs
    ensures var t := Apply(s, step); QueueOk(t.db.jobs, t.messages, t.queued, t.doomed, t.nextMessage)
  {
  }

  lemma PublishedWorkers(s: Sys, step: Step)
    requires QueueOk(s.db.jobs, s.messages, s.queued, s.doomed, s.nextMessage)
    requires WorkersOk(s.db.jobs, s.messages, s.workers, s.nextWorker) && step.Publish? && Enabled(s, step)
    ensures var t := Apply(s, step); WorkersOk(t.db.jobs, t.messages, t.workers, t.nextWorker)
  {
  }

  lemma PublishedTokens(s: Sys, step: Step)
    requires TokensOk(s.db.outbox, s.dispatchers, s.nextToken) && step.Publish? && Enabled(s, step)
    ensures var t := Apply(s, step); TokensOk(t.db.outbox, t.dispatchers, t.nextToken)
  {
  }

  lemma PublishedSentOk(s: Sys, step: Step)
    requires SysOk(s) && step.Publish? && Enabled(s, step)
    ensures var t := Apply(s, step); SentOk(t.db.outbox, t.messages, t.queued, t.doomed, t.dispatchers)
  {
    hide DbOk, WorkersOk, GuardOk, TokensOk;
    var t := Apply(s, step);
    forall k, i | k in t.dispatchers && i in t.dispatchers[k] && OwesAcknowledgement(t.db.outbox, t.dispatchers, k, i)
      ensures Safe(t.messages, t.queued, t.doomed, t.dispatchers[k][i].value, i)
    {
      if !(step.confirmed && k == step.token && i == step.id) {
        assert OwesAcknowledgement(s.db.outbox, s.dispatchers, k, i);
      }
    }
  }

  /** Rows whose claims are kept, dropped or handed to a dispatcher that knows no message owe nothing new. */
  ghost predicate OwesNoMore(a: map<JobId, OutboxRow>, b: map<JobId, OutboxRow>, dispatchers: map<ClaimToken, Dispatch>) {
    forall t, i {:trigger dispatchers[t][i]} :: t in dispatchers && i in dispatchers[t] && OwesAcknowledgement(b, dispatchers, t, i) ==>
      OwesAcknowledgement(a, dispatchers, t, i)
  }

  lemma SentWeakens(a: map<JobId, OutboxRow>, b: map<JobId, OutboxRow>, s: Sys)
    requires SentOk(a, s.messages, s.queued, s.doomed, s.dispatchers) && OwesNoMore(a, b, s.dispatchers)
    ensures SentOk(b, s.messages, s.queued, s.doomed, s.dispatchers)
  {
    hide OwesAcknowledgement, Safe;
  }

  lemma ClaimOutboxStepKeepsOk(s: Sys, step: Step)
    requires SysOk(s) && step.ClaimOutbox? && Enabled(s, step)
    ensures SysOk(Apply(s, step))
  {
    hide DbOk, GuardOk, QueueOk, WorkersOk, TokensOk, SentOk;
    ClaimRowsKeepsOk(s.db, step.chosen, s.nextToken, step.at, step.leaseUntil);
    ClaimOutboxTokens(s, step);
    ClaimOutboxSent(s, step);
  }

  lemma ClaimOutboxTokens(s: Sys, step: Step)
    requires TokensOk(s.db.outbox, s.dispatchers, s.nextToken) && step.ClaimOutbox? && Enabled(s, step)
    ensures var t := Apply(s, step); TokensOk(t.db.outbox, t.dispatchers, t.nextToken)
  {
    var t := Apply(s, step);
    assert forall id :: id in step.chosen ==> id in s.db.outbox;
    hide Dispatchable;
    assert t.db.outbox.Keys == s.db.outbox.Keys;
    forall k, id | k in t.dispatchers && id in t.dispatchers[k] ensures id in t.db.outbox {
      if k != s.nextToken { assert id in s.dispatchers[k]; }
    }
  }

  lemma ClaimOutboxSent(s: Sys, step: Step)
    requires TokensOk(s.db.outbox, s.dispatchers, s.nextToken) && step.ClaimOutbox? && Enabled(s, step)
    requires SentOk(s.db.outbox, s.messages, s.queued, s.doomed, s.dispatchers)
    ensures var t := Apply(s, step); SentOk(t.db.outbox, t.messages, t.queued, t.doomed, t.dispatchers)
  {
    hide Safe, Dispatchable;
    var t := Apply(s, step);
    forall k, i | k in t.dispatchers && i in t.dispatchers[k] && OwesAcknowledgement(t.db.outbox, t.dispatchers, k, i)
      ensures Safe(t.messages, t.queued, t.doomed, t.dispatchers[k][i].value, i)
    {
      assert OwesAcknowledgement(s.db.outbox, s.dispatchers, k, i);
    }
  }

  lemma MarkStepKeepsOk(s: Sys, step: Step)
    requires SysOk(s) && step.MarkPublished? && Enabled(s, step)
    ensures SysOk(Apply(s, step))
  {
    hide DbOk, GuardOk, QueueOk, WorkersOk, TokensOk, SentOk, MarkRows;
    MarkRowsKeepsOk(s.db, step.ids, step.token);
    MarkedRows(s, step);
    MarkedGuard(s, step);
  }

  /** Publication changes neither leases nor the queue, and owes nothing new. */
  lemma MarkedRows(s: Sys, step: Step)
    requires SysOk(s) && step.MarkPublished? && Enabled(s, step)
    ensures var b := MarkRows(s.db, step.ids, step.token);
            && QueueOk(b.jobs, s.messages, s.queued, s.doomed, s.nextMessage)
            && WorkersOk(b.jobs, s.messages, s.workers, s.nextWorker)
            && TokensOk(b.outbox, s.dispatchers, s.nextToken)
            && SentOk(b.outbox, s.messages, s.queued, s.doomed, s.dispatchers)
  {
    hide DbOk, GuardOk;
    var b := MarkRows(s.db, step.ids, step.token);
    MarkedOutbox(s, b, step);
    hide SentOk, TokensOk;
  }

  lemma MarkedOutbox(s: Sys, b: Db, step: Step)
    requires TokensOk(s.db.outbox, s.dispatchers, s.nextToken) && step.MarkPublished? && b == MarkRows(s.db, step.ids, step.token)
    requires SentOk(s.db.outbox, s.messages, s.queued, s.doomed, s.dispatchers)
    ensures TokensOk(b.outbox, s.dispatchers, s.nextToken)
    ensures SentOk(b.outbox, s.messages, s.queued, s.doomed, s.dispatchers)
  {
    hide SentOk;
    assert OwesNoMore(s.db.outbox, b.outbox, s.dispatchers);
    SentWeakens(s.db.outbox, b.outbox, s);
  }

  /** A job recorded as queued has the message its dispatcher sent. */
  lemma MarkedGuard(s: Sys, step: Step)
    requires SysOk(s) && step.MarkPublished? && Enabled(s, step)
    ensures GuardOk(MarkRows(s.db, step.ids, step.token).jobs, s.messages, s.queued, s.doomed)
  {
    hide DbOk, QueueOk, WorkersOk, TokensOk, Safe;
    var b := MarkRows(s.db, step.ids, step.token);
    forall id | id in b.jobs && !Terminal(b.jobs[id].status) && !AwaitsPublication(b.jobs[id].status)
      ensures HasSafe(s.messages, s.queued, s.doomed, id)
    {
      if AwaitsPublication(s.db.jobs[id].status) {
        assert Acknowledges(s.db, id, step.token) && id in step.ids;
        assert OwesAcknowledgement(s.db.outbox, s.dispatchers, step.token, id);
        assert Safe(s.messages, s.queued, s.doomed, s.dispatchers[step.token][id].value, id);
      }
    }
  }

  lemma ReleaseStepKeepsOk(s: Sys, step: Step)
    requires SysOk(s) && step.ReleaseClaim? && Enabled(s, step)
    ensures SysOk(Apply(s, step))
  {
    hide DbOk, GuardOk, QueueOk, WorkersOk;
    ReleaseRowKeepsOk(s.db, step.id, step.token, step.nextAttemptAt);
    var b := ReleaseRow(s.db, step.id, step.token, step.nextAttemptAt);
    assert TokensOk(b.outbox, s.dispatchers, s.nextToken);
    assert OwesNoMore(s.db.outbox, b.outbox, s.dispatchers);
    SentWeakens(s.db.outbox, b.outbox, s);
  }

  // ----- reserving -----

  lemma ReserveStepKeepsOk(s: Sys, step: Step)
    requires SysOk(s) && step.ReserveBatch? && Enabled(s, step)
    ensures SysOk(Apply(s, step))
  {
    hide DbOk, GuardOk, QueueOk, WorkersOk, TokensOk, SentOk, Reserve;
    ReserveKeepsOk(s.db, step.vehicle, step.batch, step.added, step.usageJob);
    ReservedJobsOk(s, step);
    ReservedOutboxOk(s, step);
  }

  lemma ReservedJobsOk(s: Sys, step: Step)
    requires SysOk(s) && step.ReserveBatch? && Enabled(s, step)
    ensures var b := Reserve(s.db, step.vehicle, step.batch, step.added, step.usageJob);
            && QueueOk(b.jobs, s.messages, s.queued, s.doomed, s.nextMessage)
            && WorkersOk(b.jobs, s.messages, s.workers, s.nextWorker)
            && GuardOk(b.jobs, s.messages, s.queued, s.doomed)
  {
    hide DbOk, TokensOk, SentOk, HasSafe;
  }

  lemma ReservedOutboxOk(s: Sys, step: Step)
    requires SysOk(s) && step.ReserveBatch? && Enabled(s, step)
    ensures var b := Reserve(s.db, step.vehicle, step.batch, step.added, step.usageJob);
            && TokensOk(b.outbox, s.dispatchers, s.nextToken)
            && SentOk(b.outbox, s.messages, s.queued, s.doomed, s.dispatchers)
  {
    hide DbOk, QueueOk, WorkersOk, GuardOk;
    var b := Reserve(s.db, step.vehicle, step.batch, step.added, step.usageJob);
    assert OwesNoMore(s.db.outbox, b.outbox, s.dispatchers);
    SentWeakens(s.db.outbox, b.outbox, s);
    hide SentOk, OwesNoMore;
  }

  // ----- all steps -----

  lemma StepKeepsOk(s: Sys, step: Step)
    requires SysOk(s) && Enabled(s, step)
    ensures SysOk(Apply(s, step))
  {
    hide Apply, SysOk, Enabled;
    match step {
      case ReserveBatch(_, _, _, _) => ReserveStepKeepsOk(s, step);
      case ClaimOutbox(_, _, _) => ClaimOutboxStepKeepsOk(s, step);
      case Publish(_, _, _) => PublishStepKeepsOk(s, step);
      case MarkPublished(_, _) => MarkStepKeepsOk(s, step);
      case ReleaseClaim(_, _, _) => ReleaseStepKeepsOk(s, step);
      case ClaimJob(_, _, _, _, _) => ClaimStepKeepsOk(s, step);
      case CompleteJob(_, _) => ExecutionStepKeepsOk(s, step);
      case FailJob(_, _, _, _) => ExecutionStepKeepsOk(s, step);
      case DispatcherStops(_) => DispatcherStopsKeepsOk(s, step);
      case Delete(_) => DeleteStepKeepsOk(s, step);
      case _ => DeliverStepKeepsOk(s, step);
    }
  }
}
