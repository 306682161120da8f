/** Dispatchers, queue and workers as one state machine, each repository transaction being one step. */
module JobProtocol {
  import opened JobRows
  import opened Options
  import opened JobInvariants
  import opened JobTransactions
  import opened WorkerOutcomes

  type MessageId = nat

  datatype Phase = Delivered | Executing(attempt: nat)

  datatype Worker = Worker(job: JobId, message: MessageId, phase: Phase)

  /** The messages a dispatcher claimed, each with the queue message it knows it sent for it. */
  type Dispatch = map<JobId, Option<MessageId>>

  datatype Sys = Sys(
    db: Db,
    messages: map<MessageId, JobId>,         // every message the queue ever accepted
    queued: set<MessageId>,                  // those not yet deleted
    doomed: set<MessageId>,                  // those some delivery of which was acknowledged
    workers: map<WorkerId, Worker>,
    dispatchers: map<ClaimToken, Dispatch>,
    nextWorker: WorkerId, nextToken: ClaimToken, nextMessage: MessageId,
    newest: map<VehicleId, set<JobId>>)      // the jobs of each vehicle's last reservation

  datatype Step =
    | ReserveBatch(vehicle: VehicleId, batch: BatchKey, added: map<JobId, NewJob>, usageJob: JobId)
    | ClaimOutbox(chosen: set<JobId>, at: Time, leaseUntil: Time)
    | Publish(token: ClaimToken, id: JobId, confirmed: bool)
    | MarkPublished(token: ClaimToken, ids: set<JobId>)
    | ReleaseClaim(token: ClaimToken, id: JobId, nextAttemptAt: Time)
    | DispatcherStops(token: ClaimToken)
    | Deliver(message: MessageId)
    | ClaimJob(worker: WorkerId, at: Time, leaseUntil: Time, again: bool, reported: bool)
    | CompleteJob(worker: WorkerId, reported: bool)
    | FailJob(worker: WorkerId, kind: FailureKind, nextAttemptAt: Time, reported: bool)
    | WorkerStops(worker: WorkerId)
    | Delete(message: MessageId)

  ghost predicate Enabled(s: Sys, step: Step) {
    match step
    case ReserveBatch(v, batch, added, usageJob) =>
      && MayReserve(s.db, v, added, usageJob)
      && (forall id :: BelongsTo(s.db.jobs, id, v) ==> s.db.jobs[id].batch != Some(batch))
      && (forall id, n :: BelongsTo(s.db.jobs, id, v) && n in added ==> s.db.jobs[id].createdAt < added[n].createdAt)
    case ClaimOutbox(chosen, at, _) => forall id :: id in chosen ==> Dispatchable(s.db, id, at)
    case Publish(token, id, _) => token in s.dispatchers && id in s.dispatchers[token]
    case MarkPublished(token, ids) =>
      token in s.dispatchers && forall id :: id in ids ==> id in s.dispatchers[token] && s.dispatchers[token][id].Some?
    case ReleaseClaim(token, id, _) => token in s.dispatchers && id in s.dispatchers[token]
    case DispatcherStops(token) => token in s.dispatchers
    case Deliver(message) => message in s.queued && message in s.messages
    case ClaimJob(worker, _, _, _, _) => worker in s.workers && s.workers[worker].phase == Delivered
    case CompleteJob(worker, _) => worker in s.workers && s.workers[worker].phase.Executing?
    case FailJob(worker, _, _, _) => worker in s.workers && s.workers[worker].phase.Executing?
    case WorkerStops(worker) => worker in s.workers
    case Delete(message) => message in s.doomed
  }

  /** The worker is done with its delivery; a reported result other than a retry dooms the message. */
  function Finish(s: Sys, w: WorkerId, db: Db, result: ProcessResult, reported: bool): Sys
    requires w in s.workers
  {
    s.(db := db, workers := s.workers - {w},
       doomed := if reported && MayDelete(result) then s.doomed + {s.workers[w].message} else s.doomed)
  }

  function Noted(d: Dispatch, id: JobId, m: MessageId): Dispatch {
    map i: JobId | i in d.Keys + {id} :: if i == id then Some(m) else d[i]
  }

  ghost function Apply(s: Sys, step: Step): Sys
    requires Enabled(s, step)
  {
    match step
    case ReserveBatch(v, batch, added, usageJob) =>
      s.(db := Reserve(s.db, v, batch, added, usageJob), newest := s.newest[v := added.Keys])
    case ClaimOutbox(chosen, at, leaseUntil) =>
      s.(db := ClaimRows(s.db, chosen, s.nextToken, leaseUntil), nextToken := s.nextToken + 1,
         dispatchers := s.dispatchers[s.nextToken := map id | id in chosen :: None])
    case Publish(token, id, confirmed) =>
      s.(messages := s.messages[s.nextMessage := id], queued := s.queued + {s.nextMessage}, nextMessage := s.nextMessage + 1,
         dispatchers := if confirmed then s.dispatchers[token := Noted(s.dispatchers[token], id, s.nextMessage)] else s.dispatchers)
    case MarkPublished(token, ids) => s.(db := MarkRows(s.db, ids, token))
    case ReleaseClaim(token, id, nextAttemptAt) => s.(db := ReleaseRow(s.db, id, token, nextAttemptAt))
    case DispatcherStops(token) => s.(dispatchers := s.dispatchers - {token})
    case Deliver(message) =>
      s.(workers := s.workers[s.nextWorker := Worker(s.messages[message], message, Delivered)], nextWorker := s.nextWorker + 1)
    case ClaimJob(w, at, leaseUntil, again, reported) =>
      var worker := s.workers[w];
      var outcome, db := ClaimOutcome(s.db, worker.job, at), Claim(s.db, worker.job, w, at, leaseUntil);
      if outcome.JobClaimed? then s.(db := db, workers := s.workers[w := worker.(phase := Executing(outcome.attemptNumber))])
      else if outcome == AwaitingPublication && again then s.(db := db)
      else Finish(s, w, db, AfterClaim(outcome), reported)
    case CompleteJob(w, reported) =>
      var worker := s.workers[w];
      Finish(s, w, Complete(s.db, worker.job, w, worker.phase.attempt), AfterCompletion(CompleteOutcome(s.db, worker.job, w)), reported)
    case FailJob(w, kind, nextAttemptAt, reported) =>
      var worker := s.workers[w];
      Finish(s, w, Fail(s.db, worker.job, w, worker.phase.attempt, kind, RetryableKind(kind), nextAttemptAt),
             AfterFailure(FailOutcome(s.db, worker.job, w, RetryableKind(kind))), reported)
    case WorkerStops(w) => s.(workers := s.workers - {w})
    case Delete(message) => s.(queued := s.queued - {message})
  }

  ghost predicate Initial(s: Sys) {
    && s.db.jobs == map[] && s.db.attempts == map[] && s.db.outbox == map[] && s.db.usage == multiset{} && s.db.assets == multiset{}
    && (forall v :: v in s.db.vehicles ==> s.db.vehicles[v] != VehicleProcessing)
    && s.messages == map[] && s.queued == {} && s.doomed == {} && s.workers == map[] && s.dispatchers == map[] && s.newest == map[]
  }

  /** A run: states from an initial one, each the effect of an enabled step on the one before. */
  ghost predicate IsRun(states: seq<Sys>, steps: seq<Step>) {
    && |states| == |steps| + 1 && Initial(states[0])
    && forall i :: 0 <= i < |steps| ==> Enabled(states[i], steps[i]) && states[i + 1] == Apply(states[i], steps[i])
  }

  // ----- the invariant -----

  ghost predicate QueueOk(jobs: map<JobId, Job>, messages: map<MessageId, JobId>, queued: set<MessageId>, doomed: set<MessageId>, next: MessageId) {
    && queued <= messages.Keys && doomed <= messages.Keys
    && forall m :: m in messages ==> m < next && messages[m] in jobs
  }

  /** A lease belongs to a worker that knows its attempt, or to one that has stopped. */
  ghost predicate WorkersOk(jobs: map<JobId, Job>, messages: map<MessageId, JobId>, workers: map<WorkerId, Worker>, next: WorkerId) {
    && (forall w :: w in workers ==> w < next && workers[w].message in messages && messages[workers[w].message] == workers[w].job)
    && (forall id :: id in jobs && jobs[id].worker.Some? ==> jobs[id].worker.value < next)
    && (forall id {:trigger jobs[id].worker} :: id in jobs && jobs[id].worker.Some? && jobs[id].worker.value in workers ==>
          workers[jobs[id].worker.value].job == id && workers[jobs[id].worker.value].phase == Executing(jobs[id].attemptCount))
  }

  ghost predicate TokensOk(outbox: map<JobId, OutboxRow>, dispatchers: map<ClaimToken, Dispatch>, next: ClaimToken) {
    && (forall id :: id in outbox && outbox[id].claim.Some? ==> outbox[id].claim.value < next)
    && (forall t :: t in dispatchers ==> t < next)
    && (forall t, id {:trigger dispatchers[t][id]} {:trigger id in dispatchers[t]} :: t in dispatchers && id in dispatchers[t] ==> id in outbox)
  }

  /** A message no acknowledged delivery may remove from the queue. */
  predicate Safe(messages: map<MessageId, JobId>, queued: set<MessageId>, doomed: set<MessageId>, m: MessageId, id: JobId) {
    m in queued && m !in doomed && m in messages && messages[m] == id
  }

  /** Dispatcher `t` knows the message it sent for `id` and still holds the claim on its row. */
  predicate OwesAcknowledgement(outbox: map<JobId, OutboxRow>, dispatchers: map<ClaimToken, Dispatch>, t: ClaimToken, id: JobId)
    requires t in dispatchers && id in dispatchers[t]
  {
    dispatchers[t][id].Some? && id in outbox && outbox[id].claim == Some(t) && !outbox[id].published
  }

  /** While a dispatcher's claim stands, the message it sent is safe. */
  ghost predicate SentOk(outbox: map<JobId, OutboxRow>, messages: map<MessageId, JobId>, queued: set<MessageId>, doomed: set<MessageId>,
                         dispatchers: map<ClaimToken, Dispatch>) {
    forall t, id {:trigger dispatchers[t][id]} :: t in dispatchers && id in dispatchers[t] && OwesAcknowledgement(outbox, dispatchers, t, id) ==>
      Safe(messages, queued, doomed, dispatchers[t][id].value, id)
  }

  ghost predicate HasSafe(messages: map<MessageId, JobId>, queued: set<MessageId>, doomed: set<MessageId>, id: JobId) {
    exists m :: Safe(messages, queued, doomed, m, id)
  }

  /** Every job that is neither finished nor waiting for its dispatcher has a safe message. */
  ghost predicate GuardOk(jobs: map<JobId, Job>, messages: map<MessageId, JobId>, queued: set<MessageId>, doomed: set<MessageId>) {
    forall id :: id in jobs && !Terminal(jobs[id].status) && !AwaitsPublication(jobs[id].status) ==> HasSafe(messages, queued, doomed, id)
  }

  ghost predicate SysOk(s: Sys) {
    && DbOk(s.db)
    && QueueOk(s.db.jobs, s.messages, s.queued, s.doomed, s.nextMessage)
    && WorkersOk(s.db.jobs, s.messages, s.workers, s.nextWorker)
    && TokensOk(s.db.outbox, s.dispatchers, s.nextToken)
    && SentOk(s.db.outbox, s.messages, s.queued, s.doomed, s.dispatchers)
    && GuardOk(s.db.jobs, s.messages, s.queued, s.doomed)
  }

  lemma InitialIsOk(s: Sys)
    requires Initial(s)
    ensures SysOk(s)
  {
  }

  // ----- steps that change one job -----

  /** `id`'s rows moved; every other job's job row and outbox row are as before. */
  ghost predicate MovesOnly(a: Db, b: Db, id: JobId) {
    && a.jobs.Keys == b.jobs.Keys && a.outbox.Keys == b.outbox.Keys
    && (forall other :: other in a.jobs && other != id ==> b.jobs[other] == a.jobs[other])
    && (forall other :: other in a.outbox && other != id ==> b.outbox[other] == a.outbox[other])
  }

  /** The outbox row is as before or carries no claim. */
  ghost predicate ClaimKeptOrDropped(a: Db, b: Db, id: JobId) {
    id in b.outbox ==> id in a.outbox && (b.outbox[id] == a.outbox[id] || b.outbox[id].claim == None)
  }

  /** The job needs none of its messages: it is finished, or its dispatcher will send another. */
  ghost predicate NeedsNoMessage(db: Db, id: JobId) {
    && (id in db.jobs ==> Terminal(db.jobs[id].status) || AwaitsPublication(db.jobs[id].status))
    && (id in db.outbox ==> db.outbox[id].published || db.outbox[id].claim == None)
  }

  lemma SentSurvives(a: Db, b: Db, id: JobId, s: Sys, doomed: set<MessageId>)
    requires SentOk(a.outbox, s.messages, s.queued, s.doomed, s.dispatchers)
    requires MovesOnly(a, b, id) && ClaimKeptOrDropped(a, b, id)
    requires doomed == s.doomed || (NeedsNoMessage(b, id) && forall m :: m in doomed ==> m in s.doomed || (m in s.messages && s.messages[m] == id))
    ensures SentOk(b.outbox, s.messages, s.queued, doomed, s.dispatchers)
  {
    forall t, i | t in s.dispatchers && i in s.dispatchers[t] && OwesAcknowledgement(b.outbox, s.dispatchers, t, i)
      ensures Safe(s.messages, s.queued, doomed, s.dispatchers[t][i].value, i)
    {
      assert i in a.outbox && a.outbox[i] == b.outbox[i];
      assert Safe(s.messages, s.queued, s.doomed, s.dispatchers[t][i].value, i);
    }
  }

  lemma GuardSurvives(a: Db, b: Db, id: JobId, s: Sys, doomed: set<MessageId>)
    requires GuardOk(a.jobs, s.messages, s.queued, s.doomed) && MovesOnly(a, b, id)
    requires NeedsNoMessage(b, id) || (id in a.jobs ==> !Terminal(a.jobs[id].status) && !AwaitsPublication(a.jobs[id].status))
    requires doomed == s.doomed || (NeedsNoMessage(b, id) && forall m :: m in doomed ==> m in s.doomed || (m in s.messages && s.messages[m] == id))
    ensures GuardOk(b.jobs, s.messages, s.queued, doomed)
  {
    forall i | i in b.jobs && !Terminal(b.jobs[i].status) && !AwaitsPublication(b.jobs[i].status)
      ensures HasSafe(s.messages, s.queued, doomed, i)
    {
      assert HasSafe(s.messages, s.queued, s.doomed, i);
      var m :| Safe(s.messages, s.queued, s.doomed, m, i);
      assert Safe(s.messages, s.queued, doomed, m, i);
    }
  }

  /** A worker that has left: its job row either no longer names it or names a stopped worker. */
  lemma WorkersSurviveFinish(a: Db, b: Db, id: JobId, s: Sys, w: WorkerId)
    requires WorkersOk(a.jobs, s.messages, s.workers, s.nextWorker) && MovesOnly(a, b, id)
    requires id in b.jobs ==> b.jobs[id] == a.jobs[id] || b.jobs[id].worker == None
    ensures WorkersOk(b.jobs, s.messages, s.workers - {w}, s.nextWorker)
  {
    var rest := s.workers - {w};
    forall i | i in b.jobs && b.jobs[i].worker.Some? && b.jobs[i].worker.value in rest
      ensures rest[b.jobs[i].worker.value].job == i && rest[b.jobs[i].worker.value].phase == Executing(b.jobs[i].attemptCount)
    {
      assert a.jobs[i].worker == b.jobs[i].worker;
    }
  }

  /** The step that ends a worker's delivery keeps the system in order. */
  lemma FinishKeepsOk(s: Sys, w: WorkerId, db: Db, result: ProcessResult, reported: bool)
    requires SysOk(s) && w in s.workers && DbOk(db)
    requires var id := s.workers[w].job;
             && MovesOnly(s.db, db, id) && ClaimKeptOrDropped(s.db, db, id)
             && (db == s.db || NeedsNoMessage(db, id))
             && (MayDelete(result) ==> NeedsNoMessage(db, id))
             && (id in db.jobs ==> db.jobs[id] == s.db.jobs[id] || db.jobs[id].worker == None)
    ensures SysOk(Finish(s, w, db, result, reported))
  {
    hide DbOk, SentOk, GuardOk, TokensOk, MovesOnly, ClaimKeptOrDropped, NeedsNoMessage;
    var id, t := s.workers[w].job, Finish(s, w, db, result, reported);
    DoomedIsOwn(s, w, db, t.doomed);
    hide WorkersOk, QueueOk;
    SentSurvives(s.db, db, id, s, t.doomed);
    if db != s.db || t.doomed != s.doomed { GuardSurvives(s.db, db, id, s, t.doomed); }
    WorkersSurviveFinish(s.db, db, id, s, w);
    TokensSurvive(s.db, db, id, s);
  }

  lemma DoomedIsOwn(s: Sys, w: WorkerId, db: Db, doomed: set<MessageId>)
    requires SysOk(s) && w in s.workers && MovesOnly(s.db, db, s.workers[w].job)
    requires doomed == s.doomed || doomed == s.doomed + {s.workers[w].message}
    ensures forall m :: m in doomed ==> m in s.doomed || (m in s.messages && s.messages[m] == s.workers[w].job)
    ensures QueueOk(db.jobs, s.messages, s.queued, doomed, s.nextMessage)
  {
    hide DbOk, SentOk, GuardOk, TokensOk;
  }

  lemma TokensSurvive(a: Db, b: Db, id: JobId, s: Sys)
    requires TokensOk(a.outbox, s.dispatchers, s.nextToken) && MovesOnly(a, b, id) && ClaimKeptOrDropped(a, b, id)
    ensures TokensOk(b.outbox, s.dispatchers, s.nextToken)
  {
  }
}
