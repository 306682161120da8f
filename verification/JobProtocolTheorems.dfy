/** What holds in every state of every run of the image-job protocol. */
module JobProtocolTheorems {
  import opened JobRows
  import opened Options
  import opened JobInvariants
  import opened JobTransactions
  import opened WorkerOutcomes
  import opened JobProtocol
  import opened JobProtocolSteps

  lemma {:induction false} RunIsOk(states: seq<Sys>, steps: seq<Step>, i: nat)
    requires IsRun(states, steps) && i < |states|
    ensures SysOk(states[i])
    decreases i
  {
    hide SysOk, Enabled, Apply, Initial;
    if i == 0 {
      InitialIsOk(states[0]);
    } else {
      RunIsOk(states, steps, i - 1);
      assert Enabled(states[i - 1], steps[i - 1]) && states[i - 1 + 1] == Apply(states[i - 1], steps[i - 1]);
      StepKeepsOk(states[i - 1], steps[i - 1]);
    }
  }

  // ----- no job is ever lost -----

  /** In every state of every run, an unfinished job has an unpublished outbox row or an undeleted queue message. */
  lemma NoJobIsLost(states: seq<Sys>, steps: seq<Step>, i: nat, id: JobId)
    requires IsRun(states, steps) && i < |states|
    requires id in states[i].db.jobs && !Terminal(states[i].db.jobs[id].status)
    ensures id in states[i].db.outbox
    ensures !states[i].db.outbox[id].published || exists m :: m in states[i].queued && m in states[i].messages && states[i].messages[m] == id
  {
    hide Enabled, Apply, Initial;
    RunIsOk(states, steps, i);
    PublishedAgrees(states[i].db, id);
    hide DbOk, IsRun;
    var s := states[i];
    if s.db.outbox[id].published {
      assert HasSafe(s.messages, s.queued, s.doomed, id);
      var m :| Safe(s.messages, s.queued, s.doomed, m, id);
    }
  }

  // ----- charges and attempts -----

  /** In every state of every run, a job has one charge and one processed asset if it is completed and none otherwise. */
  lemma ChargedExactlyOnce(states: seq<Sys>, steps: seq<Step>, i: nat, id: JobId)
    requires IsRun(states, steps) && i < |states| && id in states[i].db.jobs
    ensures var times := if states[i].db.jobs[id].status == Completed then 1 else 0;
            states[i].db.usage[BackgroundRemovalCompleted(id)] == times && states[i].db.assets[id] == times
  {
    hide Enabled, Apply, Initial;
    hide QueueOk, WorkersOk, TokensOk, SentOk, GuardOk, DbOk, NoStrays, VehiclesOk;
    RunIsOk(states, steps, i);
    hide IsRun;
    RowsOf(states[i].db, id);
  }

  /** In every state of every run, attempts are numbered 1 to attemptCount within the budget, and only the last may be open or have succeeded. */
  lemma AttemptsAreLedger(states: seq<Sys>, steps: seq<Step>, i: nat, id: JobId, n: nat)
    requires IsRun(states, steps) && i < |states| && id in states[i].db.jobs
    ensures var db, job := states[i].db, states[i].db.jobs[id];
            && job.attemptCount <= job.maxAttempts
            && ((id, n) in db.attempts <==> 1 <= n <= job.attemptCount)
            && ((id, n) in db.attempts ==>
                  && (db.attempts[(id, n)].status == Started <==> n == job.attemptCount && job.status == Processing)
                  && (db.attempts[(id, n)].status == Succeeded <==> n == job.attemptCount && job.status == Completed)
                  && db.attempts[(id, n)].status != Claimed)
  {
    hide Enabled, Apply, Initial;
    hide QueueOk, WorkersOk, TokensOk, SentOk, GuardOk, DbOk, NoStrays, VehiclesOk;
    RunIsOk(states, steps, i);
    hide IsRun;
    RowsOf(states[i].db, id);
  }

  // ----- every run of a job is finite -----

  function Rank(s: JobStatus): nat {
    match s
    case Processing => 3
    case Retrying | Created => 2
    case Queued => 1
    case _ => 0
  }

  /** How much can still happen to a job: three for each attempt left, and its place in the current one. */
  function Remaining(job: Job): nat
    requires job.attemptCount <= job.maxAttempts
  {
    3 * (job.maxAttempts - job.attemptCount) + Rank(job.status)
  }

  /** The job's status or attempt count moved. */
  predicate Moved(a: Job, b: Job) {
    a.status != b.status || a.attemptCount != b.attemptCount
  }

  /** From `a` to `b` a job stands still or comes nearer its end, and a finished row never changes. */
  predicate Advances(a: Job, b: Job) {
    && b.maxAttempts == a.maxAttempts && a.attemptCount <= a.maxAttempts && b.attemptCount <= b.maxAttempts
    && Remaining(b) <= Remaining(a)
    && (Moved(a, b) ==> Remaining(b) < Remaining(a))
    && (Terminal(a.status) ==> b == a)
  }

  lemma BudgetRow(db: Db, id: JobId)
    requires DbOk(db) && id in db.jobs
    ensures Budgeted(db.jobs[id])
  {
    RowsOf(db, id);
  }

  lemma ClaimAdvances(db: Db, job: JobId, w: WorkerId, now: Time, leaseUntil: Time, id: JobId)
    requires DbOk(db) && id in db.jobs
    ensures id in Claim(db, job, w, now, leaseUntil).jobs
    ensures Advances(db.jobs[id], Claim(db, job, w, now, leaseUntil).jobs[id])
  {
    hide DbOk, Settled, CloseAttempt;
    BudgetRow(db, id);
  }

  lemma CompleteAdvances(db: Db, job: JobId, w: WorkerId, n: nat, id: JobId)
    requires DbOk(db) && id in db.jobs
    ensures id in Complete(db, job, w, n).jobs
    ensures Advances(db.jobs[id], Complete(db, job, w, n).jobs[id])
  {
    hide DbOk, Settled, Succeed;
    BudgetRow(db, id);
  }

  lemma FailAdvances(db: Db, job: JobId, w: WorkerId, n: nat, kind: FailureKind, retryable: bool, at: Time, id: JobId)
    requires DbOk(db) && id in db.jobs
    ensures id in Fail(db, job, w, n, kind, retryable, at).jobs
    ensures Advances(db.jobs[id], Fail(db, job, w, n, kind, retryable, at).jobs[id])
  {
    hide DbOk, Settled, FallAttempt;
    BudgetRow(db, id);
  }

  lemma MarkAdvances(db: Db, ids: set<JobId>, token: ClaimToken, id: JobId)
    requires DbOk(db) && id in db.jobs
    ensures id in MarkRows(db, ids, token).jobs
    ensures Advances(db.jobs[id], MarkRows(db, ids, token).jobs[id])
  {
    hide DbOk;
    BudgetRow(db, id);
  }

  lemma OtherStepAdvances(s: Sys, step: Step, id: JobId)
    requires SysOk(s) && Enabled(s, step) && id in s.db.jobs
    requires !step.ClaimJob? && !step.CompleteJob? && !step.FailJob? && !step.MarkPublished?
    ensures id in Apply(s, step).db.jobs
    ensures Advances(s.db.jobs[id], Apply(s, step).db.jobs[id])
  {
    hide DbOk, QueueOk, WorkersOk, TokensOk, SentOk, GuardOk;
    BudgetRow(s.db, id);
  }

  lemma StepAdvances(s: Sys, step: Step, id: JobId)
    requires SysOk(s) && Enabled(s, step) && id in s.db.jobs
    ensures id in Apply(s, step).db.jobs
    ensures Advances(s.db.jobs[id], Apply(s, step).db.jobs[id])
  {
    hide DbOk, QueueOk, WorkersOk, TokensOk, SentOk, GuardOk, Claim, Complete, Fail, MarkRows, Advances;
    match step {
      case ClaimJob(w, at, leaseUntil, _, _) => ClaimAdvances(s.db, s.workers[w].job, w, at, leaseUntil, id);
      case CompleteJob(w, _) => CompleteAdvances(s.db, s.workers[w].job, w, s.workers[w].phase.attempt, id);
      case FailJob(w, kind, at, _) =>
        FailAdvances(s.db, s.workers[w].job, w, s.workers[w].phase.attempt, kind, RetryableKind(kind), at, id);
      case MarkPublished(token, ids) => MarkAdvances(s.db, ids, token, id);
      case _ => OtherStepAdvances(s, step, id);
    }
  }

  /** The number of steps from `i` to `j` that move the job. */
  ghost function Moves(states: seq<Sys>, id: JobId, i: nat, j: nat): nat
    requires i <= j < |states| && forall k :: i <= k <= j ==> id in states[k].db.jobs
    decreases j - i
  {
    if i == j then 0
    else (if Moved(states[i].db.jobs[id], states[i + 1].db.jobs[id]) then 1 else 0) + Moves(states, id, i + 1, j)
  }

  lemma {:induction false} JobsStay(states: seq<Sys>, steps: seq<Step>, id: JobId, i: nat, j: nat)
    requires IsRun(states, steps) && i <= j < |states| && id in states[i].db.jobs
    ensures forall k :: i <= k <= j ==> id in states[k].db.jobs
    decreases j
  {
    hide SysOk, Enabled, Apply, Initial;
    if i < j {
      JobsStay(states, steps, id, i, j - 1);
      RunIsOk(states, steps, j - 1);
      assert Enabled(states[j - 1], steps[j - 1]) && states[j - 1 + 1] == Apply(states[j - 1], steps[j - 1]);
      StepAdvances(states[j - 1], steps[j - 1], id);
    }
  }

  /** In every run, however long, a job moves at most as often as its remaining budget allows. */
  lemma {:induction false} RunsOfAJobAreFinite(states: seq<Sys>, steps: seq<Step>, id: JobId, i: nat, j: nat)
    requires IsRun(states, steps) && i <= j < |states| && id in states[i].db.jobs
    ensures forall k :: i <= k <= j ==> id in states[k].db.jobs
    ensures states[j].db.jobs[id].maxAttempts == states[i].db.jobs[id].maxAttempts
    ensures states[i].db.jobs[id].attemptCount <= states[i].db.jobs[id].maxAttempts
    ensures states[j].db.jobs[id].attemptCount <= states[j].db.jobs[id].maxAttempts
    ensures Moves(states, id, i, j) + Remaining(states[j].db.jobs[id]) <= Remaining(states[i].db.jobs[id])
    ensures Moves(states, id, i, j) <= 3 * states[i].db.jobs[id].maxAttempts + 2
    decreases j - i
  {
    hide SysOk, Enabled, Apply, Initial;
    JobsStay(states, steps, id, i, j);
    RunIsOk(states, steps, i);
    BudgetOf(states[i], id);
    if i < j {
      assert Enabled(states[i], steps[i]) && states[i + 1] == Apply(states[i], steps[i]);
      StepAdvances(states[i], steps[i], id);
      RunsOfAJobAreFinite(states, steps, id, i + 1, j);
    }
  }

  lemma BudgetOf(s: Sys, id: JobId)
    requires SysOk(s) && id in s.db.jobs
    ensures s.db.jobs[id].attemptCount <= s.db.jobs[id].maxAttempts
    ensures Remaining(s.db.jobs[id]) <= 3 * s.db.jobs[id].maxAttempts + 2
  {
    hide DbOk, QueueOk, WorkersOk, TokensOk, SentOk, GuardOk;
    BudgetRow(s.db, id);
  }

  /** In every run, a finished job's row never changes again, and its charge stands. */
  lemma {:induction false} FinishedForGood(states: seq<Sys>, steps: seq<Step>, id: JobId, i: nat, j: nat)
    requires IsRun(states, steps) && i <= j < |states|
    requires id in states[i].db.jobs && Terminal(states[i].db.jobs[id].status)
    ensures id in states[j].db.jobs && states[j].db.jobs[id] == states[i].db.jobs[id]
    ensures states[j].db.usage[BackgroundRemovalCompleted(id)] == states[i].db.usage[BackgroundRemovalCompleted(id)]
    decreases j
  {
    hide SysOk, Enabled, Apply, Initial;
    if i < j {
      FinishedForGood(states, steps, id, i, j - 1);
      RunIsOk(states, steps, j - 1);
      assert Enabled(states[j - 1], steps[j - 1]) && states[j - 1 + 1] == Apply(states[j - 1], steps[j - 1]);
      StepAdvances(states[j - 1], steps[j - 1], id);
      ChargedExactlyOnce(states, steps, i, id);
      ChargedExactlyOnce(states, steps, j, id);
    }
  }

  // ----- leases -----

  /** In every state of every run, a running worker that a job names is executing that job's latest attempt, which is still open. */
  lemma LeaseIsOfLatestAttempt(states: seq<Sys>, steps: seq<Step>, i: nat, id: JobId, w: WorkerId)
    requires IsRun(states, steps) && i < |states|
    requires id in states[i].db.jobs && states[i].db.jobs[id].worker == Some(w) && w in states[i].workers
    ensures var db, job := states[i].db, states[i].db.jobs[id];
            && states[i].workers[w].job == id && states[i].workers[w].phase == Executing(job.attemptCount)
            && job.status == Processing
            && (id, job.attemptCount) in db.attempts && db.attempts[(id, job.attemptCount)].status == Started
  {
    hide Enabled, Apply, Initial;
    RunIsOk(states, steps, i);
    assert WorkersOk(states[i].db.jobs, states[i].messages, states[i].workers, states[i].nextWorker);
    hide QueueOk, TokensOk, SentOk, GuardOk, DbOk, NoStrays, VehiclesOk, IsRun;
    RowsOf(states[i].db, id);
  }

  /** In every state of every run, a worker that its job no longer names leaves the database as it is, and its message to be delivered again. */
  lemma SupersededWorkersChangeNothing(states: seq<Sys>, steps: seq<Step>, i: nat)
    requires IsRun(states, steps) && i < |steps| && (steps[i].CompleteJob? || steps[i].FailJob?)
    requires steps[i].worker in states[i].workers
    requires var id := states[i].workers[steps[i].worker].job; id in states[i].db.jobs && states[i].db.jobs[id].worker != Some(steps[i].worker)
    ensures states[i + 1].db == states[i].db
    ensures !Terminal(states[i].db.jobs[states[i].workers[steps[i].worker].job].status) ==> states[i + 1].doomed == states[i].doomed
  {
    hide SysOk, Apply, Initial;
    RunIsOk(states, steps, i);
    assert Enabled(states[i], steps[i]) && states[i + 1] == Apply(states[i], steps[i]);
    LostLeaseChangesNothing(states[i], steps[i]);
  }

  /** Completing or failing with a lease that another worker took over leaves the database as it was and keeps the message. */
  lemma LostLeaseChangesNothing(s: Sys, step: Step)
    requires SysOk(s) && (step.CompleteJob? || step.FailJob?) && Enabled(s, step)
    requires s.db.jobs[s.workers[step.worker].job].worker != Some(step.worker)
    ensures Apply(s, step).db == s.db
    ensures !Terminal(s.db.jobs[s.workers[step.worker].job].status) ==> Apply(s, step).doomed == s.doomed
  {
    hide DbOk, QueueOk, WorkersOk, TokensOk, SentOk, GuardOk;
    JobOfWorker(s, step.worker);
  }
}
