/** Interleaved transactions that finish different jobs of one vehicle, with and without the advisory lock. */
module VehicleCompletion {
  import opened JobRows
  import opened Options
  import opened JobInvariants
  import opened VehicleOutcomes

  type TxnId = nat

  /** How far a finishing transaction got: its own row is written, then lock, counts, and decision. */
  datatype Phase =
    | Wrote
    | Locked
    | NothingActive
    | KnowsLatest(latest: JobId)
    | Decided(status: Option<VehicleStatus>)

  datatype Txn = Txn(job: JobId, row: Job, phase: Phase)

  /** Committed rows of one vehicle, and the transactions in flight; `newest` is its last reserved batch. */
  datatype State = State(
    jobs: map<JobId, Job>, status: VehicleStatus, txns: map<TxnId, Txn>, lock: Option<TxnId>, newest: set<JobId>)

  datatype Step =
    | Begin(txn: TxnId, job: JobId, row: Job)
    | TakeLock(txn: TxnId)
    | CountActive(txn: TxnId)
    | ReadLatest(txn: TxnId, latest: JobId)
    | CountFailed(txn: TxnId)
    | Commit(txn: TxnId)
    | Rollback(txn: TxnId)
    | OtherCommit(job: JobId, row: Job)
    | ReserveBatch(batch: BatchKey, added: map<JobId, NewJob>)

  /** READ COMMITTED: committed rows, overlaid with the transaction's own. */
  function View(s: State, t: TxnId): map<JobId, Job>
    requires t in s.txns
  {
    s.jobs[s.txns[t].job := s.txns[t].row]
  }

  predicate Unwritten(s: State, job: JobId) {
    forall t :: t in s.txns ==> s.txns[t].job != job
  }

  /** The same job after a status change. */
  predicate SameJob(a: Job, b: Job) {
    a.vehicle == b.vehicle && a.batch == b.batch && a.createdAt == b.createdAt
  }

  predicate Finishes(a: Job, b: Job) {
    SameJob(a, b) && a.status == Processing && (b.status == Completed || b.status == Failed)
  }

  ghost predicate Enabled(s: State, v: VehicleId, step: Step, locking: bool) {
    match step
    case Begin(t, job, row) => t !in s.txns && job in s.jobs && Finishes(s.jobs[job], row) && Unwritten(s, job)
    case TakeLock(t) => t in s.txns && s.txns[t].phase == Wrote && (locking ==> s.lock == None)
    case CountActive(t) => t in s.txns && s.txns[t].phase == Locked
    case ReadLatest(t, latest) => t in s.txns && s.txns[t].phase == NothingActive && IsLatest(View(s, t), v, latest)
    case CountFailed(t) => t in s.txns && s.txns[t].phase.KnowsLatest? && s.txns[t].phase.latest in View(s, t)
    case Commit(t) => t in s.txns && s.txns[t].phase.Decided?
    case Rollback(t) => t in s.txns
    case OtherCommit(job, row) =>
      job in s.jobs && Unwritten(s, job) && SameJob(s.jobs[job], row) && Active(s.jobs[job].status) && Active(row.status)
    case ReserveBatch(batch, added) =>
      && Processable(s.status) && added != map[] && added.Keys !! s.jobs.Keys
      && (forall id :: id in s.jobs ==> s.jobs[id].batch != Some(batch))
      && forall id, n :: id in s.jobs && n in added ==> s.jobs[id].createdAt < added[n].createdAt
  }

  function Reached(s: State, t: TxnId, phase: Phase): State
    requires t in s.txns
  {
    s.(txns := s.txns[t := s.txns[t].(phase := phase)])
  }

  function Ended(s: State, t: TxnId): State {
    s.(txns := s.txns - {t}, lock := if s.lock == Some(t) then None else s.lock)
  }

  ghost function Apply(s: State, v: VehicleId, step: Step, locking: bool): State
    requires Enabled(s, v, step, locking)
  {
    match step
    case Begin(t, job, row) => s.(txns := s.txns[t := Txn(job, row, Wrote)])
    case TakeLock(t) => Reached(s, t, Locked).(lock := Some(t))
    case CountActive(t) => Reached(s, t, if AnyActive(View(s, t), v) then Decided(None) else NothingActive)
    case ReadLatest(t, latest) => Reached(s, t, KnowsLatest(latest))
    case CountFailed(t) =>
      Reached(s, t, Decided(Some(if BatchFailed(View(s, t), v, s.txns[t].phase.latest) then PartiallyFailed else Ready)))
    case Commit(t) =>
      var decision := s.txns[t].phase.status;
      Ended(s, t).(jobs := View(s, t), status := if decision.Some? && s.status == VehicleProcessing then decision.value else s.status)
    case Rollback(t) => Ended(s, t)
    case OtherCommit(job, row) => s.(jobs := s.jobs[job := row])
    case ReserveBatch(batch, added) =>
      s.(status := VehicleProcessing, newest := added.Keys,
         jobs := map id | id in s.jobs.Keys + added.Keys :: if id in added then ReservedJob(v, batch, added[id]) else s.jobs[id])
  }

  ghost predicate Initial(s: State) {
    s.jobs == map[] && Processable(s.status) && s.txns == map[] && s.lock == None && s.newest == {}
  }

  ghost predicate IsRun(states: seq<State>, v: VehicleId, steps: seq<Step>, locking: bool) {
    && |states| == |steps| + 1 && Initial(states[0])
    && forall i :: 0 <= i < |steps| ==> Enabled(states[i], v, steps[i], locking) && states[i + 1] == Apply(states[i], v, steps[i], locking)
  }

  // ----- the invariant under the lock -----

  /** The committed vehicle status is what its committed jobs call for. */
  ghost predicate StatusOk(jobs: map<JobId, Job>, status: VehicleStatus, newest: set<JobId>, v: VehicleId) {
    && (forall id :: id in jobs ==> jobs[id].vehicle == v)
    && (status == VehicleProcessing <==> AnyActive(jobs, v))
    && (jobs != map[] ==> IsNewestBatch(jobs, v, newest))
    && (jobs != map[] && !AnyActive(jobs, v) ==> status == if AnyFailed(jobs, newest) then PartiallyFailed else Ready)
  }

  /** Transactions finish distinct processing jobs, and only the lock's holder is past the lock. */
  ghost predicate TxnsOk(s: State) {
    && (forall t :: t in s.txns ==> s.txns[t].job in s.jobs && Finishes(s.jobs[s.txns[t].job], s.txns[t].row))
    && (forall t, u :: t in s.txns && u in s.txns && t != u ==> s.txns[t].job != s.txns[u].job)
    && (forall t :: t in s.txns && s.txns[t].phase != Wrote ==> s.lock == Some(t))
    && (s.lock.Some? ==> s.lock.value in s.txns)
  }

  /** What the holder counted is still true. */
  ghost predicate PhaseOk(s: State, v: VehicleId, t: TxnId)
    requires t in s.txns
  {
    match s.txns[t].phase
    case Wrote => true
    case Locked => true
    case NothingActive => !AnyActive(View(s, t), v)
    case KnowsLatest(latest) => !AnyActive(View(s, t), v) && IsLatest(View(s, t), v, latest)
    case Decided(None) => AnyActive(View(s, t), v)
    case Decided(Some(status)) =>
      !AnyActive(View(s, t), v) && status == if LatestBatchFailed(View(s, t), v) then PartiallyFailed else Ready
  }

  ghost predicate Inv(s: State, v: VehicleId) {
    StatusOk(s.jobs, s.status, s.newest, v) && TxnsOk(s) && forall t :: t in s.txns ==> PhaseOk(s, v, t)
  }

  /** Another transaction's commit under an active job changes nothing the lock's holder saw. */
  lemma OtherCommitKeepsPhase(s: State, v: VehicleId, t: TxnId, job: JobId, row: Job)
    requires t in s.txns && PhaseOk(s, v, t) && s.txns[t].job != job && job in s.jobs && s.jobs[job].vehicle == v
    requires SameJob(s.jobs[job], row) && Active(s.jobs[job].status) && Active(row.status)
    ensures PhaseOk(s.(jobs := s.jobs[job := row]), v, t)
  {
    var a, b := View(s, t), View(s.(jobs := s.jobs[job := row]), t);
    assert BelongsTo(a, job, v) && BelongsTo(b, job, v);
    hide LatestBatchFailed, IsLatest;
  }

  lemma ReservedIsNewest(s: State, v: VehicleId, batch: BatchKey, added: map<JobId, NewJob>)
    requires Enabled(s, v, ReserveBatch(batch, added), true)
    ensures IsNewestBatch(Apply(s, v, ReserveBatch(batch, added), true).jobs, v, added.Keys)
  {
    var jobs := Apply(s, v, ReserveBatch(batch, added), true).jobs;
    assert forall id :: id in added.Keys <==> BelongsTo(jobs, id, v) && jobs[id].batch == Some(batch);
  }

  lemma ReservedNewest(s: State, v: VehicleId, batch: BatchKey, added: map<JobId, NewJob>)
    requires StatusOk(s.jobs, s.status, s.newest, v) && Enabled(s, v, ReserveBatch(batch, added), true)
    ensures var b := Apply(s, v, ReserveBatch(batch, added), true); StatusOk(b.jobs, b.status, b.newest, v)
  {
    hide IsNewestBatch, AnyFailed, AnyActive;
    ReservedIsNewest(s, v, batch, added);
    ReservedIsActive(s, v, batch, added);
  }

  lemma ReservedIsActive(s: State, v: VehicleId, batch: BatchKey, added: map<JobId, NewJob>)
    requires Enabled(s, v, ReserveBatch(batch, added), true)
    ensures AnyActive(Apply(s, v, ReserveBatch(batch, added), true).jobs, v)
  {
    var jobs := Apply(s, v, ReserveBatch(batch, added), true).jobs;
    var some :| some in added;
    assert BelongsTo(jobs, some, v) && Active(jobs[some].status);
  }

  /** Nothing is in flight while a vehicle may be reserved. */
  lemma ProcessableIsIdle(s: State, v: VehicleId)
    requires Inv(s, v) && Processable(s.status)
    ensures s.txns == map[]
  {
    if t :| t in s.txns {
      assert BelongsTo(s.jobs, s.txns[t].job, v);
    }
  }

  lemma CommitKeepsStatus(s: State, v: VehicleId, t: TxnId)
    requires Inv(s, v) && t in s.txns && s.txns[t].phase.Decided?
    ensures var b := Apply(s, v, Commit(t), true); StatusOk(b.jobs, b.status, b.newest, v)
  {
    hide IsNewestBatch, LatestBatchFailed, AnyFailed;
    var a, b, job := s.jobs, View(s, t), s.txns[t].job;
    assert BelongsTo(a, job, v);
    assert forall id :: BelongsTo(b, id, v) <==> BelongsTo(a, id, v);
    NewestBatchKept(a, b, v, s.newest);
    LatestIsInNewestBatch(b, v, s.newest);
  }

  // ----- every step keeps it -----

  lemma BeginKeepsInv(s: State, v: VehicleId, step: Step)
    requires Inv(s, v) && step.Begin? && Enabled(s, v, step, true)
    ensures Inv(Apply(s, v, step, true), v)
  {
    hide StatusOk, AnyActive, LatestBatchFailed, IsLatest;
    var b := Apply(s, v, step, true);
    forall t | t in b.txns ensures PhaseOk(b, v, t) {
      if t != step.txn { assert PhaseOk(s, v, t) && View(b, t) == View(s, t); }
    }
  }

  predicate Advances(step: Step) {
    step.TakeLock? || step.CountActive? || step.ReadLatest? || step.CountFailed?
  }

  lemma HolderTxnsOk(s: State, v: VehicleId, step: Step)
    requires TxnsOk(s) && Advances(step) && Enabled(s, v, step, true)
    ensures TxnsOk(Apply(s, v, step, true))
  {
    hide AnyActive, LatestBatchFailed, IsLatest, BatchFailed, Finishes;
  }

  lemma HolderPhaseOk(s: State, v: VehicleId, step: Step, t: TxnId)
    requires t in s.txns && PhaseOk(s, v, t) && Advances(step) && Enabled(s, v, step, true)
    ensures t in Apply(s, v, step, true).txns && PhaseOk(Apply(s, v, step, true), v, t)
  {
    hide AnyActive, LatestBatchFailed, IsLatest, BatchFailed;
    assert View(Apply(s, v, step, true), t) == View(s, t);
    if step.CountFailed? && t == step.txn { LatestIsUnique(View(s, t), v, s.txns[t].phase.latest); }
  }

  /** The holder moves on by one read. */
  lemma HolderKeepsInv(s: State, v: VehicleId, step: Step)
    requires Inv(s, v) && Advances(step) && Enabled(s, v, step, true)
    ensures Inv(Apply(s, v, step, true), v)
  {
    hide StatusOk, TxnsOk, PhaseOk;
    HolderTxnsOk(s, v, step);
    var b := Apply(s, v, step, true);
    forall t | t in b.txns ensures PhaseOk(b, v, t) {
      HolderPhaseOk(s, v, step, t);
    }
  }

  lemma RollbackKeepsInv(s: State, v: VehicleId, step: Step)
    requires Inv(s, v) && step.Rollback? && Enabled(s, v, step, true)
    ensures Inv(Apply(s, v, step, true), v)
  {
    hide StatusOk, AnyActive, LatestBatchFailed, IsLatest;
    var b := Apply(s, v, step, true);
    forall t | t in b.txns ensures PhaseOk(b, v, t) {
      assert PhaseOk(s, v, t) && View(b, t) == View(s, t);
    }
  }

  lemma CommitKeepsInv(s: State, v: VehicleId, step: Step)
    requires Inv(s, v) && step.Commit? && Enabled(s, v, step, true)
    ensures Inv(Apply(s, v, step, true), v)
  {
    hide StatusOk, AnyActive, LatestBatchFailed, IsLatest;
    CommitKeepsStatus(s, v, step.txn);
    var b := Apply(s, v, step, true);
    forall t | t in b.txns ensures PhaseOk(b, v, t) {
      assert s.txns[t].phase == Wrote;
    }
  }

  lemma OtherCommitKeepsStatus(s: State, v: VehicleId, job: JobId, row: Job)
    requires StatusOk(s.jobs, s.status, s.newest, v) && job in s.jobs && SameJob(s.jobs[job], row) && Active(s.jobs[job].status) && Active(row.status)
    ensures StatusOk(s.jobs[job := row], s.status, s.newest, v)
  {
    var b := s.jobs[job := row];
    assert BelongsTo(s.jobs, job, v) && BelongsTo(b, job, v);
    assert forall id :: BelongsTo(b, id, v) <==> BelongsTo(s.jobs, id, v);
    NewestBatchKept(s.jobs, b, v, s.newest);
    hide IsNewestBatch;
  }

  lemma OtherCommitKeepsInv(s: State, v: VehicleId, step: Step)
    requires Inv(s, v) && step.OtherCommit? && Enabled(s, v, step, true)
    ensures Inv(Apply(s, v, step, true), v)
  {
    OtherCommitKeepsStatus(s, v, step.job, step.row);
    VehicleOf(s, v, step.job);
    hide StatusOk, AnyActive, LatestBatchFailed, IsLatest;
    var b := Apply(s, v, step, true);
    forall t | t in b.txns ensures PhaseOk(b, v, t) {
      OtherCommitKeepsPhase(s, v, t, step.job, step.row);
    }
  }

  lemma VehicleOf(s: State, v: VehicleId, job: JobId)
    requires StatusOk(s.jobs, s.status, s.newest, v) && job in s.jobs
    ensures s.jobs[job].vehicle == v
  {
  }

  lemma StepKeepsInv(s: State, v: VehicleId, step: Step)
    requires Inv(s, v) && Enabled(s, v, step, true)
    ensures Inv(Apply(s, v, step, true), v)
  {
    match step {
      case Begin(_, _, _) => BeginKeepsInv(s, v, step);
      case Commit(_) => CommitKeepsInv(s, v, step);
      case Rollback(_) => RollbackKeepsInv(s, v, step);
      case OtherCommit(_, _) => OtherCommitKeepsInv(s, v, step);
      case ReserveBatch(batch, added) => ReservedNewest(s, v, batch, added); ProcessableIsIdle(s, v);
      case _ => HolderKeepsInv(s, v, step);
    }
  }

  lemma {:induction false} RunKeepsInv(states: seq<State>, v: VehicleId, steps: seq<Step>, i: nat)
    requires IsRun(states, v, steps, true) && i < |states|
    ensures Inv(states[i], v)
    decreases i
  {
    hide Enabled, Apply, StatusOk;
    if i == 0 {
      InitialStatus(states[0], v);
    } else {
      RunKeepsInv(states, v, steps, i - 1);
      assert Enabled(states[i - 1], v, steps[i - 1], true) && states[i - 1 + 1] == Apply(states[i - 1], v, steps[i - 1], true);
      hide Inv;
      StepKeepsInv(states[i - 1], v, steps[i - 1]);
    }
  }

  lemma InitialStatus(s: State, v: VehicleId)
    requires Initial(s)
    ensures StatusOk(s.jobs, s.status, s.newest, v)
  {
  }

  // ----- the theorems -----

  /**
   * However the finishing transactions interleave, no committed state has every job finished while the vehicle is still
   * PROCESSING; a vehicle without active jobs is PARTIALLY_FAILED exactly if its newest batch holds a failed or cancelled job.
   */
  lemma LockedVehiclesNeverStick(states: seq<State>, v: VehicleId, steps: seq<Step>, i: nat)
    requires IsRun(states, v, steps, true) && i < |states|
    ensures var (jobs, status, newest) := (states[i].jobs, states[i].status, states[i].newest);
            var active := exists id :: id in jobs && jobs[id].status in {Created, Queued, Processing, Retrying};
            var failed := exists id :: id in newest && id in jobs && jobs[id].status in {Failed, Cancelled};
            && (status == VehicleProcessing <==> active)
            && (jobs != map[] ==> (status == PartiallyFailed <==> !active && failed) && IsNewestBatch(jobs, v, newest))
  {
    hide IsRun, IsNewestBatch;
    RunKeepsInv(states, v, steps, i);
    var s := states[i];
    assert StatusOk(s.jobs, s.status, s.newest, v);
    ActiveJobs(s.jobs, v);
    FailedJobs(s.jobs, s.newest);
    hide AnyActive, AnyFailed;
  }

  /** Under the lock, the interleaved commit is the atomic one: the row, and the status the committed rows settle. */
  lemma CommitIsAtomic(s: State, v: VehicleId, t: TxnId)
    requires Inv(s, v) && Enabled(s, v, Commit(t), true)
    ensures Apply(s, v, Commit(t), true).jobs == s.jobs[s.txns[t].job := s.txns[t].row]
    ensures Apply(s, v, Commit(t), true).status == Settled(View(s, t), map[v := s.status], v)[v]
  {
    var job := s.txns[t].job;
    assert BelongsTo(s.jobs, job, v);
    assert s.status == VehicleProcessing;
    hide AnyActive, LatestBatchFailed;
    assert PhaseOk(s, v, t);
  }

  /** A job of the one batch, running or done, at its first attempt. */
  function Plain(v: VehicleId, status: JobStatus): Job {
    Job(v, 0, Some(0), 0, status, 1, 5, None, None, None, None)
  }

  function TwoJobs(): map<JobId, NewJob> {
    map[0 := NewJob(0, 0, 5), 1 := NewJob(0, 0, 5)]
  }

  /** Two jobs are reserved and started; their finishing transactions both count before either commits. */
  ghost function StuckSteps(v: VehicleId): seq<Step> {
    [ ReserveBatch(0, TwoJobs()), OtherCommit(0, Plain(v, Processing)), OtherCommit(1, Plain(v, Processing)),
      Begin(0, 0, Plain(v, Completed)), Begin(1, 1, Plain(v, Completed)), TakeLock(0), CountActive(0), TakeLock(1), CountActive(1),
      Commit(0), Commit(1) ]
  }

  ghost function StuckStates(v: VehicleId): seq<State> {
    var w, e := Txn(0, Plain(v, Completed), Wrote), Txn(1, Plain(v, Completed), Wrote);
    var none, reserved := Decided(None), ReservedJob(v, 0, NewJob(0, 0, 5));
    var running := map[0 := Plain(v, Processing), 1 := Plain(v, Processing)];
    [ State(map[], Draft, map[], None, {}),
      State(map[0 := reserved, 1 := reserved], VehicleProcessing, map[], None, {0, 1}),
      State(map[0 := Plain(v, Processing), 1 := reserved], VehicleProcessing, map[], None, {0, 1}),
      State(running, VehicleProcessing, map[], None, {0, 1}),
      State(running, VehicleProcessing, map[0 := w], None, {0, 1}),
      State(running, VehicleProcessing, map[0 := w, 1 := e], None, {0, 1}),
      State(running, VehicleProcessing, map[0 := w.(phase := Locked), 1 := e], Some(0), {0, 1}),
      State(running, VehicleProcessing, map[0 := w.(phase := none), 1 := e], Some(0), {0, 1}),
      State(running, VehicleProcessing, map[0 := w.(phase := none), 1 := e.(phase := Locked)], Some(1), {0, 1}),
      State(running, VehicleProcessing, map[0 := w.(phase := none), 1 := e.(phase := none)], Some(1), {0, 1}),
      State(running[0 := Plain(v, Completed)], VehicleProcessing, map[1 := e.(phase := none)], Some(1), {0, 1}),
      State(running[0 := Plain(v, Completed)][1 := Plain(v, Completed)], VehicleProcessing, map[], None, {0, 1}) ]
  }

  ghost predicate Follows(v: VehicleId, i: nat)
    requires i < 11
  {
    Enabled(StuckStates(v)[i], v, StuckSteps(v)[i], false)
    && StuckStates(v)[i + 1] == Apply(StuckStates(v)[i], v, StuckSteps(v)[i], false)
  }

  lemma BatchIsReserved(v: VehicleId)
    ensures Follows(v, 0)
  {
    hide AnyActive, LatestBatchFailed, BatchFailed, IsLatest;
    assert 0 in TwoJobs();
    assert TwoJobs().Keys == {0, 1};
    var after := Apply(StuckStates(v)[0], v, StuckSteps(v)[0], false);
    assert after.jobs == StuckStates(v)[1].jobs;
  }

  lemma BothStart(v: VehicleId, i: nat)
    requires 1 <= i < 3
    ensures Follows(v, i)
  {
    hide AnyActive, LatestBatchFailed, BatchFailed, IsLatest;
  }

  lemma BothWrite(v: VehicleId, i: nat)
    requires 3 <= i < 6
    ensures Follows(v, i)
  {
    hide AnyActive, LatestBatchFailed, BatchFailed, IsLatest;
  }

  lemma FirstCounts(v: VehicleId)
    ensures Follows(v, 6)
  {
    hide LatestBatchFailed, BatchFailed, IsLatest;
    var s := StuckStates(v)[6];
    assert BelongsTo(View(s, 0), 1, v) && Active(View(s, 0)[1].status);
  }

  lemma SecondCounts(v: VehicleId)
    ensures Follows(v, 8)
  {
    hide LatestBatchFailed, BatchFailed, IsLatest;
    var s := StuckStates(v)[8];
    assert BelongsTo(View(s, 1), 0, v) && Active(View(s, 1)[0].status);
  }

  lemma BothCommit(v: VehicleId, i: nat)
    requires i == 7 || i == 9 || i == 10
    ensures Follows(v, i)
  {
    hide AnyActive, LatestBatchFailed, BatchFailed, IsLatest;
  }

  /** Nothing can happen to a vehicle that is processing without a transaction or an active job. */
  lemma DeadEnd(s: State, v: VehicleId, step: Step, locking: bool)
    requires s.txns == map[] && s.status == VehicleProcessing && forall id :: id in s.jobs ==> Terminal(s.jobs[id].status)
    ensures !Enabled(s, v, step, locking)
  {
    hide IsLatest;
  }

  /**
   * Without the lock there is a run, from the start, after which every job is finished, no transaction is left and the
   * vehicle is still processing; no step of any kind follows it, so the vehicle stays that way.
   */
  lemma UnlockedVehiclesCanStick(v: VehicleId)
    ensures var states, steps := StuckStates(v), StuckSteps(v);
            && IsRun(states, v, steps, false) && |states| == 12
            && states[11].status == VehicleProcessing && states[11].jobs != map[]
            && (forall id :: id in states[11].jobs ==> Terminal(states[11].jobs[id].status))
            && forall step :: !Enabled(states[11], v, step, false)
  {
    var states, steps := StuckStates(v), StuckSteps(v);
    assert 0 in states[11].jobs;
    hide Enabled, Apply;
    forall i | 0 <= i < 11 ensures Enabled(states[i], v, steps[i], false) && states[i + 1] == Apply(states[i], v, steps[i], false) {
      if i == 0 { BatchIsReserved(v); }
      else if i < 3 { BothStart(v, i); }
      else if i < 6 { BothWrite(v, i); }
      else if i == 6 { FirstCounts(v); }
      else if i == 8 { SecondCounts(v); }
      else { BothCommit(v, i); }
      assert Follows(v, i);
    }
    forall step ensures !Enabled(states[11], v, step, false) {
      DeadEnd(states[11], v, step, false);
    }
  }
}
