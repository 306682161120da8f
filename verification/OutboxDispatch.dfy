/** Publication of claimed outbox messages, ten at a time or one at a time, and its bookkeeping. */
module OutboxDispatch {
  import opened JobRows
  import opened Options
  import opened JobInvariants
  import opened Repositories
  import opened RetryTiming

  const PROCESSING_QUEUE_BATCH_SIZE: nat := 10
  const PUBLICATION_LEASE_RESERVE_MS: int := 250

  /** A claimed row; `attemptCount` already counts this claim. */
  datatype Message = Message(id: JobId, attemptCount: nat)

  datatype DispatchResult = DispatchResult(claimed: nat, published: nat, failed: nat)

  datatype DispatcherOptions = DispatcherOptions(batchSize: nat, claimTtl: int, retryBase: int, retryMaximum: int) {
    predicate Valid() {
      1 <= batchSize <= 100 && 1_000 <= claimTtl <= 300_000 && ValidTiming(retryBase, retryMaximum)
    }
  }

  datatype QueueResult = Sent(id: JobId) | NotSent(id: JobId)

  /** A batch publication throws, or answers with any list of results whatever. */
  datatype BatchAnswer = PublishThrew | Answered(results: seq<QueueResult>)

  /** Recording a publication commits, fails, or commits without the dispatcher learning so. */
  datatype Recording = Commits | Fails | CommitsUnseen

  /** What the queue, the clock and the jitter do: by batch number, by message number and by released job. */
  datatype Ports = Ports(
    batchClock: nat -> Time, publishBatch: nat -> BatchAnswer, recordBatch: nat -> Recording,
    publish: nat -> bool, record: nat -> Recording,
    releaseClock: JobId -> Time, random: JobId -> real)

  /** One dispatcher's claim token, options and surroundings. */
  datatype Setting = Setting(token: ClaimToken, options: DispatcherOptions, ports: Ports) {
    ghost predicate Valid() {
      options.Valid() && forall id :: 0.0 <= ports.random(id) <= 1.0
    }
  }

  predicate WellClaimed(messages: seq<Message>) {
    && (forall i :: 0 <= i < |messages| ==> messages[i].attemptCount >= 1)
    && (forall i, j :: 0 <= i < j < |messages| ==> messages[i].id != messages[j].id)
  }

  ghost predicate Carries(messages: seq<Message>, id: JobId) {
    exists i :: 0 <= i < |messages| && messages[i].id == id
  }

  /** When a released message may be claimed again. */
  function ReleasedUntil(m: Message, s: Setting): Time
    requires m.attemptCount >= 1 && s.Valid()
  {
    s.ports.releaseClock(m.id) +
    CalculateProcessingOutboxRetryDelay(m.attemptCount, s.options.retryBase, s.options.retryMaximum, s.ports.random(m.id)).milliseconds
  }

  // ----- what becomes of a message -----

  /**
   * Pending: not handled yet. Acknowledged: recorded as sent and counted. Unseen: recorded as sent, but counted
   * as failed. Released: put back with a delay. ClaimLost: no longer this dispatcher's to record.
   */
  datatype Fate = Pending | Acknowledged | Unseen | Released | ClaimLost

  function RowAfter(row: OutboxRow, fate: Fate, token: ClaimToken, until: Time): OutboxRow {
    match fate
    case Acknowledged | Unseen => PublishedRow(row)
    case Released =>
      if row.claim == Some(token) && !row.published
      then row.(claim := None, claimExpiresAt := None, nextAttemptAt := until) else row
    case _ => row
  }

  function JobAfter(job: Job, fate: Fate): Job {
    if fate == Acknowledged || fate == Unseen then QueuedJob(job) else job
  }

  /** Every message's outbox row has come to its fate, and no other has changed. */
  ghost predicate RowsLeft(a: map<JobId, OutboxRow>, b: map<JobId, OutboxRow>, messages: seq<Message>, fates: seq<Fate>, s: Setting)
    requires WellClaimed(messages) && s.Valid() && |fates| == |messages|
  {
    && b.Keys == a.Keys
    && (forall i :: 0 <= i < |messages| && messages[i].id in a ==>
          b[messages[i].id] == RowAfter(a[messages[i].id], fates[i], s.token, ReleasedUntil(messages[i], s)))
    && (forall id :: id in a && !Carries(messages, id) ==> b[id] == a[id])
  }

  /** The same for the jobs. */
  ghost predicate JobsLeft(a: map<JobId, Job>, b: map<JobId, Job>, messages: seq<Message>, fates: seq<Fate>)
    requires |fates| == |messages|
  {
    && b.Keys == a.Keys
    && (forall i :: 0 <= i < |messages| && messages[i].id in a ==> b[messages[i].id] == JobAfter(a[messages[i].id], fates[i]))
    && (forall id :: id in a && !Carries(messages, id) ==> b[id] == a[id])
  }

  /** Every message's rows have come to its fate, and nothing else has changed. */
  ghost predicate Leaves(a: Db, b: Db, messages: seq<Message>, fates: seq<Fate>, s: Setting)
    requires WellClaimed(messages) && s.Valid()
  {
    && |fates| == |messages| && b == a.(outbox := b.outbox, jobs := b.jobs)
    && RowsLeft(a.outbox, b.outbox, messages, fates, s) && JobsLeft(a.jobs, b.jobs, messages, fates)
  }

  function Tally(fates: seq<Fate>): nat {
    if fates == [] then 0 else Tally(fates[..|fates| - 1]) + (if fates[|fates| - 1] == Acknowledged then 1 else 0)
  }

  lemma NothingYet(a: Db, messages: seq<Message>, s: Setting)
    requires WellClaimed(messages) && s.Valid()
    ensures Leaves(a, a, messages, seq(|messages|, _ => Pending), s)
  {
  }

  /** A message that is still pending stands as it did. */
  lemma PendingStands(a: Db, b: Db, messages: seq<Message>, f: seq<Fate>, s: Setting, i: nat)
    requires WellClaimed(messages) && s.Valid() && Leaves(a, b, messages, f, s) && i < |messages| && f[i] == Pending
    ensures Acknowledges(b, messages[i].id, s.token) <==> Acknowledges(a, messages[i].id, s.token)
  {
    hide ReleasedUntil;
  }

  /** `f` becomes `g` when the messages of `ids` whose claims stand are recorded. */
  ghost predicate Recorded(a: Db, messages: seq<Message>, f: seq<Fate>, g: seq<Fate>, token: ClaimToken, ids: set<JobId>, fate: Fate) {
    && |f| == |g| == |messages| && (fate == Acknowledged || fate == Unseen)
    && (forall id :: id in ids ==> Carries(messages, id))
    && (forall i :: 0 <= i < |messages| && messages[i].id in ids ==> f[i] == Pending)
    && (forall i :: 0 <= i < |messages| ==>
          g[i] == if messages[i].id in ids && Acknowledges(a, messages[i].id, token) then fate else f[i])
  }

  lemma RecordingRows(a: Db, b: Db, messages: seq<Message>, f: seq<Fate>, g: seq<Fate>, s: Setting, ids: set<JobId>, fate: Fate)
    requires WellClaimed(messages) && s.Valid() && Recorded(a, messages, f, g, s.token, ids, fate)
    requires RowsLeft(a.outbox, b.outbox, messages, f, s)
    requires forall i :: 0 <= i < |messages| && messages[i].id in ids ==>
               (Acknowledges(b, messages[i].id, s.token) <==> Acknowledges(a, messages[i].id, s.token))
    ensures RowsLeft(a.outbox, MarkRows(b, ids, s.token).outbox, messages, g, s)
  {
    hide ReleasedUntil, PublishedRow, Acknowledges;
  }

  lemma RecordingJobs(a: Db, b: Db, messages: seq<Message>, f: seq<Fate>, g: seq<Fate>, s: Setting, ids: set<JobId>, fate: Fate)
    requires WellClaimed(messages) && Recorded(a, messages, f, g, s.token, ids, fate)
    requires JobsLeft(a.jobs, b.jobs, messages, f)
    requires forall i :: 0 <= i < |messages| && messages[i].id in ids ==>
               (Acknowledges(b, messages[i].id, s.token) <==> Acknowledges(a, messages[i].id, s.token))
    ensures JobsLeft(a.jobs, MarkRows(b, ids, s.token).jobs, messages, g)
  {
    hide QueuedJob, Acknowledges;
  }

  /** Recording some pending messages settles those whose claims still stand. */
  lemma RecordingLeaves(a: Db, b: Db, messages: seq<Message>, f: seq<Fate>, g: seq<Fate>, s: Setting, ids: set<JobId>, fate: Fate)
    requires WellClaimed(messages) && s.Valid() && Leaves(a, b, messages, f, s) && Recorded(a, messages, f, g, s.token, ids, fate)
    ensures Leaves(a, MarkRows(b, ids, s.token), messages, g, s)
    ensures forall i :: 0 <= i < |messages| && messages[i].id in ids ==>
              (Acknowledges(b, messages[i].id, s.token) <==> Acknowledges(a, messages[i].id, s.token))
  {
    hide Acknowledges, RowsLeft, JobsLeft;
    forall i | 0 <= i < |messages| && messages[i].id in ids
      ensures Acknowledges(b, messages[i].id, s.token) <==> Acknowledges(a, messages[i].id, s.token)
    {
      PendingStands(a, b, messages, f, s, i);
    }
    RecordingRows(a, b, messages, f, g, s, ids, fate);
    RecordingJobs(a, b, messages, f, g, s, ids, fate);
  }

  /** Releasing a message that is pending, or recorded unseen, touches no other. */
  lemma ReleaseLeaves(a: Db, b: Db, messages: seq<Message>, f: seq<Fate>, s: Setting, i: nat)
    requires WellClaimed(messages) && s.Valid() && Leaves(a, b, messages, f, s)
    requires i < |messages| && (f[i] == Pending || f[i] == Unseen)
    ensures Leaves(a, ReleaseRow(b, messages[i].id, s.token, ReleasedUntil(messages[i], s)), messages,
                   f[i := if f[i] == Pending then Released else Unseen], s)
  {
    hide JobsLeft, RowsLeft;
    ReleaseRows(a, b, messages, f, s, i);
    ReleaseJobs(a.jobs, b.jobs, messages, f, i);
  }

  lemma ReleaseRows(a: Db, b: Db, messages: seq<Message>, f: seq<Fate>, s: Setting, i: nat)
    requires WellClaimed(messages) && s.Valid() && |f| == |messages| && RowsLeft(a.outbox, b.outbox, messages, f, s)
    requires i < |messages| && (f[i] == Pending || f[i] == Unseen)
    ensures RowsLeft(a.outbox, ReleaseRow(b, messages[i].id, s.token, ReleasedUntil(messages[i], s)).outbox, messages,
                     f[i := if f[i] == Pending then Released else Unseen], s)
  {
    hide ReleasedUntil;
    assert Carries(messages, messages[i].id);
  }

  lemma ReleaseJobs(a: map<JobId, Job>, b: map<JobId, Job>, messages: seq<Message>, f: seq<Fate>, i: nat)
    requires |f| == |messages| && JobsLeft(a, b, messages, f) && i < |messages| && (f[i] == Pending || f[i] == Unseen)
    ensures JobsLeft(a, b, messages, f[i := if f[i] == Pending then Released else Unseen])
  {
    hide QueuedJob;
  }

  /** Fates determine the rows. */
  lemma LeavesOnce(a: Db, b: Db, c: Db, messages: seq<Message>, f: seq<Fate>, s: Setting)
    requires WellClaimed(messages) && s.Valid() && Leaves(a, b, messages, f, s) && Leaves(a, c, messages, f, s)
    ensures b == c
  {
    hide ReleasedUntil, RowAfter, JobAfter;
    forall id | id in a.outbox ensures b.outbox[id] == c.outbox[id] {
      if Carries(messages, id) { var i :| 0 <= i < |messages| && messages[i].id == id; }
    }
    forall id | id in a.jobs ensures b.jobs[id] == c.jobs[id] {
      if Carries(messages, id) { var i :| 0 <= i < |messages| && messages[i].id == id; }
    }
    assert b.outbox == c.outbox && b.jobs == c.jobs;
  }

  // ----- ten at a time -----

  /** The results that name the job. */
  function Matches(results: seq<QueueResult>, id: JobId): seq<QueueResult> {
    if results == [] then []
    else Matches(results[..|results| - 1], id) + (if results[|results| - 1].id == id then [results[|results| - 1]] else [])
  }

  /** Exactly one result names the job, and it says the message was sent. */
  ghost predicate SentOnce(results: seq<QueueResult>, id: JobId) {
    exists j :: 0 <= j < |results| && results[j] == Sent(id) && forall k :: 0 <= k < |results| && results[k].id == id ==> k == j
  }

  lemma {:induction false} MatchesAre(results: seq<QueueResult>, id: JobId)
    ensures forall r :: r in Matches(results, id) <==> r in results && r.id == id
    decreases |results|
  {
    if results != [] {
      MatchesAre(results[..|results| - 1], id);
      assert results == results[..|results| - 1] + [results[|results| - 1]];
    }
  }

  lemma {:induction false} MatchesOnce(results: seq<QueueResult>, id: JobId)
    ensures Matches(results, id) == [Sent(id)] <==> SentOnce(results, id)
    decreases |results|
  {
    if results != [] {
      var last, front := |results| - 1, results[..|results| - 1];
      MatchesOnce(front, id);
      MatchesAre(front, id);
      if results[last].id == id {
        LastMatch(results, id);
      } else if SentOnce(front, id) {
        var j :| 0 <= j < last && front[j] == Sent(id) && forall k :: 0 <= k < last && front[k].id == id ==> k == j;
        assert results[j] == Sent(id) && forall k :: 0 <= k < |results| && results[k].id == id ==> k == j;
      } else {
        forall j | 0 <= j < |results| && results[j] == Sent(id) ensures j < last && front[j] == Sent(id) {
        }
      }
    }
  }

  lemma LastMatch(results: seq<QueueResult>, id: JobId)
    requires results != [] && results[|results| - 1].id == id
    ensures Matches(results, id) == [Sent(id)] <==> SentOnce(results, id)
  {
    var last, front := |results| - 1, results[..|results| - 1];
    MatchesAre(front, id);
    if Matches(front, id) == [] {
      assert forall k :: 0 <= k < last ==> front[k] in front;
      if results[last] == Sent(id) { assert forall k :: 0 <= k < |results| && results[k].id == id ==> k == last; }
    } else {
      var r := Matches(front, id)[0];
      assert r in front;
      var k :| 0 <= k < last && front[k] == r;
      assert results[k].id == id;
    }
  }

  /** The claim leaves enough of its lease to publish the `k`-th batch. */
  predicate InTime(k: nat, expiresAt: Time, s: Setting) {
    expiresAt - s.ports.batchClock(k) - PUBLICATION_LEASE_RESERVE_MS > 0
  }

  /** The queue's answer about the `i`-th message says it was sent, exactly once. */
  ghost predicate BatchSent(messages: seq<Message>, i: nat, expiresAt: Time, s: Setting)
    requires i < |messages|
  {
    var k := i / PROCESSING_QUEUE_BATCH_SIZE;
    InTime(k, expiresAt, s) && s.ports.publishBatch(k).Answered? && SentOnce(s.ports.publishBatch(k).results, messages[i].id)
  }

  ghost function BatchFate(db: Db, messages: seq<Message>, i: nat, expiresAt: Time, s: Setting): Fate
    requires i < |messages|
  {
    var recording := s.ports.recordBatch(i / PROCESSING_QUEUE_BATCH_SIZE);
    if BatchSent(messages, i, expiresAt, s) && recording != Fails && Acknowledges(db, messages[i].id, s.token)
    then (if recording == Commits then Acknowledged else Unseen) else Released
  }

  /** The messages of the batch that the queue's results confirm, in order. */
  method Successes(results: seq<QueueResult>, messages: seq<Message>, offset: nat, end: nat) returns (successes: seq<JobId>)
    requires WellClaimed(messages) && offset <= end <= |messages|
    ensures forall id :: id in successes <==> exists j :: offset <= j < end && messages[j].id == id && SentOnce(results, id)
    ensures forall x, y :: 0 <= x < y < |successes| ==> successes[x] != successes[y]
  {
    hide SentOnce;
    successes := [];
    for i := offset to end
      invariant forall id :: id in successes <==> exists j :: offset <= j < i && messages[j].id == id && SentOnce(results, id)
      invariant forall x, y :: 0 <= x < y < |successes| ==> successes[x] != successes[y]
    {
      MatchesOnce(results, messages[i].id);
      var matches := Matches(results, messages[i].id);
      if |matches| == 1 && matches[0].Sent? {
        MatchesAre(results, messages[i].id);
        assert matches[0] in matches;
        successes := successes + [messages[i].id];
      }
    }
  }

  ghost function WithRecorded(db: Db, messages: seq<Message>, fates: seq<Fate>, token: ClaimToken, ids: set<JobId>, fate: Fate): (after: seq<Fate>)
    requires |fates| == |messages|
    ensures |after| == |fates|
    ensures forall i :: 0 <= i < |fates| ==>
              after[i] == if messages[i].id in ids && Acknowledges(db, messages[i].id, token) then fate else fates[i]
  {
    seq(|messages|, i requires 0 <= i < |messages| =>
      if messages[i].id in ids && Acknowledges(db, messages[i].id, token) then fate else fates[i])
  }

  /** Publishes one batch and records the messages the queue took. */
  method PublishBatch(outbox: ProcessingOutboxRepository, messages: seq<Message>, offset: nat, end: nat, expiresAt: Time, s: Setting,
                      ghost a: Db, ghost fates: seq<Fate>)
    returns (acknowledged: set<JobId>, ghost after: seq<Fate>)
    requires WellClaimed(messages) && s.Valid() && |fates| == |messages| && Leaves(a, outbox.database.Rows(), messages, fates, s)
    requires offset % PROCESSING_QUEUE_BATCH_SIZE == 0 && offset <= end <= |messages| && end <= offset + PROCESSING_QUEUE_BATCH_SIZE
    requires forall i :: offset <= i < end ==> fates[i] == Pending
    modifies outbox.database`outbox, outbox.database`jobs
    ensures |after| == |fates| && Leaves(a, outbox.database.Rows(), messages, after, s)
    ensures forall i :: 0 <= i < |fates| && !(offset <= i < end) ==> after[i] == fates[i]
    ensures forall i :: offset <= i < end ==>
              after[i] == var fate := BatchFate(a, messages, i, expiresAt, s); if fate == Released then Pending else fate
    ensures forall i :: offset <= i < end ==> (messages[i].id in acknowledged <==> after[i] == Acknowledged)
  {
    hide Leaves, Acknowledges, SentOnce, Matches;
    var k := offset / PROCESSING_QUEUE_BATCH_SIZE;
    acknowledged, after := {}, fates;
    assert forall i :: offset <= i < end ==> i / PROCESSING_QUEUE_BATCH_SIZE == k;
    if !InTime(k, expiresAt, s) || s.ports.publishBatch(k).PublishThrew? { return; }
    var successes := Successes(s.ports.publishBatch(k).results, messages, offset, end);
    assert forall i :: offset <= i < end ==> (messages[i].id in successes <==> BatchSent(messages, i, expiresAt, s));
    var recording := s.ports.recordBatch(k);
    if recording == Fails { return; }
    ghost var ids, fate := SetOf(successes), if recording == Commits then Acknowledged else Unseen;
    after := WithRecorded(a, messages, fates, s.token, ids, fate);
    RecordingLeaves(a, outbox.database.Rows(), messages, fates, after, s, ids, fate);
    AcknowledgedMembers(outbox.database.Rows(), successes, s.token);
    var recorded := outbox.MarkOutboxPublishedBatch(successes, s.token);
    if recording == Commits { acknowledged := SetOf(recorded); }
  }

  lemma TallyStep(fates: seq<Fate>, i: nat)
    requires i < |fates|
    ensures Tally(fates[..i + 1]) == Tally(fates[..i]) + if fates[i] == Acknowledged then 1 else 0
  {
    assert fates[..i + 1][..i] == fates[..i];
  }

  /** Releases the `i`-th message, whose publication is not known to be recorded. */
  method ReleaseOne(outbox: ProcessingOutboxRepository, messages: seq<Message>, i: nat, s: Setting, ghost a: Db, ghost fates: seq<Fate>)
    returns (ghost after: seq<Fate>)
    requires WellClaimed(messages) && s.Valid() && |fates| == |messages| && Leaves(a, outbox.database.Rows(), messages, fates, s)
    requires i < |messages| && (fates[i] == Pending || fates[i] == Unseen)
    modifies outbox.database`outbox
    ensures after == fates[i := if fates[i] == Pending then Released else Unseen]
    ensures Leaves(a, outbox.database.Rows(), messages, after, s)
  {
    hide Leaves, ReleasedUntil, ReleaseRow;
    ReleaseLeaves(a, outbox.database.Rows(), messages, fates, s, i);
    after := fates[i := if fates[i] == Pending then Released else Unseen];
    var released := outbox.ReleaseOutboxClaim(messages[i].id, s.token, ReleasedUntil(messages[i], s));
  }

  /** Counts the acknowledged messages of the batch and releases the others. */
  method CountOrRelease(outbox: ProcessingOutboxRepository, messages: seq<Message>, offset: nat, end: nat, acknowledged: set<JobId>, s: Setting,
                        ghost a: Db, ghost fates: seq<Fate>)
    returns (published: nat, ghost after: seq<Fate>)
    requires WellClaimed(messages) && s.Valid() && |fates| == |messages| && Leaves(a, outbox.database.Rows(), messages, fates, s)
    requires offset <= end <= |messages|
    requires forall i :: offset <= i < end ==> fates[i] == Pending || fates[i] == Unseen || fates[i] == Acknowledged
    requires forall i :: offset <= i < end ==> (messages[i].id in acknowledged <==> fates[i] == Acknowledged)
    modifies outbox.database`outbox
    ensures |after| == |fates| && Leaves(a, outbox.database.Rows(), messages, after, s)
    ensures forall i :: 0 <= i < |fates| ==> after[i] == if offset <= i < end && fates[i] == Pending then Released else fates[i]
    ensures Tally(after[..offset]) + published == Tally(after[..end])
  {
    hide Leaves, Tally, WellClaimed, Setting.Valid;
    published, after := 0, fates;
    for i := offset to end
      invariant |after| == |fates| && Leaves(a, outbox.database.Rows(), messages, after, s)
      invariant forall j :: 0 <= j < |fates| ==> after[j] == if offset <= j < i && fates[j] == Pending then Released else fates[j]
      invariant Tally(after[..offset]) + published == Tally(after[..i])
    {
      ghost var before := after;
      if messages[i].id in acknowledged {
        published := published + 1;
      } else {
        after := ReleaseOne(outbox, messages, i, s, a, before);
        assert after[..offset] == before[..offset] && after[..i] == before[..i];
      }
      TallyStep(after, i);
    }
  }

  /**
   * Publishes the claimed messages ten at a time: each is counted exactly when its batch had lease left, the
   * queue confirmed it once, and the record committed on a claim that still stood; every other one is released.
   */
  method DispatchProcessingOutboxBatches(outbox: ProcessingOutboxRepository, messages: seq<Message>, expiresAt: Time, s: Setting)
    returns (result: DispatchResult, ghost fates: seq<Fate>)
    requires WellClaimed(messages) && s.Valid()
    modifies outbox.database`outbox, outbox.database`jobs
    ensures |fates| == |messages|
    ensures forall i :: 0 <= i < |messages| ==> fates[i] == BatchFate(old(outbox.database.Rows()), messages, i, expiresAt, s)
    ensures Leaves(old(outbox.database.Rows()), outbox.database.Rows(), messages, fates, s)
    ensures result.claimed == |messages| && result.published == Tally(fates) && result.published + result.failed == result.claimed
  {
    hide Leaves, BatchFate;
    ghost var a := outbox.database.Rows();
    NothingYet(a, messages, s);
    fates := seq(|messages|, _ => Pending);
    var published, offset := 0, 0;
    while offset < |messages|
      invariant 0 <= offset <= |messages| && (offset % PROCESSING_QUEUE_BATCH_SIZE == 0 || offset == |messages|)
      invariant |fates| == |messages| && Leaves(a, outbox.database.Rows(), messages, fates, s)
      invariant forall i :: 0 <= i < offset ==> fates[i] == BatchFate(a, messages, i, expiresAt, s)
      invariant forall i :: offset <= i < |fates| ==> fates[i] == Pending
      invariant published == Tally(fates[..offset])
    {
      var end := if offset + PROCESSING_QUEUE_BATCH_SIZE <= |messages| then offset + PROCESSING_QUEUE_BATCH_SIZE else |messages|;
      ghost var before, sent := fates, fates;
      var acknowledged, counted;
      acknowledged, sent := PublishBatch(outbox, messages, offset, end, expiresAt, s, a, fates);
      BatchFates(a, messages, offset, end, expiresAt, s);
      counted, fates := CountOrRelease(outbox, messages, offset, end, acknowledged, s, a, sent);
      assert fates[..offset] == before[..offset];
      published := published + counted;
      offset := end;
    }
    TallyBound(fates);
    assert fates[..|fates|] == fates;
    result := DispatchResult(|messages|, published, |messages| - published);
  }

  lemma BatchFates(db: Db, messages: seq<Message>, from: nat, to: nat, expiresAt: Time, s: Setting)
    requires from <= to <= |messages|
    ensures forall i :: from <= i < to ==> BatchFate(db, messages, i, expiresAt, s) in {Acknowledged, Unseen, Released}
  {
    hide BatchSent, Acknowledges;
  }

  lemma {:induction false} TallyBound(fates: seq<Fate>)
    ensures Tally(fates) <= |fates|
    decreases |fates|
  {
    if fates != [] { TallyBound(fates[..|fates| - 1]); }
  }

  // ----- one at a time -----

  ghost function SingleFate(db: Db, messages: seq<Message>, i: nat, s: Setting): Fate
    requires i < |messages|
  {
    if !s.ports.publish(i) || s.ports.record(i) == Fails then Released
    else if Acknowledges(db, messages[i].id, s.token) then (if s.ports.record(i) == Commits then Acknowledged else Unseen)
    else if s.ports.record(i) == Commits then ClaimLost
    else Released
  }

  lemma RecordOneLeaves(a: Db, b: Db, messages: seq<Message>, f: seq<Fate>, s: Setting, i: nat, fate: Fate)
    requires WellClaimed(messages) && s.Valid() && |f| == |messages| && Leaves(a, b, messages, f, s) && (fate == Acknowledged || fate == Unseen)
    requires i < |messages| && f[i] == Pending
    ensures Acknowledges(b, messages[i].id, s.token) <==> Acknowledges(a, messages[i].id, s.token)
    ensures Leaves(a, MarkRows(b, {messages[i].id}, s.token), messages,
                   if Acknowledges(a, messages[i].id, s.token) then f[i := fate] else f, s)
  {
    hide Leaves, Acknowledges;
    var ids := {messages[i].id};
    var g := if Acknowledges(a, messages[i].id, s.token) then f[i := fate] else f;
    assert Carries(messages, messages[i].id);
    RecordingLeaves(a, b, messages, f, g, s, ids, fate);
  }

  /** A lost claim is not released either: the row stays as it is. */
  lemma LostLeaves(a: Db, b: Db, messages: seq<Message>, f: seq<Fate>, s: Setting, i: nat)
    requires WellClaimed(messages) && s.Valid() && |f| == |messages| && Leaves(a, b, messages, f, s) && i < |messages| && f[i] == Pending
    ensures Leaves(a, b, messages, f[i := ClaimLost], s)
  {
    hide ReleasedUntil;
  }

  /** Publishes and records the `i`-th message; whatever throws releases it, a lost claim does not. */
  method PublishOne(outbox: ProcessingOutboxRepository, messages: seq<Message>, i: nat, s: Setting, ghost a: Db, ghost fates: seq<Fate>)
    returns (marked: bool, ghost fate: Fate)
    requires WellClaimed(messages) && s.Valid() && |fates| == |messages| && Leaves(a, outbox.database.Rows(), messages, fates, s)
    requires i < |messages| && fates[i] == Pending
    modifies outbox.database`outbox, outbox.database`jobs
    ensures fate == SingleFate(a, messages, i, s) && (marked <==> fate == Acknowledged)
    ensures Leaves(a, outbox.database.Rows(), messages, fates[i := fate], s)
  {
    hide Leaves, Acknowledges, ReleasedUntil, MarkRows, ReleaseRow;
    var m, threw := messages[i], true;
    ghost var now := fates;
    marked := false;
    if s.ports.publish(i) && s.ports.record(i) != Fails {
      fate := if s.ports.record(i) == Commits then Acknowledged else Unseen;
      RecordOneLeaves(a, outbox.database.Rows(), messages, fates, s, i, fate);
      now := if Acknowledges(a, m.id, s.token) then fates[i := fate] else fates;
      marked := outbox.MarkOutboxPublished(m.id, s.token);
      threw := s.ports.record(i) == CommitsUnseen;
      if threw { marked := false; }
    }
    fate := now[i];
    if threw {
      now := ReleaseOne(outbox, messages, i, s, a, now);
      fate := now[i];
    } else if !marked {
      LostLeaves(a, outbox.database.Rows(), messages, now, s, i);
      fate := ClaimLost;
      now := now[i := ClaimLost];
    }
    assert now == fates[i := fate];
  }

  method DispatchOneByOne(outbox: ProcessingOutboxRepository, messages: seq<Message>, s: Setting)
    returns (result: DispatchResult, ghost fates: seq<Fate>)
    requires WellClaimed(messages) && s.Valid()
    modifies outbox.database`outbox, outbox.database`jobs
    ensures |fates| == |messages|
    ensures forall i :: 0 <= i < |messages| ==> fates[i] == SingleFate(old(outbox.database.Rows()), messages, i, s)
    ensures Leaves(old(outbox.database.Rows()), outbox.database.Rows(), messages, fates, s)
    ensures result.claimed == |messages| && result.published == Tally(fates) && result.published + result.failed == result.claimed
  {
    hide Leaves, SingleFate;
    ghost var a := outbox.database.Rows();
    NothingYet(a, messages, s);
    fates := seq(|messages|, _ => Pending);
    var failed, published := 0, 0;
    for i := 0 to |messages|
      invariant |fates| == |messages| && Leaves(a, outbox.database.Rows(), messages, fates, s)
      invariant forall j :: 0 <= j < i ==> fates[j] == SingleFate(a, messages, j, s)
      invariant forall j :: i <= j < |fates| ==> fates[j] == Pending
      invariant published == Tally(fates[..i]) && published + failed == i
    {
      ghost var before, fate := fates, Pending;
      var marked;
      marked, fate := PublishOne(outbox, messages, i, s, a, fates);
      fates := fates[i := fate];
      assert fates[..i] == before[..i];
      TallyStep(fates, i);
      if marked { published := published + 1; } else { failed := failed + 1; }
    }
    assert fates[..|fates|] == fates;
    result := DispatchResult(|messages|, published, failed);
  }

  // ----- both paths -----

  /** The queue answers about each message the same on both paths, every batch is in time and every record commits. */
  ghost predicate SameOutcomes(messages: seq<Message>, expiresAt: Time, s: Setting) {
    forall i :: 0 <= i < |messages| ==>
      && (BatchSent(messages, i, expiresAt, s) <==> s.ports.publish(i))
      && s.ports.recordBatch(i / PROCESSING_QUEUE_BATCH_SIZE) == Commits && s.ports.record(i) == Commits
  }

  /** For the same outcomes, both paths leave the same rows and count the same messages. */
  lemma PathsAgree(db: Db, b: Db, c: Db, messages: seq<Message>, f: seq<Fate>, g: seq<Fate>, expiresAt: Time, s: Setting)
    requires DbOk(db) && WellClaimed(messages) && s.Valid() && SameOutcomes(messages, expiresAt, s)
    requires |f| == |g| == |messages|
    requires forall i :: 0 <= i < |messages| ==> f[i] == BatchFate(db, messages, i, expiresAt, s) && g[i] == SingleFate(db, messages, i, s)
    requires Leaves(db, b, messages, f, s) && Leaves(db, c, messages, g, s)
    ensures b == c && Tally(f) == Tally(g)
  {
    hide RowsLeft, JobsLeft, DbOk;
    forall i | 0 <= i < |messages| ensures SameEffect(db, messages[i].id, f[i], g[i], s.token) {
      FatesAgree(db, messages, i, expiresAt, s);
    }
    hide BatchFate, SingleFate, SameOutcomes, SameEffect;
    SameRows(db, c, messages, f, g, s);
    LeavesOnce(db, b, c, messages, f, s);
    SameTally(db, messages, f, g, s.token);
  }

  /** The two fates count alike and leave the message's rows alike. */
  ghost predicate SameEffect(db: Db, id: JobId, f: Fate, g: Fate, token: ClaimToken) {
    f == g || (f == Released && g == ClaimLost && (id in db.outbox ==> db.outbox[id].claim != Some(token) || db.outbox[id].published))
  }

  lemma FatesAgree(db: Db, messages: seq<Message>, i: nat, expiresAt: Time, s: Setting)
    requires DbOk(db) && i < |messages| && SameOutcomes(messages, expiresAt, s)
    ensures SameEffect(db, messages[i].id, BatchFate(db, messages, i, expiresAt, s), SingleFate(db, messages, i, s), s.token)
  {
    var id := messages[i].id;
    if id in db.outbox {
      OutboxRowAgrees(db, id);
    }
    hide DbOk, BatchSent;
  }

  lemma OutboxRowAgrees(db: Db, id: JobId)
    requires DbOk(db) && id in db.outbox
    ensures id in db.jobs && OutboxAgrees(db.jobs[id], db.outbox[id])
  {
    assert NoStrays(db);
    RowsOf(db, id);
  }

  lemma SameRows(a: Db, c: Db, messages: seq<Message>, f: seq<Fate>, g: seq<Fate>, s: Setting)
    requires WellClaimed(messages) && s.Valid() && |f| == |g| == |messages| && Leaves(a, c, messages, g, s)
    requires forall i :: 0 <= i < |messages| ==> SameEffect(a, messages[i].id, f[i], g[i], s.token)
    ensures Leaves(a, c, messages, f, s)
  {
    hide ReleasedUntil, PublishedRow, QueuedJob;
  }

  lemma {:induction false} SameTally(db: Db, messages: seq<Message>, f: seq<Fate>, g: seq<Fate>, token: ClaimToken)
    requires |f| == |g| <= |messages|
    requires forall i :: 0 <= i < |f| ==> SameEffect(db, messages[i].id, f[i], g[i], token)
    ensures Tally(f) == Tally(g)
    decreases |f|
  {
    if f != [] { SameTally(db, messages, f[..|f| - 1], g[..|g| - 1], token); }
  }

  // ----- the dispatcher -----

  /** A claim that was just taken stands. */
  lemma FreshClaimStands(db: Db, chosen: set<JobId>, id: JobId, token: ClaimToken, now: Time, expiresAt: Time)
    requires id in chosen && Dispatchable(db, id, now)
    ensures Acknowledges(ClaimRows(db, chosen, token, expiresAt), id, token)
  {
  }

  /** On a standing claim the queue and the record alone decide. */
  ghost function FreshFate(batched: bool, messages: seq<Message>, i: nat, expiresAt: Time, s: Setting): Fate
    requires i < |messages|
  {
    var sent := if batched then BatchSent(messages, i, expiresAt, s) else s.ports.publish(i);
    var recording := if batched then s.ports.recordBatch(i / PROCESSING_QUEUE_BATCH_SIZE) else s.ports.record(i);
    if !sent || recording == Fails then Released else if recording == Commits then Acknowledged else Unseen
  }

  /** Settled messages hold no claim any more: each row is published, with its job queued, or free to be claimed again. */
  lemma NoClaimIsLeft(a: Db, b: Db, messages: seq<Message>, fates: seq<Fate>, s: Setting, id: JobId)
    requires WellClaimed(messages) && s.Valid() && Leaves(a, b, messages, fates, s)
    requires forall i :: 0 <= i < |messages| ==> fates[i] == Acknowledged || fates[i] == Unseen || fates[i] == Released
    requires forall i :: 0 <= i < |messages| ==> Acknowledges(a, messages[i].id, s.token)
    requires Carries(messages, id)
    ensures id in b.outbox && id in b.jobs && b.outbox[id].claim == None
    ensures b.outbox[id].published <==> b.jobs[id].status == Queued
  {
    hide ReleasedUntil;
    var i :| 0 <= i < |messages| && messages[i].id == id;
  }

  class ProcessingOutboxDispatcher {
    const outbox: ProcessingOutboxRepository
    const options: DispatcherOptions
    const batched: bool

    /** The source's constructor throws for options that are not valid; `batched` is whether both ports take batches. */
    constructor (outbox: ProcessingOutboxRepository, options: DispatcherOptions, batched: bool)
      requires options.Valid()
      ensures this.outbox == outbox && this.options == options && this.batched == batched
    {
      this.outbox, this.options, this.batched := outbox, options, batched;
    }

    /** Claims the oldest due messages, each with its publication attempts counted. */
    method ClaimMessages(token: ClaimToken, claimedAt: Time, expiresAt: Time, jobIds: Option<set<JobId>>) returns (messages: seq<Message>)
      modifies outbox.database`outbox
      ensures WellClaimed(messages) && |messages| <= options.batchSize
      ensures forall i :: 0 <= i < |messages| ==>
                && Dispatchable(old(outbox.database.Rows()), messages[i].id, claimedAt)
                && (jobIds.Some? ==> messages[i].id in jobIds.value)
                && messages[i].attemptCount == old(outbox.database.outbox)[messages[i].id].attemptCount + 1
                && Acknowledges(outbox.database.Rows(), messages[i].id, token)
      ensures forall i, j :: 0 <= i < j < |messages| ==> EarlierRow(old(outbox.database.outbox), messages[i].id, messages[j].id)
      ensures forall id ::
                Dispatchable(old(outbox.database.Rows()), id, claimedAt) && (jobIds.Some? ==> id in jobIds.value) && id !in IdsOf(messages) ==>
                |messages| == options.batchSize && forall i :: 0 <= i < |messages| ==> EarlierRow(old(outbox.database.outbox), messages[i].id, id)
      ensures outbox.database.Rows() == ClaimRows(old(outbox.database.Rows()), IdsOf(messages), token, expiresAt)
    {
      hide Dispatchable, Acknowledges, ClaimRows;
      ghost var before := outbox.database.Rows();
      var rows := outbox.ClaimPendingOutbox(token, claimedAt, expiresAt, jobIds, options.batchSize);
      ClaimedCounts(before, rows, token, claimedAt, expiresAt);
      messages := seq(|rows|, i requires 0 <= i < |rows| && rows[i] in outbox.database.outbox reads outbox.database =>
        Message(rows[i], outbox.database.outbox[rows[i]].attemptCount));
      assert forall i :: 0 <= i < |rows| ==> messages[i].id == rows[i];
      SameIds(messages, rows);
      forall i | 0 <= i < |messages| ensures Acknowledges(outbox.database.Rows(), messages[i].id, token) {
        FreshClaimStands(before, SetOf(rows), rows[i], token, claimedAt, expiresAt);
      }
    }

    /** Claims due messages, publishes them and settles every claim it took. */
    method Dispatch(token: ClaimToken, claimedAt: Time, jobIds: Option<set<JobId>>, ports: Ports)
      returns (result: DispatchResult, messages: seq<Message>, ghost fates: seq<Fate>)
      requires options.Valid() && forall id :: 0.0 <= ports.random(id) <= 1.0
      modifies outbox.database
      ensures WellClaimed(messages) && |messages| <= options.batchSize && |fates| == |messages|
      ensures forall i :: 0 <= i < |messages| ==>
                && Dispatchable(old(outbox.database.Rows()), messages[i].id, claimedAt)
                && (jobIds.Some? ==> messages[i].id in jobIds.value)
                && messages[i].attemptCount == old(outbox.database.outbox)[messages[i].id].attemptCount + 1
                && fates[i] == FreshFate(batched, messages, i, claimedAt + options.claimTtl, Setting(token, options, ports))
      ensures forall i, j :: 0 <= i < j < |messages| ==> EarlierRow(old(outbox.database.outbox), messages[i].id, messages[j].id)
      ensures forall id ::
                Dispatchable(old(outbox.database.Rows()), id, claimedAt) && (jobIds.Some? ==> id in jobIds.value) && id !in IdsOf(messages) ==>
                |messages| == options.batchSize && forall i :: 0 <= i < |messages| ==> EarlierRow(old(outbox.database.outbox), messages[i].id, id)
      ensures Leaves(ClaimRows(old(outbox.database.Rows()), IdsOf(messages), token, claimedAt + options.claimTtl), outbox.database.Rows(),
                     messages, fates, Setting(token, options, ports))
      ensures result.claimed == |messages| && result.published == Tally(fates) && result.published + result.failed == result.claimed
    {
      hide Leaves, Dispatchable, Acknowledges, ClaimRows, SentOnce, WellClaimed, EarlierRow, IdsOf;
      var s, expiresAt := Setting(token, options, ports), claimedAt + options.claimTtl;
      messages := ClaimMessages(token, claimedAt, expiresAt, jobIds);
      if batched {
        result, fates := DispatchProcessingOutboxBatches(outbox, messages, expiresAt, s);
      } else {
        result, fates := DispatchOneByOne(outbox, messages, s);
      }
    }
  }

  lemma SameIds(messages: seq<Message>, rows: seq<JobId>)
    requires |messages| == |rows| && forall i :: 0 <= i < |rows| ==> messages[i].id == rows[i]
    ensures IdsOf(messages) == SetOf(rows)
  {
    forall id | id in rows ensures id in IdsOf(messages) {
      var i :| 0 <= i < |rows| && rows[i] == id;
      assert messages[i] in messages && messages[i].id == id;
    }
  }

  function IdsOf(messages: seq<Message>): set<JobId> {
    set m | m in messages :: m.id
  }

  lemma ClaimedCounts(db: Db, rows: seq<JobId>, token: ClaimToken, now: Time, expiresAt: Time)
    requires forall i :: 0 <= i < |rows| ==> Dispatchable(db, rows[i], now)
    ensures forall i :: 0 <= i < |rows| ==>
              && rows[i] in db.outbox && rows[i] in ClaimRows(db, SetOf(rows), token, expiresAt).outbox
              && ClaimRows(db, SetOf(rows), token, expiresAt).outbox[rows[i]].attemptCount == db.outbox[rows[i]].attemptCount + 1
  {
  }
}
