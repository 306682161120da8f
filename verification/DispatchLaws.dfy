/** What each fate of a dispatched message means for the queue's answer, the record, and the rows left. */
module DispatchLaws {
  import opened JobRows
  import opened Options
  import opened OutboxDispatch
  import opened RetryTiming

  /** More than a quarter of a second of the lease was left when the message's batch of ten was published. */
  ghost predicate LeaseLeft(i: nat, expiresAt: Time, s: Setting) {
    s.ports.batchClock(i / 10) + 250 < expiresAt
  }

  /** The queue answered for the batch of the `i`-th message, naming the job once, as sent. */
  ghost predicate ConfirmedOnce(messages: seq<Message>, i: nat, s: Setting)
    requires i < |messages|
  {
    && s.ports.publishBatch(i / 10).Answered?
    && var results := s.ports.publishBatch(i / 10).results;
       exists j :: 0 <= j < |results| && results[j] == Sent(messages[i].id) &&
         forall k :: 0 <= k < |results| && results[k].id == messages[i].id ==> k == j
  }

  /** The dispatcher's claim stands: its token is on the unpublished row, and the job waits to be published. */
  ghost predicate ClaimStands(db: Db, id: JobId, token: ClaimToken) {
    && id in db.outbox && db.outbox[id].claim == Some(token) && !db.outbox[id].published
    && id in db.jobs && db.jobs[id].status in {Created, Retrying}
  }

  lemma ConfirmedIsSent(messages: seq<Message>, i: nat, expiresAt: Time, s: Setting)
    requires i < |messages|
    ensures BatchSent(messages, i, expiresAt, s) <==> LeaseLeft(i, expiresAt, s) && ConfirmedOnce(messages, i, s)
  {
    if s.ports.publishBatch(i / 10).Answered? {
      hide SentOnce;
      OnceIsOnce(s.ports.publishBatch(i / 10).results, messages[i].id);
    }
  }

  lemma OnceIsOnce(results: seq<QueueResult>, id: JobId)
    ensures SentOnce(results, id) <==>
              exists j :: 0 <= j < |results| && results[j] == Sent(id) && forall k :: 0 <= k < |results| && results[k].id == id ==> k == j
  {
  }

  /** In batches a message is counted exactly when lease, queue, claim and record all hold, and otherwise it is put back. */
  lemma BatchFates(db: Db, messages: seq<Message>, i: nat, expiresAt: Time, s: Setting)
    requires i < |messages|
    ensures var fate, recording := BatchFate(db, messages, i, expiresAt, s), s.ports.recordBatch(i / 10);
            var taken := LeaseLeft(i, expiresAt, s) && ConfirmedOnce(messages, i, s) && ClaimStands(db, messages[i].id, s.token);
            && (fate == Acknowledged <==> taken && recording == Commits)
            && (fate == Unseen <==> taken && recording == CommitsUnseen)
            && (fate == Released <==> !taken || recording == Fails)
  {
    ConfirmedIsSent(messages, i, expiresAt, s);
    hide BatchSent, LeaseLeft, ConfirmedOnce;
  }

  /** One by one, likewise; a claim found lost when it is recorded leaves the row as it is. */
  lemma SingleFates(db: Db, messages: seq<Message>, i: nat, s: Setting)
    requires i < |messages|
    ensures var fate, sent, recording := SingleFate(db, messages, i, s), s.ports.publish(i), s.ports.record(i);
            var stands := ClaimStands(db, messages[i].id, s.token);
            && (fate == Acknowledged <==> sent && recording == Commits && stands)
            && (fate == Unseen <==> sent && recording == CommitsUnseen && stands)
            && (fate == ClaimLost <==> sent && recording == Commits && !stands)
            && (fate == Released <==> !sent || recording == Fails || (recording == CommitsUnseen && !stands))
  {
  }

  /** The dispatcher's own messages, whose claims were just taken, are lost to nobody. */
  lemma DispatchedFates(batched: bool, messages: seq<Message>, i: nat, expiresAt: Time, s: Setting)
    requires i < |messages|
    ensures var fate := FreshFate(batched, messages, i, expiresAt, s);
            var sent := if batched then LeaseLeft(i, expiresAt, s) && ConfirmedOnce(messages, i, s) else s.ports.publish(i);
            var recording := if batched then s.ports.recordBatch(i / 10) else s.ports.record(i);
            && (fate == Acknowledged <==> sent && recording == Commits)
            && (fate == Unseen <==> sent && recording == CommitsUnseen)
            && (fate == Released <==> !sent || recording == Fails)
  {
    ConfirmedIsSent(messages, i, expiresAt, s);
    hide BatchSent, LeaseLeft, ConfirmedOnce;
  }

  /** A sent message leaves its row published and its job queued, whether or not the dispatcher learned of it. */
  lemma SentIsPublished(a: Db, b: Db, messages: seq<Message>, fates: seq<Fate>, s: Setting, i: nat)
    requires WellClaimed(messages) && s.Valid() && Leaves(a, b, messages, fates, s) && i < |messages|
    requires fates[i] == Acknowledged || fates[i] == Unseen
    requires messages[i].id in a.outbox && messages[i].id in a.jobs
    ensures var id := messages[i].id;
            && id in b.outbox && b.outbox[id] == a.outbox[id].(claim := None, claimExpiresAt := None, published := true)
            && id in b.jobs && b.jobs[id] == a.jobs[id].(status := Queued, nextAttemptAt := None)
  {
    hide ReleasedUntil;
  }

  /**
   * A message put back is free again, at a time after the failure of at least half the capped backoff of its publication
   * attempts and of at most the whole; its job is untouched.
   */
  lemma ReleasedIsDelayed(a: Db, b: Db, messages: seq<Message>, fates: seq<Fate>, s: Setting, i: nat)
    requires WellClaimed(messages) && s.Valid() && Leaves(a, b, messages, fates, s) && i < |messages| && fates[i] == Released
    requires messages[i].id in a.outbox && messages[i].id in a.jobs
    requires a.outbox[messages[i].id].claim == Some(s.token) && !a.outbox[messages[i].id].published
    ensures var id, n := messages[i].id, messages[i].attemptCount;
            && n >= 1 && id in b.outbox && id in b.jobs && b.jobs[id] == a.jobs[id]
            && b.outbox[id] == a.outbox[id].(claim := None, claimExpiresAt := None, nextAttemptAt := b.outbox[id].nextAttemptAt)
            && var delay := b.outbox[id].nextAttemptAt - s.ports.releaseClock(id);
               Capped(n, s.options.retryBase, s.options.retryMaximum) <= 2 * delay &&
               delay <= Capped(n, s.options.retryBase, s.options.retryMaximum) <= s.options.retryMaximum
  {
    hide ReleasedUntil, Capped, CalculateProcessingOutboxRetryDelay;
    DelayOf(messages[i], s);
  }

  lemma DelayOf(m: Message, s: Setting)
    requires m.attemptCount >= 1 && s.Valid()
    ensures var delay := ReleasedUntil(m, s) - s.ports.releaseClock(m.id);
            var capped := Capped(m.attemptCount, s.options.retryBase, s.options.retryMaximum);
            capped <= 2 * delay && delay <= capped <= s.options.retryMaximum
  {
    hide Capped;
    JitteredIsBounded(m.attemptCount, s.options.retryBase, s.options.retryMaximum, s.ports.random(m.id));
  }

  /** Rows of messages lost to another dispatcher, and of jobs not dispatched, are as they were. */
  lemma OthersAreKept(a: Db, b: Db, messages: seq<Message>, fates: seq<Fate>, s: Setting, id: JobId)
    requires WellClaimed(messages) && s.Valid() && Leaves(a, b, messages, fates, s)
    requires forall i :: 0 <= i < |messages| && messages[i].id == id ==> fates[i] == ClaimLost
    ensures id in b.outbox <==> id in a.outbox
    ensures id in a.outbox ==> b.outbox[id] == a.outbox[id]
    ensures id in b.jobs <==> id in a.jobs
    ensures id in a.jobs ==> b.jobs[id] == a.jobs[id]
  {
    hide ReleasedUntil;
    if Carries(messages, id) {
      var i :| 0 <= i < |messages| && messages[i].id == id;
      assert fates[i] == ClaimLost;
    }
  }

  /** The published count is the number of messages acknowledged. */
  lemma {:induction false} PublishedAreCounted(fates: seq<Fate>)
    ensures Tally(fates) == |set i | 0 <= i < |fates| && fates[i] == Acknowledged|
    decreases |fates|
  {
    if fates != [] {
      var last, front := |fates| - 1, fates[..|fates| - 1];
      PublishedAreCounted(front);
      var earlier := set i | 0 <= i < |front| && front[i] == Acknowledged;
      assert (set i | 0 <= i < |fates| && fates[i] == Acknowledged) == if fates[last] == Acknowledged then earlier + {last} else earlier;
    }
  }
}
