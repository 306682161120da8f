/** Which messages of a delivered batch the queue may delete. */
module QueueHandler {
  import opened JobRows
  import opened Options
  import opened WorkerOutcomes

  type QueueMessageId = nat

  /** One delivered record: its identifier and its body, absent when it is not a well-formed worker message. */
  datatype Record = Record(messageId: QueueMessageId, body: Option<JobId>)

  /** What the processor does with a well-formed message: report, or throw. */
  datatype Processing = Reported(result: ProcessResult) | Threw

  /** The record was processed and its report lets the queue delete the message. */
  predicate Settled(record: Record, processing: Processing) {
    record.body.Some? && processing.Reported? && MayDelete(processing.result)
  }

  /** It is left for redelivery: malformed, or its processing threw or asked for it. */
  lemma SettledMeans(record: Record, processing: Processing)
    ensures !Settled(record, processing) <==> record.body == None || processing == Threw || processing == Reported(RetryDelivery)
  {
  }

  function Identifiers(records: seq<Record>, processings: seq<Processing>): seq<QueueMessageId>
    requires |records| == |processings|
  {
    if records == [] then []
    else Identifiers(records[..|records| - 1], processings[..|records| - 1])
         + (if Settled(records[|records| - 1], processings[|records| - 1]) then [] else [records[|records| - 1].messageId])
  }

  /** One of the first `n` records carries the identifier and is left for redelivery. */
  ghost predicate LeftAmong(records: seq<Record>, processings: seq<Processing>, n: nat, m: QueueMessageId)
    requires n <= |records| == |processings|
  {
    exists i :: 0 <= i < n && records[i].messageId == m && !Settled(records[i], processings[i])
  }

  lemma LeftAmongMore(records: seq<Record>, processings: seq<Processing>, n: nat, m: QueueMessageId)
    requires n < |records| == |processings|
    ensures LeftAmong(records, processings, n + 1, m) <==>
              LeftAmong(records, processings, n, m) || (records[n].messageId == m && !Settled(records[n], processings[n]))
    ensures LeftAmong(records[..n], processings[..n], n, m) <==> LeftAmong(records, processings, n, m)
  {
    hide Settled;
    if i :| 0 <= i < n && records[i].messageId == m && !Settled(records[i], processings[i]) {
      assert records[..n][i].messageId == m && !Settled(records[..n][i], processings[..n][i]);
    }
    if i :| 0 <= i < n && records[..n][i].messageId == m && !Settled(records[..n][i], processings[..n][i]) {
      assert records[i].messageId == m && !Settled(records[i], processings[i]);
    }
  }

  lemma {:induction false} IdentifiersAre(records: seq<Record>, processings: seq<Processing>, m: QueueMessageId)
    requires |records| == |processings|
    ensures m in Identifiers(records, processings) <==> LeftAmong(records, processings, |records|, m)
    decreases |records|
  {
    hide Settled;
    if records != [] {
      var last := |records| - 1;
      IdentifiersAre(records[..last], processings[..last], m);
      LeftAmongMore(records, processings, last, m);
      hide LeftAmong;
    }
  }

  lemma IdentifiersOf(records: seq<Record>, processings: seq<Processing>, m: QueueMessageId)
    requires |records| == |processings|
    ensures m in Identifiers(records, processings) <==>
              exists i :: 0 <= i < |records| && records[i].messageId == m && !Settled(records[i], processings[i])
  {
    hide Settled, Identifiers;
    IdentifiersAre(records, processings, m);
  }

  /** Processes the records in order; the failure list names those left for redelivery. */
  method HandleProcessingQueueEvent(records: seq<Record>, processings: seq<Processing>) returns (batchItemFailures: seq<QueueMessageId>)
    requires |records| == |processings|
    ensures batchItemFailures == Identifiers(records, processings)
    ensures forall m :: m in batchItemFailures <==>
              exists i :: 0 <= i < |records| && records[i].messageId == m
                          && (records[i].body == None || processings[i] == Threw || processings[i] == Reported(RetryDelivery))
  {
    batchItemFailures := [];
    for i := 0 to |records|
      invariant batchItemFailures == Identifiers(records[..i], processings[..i])
    {
      assert records[..i + 1][..i] == records[..i] && processings[..i + 1][..i] == processings[..i];
      var record := records[i];
      if record.body == None || processings[i].Threw? {
        batchItemFailures := batchItemFailures + [record.messageId];
      } else if processings[i].result == RetryDelivery {
        batchItemFailures := batchItemFailures + [record.messageId];
      }
    }
    assert records[..|records|] == records && processings[..|records|] == processings;
    forall i | 0 <= i < |records|
      ensures !Settled(records[i], processings[i]) <==>
                records[i].body == None || processings[i] == Threw || processings[i] == Reported(RetryDelivery)
    {
      SettledMeans(records[i], processings[i]);
    }
    hide Settled;
    forall m ensures m in batchItemFailures <==>
        exists i :: 0 <= i < |records| && records[i].messageId == m && !Settled(records[i], processings[i]) {
      IdentifiersOf(records, processings, m);
    }
  }

  /** What is left of the received messages without the failed ones, in order. */
  function SelectDeletableReceipts(messages: seq<Record>, failed: seq<QueueMessageId>): (deletable: seq<Record>)
    ensures forall r :: r in deletable <==> r in messages && r.messageId !in failed
  {
    if messages == [] then []
    else (if messages[0].messageId in failed then [] else [messages[0]]) + SelectDeletableReceipts(messages[1..], failed)
  }

  /** A received message is deleted exactly when every record with its identifier was well formed, processed, and not to be retried. */
  lemma DeletedExactlyWhenSettled(records: seq<Record>, processings: seq<Processing>, k: nat)
    requires |records| == |processings| && k < |records|
    ensures records[k] in SelectDeletableReceipts(records, Identifiers(records, processings)) <==>
              forall i :: 0 <= i < |records| && records[i].messageId == records[k].messageId ==>
                records[i].body.Some? && processings[i].Reported? && processings[i].result != RetryDelivery
  {
    forall i | 0 <= i < |records|
      ensures Settled(records[i], processings[i]) <==>
                records[i].body.Some? && processings[i].Reported? && processings[i].result != RetryDelivery
    {
      SettledMeans(records[i], processings[i]);
    }
    hide Settled;
    IdentifiersOf(records, processings, records[k].messageId);
  }
}
