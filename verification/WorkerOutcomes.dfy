/** What a worker reports about one delivered message, and whether the queue may then delete it. */
module WorkerOutcomes {
  import opened JobRows

  datatype IgnoredReason = IgnoredNotFound | IgnoredNotReady | IgnoredTerminal

  datatype ProcessResult =
    | ProcessCompleted
    | Ignored(reason: IgnoredReason)
    | ProcessRetryScheduled
    | ProcessFailed
    | RetryDelivery

  /** The report after a claim that did not start an execution. */
  function AfterClaim(claim: ClaimResult): ProcessResult
    requires !claim.JobClaimed?
  {
    match claim
    case AwaitingPublication | ClaimBusy => RetryDelivery
    case NotFound => Ignored(IgnoredNotFound)
    case NotReady => Ignored(IgnoredNotReady)
    case TerminalJob => Ignored(IgnoredTerminal)
  }

  function AfterCompletion(completion: CompleteResult): ProcessResult {
    match completion
    case CompletionStored | AlreadyCompleted => ProcessCompleted
    case CompletionClaimLost | CompletionNotFound => RetryDelivery
  }

  function AfterFailure(failure: FailResult): ProcessResult {
    match failure
    case RetryScheduled => ProcessRetryScheduled
    case FailureStored => ProcessFailed
    case FailureClaimLost | FailureNotFound => RetryDelivery
  }

  /** Whether the handler leaves the message off its failure list, so that the queue deletes it. */
  predicate MayDelete(result: ProcessResult) {
    result != RetryDelivery
  }
}
