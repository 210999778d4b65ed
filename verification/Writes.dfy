/**
 The collection calls as atomic operations on one job document: what each of
 them does to the document and what it answers.
 */
module Writes {
  import opened Options
  import opened Status
  import opened JobModel

  /** A patch; `None` leaves the field as it is. */
  datatype UpdateJob = UpdateJob(
    status: Option<JobStatus> := None,
    dispatchStatus: Option<DispatchStatus> := None,
    executionStatus: Option<ExecutionStatus> := None,
    name: Option<string> := None,
    priority: Option<int> := None,
    startedAt: Option<Time> := None,
    completedAt: Option<Time> := None,
    payload: Option<Fields> := None,
    metadata: Option<Fields> := None,
    errors: Option<seq<JobError>> := None,
    tags: Option<seq<string>> := None,
    topic: Option<string> := None,
    dispatchAttempts: Option<int> := None,
    dispatchLastError: Option<string> := None,
    dispatchedAt: Option<Time> := None)

  function ApplyPatch(p: UpdateJob, j: Job): Job {
    j.(status := p.status.GetOr(j.status),
       dispatchStatus := p.dispatchStatus.GetOr(j.dispatchStatus),
       executionStatus := p.executionStatus.GetOr(j.executionStatus),
       name := p.name.GetOr(j.name),
       priority := p.priority.GetOr(j.priority),
       startedAt := if p.startedAt.Some? then p.startedAt else j.startedAt,
       completedAt := if p.completedAt.Some? then p.completedAt else j.completedAt,
       payload := if p.payload.Some? then p.payload else j.payload,
       metadata := p.metadata.GetOr(j.metadata),
       errors := p.errors.GetOr(j.errors),
       tags := p.tags.GetOr(j.tags),
       topic := p.topic.GetOr(j.topic),
       dispatchAttempts := p.dispatchAttempts.GetOr(j.dispatchAttempts),
       dispatchLastError := p.dispatchLastError.GetOr(j.dispatchLastError),
       dispatchedAt := if p.dispatchedAt.Some? then p.dispatchedAt else j.dispatchedAt)
  }

  /** One round trip to the collection, addressed to one job id. */
  datatype Op =
    | Get
    | Update(patch: UpdateJob)
    | IncrementRetryCount
    | ClearJobExecutionTimestamps
    | MarkDispatchedIfPending(dispatchedAt: Time)
    | RecordDispatchAttemptIfPending(attempts: int, lastError: string)
    | MarkDispatchFailedIfPending(message: string, failedAt: Time)
    | MarkRunningIfDispatched(startedAt: Time)
    | CompleteIfRunning(completedAt: Time, meta: Option<Fields>)
    | FailIfNotTerminal(entry: JobError, endedAt: Time)

  datatype Reply =
    | Found(job: Job)
    | Matched(matched: bool)
    | Wrote
    | NotFound
    | EmptyPatch
    | Unavailable

  /** Whether a write finds the document in the state it is conditional on. */
  predicate Guard(op: Op, j: Job) {
    match op
    case MarkDispatchedIfPending(_) => j.dispatchStatus.Pending?
    case RecordDispatchAttemptIfPending(_, _) => j.dispatchStatus.Pending?
    case MarkDispatchFailedIfPending(_, _) => j.dispatchStatus.Pending?
    case MarkRunningIfDispatched(_) => j.executionStatus.NotStarted?
    case CompleteIfRunning(_, _) => j.executionStatus.Running?
    case FailIfNotTerminal(_, _) => j.executionStatus.Running? || j.executionStatus.NotStarted?
    case Update(patch) => patch != UpdateJob()
    case _ => true
  }

  /** The document after the operation. */
  function After(op: Op, j: Job): Job {
    if !Guard(op, j) then j
    else
      match op
      case Get => j
      case Update(patch) => ApplyPatch(patch, j)
      case IncrementRetryCount => j.(retryCount := j.retryCount + 1)
      case ClearJobExecutionTimestamps => j.(startedAt := None, completedAt := None)
      case MarkDispatchedIfPending(at) =>
        j.(dispatchStatus := DispatchStatus.Dispatched, status := JobStatus.Dispatched, dispatchedAt := Some(at))
      case RecordDispatchAttemptIfPending(attempts, lastError) =>
        j.(dispatchAttempts := attempts, dispatchLastError := lastError)
      case MarkDispatchFailedIfPending(message, at) =>
        // A dispatch failure is always filed under attempt 0.
        j.(dispatchStatus := DispatchStatus.Failed, status := JobStatus.DispatchFailed,
           errors := j.errors + [JobError(Dispatch, 0, message, at)])
      case MarkRunningIfDispatched(at) =>
        // The dispatch status is deliberately not consulted.
        j.(executionStatus := ExecutionStatus.Running, status := JobStatus.Running, startedAt := Some(at))
      case CompleteIfRunning(at, meta) =>
        j.(executionStatus := ExecutionStatus.Completed, status := JobStatus.Completed, completedAt := Some(at),
           metadata := meta.GetOr(j.metadata))
      case FailIfNotTerminal(entry, at) =>
        j.(executionStatus := ExecutionStatus.Failed, status := JobStatus.Failed, completedAt := Some(at),
           startedAt := Some(j.startedAt.GetOr(at)), errors := j.errors + [entry])
  }

  /** The answer when the document exists and the round trip succeeds. */
  function Answer(op: Op, j: Job): Reply {
    match op
    case Get => Found(j)
    case Update(_) => if Guard(op, j) then Wrote else EmptyPatch
    case IncrementRetryCount => Wrote
    case ClearJobExecutionTimestamps => Wrote
    case _ => Matched(Guard(op, j))
  }

  /** The answer when there is no document with that id. */
  function AnswerMissing(op: Op): Reply {
    match op
    case Update(patch) => if patch == UpdateJob() then EmptyPatch else NotFound
    case Get => NotFound
    case IncrementRetryCount => NotFound
    case ClearJobExecutionTimestamps => NotFound
    case _ => Matched(false)
  }

  /** The fate of a round trip: both ways, lost before it took effect, or lost after. */
  datatype Net = Fine | LostRequest | LostReply

  function Landed(op: Op, j: Job, net: Net): Job {
    if net.LostRequest? then j else After(op, j)
  }

  function ReplyOver(op: Op, j: Job, net: Net): Reply {
    if net.Fine? then Answer(op, j) else Unavailable
  }

  /** Cancellation writes back what it read, plus the cancelled state. */
  function CancelPatch(seen: Job, now: Time, reason: string): UpdateJob {
    UpdateJob(
      status := Some(JobStatus.Cancelled),
      executionStatus := Some(ExecutionStatus.Cancelled),
      startedAt := Some(seen.startedAt.GetOr(now)),
      completedAt := Some(seen.completedAt.GetOr(now)),
      metadata := Some(if reason == "" then seen.metadata else seen.metadata["cancellation_reason" := reason]))
  }

  function ResetPatch(): UpdateJob {
    UpdateJob(
      status := Some(JobStatus.PendingDispatch),
      dispatchStatus := Some(DispatchStatus.Pending),
      executionStatus := Some(ExecutionStatus.NotStarted),
      dispatchAttempts := Some(0))
  }

  /** A failed job after an undisturbed retry. */
  function Retried(j: Job): Job {
    After(ClearJobExecutionTimestamps, After(Update(ResetPatch()), After(IncrementRetryCount, j)))
  }

  // ---- What the conditional writes promise, whatever the document ----

  /** Guarded writes move each owned status along its transition table, and nowhere else. */
  lemma GuardedWritesFollowTables(op: Op, j: Job)
    requires op.MarkDispatchedIfPending? || op.RecordDispatchAttemptIfPending? || op.MarkDispatchFailedIfPending?
             || op.MarkRunningIfDispatched? || op.CompleteIfRunning? || op.FailIfNotTerminal?
    ensures After(op, j).dispatchStatus == j.dispatchStatus
            || j.dispatchStatus.CanTransitionTo(After(op, j).dispatchStatus)
    ensures After(op, j).executionStatus == j.executionStatus
            || j.executionStatus.CanTransitionTo(After(op, j).executionStatus)
    ensures After(op, j).dispatchStatus != j.dispatchStatus ==> After(op, j).executionStatus == j.executionStatus
    ensures Answer(op, j) == Matched(true) || After(op, j) == j
  {
  }
}
