/**
 The transition tables, the displayed status and the validation rules, each
 said a second time in another way: as sets of pairs, as what an observer sees,
 and rule by rule.
 */
module Rules {
  import opened Options
  import opened Status
  import opened JobModel

  // ---- Tables ----

  const DISPATCH_EDGES := {
    (DispatchStatus.Pending, DispatchStatus.Dispatched),
    (DispatchStatus.Pending, DispatchStatus.Failed),
    (DispatchStatus.Failed, DispatchStatus.Pending)}

  const EXECUTION_EDGES := {
    (ExecutionStatus.NotStarted, ExecutionStatus.Running),
    (ExecutionStatus.NotStarted, ExecutionStatus.Failed),
    (ExecutionStatus.NotStarted, ExecutionStatus.Cancelled),
    (ExecutionStatus.Running, ExecutionStatus.Completed),
    (ExecutionStatus.Running, ExecutionStatus.Failed),
    (ExecutionStatus.Running, ExecutionStatus.Cancelled)}

  const JOB_EDGES := {
    (JobStatus.PendingDispatch, JobStatus.Dispatched),
    (JobStatus.PendingDispatch, JobStatus.DispatchFailed),
    (JobStatus.PendingDispatch, JobStatus.Cancelled),
    (JobStatus.DispatchFailed, JobStatus.PendingDispatch),
    (JobStatus.Dispatched, JobStatus.Running),
    (JobStatus.Dispatched, JobStatus.Cancelled),
    (JobStatus.Dispatched, JobStatus.Failed),
    (JobStatus.Running, JobStatus.Completed),
    (JobStatus.Running, JobStatus.Failed),
    (JobStatus.Running, JobStatus.Cancelled),
    (JobStatus.Failed, JobStatus.PendingDispatch)}

  lemma DispatchTableExactly(from: DispatchStatus, to: DispatchStatus)
    ensures from.CanTransitionTo(to) <==> (from, to) in DISPATCH_EDGES
  {
  }

  lemma ExecutionTableExactly(from: ExecutionStatus, to: ExecutionStatus)
    ensures from.CanTransitionTo(to) <==> (from, to) in EXECUTION_EDGES
  {
  }

  lemma JobTableExactly(from: JobStatus, to: JobStatus)
    ensures from.CanTransitionTo(to) <==> (from, to) in JOB_EDGES
  {
  }

  /** Terminal is: no way out, or only by a retry. */
  lemma TerminalExactly(s: JobStatus, e: ExecutionStatus)
    requires s.IsValid() && e.IsValid()
    ensures s.IsTerminal() <==> forall to :: (s, to) in JOB_EDGES ==> s.Failed? && to.PendingDispatch?
    ensures e.IsTerminal() <==> forall to :: (e, to) !in EXECUTION_EDGES
  {
    assert (JobStatus.PendingDispatch, JobStatus.Dispatched) in JOB_EDGES;
    assert (JobStatus.DispatchFailed, JobStatus.PendingDispatch) in JOB_EDGES;
    assert (JobStatus.Dispatched, JobStatus.Running) in JOB_EDGES;
    assert (JobStatus.Running, JobStatus.Completed) in JOB_EDGES;
    assert (ExecutionStatus.NotStarted, ExecutionStatus.Running) in EXECUTION_EDGES;
    assert (ExecutionStatus.Running, ExecutionStatus.Completed) in EXECUTION_EDGES;
  }

  // ---- Display ----

  /** Execution shows once it has started or ended, dispatch before. */
  lemma DisplayedExactly(c: CompositeStatus)
    ensures var shown, moved := c.DisplayStatus(), c.execution.IsValid() && !c.execution.NotStarted?;
            && (shown.Running? <==> c.execution.Running?)
            && (shown.Completed? <==> c.execution.Completed?)
            && (shown.Failed? <==> c.execution.Failed?)
            && (shown.Cancelled? <==> c.execution.Cancelled?)
            && (shown.Dispatched? <==> !moved && c.dispatch.Dispatched?)
            && (shown.DispatchFailed? <==> !moved && c.dispatch.Failed?)
            && (shown.PendingDispatch? <==> !moved && (c.dispatch.Pending? || c.dispatch.Unknown?))
  {
  }

  // ---- Validation ----

  /** The document breaks the rule. */
  predicate Violates(j: Job, rule: ValidationError) {
    match rule
    case JobIdRequired => j.jobId == ""
    case JobIdNotUuid => ByteLength(j.jobId) != 36
    case NameRequired => j.name == ""
    case NameTooLong => ByteLength(j.name) > 100
    case BadDispatchStatus => j.dispatchStatus.Unknown?
    case BadExecutionStatus => j.executionStatus.Unknown?
    case BadStatus => j.status.Unknown?
    case BadPriority => !(0 <= j.priority <= 10)
    case CreatedAtRequired => j.createdAt == 0
    case NegativeRetryCount => j.retryCount < 0
    case DispatchPhaseTimestamps =>
      && (j.executionStatus.NotStarted? || j.executionStatus.Unknown?)
      && (j.startedAt.Some? || j.completedAt.Some?)
    case PendingWithoutTopic => j.dispatchStatus.Pending? && j.topic == ""
    case NegativeDispatchAttempts => j.dispatchAttempts < 0
    case RunningWithoutStart => j.executionStatus.Running? && j.startedAt.None?
    case EndedWithoutStart =>
      (j.executionStatus.Completed? || j.executionStatus.Cancelled?) && j.startedAt.None?
    case EndedWithoutCompletion =>
      (j.executionStatus.Completed? || j.executionStatus.Cancelled?) && j.completedAt.None?
    case FailedWithoutCompletion => j.executionStatus.Failed? && j.completedAt.None?
    case FailedWithoutError => j.executionStatus.Failed? && j.errors == []
  }

  /** The order in which the rules are checked. */
  function Place(rule: ValidationError): nat {
    match rule
    case JobIdRequired => 0
    case JobIdNotUuid => 1
    case NameRequired => 2
    case NameTooLong => 3
    case BadDispatchStatus => 4
    case BadExecutionStatus => 5
    case BadStatus => 6
    case BadPriority => 7
    case CreatedAtRequired => 8
    case NegativeRetryCount => 9
    case DispatchPhaseTimestamps => 10
    case PendingWithoutTopic => 11
    case NegativeDispatchAttempts => 12
    case RunningWithoutStart => 13
    case EndedWithoutStart => 14
    case EndedWithoutCompletion => 15
    case FailedWithoutCompletion => 16
    case FailedWithoutError => 17
  }

  lemma StopsAtABrokenRule(j: Job, rule: ValidationError)
    ensures Validate(j).Some? ==> Violates(j, Validate(j).value)
    ensures Violates(j, rule) ==> Validate(j).Some? && Place(Validate(j).value) <= Place(rule)
  {
  }

  lemma PlacesDiffer(rule: ValidationError, other: ValidationError)
    ensures Place(rule) == Place(other) ==> rule == other
  {
  }

  /** Validation names the first rule the document breaks, and passes it when it breaks none. */
  lemma ValidatesExactly(j: Job, rule: ValidationError)
    ensures Validate(j) == Some(rule) <==>
              Violates(j, rule) && forall earlier :: Place(earlier) < Place(rule) ==> !Violates(j, earlier)
    ensures j.IsValid() ==> !Violates(j, rule)
    ensures (forall any :: !Violates(j, any)) ==> j.IsValid()
  {
    StopsAtABrokenRule(j, rule);
    if Validate(j).Some? {
      var first := Validate(j).value;
      PlacesDiffer(rule, first);
      forall earlier | Place(earlier) < Place(first) ensures !Violates(j, earlier) {
        StopsAtABrokenRule(j, earlier);
      }
    }
  }
}
