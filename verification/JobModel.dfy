/** The job document, its constructor, its validation rules and the dispatch projection. */
module JobModel {
  import opened Options
  import opened Status

  /** Instants; 0 is Go's zero time. */
  type Time = nat

  /** Free-form documents, keyed by field name. */
  type Fields = map<string, string>

  datatype JobErrorType = Execution | Dispatch

  datatype JobError = JobError(kind: JobErrorType, retryAttempt: int, message: string, timestamp: Time)

  datatype Job = Job(
    jobId: string,
    name: string,
    status: JobStatus,
    dispatchStatus: DispatchStatus,
    executionStatus: ExecutionStatus,
    priority: int,
    createdAt: Time,
    startedAt: Option<Time>,
    completedAt: Option<Time>,
    payload: Option<Fields>,
    metadata: Fields,
    errors: seq<JobError>,
    retryCount: int,
    tags: seq<string>,
    topic: string,
    dispatchAttempts: int,
    dispatchLastError: string,
    dispatchedAt: Option<Time>)
  {
    function Composite(): CompositeStatus {
      CompositeStatus(dispatchStatus, executionStatus)
    }

    function DisplayStatus(): JobStatus {
      Composite().DisplayStatus()
    }

    predicate IsValid() {
      Validate(this).None?
    }
  }

  function NewJobMetadata(jobId: string, name: string, payload: Option<Fields>, now: Time): Job {
    Job(jobId, name, JobStatus.PendingDispatch, DispatchStatus.Pending, ExecutionStatus.NotStarted,
        5, now, None, None, Some(payload.GetOr(map[])), map[], [], 0, [], "", 0, "", None)
  }

  datatype ValidationError =
    | JobIdRequired
    | JobIdNotUuid
    | NameRequired
    | NameTooLong
    | BadDispatchStatus
    | BadExecutionStatus
    | BadStatus
    | BadPriority
    | CreatedAtRequired
    | NegativeRetryCount
    | DispatchPhaseTimestamps
    | PendingWithoutTopic
    | NegativeDispatchAttempts
    | RunningWithoutStart
    | EndedWithoutStart
    | EndedWithoutCompletion
    | FailedWithoutCompletion
    | FailedWithoutError

  /** The bytes of a character in UTF-8. */
  function ByteCount(c: char): nat {
    if c as int < 0x80 then 1 else if c as int < 0x800 then 2 else if c as int < 0x1_0000 then 3 else 4
  }

  /** Go's length of a string: in bytes. */
  function ByteLength(s: string): nat {
    if s == "" then 0 else ByteLength(s[1..]) + ByteCount(s[0])
  }

  /** Lengths add up, and a plain character is one byte. */
  lemma {:induction false} BytesAddUp(a: string, b: string)
    ensures ByteLength(a + b) == ByteLength(a) + ByteLength(b)
  {
    if a == "" {
      assert a + b == b;
    } else {
      assert (a + b)[1..] == a[1..] + b;
      BytesAddUp(a[1..], b);
    }
  }

  lemma {:induction false} PlainTextLength(s: string)
    requires forall i :: 0 <= i < |s| ==> s[i] as int < 0x80
    ensures ByteLength(s) == |s|
  {
    if s != "" {
      PlainTextLength(s[1..]);
    }
  }

  predicate IsUuidLength(jobId: string) {
    jobId != "" && ByteLength(jobId) == 36
  }

  predicate IsNameLength(name: string) {
    name != "" && ByteLength(name) <= 100
  }

  /** The first rule the document breaks, in the order they are checked. */
  function Validate(j: Job): Option<ValidationError> {
    if j.jobId == "" then Some(JobIdRequired)
    else if ByteLength(j.jobId) != 36 then Some(JobIdNotUuid)
    else if j.name == "" then Some(NameRequired)
    else if ByteLength(j.name) > 100 then Some(NameTooLong)
    else if !j.dispatchStatus.IsValid() then Some(BadDispatchStatus)
    else if !j.executionStatus.IsValid() then Some(BadExecutionStatus)
    else if !j.status.IsValid() then Some(BadStatus)
    else if j.priority < 0 || j.priority > 10 then Some(BadPriority)
    else if j.createdAt == 0 then Some(CreatedAtRequired)
    else if j.retryCount < 0 then Some(NegativeRetryCount)
    else if j.DisplayStatus().IsDispatchPhase() && (j.startedAt.Some? || j.completedAt.Some?) then
      Some(DispatchPhaseTimestamps)
    else if j.dispatchStatus.Pending? && j.topic == "" then Some(PendingWithoutTopic)
    else if j.dispatchAttempts < 0 then Some(NegativeDispatchAttempts)
    else if j.executionStatus.Running? && j.startedAt.None? then Some(RunningWithoutStart)
    else if (j.executionStatus.Completed? || j.executionStatus.Cancelled?) && j.startedAt.None? then
      Some(EndedWithoutStart)
    else if (j.executionStatus.Completed? || j.executionStatus.Cancelled?) && j.completedAt.None? then
      Some(EndedWithoutCompletion)
    else if j.executionStatus.Failed? && j.completedAt.None? then Some(FailedWithoutCompletion)
    else if j.executionStatus.Failed? && |j.errors| == 0 then Some(FailedWithoutError)
    else None
  }

  /** What the dispatcher needs to publish a job; a copy, possibly stale when it is used. */
  datatype Projection = Projection(jobId: string, name: string, topic: string, payload: Fields, dispatchAttempts: int)

  function JobDispatchFromMetadata(j: Job): Projection {
    Projection(j.jobId, j.name, j.topic, j.payload.GetOr(map[]), j.dispatchAttempts)
  }

  /** How many entries of the error history have the given type. */
  function CountErrors(errors: seq<JobError>, kind: JobErrorType): nat {
    |ErrorsOf(errors, kind)|
  }

  /** The entries of one type, in order. */
  function ErrorsOf(errors: seq<JobError>, kind: JobErrorType): (r: seq<JobError>)
    ensures forall e :: e in r ==> e in errors && e.kind == kind
  {
    if errors == [] then []
    else
      var last := errors[|errors| - 1];
      ErrorsOf(errors[..|errors| - 1], kind) + if last.kind == kind then [last] else []
  }

  lemma ErrorsOfAppend(errors: seq<JobError>, e: JobError, kind: JobErrorType)
    ensures ErrorsOf(errors + [e], kind) == ErrorsOf(errors, kind) + if e.kind == kind then [e] else []
  {
    assert (errors + [e])[..|errors|] == errors;
  }

  /** Every entry is of one of the two types. */
  lemma {:induction false} TwoErrorTypes(errors: seq<JobError>)
    ensures |errors| == CountErrors(errors, Execution) + CountErrors(errors, Dispatch)
  {
    if errors != [] {
      TwoErrorTypes(errors[..|errors| - 1]);
    }
  }
}
