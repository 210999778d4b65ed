/**
 The programs of the threads that work on one job: which collection call a
 thread makes next, and where each answer takes it.

 Reads whose result only reaches a log line are not steps.
 */
module Protocol {
  import opened Options
  import opened Status
  import opened JobModel
  import opened Writes

  type MsgId = nat

  /** How a service call ended. */
  datatype Outcome = Ok | StoreError | JobNotFound | AlreadyTerminal | Refused

  /** On whose behalf a job is being failed. */
  datatype FailFor =
    | Caller                   // an operator's request
    | Preflight(mid: MsgId)    // a message that cannot be run at all
    | HandlerError(mid: MsgId) // a handler that returned an error

  /** A thread's position, with the locals it will still use. */
  datatype Pc =
    // HandleDispatch
    | Publish(job: Projection)
    | Confirm(mid: MsgId)
    | Record(attempts: int, lastError: string)
    | MarkFailed(message: string)
    // one delivery: ExecuteJob and the consumer around it
    | Start(mid: MsgId)
    | RunHandler(mid: MsgId)
    | ResultRead(mid: MsgId, result: string)   // reporting a result; the executor never has one
    | Complete(mid: MsgId, meta: Option<Fields>)
    | CompleteReread(mid: MsgId)
    | Acking(mid: MsgId)
    | Nacking(mid: MsgId)
    // FailJob
    | FailRead(who: FailFor, message: string)
    | FailWrite(who: FailFor, message: string, attempt: int)
    | FailReread(who: FailFor)
    // CancelJob; `now` is the clock reading it will use
    | CancelRead(reason: string, now: Time)
    | CancelWrite(seen: ExecutionStatus, patch: UpdateJob)
    // RetryJob
    | RetryRead
    | RetryIncrement
    | RetryReset
    | RetryClear
    | RetryReload
    | Done(outcome: Outcome)

  /** Where HandleDispatch starts. */
  function BeginDispatch(job: Projection): Pc {
    if job.topic == "" then Done(Refused) else Publish(job)
  }

  /** Where a delivery starts: a message that passes the argument, handler and decode checks claims the job. */
  function BeginDelivery(mid: MsgId, runnable: bool, message: string): Pc {
    if runnable then Start(mid) else FailRead(Preflight(mid), message)
  }

  /** The calls a thread may make from its position. */
  predicate Issues(pc: Pc, op: Op) {
    match pc
    case Confirm(_) => op.MarkDispatchedIfPending?
    case Record(attempts, lastError) => op == RecordDispatchAttemptIfPending(attempts, lastError)
    case MarkFailed(message) => op.MarkDispatchFailedIfPending? && op.message == message
    case Start(_) => op.MarkRunningIfDispatched?
    case ResultRead(_, _) => op.Get?
    case Complete(_, meta) => op.CompleteIfRunning? && op.meta == meta
    case CompleteReread(_) => op.Get?
    case FailRead(_, _) => op.Get?
    case FailWrite(_, message, attempt) =>
      op.FailIfNotTerminal? && op.entry.kind == Execution
      && op.entry.retryAttempt == attempt && op.entry.message == message
    case FailReread(_) => op.Get?
    case CancelRead(_, _) => op.Get?
    case CancelWrite(_, patch) => op == Update(patch)
    case RetryRead => op.Get?
    case RetryIncrement => op.IncrementRetryCount?
    case RetryReset => op == Update(ResetPatch())
    case RetryClear => op.ClearJobExecutionTimestamps?
    case RetryReload => op.Get?
    case _ => false
  }

  function Problem(reply: Reply): Outcome {
    if reply.NotFound? then JobNotFound else StoreError
  }

  /** Failing a job on behalf of a delivery always ends in an acknowledgement. */
  function FailEnds(who: FailFor, outcome: Outcome): Pc {
    match who
    case Caller => Done(outcome)
    case Preflight(mid) => Acking(mid)
    case HandlerError(mid) => Acking(mid)
  }

  /** Where the answer to the call takes the thread. */
  function Resume(maxAttempts: int, pc: Pc, reply: Reply): Pc {
    match pc
    case Confirm(_) => Done(if reply.Unavailable? then StoreError else Ok)
    case Record(attempts, lastError) =>
      if reply.Unavailable? then Done(StoreError)
      else if attempts >= maxAttempts then MarkFailed(lastError)
      else Done(Ok)
    case MarkFailed(_) => Done(if reply.Unavailable? then StoreError else Ok)
    case Start(mid) =>
      if reply == Matched(true) then RunHandler(mid)
      else if reply.Unavailable? then Nacking(mid)
      else Acking(mid)
    case ResultRead(mid, result) =>
      if reply.Found? then Complete(mid, Some(reply.job.metadata["result" := result])) else Nacking(mid)
    case Complete(mid, _) =>
      if reply == Matched(true) then Acking(mid)
      else if reply.Unavailable? then Nacking(mid)
      else CompleteReread(mid)
    case CompleteReread(mid) =>
      if reply.Found? && reply.job.DisplayStatus().IsTerminal() then Acking(mid) else Nacking(mid)
    case FailRead(who, message) =>
      if reply.Found? then FailWrite(who, message, reply.job.retryCount) else FailEnds(who, Problem(reply))
    case FailWrite(who, message, _) =>
      if reply == Matched(true) then FailEnds(who, Ok)
      else if reply.Unavailable? then FailEnds(who, StoreError)
      else FailReread(who)
    case FailReread(who) =>
      if !reply.Found? then FailEnds(who, Problem(reply))
      else if reply.job.DisplayStatus().IsTerminal() then FailEnds(who, AlreadyTerminal)
      else FailEnds(who, Refused)
    case CancelRead(reason, now) =>
      if !reply.Found? then Done(Problem(reply))
      else if reply.job.executionStatus.IsTerminal() then Done(Refused)
      else CancelWrite(reply.job.executionStatus, CancelPatch(reply.job, now, reason))
    case CancelWrite(_, _) => Done(if reply.Wrote? then Ok else Problem(reply))
    case RetryRead =>
      if !reply.Found? then Done(Problem(reply))
      else if reply.job.executionStatus.Failed? then RetryIncrement
      else Done(Refused)
    case RetryIncrement => if reply.Wrote? then RetryReset else Done(Problem(reply))
    case RetryReset => if reply.Wrote? then RetryClear else Done(Problem(reply))
    case RetryClear => if reply.Wrote? then RetryReload else Done(Problem(reply))
    case RetryReload => Done(if reply.Found? then Ok else Problem(reply))
    case _ => pc
  }

  /** After the publish attempt: `sent` is the id of the accepted message, if the broker confirmed one. */
  function AfterPublish(job: Projection, sent: Option<MsgId>, error: string): Pc {
    match sent
    case Some(mid) => Confirm(mid)
    case None => Record(job.dispatchAttempts + 1, error)
  }

  function AfterHandler(mid: MsgId, ok: bool, error: string): Pc {
    if ok then Complete(mid, None) else FailRead(HandlerError(mid), error)
  }

  /** What can be seen of a thread from outside. */
  datatype Event =
    | Called(op: Op, reply: Reply)
    | Published(sent: Option<MsgId>, error: string)
    | HandlerReturned(ok: bool, error: string)
    | Acked(mid: MsgId)
    | Nacked(mid: MsgId)

  /** The replies an operation can get from the collection. */
  predicate CanAnswer(op: Op, reply: Reply) {
    || reply.Unavailable?
    || reply == AnswerMissing(op)
    || match op
       case Get => reply.Found?
       case Update(patch) => reply.Wrote? && patch != UpdateJob()
       case IncrementRetryCount => reply.Wrote?
       case ClearJobExecutionTimestamps => reply.Wrote?
       case _ => reply.Matched?
  }

  /** The position after an event, or None when the program does not allow the event there. */
  function Observe(maxAttempts: int, pc: Pc, e: Event): Option<Pc> {
    match e
    case Called(op, reply) =>
      if Issues(pc, op) && CanAnswer(op, reply) then Some(Resume(maxAttempts, pc, reply)) else None
    case Published(sent, error) => if pc.Publish? then Some(AfterPublish(pc.job, sent, error)) else None
    case HandlerReturned(ok, error) => if pc.RunHandler? then Some(AfterHandler(pc.mid, ok, error)) else None
    case Acked(mid) => if pc == Acking(mid) then Some(Done(Ok)) else None
    case Nacked(mid) => if pc == Nacking(mid) then Some(Done(StoreError)) else None
  }

  /** An event, and the job it concerns. */
  datatype Seen = Seen(job: string, e: Event)

  /**
   The position of a thread that works on `job` and started at `from`, after
   the given events, if it may cause them.
   */
  function Follow(maxAttempts: int, job: string, from: Pc, events: seq<Seen>): Option<Pc> {
    if events == [] then Some(from)
    else
      var at := Follow(maxAttempts, job, from, events[..|events| - 1]);
      var last := events[|events| - 1];
      if at.Some? && last.job == job then Observe(maxAttempts, at.value, last.e) else None
  }

  lemma FollowNext(maxAttempts: int, job: string, from: Pc, events: seq<Seen>, at: Pc, e: Event)
    requires Follow(maxAttempts, job, from, events) == Some(at)
    ensures Follow(maxAttempts, job, from, events + [Seen(job, e)]) == Observe(maxAttempts, at, e)
  {
    assert (events + [Seen(job, e)])[..|events|] == events;
  }

  lemma {:induction false} FollowOn(maxAttempts: int, job: string, from: Pc, first: seq<Seen>, at: Pc, rest: seq<Seen>)
    requires Follow(maxAttempts, job, from, first) == Some(at)
    ensures Follow(maxAttempts, job, from, first + rest) == Follow(maxAttempts, job, at, rest)
  {
    if rest == [] {
      assert first + rest == first;
    } else {
      FollowOn(maxAttempts, job, from, first, at, rest[..|rest| - 1]);
      assert (first + rest)[..|first + rest| - 1] == first + rest[..|rest| - 1];
    }
  }

  /**
   Between `before` and `after` the thread has done exactly what takes a thread
   working on `job` from `from` to `to`.
   */
  predicate Walk(maxAttempts: int, before: seq<Seen>, after: seq<Seen>, job: string, from: Pc, to: Pc) {
    before <= after && Follow(maxAttempts, job, from, after[|before|..]) == Some(to)
  }

  lemma WalkStart(maxAttempts: int, trace: seq<Seen>, job: string, from: Pc)
    ensures Walk(maxAttempts, trace, trace, job, from, from)
  {
  }

  lemma WalkNext(maxAttempts: int, before: seq<Seen>, after: seq<Seen>, job: string, from: Pc, at: Pc, e: Event, to: Pc)
    requires Walk(maxAttempts, before, after, job, from, at) && Observe(maxAttempts, at, e) == Some(to)
    ensures Walk(maxAttempts, before, after + [Seen(job, e)], job, from, to)
  {
    assert (after + [Seen(job, e)])[|before|..] == after[|before|..] + [Seen(job, e)];
    FollowNext(maxAttempts, job, from, after[|before|..], at, e);
  }

  lemma WalkOn(maxAttempts: int, before: seq<Seen>, mid: seq<Seen>, after: seq<Seen>, job: string, from: Pc, at: Pc,
               to: Pc)
    requires Walk(maxAttempts, before, mid, job, from, at) && Walk(maxAttempts, mid, after, job, at, to)
    ensures Walk(maxAttempts, before, after, job, from, to)
  {
    assert after[|before|..] == mid[|before|..] + after[|mid|..];
    FollowOn(maxAttempts, job, from, mid[|before|..], at, after[|mid|..]);
  }
}
