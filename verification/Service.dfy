/**
 The service calls on one job, each a few collection calls with other clients
 running in between.

 Every method is specified twice.  Against the protocol, under any
 interference and any loss: its thread moves through its program from the
 call's first position to the one that goes with its result, and the documents
 stay those of a run of the machine.  And, on a quiet collection, by the
 documents it leaves behind.
 */
module Service {
  import opened Options
  import opened Status
  import opened JobModel
  import opened Writes
  import opened Protocol
  import opened Weaving
  import opened Collection

  datatype CreateJobOptions = CreateJobOptions(
    priority: Option<int>,
    tags: seq<string>,
    metadata: Fields,
    topic: string)

  /** The document CreateJob asks the collection to insert. */
  function NewJob(jobId: string, name: string, payload: Option<Fields>, options: CreateJobOptions, now: Time): Job {
    var job := NewJobMetadata(jobId, name, payload, now);
    job.(priority := options.priority.GetOr(job.priority),
         tags := if options.tags != [] then options.tags else job.tags,
         metadata := if options.metadata != map[] then options.metadata else job.metadata,
         topic := if options.topic != "" then options.topic else job.topic)
  }

  /** What is wrong with a request to create a job; the first objection counts. */
  function CreationProblem(jobId: string, name: string, options: CreateJobOptions, now: Time): Option<ValidationError> {
    if jobId == "" then Some(JobIdRequired)
    else if ByteLength(jobId) != 36 then Some(JobIdNotUuid)
    else if name == "" then Some(NameRequired)
    else if ByteLength(name) > 100 then Some(NameTooLong)
    else if options.priority.Some? && !(0 <= options.priority.value <= 10) then Some(BadPriority)
    else if now == 0 then Some(CreatedAtRequired)
    else if options.topic == "" then Some(PendingWithoutTopic)
    else None
  }

  lemma NewJobExactly(jobId: string, name: string, payload: Option<Fields>, options: CreateJobOptions, now: Time)
    ensures NewJob(jobId, name, payload, options, now)
            == Job(jobId, name,
                   JobStatus.PendingDispatch, DispatchStatus.Pending, ExecutionStatus.NotStarted,
                   if options.priority.Some? then options.priority.value else 5,
                   now, None, None,
                   Some(if payload.Some? then payload.value else map[]),
                   options.metadata, [], 0, options.tags, options.topic, 0, "", None)
    ensures Validate(NewJob(jobId, name, payload, options, now)) == CreationProblem(jobId, name, options, now)
  {
  }

  datatype CreateResult = JobCreated(job: Job) | InvalidJob(why: ValidationError) | NotCreated

  datatype StartResult = Started(matched: bool) | StartFailed

  /** Where a claimed, lost or missed start takes the delivery. */
  function StartEnds(mid: MsgId, res: StartResult): Pc {
    if res.StartFailed? then Nacking(mid) else if res.matched then RunHandler(mid) else Acking(mid)
  }

  /** Where a completed or not completed delivery goes. */
  function CompletionEnds(mid: MsgId, res: Outcome): Pc {
    if res.Ok? || res.AlreadyTerminal? then Acking(mid) else Nacking(mid)
  }

  /** Where reporting a completion begins. */
  function BeginCompletion(mid: MsgId, result: Option<string>): Pc {
    if result.Some? then ResultRead(mid, result.value) else Complete(mid, None)
  }

  /** How a guarded terminal write that found the job in state `j` is reported. */
  function TerminalResult(op: Op, j: Job): Outcome {
    if Guard(op, j) then Ok else if j.DisplayStatus().IsTerminal() then AlreadyTerminal else Refused
  }

  /** Where the answer to a completion takes the delivery. */
  lemma CompletionAnswered(max: int, mid: MsgId, meta: Option<Fields>, op: Op, r: Reply) returns (at: Pc)
    requires op.CompleteIfRunning? && op.meta == meta && CanAnswer(op, r)
    ensures Observe(max, Complete(mid, meta), Called(op, r)) == Some(at)
    ensures at == if r.Unavailable? then Nacking(mid) else if r.matched then Acking(mid) else CompleteReread(mid)
  {
    at := Resume(max, Complete(mid, meta), r);
  }

  /** How a job found in the wrong state is reported. */
  function Reread(again: Reply): Outcome {
    if !again.Found? then Problem(again)
    else if again.job.DisplayStatus().IsTerminal() then AlreadyTerminal
    else Refused
  }

  /** The same for a job that may not be there. */
  function TerminalOutcome(op: Op, docs: Docs, id: string): Outcome {
    if id in docs then TerminalResult(op, docs[id]) else JobNotFound
  }

  /** With nobody else around, matching or rereading tells the state the write found. */
  lemma RereadTells(op: Op, docs: Docs, id: string, r: Reply, again: Reply)
    requires (op.CompleteIfRunning? || op.FailIfNotTerminal?) && r == DocsAnswer(op, docs, id)
    ensures r == Matched(true) ==> TerminalOutcome(op, docs, id) == Ok
    ensures r == Matched(false) ==> DocsAfter(op, docs, id) == docs
    ensures r == Matched(false) && again == DocsAnswer(Get, docs, id) ==> Reread(again) == TerminalOutcome(op, docs, id)
  {
    if r == Matched(false) {
      UnmatchedChangesNothing(op, docs, id);
    }
  }

  lemma RereadAnswered(max: int, mid: MsgId, again: Reply)
    requires CanAnswer(Get, again)
    ensures Observe(max, CompleteReread(mid), Called(Get, again)) == Some(CompletionEnds(mid, Reread(again)))
  {
  }

  lemma FailRereadAnswered(max: int, who: FailFor, again: Reply)
    requires CanAnswer(Get, again)
    ensures Observe(max, FailReread(who), Called(Get, again)) == Some(FailEnds(who, Reread(again)))
  {
  }

  /** Where the answer to a failure write takes the thread. */
  lemma FailureAnswered(max: int, t: Pc, op: Op, r: Reply)
    requires t.FailWrite? && Issues(t, op) && CanAnswer(op, r)
    ensures Observe(max, t, Called(op, r))
            == Some(if r.Unavailable? then FailEnds(t.who, StoreError)
                    else if r.matched then FailEnds(t.who, Ok)
                    else FailReread(t.who))
  {
  }

  /** Where a write of a retry takes it. */
  lemma RetryWriteAnswered(max: int, t: Pc, op: Op, r: Reply, next: Pc)
    requires Issues(t, op) && CanAnswer(op, r)
    requires (t.RetryIncrement? && next.RetryReset?) || (t.RetryReset? && next.RetryClear?)
             || (t.RetryClear? && next.RetryReload?)
    ensures Observe(max, t, Called(op, r)) == Some(if r.Wrote? then next else Done(Problem(r)))
  {
  }

  lemma CancelAnswered(max: int, reason: string, now: Time, seen: Reply)
    requires CanAnswer(Get, seen)
    ensures Observe(max, CancelRead(reason, now), Called(Get, seen))
            == Some(if !seen.Found? then Done(Problem(seen))
                    else if seen.job.executionStatus.IsTerminal() then Done(Refused)
                    else CancelWrite(seen.job.executionStatus, CancelPatch(seen.job, now, reason)))
  {
  }

  function DocsRetried(docs: Docs, id: string): Docs {
    if id in docs then docs[id := Retried(docs[id])] else docs
  }

  /** The three writes of a retry, back to back. */
  lemma RetryInOneGo(docs: Docs, id: string)
    ensures DocsAfter(ClearJobExecutionTimestamps,
              DocsAfter(Update(ResetPatch()), DocsAfter(IncrementRetryCount, docs, id), id), id)
            == DocsRetried(docs, id)
  {
  }

  // ---- What each write leaves, field by field ----

  predicate Ended(e: ExecutionStatus) {
    e == ExecutionStatus.Completed || e == ExecutionStatus.Failed || e == ExecutionStatus.Cancelled
  }

  lemma OutcomeTells(op: Op, j: Job)
    ensures op.CompleteIfRunning? ==>
              TerminalResult(op, j) == if j.executionStatus.Running? then Ok
                                       else if Ended(j.executionStatus) then AlreadyTerminal else Refused
    ensures op.FailIfNotTerminal? ==>
              TerminalResult(op, j) == if j.executionStatus.Running? || j.executionStatus.NotStarted? then Ok
                                       else if Ended(j.executionStatus) then AlreadyTerminal else Refused
  {
  }

  lemma ConfirmLeaves(docs: Docs, id: string, at: Time)
    ensures DocsAfter(MarkDispatchedIfPending(at), docs, id)
            == if id in docs && docs[id].dispatchStatus.Pending? then
                 docs[id := docs[id].(
                   dispatchStatus := DispatchStatus.Dispatched, status := JobStatus.Dispatched,
                   dispatchedAt := Some(at))]
               else docs
  {
    if !(id in docs && docs[id].dispatchStatus.Pending?) {
      UnmatchedChangesNothing(MarkDispatchedIfPending(at), docs, id);
    }
  }

  lemma RecordLeaves(docs: Docs, id: string, attempts: int, lastError: string)
    ensures DocsAfter(RecordDispatchAttemptIfPending(attempts, lastError), docs, id)
            == if id in docs && docs[id].dispatchStatus.Pending? then
                 docs[id := docs[id].(dispatchAttempts := attempts, dispatchLastError := lastError)]
               else docs
  {
    if !(id in docs && docs[id].dispatchStatus.Pending?) {
      UnmatchedChangesNothing(RecordDispatchAttemptIfPending(attempts, lastError), docs, id);
    }
  }

  lemma GivingUpLeaves(docs: Docs, id: string, message: string, at: Time)
    ensures DocsAfter(MarkDispatchFailedIfPending(message, at), docs, id)
            == if id in docs && docs[id].dispatchStatus.Pending? then
                 docs[id := docs[id].(
                   dispatchStatus := DispatchStatus.Failed, status := JobStatus.DispatchFailed,
                   errors := docs[id].errors + [JobError(Dispatch, 0, message, at)])]
               else docs
  {
    if !(id in docs && docs[id].dispatchStatus.Pending?) {
      UnmatchedChangesNothing(MarkDispatchFailedIfPending(message, at), docs, id);
    }
  }

  lemma StartLeaves(docs: Docs, id: string, at: Time)
    ensures DocsAfter(MarkRunningIfDispatched(at), docs, id)
            == if id in docs && docs[id].executionStatus.NotStarted? then
                 docs[id := docs[id].(
                   executionStatus := ExecutionStatus.Running, status := JobStatus.Running, startedAt := Some(at))]
               else docs
  {
    if !(id in docs && docs[id].executionStatus.NotStarted?) {
      UnmatchedChangesNothing(MarkRunningIfDispatched(at), docs, id);
    }
  }

  lemma CompletionLeaves(docs: Docs, id: string, at: Time, meta: Option<Fields>)
    ensures DocsAfter(CompleteIfRunning(at, meta), docs, id)
            == if id in docs && docs[id].executionStatus.Running? then
                 docs[id := docs[id].(
                   executionStatus := ExecutionStatus.Completed, status := JobStatus.Completed,
                   completedAt := Some(at),
                   metadata := if meta.Some? then meta.value else docs[id].metadata)]
               else docs
  {
    if !(id in docs && docs[id].executionStatus.Running?) {
      UnmatchedChangesNothing(CompleteIfRunning(at, meta), docs, id);
    }
  }

  lemma FailureLeaves(docs: Docs, id: string, entry: JobError, at: Time)
    ensures DocsAfter(FailIfNotTerminal(entry, at), docs, id)
            == if id in docs && (docs[id].executionStatus.Running? || docs[id].executionStatus.NotStarted?) then
                 docs[id := docs[id].(
                   executionStatus := ExecutionStatus.Failed, status := JobStatus.Failed,
                   completedAt := Some(at),
                   startedAt := if docs[id].startedAt.Some? then docs[id].startedAt else Some(at),
                   errors := docs[id].errors + [entry])]
               else docs
  {
    if !(id in docs && (docs[id].executionStatus.Running? || docs[id].executionStatus.NotStarted?)) {
      UnmatchedChangesNothing(FailIfNotTerminal(entry, at), docs, id);
    }
  }

  lemma CancellationLeaves(docs: Docs, id: string, seen: Job, reason: string, now: Time)
    ensures DocsAfter(Update(CancelPatch(seen, now, reason)), docs, id)
            == if id in docs then
                 docs[id := docs[id].(
                   executionStatus := ExecutionStatus.Cancelled, status := JobStatus.Cancelled,
                   startedAt := if seen.startedAt.Some? then seen.startedAt else Some(now),
                   completedAt := if seen.completedAt.Some? then seen.completedAt else Some(now),
                   metadata := if reason == "" then seen.metadata
                               else seen.metadata["cancellation_reason" := reason])]
               else docs
  {
  }

  lemma RetryLeaves(docs: Docs, id: string)
    requires id in docs
    ensures docs[id := Retried(docs[id])]
            == docs[id := docs[id].(
                 retryCount := docs[id].retryCount + 1, status := JobStatus.PendingDispatch,
                 dispatchStatus := DispatchStatus.Pending, executionStatus := ExecutionStatus.NotStarted,
                 dispatchAttempts := 0, startedAt := None, completedAt := None)]
  {
  }

  class MetadataService {
    const jobs: JobsCollection

    constructor (jobs: JobsCollection)
      ensures this.jobs == jobs
    {
      this.jobs := jobs;
    }

    method CreateJob(jobId: string, name: string, payload: Option<Fields>, options: CreateJobOptions, now: Time)
      returns (res: CreateResult)
      requires jobs.InStep()
      modifies jobs`docs, jobs`index, jobs.monitor
      ensures jobs.InStep()
      ensures old(jobs.monitor.record).log <= jobs.monitor.record.log
      ensures res.JobCreated? ==>
                forall lives :: Explains(jobs.monitor.maxAttempts, jobs.monitor.record.log, lives) ==>
                  jobId in lives && lives[jobId] == Life(res.job, [])
      ensures res.JobCreated? ==>
                && res.job == NewJob(jobId, name, payload, options, now)
                && jobId in jobs.docs && jobs.docs[jobId] == res.job && res.job.IsValid()
      ensures res.JobCreated? ==>
                res.job == Job(
                  jobId, name,
                  JobStatus.PendingDispatch, DispatchStatus.Pending, ExecutionStatus.NotStarted,
                  if options.priority.Some? then options.priority.value else 5,
                  now, None, None,
                  Some(if payload.Some? then payload.value else map[]),
                  options.metadata, [], 0, options.tags, options.topic, 0, "", None)
      ensures res.InvalidJob? ==> Some(res.why) == CreationProblem(jobId, name, options, now)
      ensures res.InvalidJob? <==>
                || jobId == "" || ByteLength(jobId) != 36
                || name == "" || ByteLength(name) > 100
                || (options.priority.Some? && !(0 <= options.priority.value <= 10))
                || now == 0
                || options.topic == ""
      ensures res.InvalidJob? <==> !NewJob(jobId, name, payload, options, now).IsValid()
      ensures res.InvalidJob? ==>
                jobs.docs == old(jobs.docs) && Some(res.why) == Validate(NewJob(jobId, name, payload, options, now))
      ensures jobs.quiet ==>
                && (res.JobCreated? ==> jobId !in old(jobs.docs) && jobs.docs == old(jobs.docs)[jobId := res.job])
                && (res.NotCreated? ==> jobId in old(jobs.docs) && jobs.docs == old(jobs.docs))
    {
      var job := Assemble(jobId, name, payload, options, now);
      NewJobExactly(jobId, name, payload, options, now);
      var problem := Validate(job);
      if problem.Some? {
        return InvalidJob(problem.value);
      }
      jobs.OthersRun();
      ghost var r1 := jobs.monitor.record;
      var r := jobs.Create(job);
      if r.Created? {
        forall lives | Explains(jobs.monitor.maxAttempts, jobs.monitor.record.log, lives)
          ensures jobId in lives && lives[jobId] == Life(job, [])
        {
          BredIsBorn(jobs.monitor.maxAttempts, r1, job, lives);
        }
      }
      res := if r.Created? then JobCreated(job) else NotCreated;
    }

    /** The new document with the options applied to it. */
    method Assemble(jobId: string, name: string, payload: Option<Fields>, options: CreateJobOptions, now: Time)
      returns (job: Job)
      ensures job == NewJob(jobId, name, payload, options, now)
    {
      job := NewJobMetadata(jobId, name, payload, now);
      if options.priority.Some? {
        job := job.(priority := options.priority.value);
      }
      if |options.tags| > 0 {
        job := job.(tags := options.tags);
      }
      if |options.metadata| > 0 {
        job := job.(metadata := options.metadata);
      }
      if options.topic != "" {
        job := job.(topic := options.topic);
      }
    }

    method MarkJobDispatched(jobId: string, now: Time, ghost mid: MsgId) returns (res: Outcome)
      requires jobs.Ready(jobId, Confirm(mid))
      modifies jobs`docs, jobs`index, jobs.monitor
      ensures jobs.Undisturbed()
      ensures jobs.Went(jobId, Confirm(mid), Done(res))
      ensures jobs.quiet ==> res.Ok? && jobs.docs == DocsAfter(MarkDispatchedIfPending(now), old(jobs.docs), jobId)
      ensures jobs.quiet ==>
                jobs.docs == if jobId in old(jobs.docs) && old(jobs.docs)[jobId].dispatchStatus.Pending? then
                               old(jobs.docs)[jobId := old(jobs.docs)[jobId].(
                                 dispatchStatus := DispatchStatus.Dispatched, status := JobStatus.Dispatched,
                                 dispatchedAt := Some(now))]
                             else old(jobs.docs)
      ensures jobs.quiet ==> jobs.index == old(jobs.index)
    {
      ghost var max, r0 := jobs.monitor.maxAttempts, jobs.monitor.record;
      jobs.OthersRun();
      ghost var r1 := jobs.monitor.record;
      ConfirmLeaves(jobs.docs, jobId, now);
      var r := jobs.MarkDispatchedIfPending(jobId, now, Confirm(mid));
      MovedFirst(max, r0, r1, jobs.monitor.record, jobId, Confirm(mid), Called(Op.MarkDispatchedIfPending(now), r));
      res := if r.Unavailable? then StoreError else Ok;
    }

    method RecordDispatchAttempt(jobId: string, attempts: int, lastError: string) returns (res: Outcome)
      requires jobs.Ready(jobId, Record(attempts, lastError))
      modifies jobs`docs, jobs`index, jobs.monitor
      ensures res.Ok? || res.StoreError?
      ensures jobs.Undisturbed()
      ensures jobs.Went(jobId, Record(attempts, lastError),
                        if res.Ok? && attempts >= jobs.monitor.maxAttempts then MarkFailed(lastError) else Done(res))
      ensures jobs.quiet ==>
                res.Ok? && jobs.docs == DocsAfter(RecordDispatchAttemptIfPending(attempts, lastError), old(jobs.docs),
                                                  jobId)
      ensures jobs.quiet ==>
                jobs.docs == if jobId in old(jobs.docs) && old(jobs.docs)[jobId].dispatchStatus.Pending? then
                               old(jobs.docs)[jobId := old(jobs.docs)[jobId].(
                                 dispatchAttempts := attempts, dispatchLastError := lastError)]
                             else old(jobs.docs)
      ensures jobs.quiet ==> jobs.index == old(jobs.index)
    {
      ghost var max, r0, at := jobs.monitor.maxAttempts, jobs.monitor.record, Record(attempts, lastError);
      jobs.OthersRun();
      ghost var r1 := jobs.monitor.record;
      RecordLeaves(jobs.docs, jobId, attempts, lastError);
      var r := jobs.RecordDispatchAttemptIfPending(jobId, attempts, lastError, at);
      MovedFirst(max, r0, r1, jobs.monitor.record, jobId, at,
                 Called(Op.RecordDispatchAttemptIfPending(attempts, lastError), r));
      res := if r.Unavailable? then StoreError else Ok;
    }

    method MarkJobDispatchFailed(jobId: string, message: string, now: Time) returns (res: Outcome)
      requires jobs.Ready(jobId, MarkFailed(message))
      modifies jobs`docs, jobs`index, jobs.monitor
      ensures jobs.Undisturbed()
      ensures jobs.Went(jobId, MarkFailed(message), Done(res))
      ensures jobs.quiet ==>
                res.Ok? && jobs.docs == DocsAfter(MarkDispatchFailedIfPending(message, now), old(jobs.docs), jobId)
      ensures jobs.quiet ==>
                jobs.docs == if jobId in old(jobs.docs) && old(jobs.docs)[jobId].dispatchStatus.Pending? then
                               old(jobs.docs)[jobId := old(jobs.docs)[jobId].(
                                 dispatchStatus := DispatchStatus.Failed, status := JobStatus.DispatchFailed,
                                 errors := old(jobs.docs)[jobId].errors + [JobError(Dispatch, 0, message, now)])]
                             else old(jobs.docs)
      ensures jobs.quiet ==> jobs.index == old(jobs.index)
    {
      ghost var max, r0 := jobs.monitor.maxAttempts, jobs.monitor.record;
      jobs.OthersRun();
      ghost var r1 := jobs.monitor.record;
      GivingUpLeaves(jobs.docs, jobId, message, now);
      var r := jobs.MarkDispatchFailedIfPending(jobId, message, now, MarkFailed(message));
      MovedFirst(max, r0, r1, jobs.monitor.record, jobId, MarkFailed(message),
                 Called(Op.MarkDispatchFailedIfPending(message, now), r));
      res := if r.Unavailable? then StoreError else Ok;
    }

    method StartJob(jobId: string, now: Time, ghost mid: MsgId) returns (res: StartResult)
      requires jobs.Ready(jobId, Start(mid))
      modifies jobs`docs, jobs`index, jobs.monitor
      ensures jobs.Undisturbed()
      ensures jobs.Went(jobId, Start(mid), StartEnds(mid, res))
      ensures jobs.quiet ==>
                && res == Started(jobId in old(jobs.docs) && old(jobs.docs)[jobId].executionStatus.NotStarted?)
                && jobs.docs == DocsAfter(MarkRunningIfDispatched(now), old(jobs.docs), jobId)
      ensures jobs.quiet ==>
                jobs.docs == if jobId in old(jobs.docs) && old(jobs.docs)[jobId].executionStatus.NotStarted? then
                               old(jobs.docs)[jobId := old(jobs.docs)[jobId].(
                                 executionStatus := ExecutionStatus.Running, status := JobStatus.Running,
                                 startedAt := Some(now))]
                             else old(jobs.docs)
    {
      ghost var max, r0 := jobs.monitor.maxAttempts, jobs.monitor.record;
      jobs.OthersRun();
      ghost var r1 := jobs.monitor.record;
      StartLeaves(jobs.docs, jobId, now);
      var r := jobs.MarkRunningIfDispatched(jobId, now, Start(mid));
      MovedFirst(max, r0, r1, jobs.monitor.record, jobId, Start(mid), Called(Op.MarkRunningIfDispatched(now), r));
      if r.Unavailable? {
        return StartFailed;
      }
      res := Started(r.matched);
    }

    method CompleteJob(jobId: string, now: Time, result: Option<string>, ghost mid: MsgId) returns (res: Outcome)
      requires jobs.Ready(jobId, BeginCompletion(mid, result))
      modifies jobs`docs, jobs`index, jobs.monitor
      ensures jobs.Undisturbed()
      ensures jobs.Went(jobId, BeginCompletion(mid, result), CompletionEnds(mid, res))
      ensures jobs.quiet && jobId in old(jobs.docs) ==>
                var j := old(jobs.docs)[jobId];
                var meta := if result.None? then None else Some(j.metadata["result" := result.value]);
                && jobs.docs == DocsAfter(CompleteIfRunning(now, meta), old(jobs.docs), jobId)
                && res == TerminalResult(CompleteIfRunning(now, meta), j)
      ensures jobs.quiet && jobId in old(jobs.docs) ==>
                var j := old(jobs.docs)[jobId];
                if j.executionStatus.Running? then
                  && res.Ok?
                  && jobs.docs == old(jobs.docs)[jobId := j.(
                       executionStatus := ExecutionStatus.Completed, status := JobStatus.Completed,
                       completedAt := Some(now),
                       metadata := if result.Some? then j.metadata["result" := result.value] else j.metadata)]
                else
                  && res == (if j.executionStatus.Completed? || j.executionStatus.Failed?
                                || j.executionStatus.Cancelled? then AlreadyTerminal else Refused)
                  && jobs.docs == old(jobs.docs)
      ensures jobs.quiet && jobId !in old(jobs.docs) ==> res.JobNotFound? && jobs.docs == old(jobs.docs)
    {
      ghost var max, r0, from := jobs.monitor.maxAttempts, jobs.monitor.record, BeginCompletion(mid, result);
      MovedStart(max, r0, jobId, from);
      var meta: Option<Fields> := None;
      if result.Some? {
        jobs.OthersRun();
        ghost var r1 := jobs.monitor.record;
        var seen := jobs.Get(jobId, from);
        MovedFirst(max, r0, r1, jobs.monitor.record, jobId, from, Called(Op.Get, seen));
        if !seen.Found? {
          return Problem(seen);
        }
        meta := Some(seen.job.metadata["result" := result.value]);
      }
      ghost var r2 := jobs.monitor.record;
      if jobs.quiet && jobId in jobs.docs {
        CompletionLeaves(jobs.docs, jobId, now, meta);
        OutcomeTells(CompleteIfRunning(now, meta), jobs.docs[jobId]);
      }
      res := CompleteAndReread(jobId, now, meta, mid);
      MovedOn(max, r0, r2, jobs.monitor.record, jobId, from, Complete(mid, meta), CompletionEnds(mid, res));
    }

    /** CompleteJob once it knows the metadata to write. */
    method CompleteAndReread(jobId: string, now: Time, meta: Option<Fields>, ghost mid: MsgId) returns (res: Outcome)
      requires jobs.Ready(jobId, Complete(mid, meta))
      modifies jobs`docs, jobs`index, jobs.monitor
      ensures jobs.Undisturbed()
      ensures jobs.Went(jobId, Complete(mid, meta), CompletionEnds(mid, res))
      ensures jobs.quiet ==>
                && jobs.docs == DocsAfter(CompleteIfRunning(now, meta), old(jobs.docs), jobId)
                && res == TerminalOutcome(CompleteIfRunning(now, meta), old(jobs.docs), jobId)
    {
      ghost var max, r0, from := jobs.monitor.maxAttempts, jobs.monitor.record, Complete(mid, meta);
      jobs.OthersRun();
      ghost var r1 := jobs.monitor.record;
      var r := jobs.CompleteIfRunning(jobId, now, meta, from);
      ghost var r2 := jobs.monitor.record;
      ghost var at := CompletionAnswered(max, mid, meta, Op.CompleteIfRunning(now, meta), r);
      MovedFirst(max, r0, r1, r2, jobId, from, Called(Op.CompleteIfRunning(now, meta), r));
      assert Moved(max, r0, r2, jobId, from, at);
      if r.Unavailable? {
        return StoreError;
      }
      if r.matched {
        return Ok;
      }

      jobs.OthersRun();
      ghost var r3 := jobs.monitor.record;
      var again := jobs.Get(jobId, CompleteReread(mid));
      if jobs.quiet {
        RereadTells(Op.CompleteIfRunning(now, meta), old(jobs.docs), jobId, r, again);
      }
      RereadAnswered(max, mid, again);
      MovedNext(max, r0, r2, r3, jobs.monitor.record, jobId, from, CompleteReread(mid), Called(Op.Get, again));
      res := Reread(again);
    }

    method FailJob(jobId: string, message: string, timestamp: Time, now: Time, ghost who: FailFor)
      returns (res: Outcome)
      requires jobs.Ready(jobId, FailRead(who, message))
      modifies jobs`docs, jobs`index, jobs.monitor
      ensures jobs.Undisturbed()
      ensures jobs.Went(jobId, FailRead(who, message), FailEnds(who, res))
      ensures jobs.quiet && jobId in old(jobs.docs) ==>
                var j := old(jobs.docs)[jobId];
                var op := FailIfNotTerminal(JobError(Execution, j.retryCount, message, timestamp), now);
                jobs.docs == DocsAfter(op, old(jobs.docs), jobId) && res == TerminalResult(op, j)
      ensures jobs.quiet && jobId in old(jobs.docs) ==>
                var j := old(jobs.docs)[jobId];
                if j.executionStatus.Running? || j.executionStatus.NotStarted? then
                  && res.Ok?
                  && jobs.docs == old(jobs.docs)[jobId := j.(
                       executionStatus := ExecutionStatus.Failed, status := JobStatus.Failed,
                       completedAt := Some(now),
                       startedAt := if j.startedAt.Some? then j.startedAt else Some(now),
                       errors := j.errors + [JobError(Execution, j.retryCount, message, timestamp)])]
                else
                  && res == (if j.executionStatus.Completed? || j.executionStatus.Failed?
                                || j.executionStatus.Cancelled? then AlreadyTerminal else Refused)
                  && jobs.docs == old(jobs.docs)
      ensures jobs.quiet && jobId !in old(jobs.docs) ==> res.JobNotFound? && jobs.docs == old(jobs.docs)
    {
      ghost var max, r0, from := jobs.monitor.maxAttempts, jobs.monitor.record, FailRead(who, message);
      jobs.OthersRun();
      ghost var r1 := jobs.monitor.record;
      var seen := jobs.Get(jobId, from);
      ghost var r2 := jobs.monitor.record;
      MovedFirst(max, r0, r1, r2, jobId, from, Called(Op.Get, seen));
      if !seen.Found? {
        return Problem(seen);
      }
      var entry := JobError(Execution, seen.job.retryCount, message, timestamp);
      FailureLeaves(jobs.docs, jobId, entry, now);
      OutcomeTells(FailIfNotTerminal(entry, now), seen.job);
      res := FailAndReread(jobId, entry, now, who);
      MovedOn(max, r0, r2, jobs.monitor.record, jobId, from, FailWrite(who, message, entry.retryAttempt),
              FailEnds(who, res));
    }

    /** FailJob once it has the entry to file. */
    method FailAndReread(jobId: string, entry: JobError, now: Time, ghost who: FailFor) returns (res: Outcome)
      requires entry.kind == Execution && jobs.Ready(jobId, FailWrite(who, entry.message, entry.retryAttempt))
      modifies jobs`docs, jobs`index, jobs.monitor
      ensures jobs.Undisturbed()
      ensures jobs.Went(jobId, FailWrite(who, entry.message, entry.retryAttempt), FailEnds(who, res))
      ensures jobs.quiet ==>
                && jobs.docs == DocsAfter(FailIfNotTerminal(entry, now), old(jobs.docs), jobId)
                && res == TerminalOutcome(FailIfNotTerminal(entry, now), old(jobs.docs), jobId)
    {
      ghost var max, r0 := jobs.monitor.maxAttempts, jobs.monitor.record;
      ghost var from := FailWrite(who, entry.message, entry.retryAttempt);
      jobs.OthersRun();
      ghost var r1 := jobs.monitor.record;
      var r := jobs.FailIfNotTerminal(jobId, entry, now, from);
      ghost var r2 := jobs.monitor.record;
      FailureAnswered(max, from, Op.FailIfNotTerminal(entry, now), r);
      MovedFirst(max, r0, r1, r2, jobId, from, Called(Op.FailIfNotTerminal(entry, now), r));
      if r.Unavailable? {
        return StoreError;
      }
      if r.matched {
        return Ok;
      }

      jobs.OthersRun();
      ghost var r3 := jobs.monitor.record;
      var refreshed := jobs.Get(jobId, FailReread(who));
      if jobs.quiet {
        RereadTells(Op.FailIfNotTerminal(entry, now), old(jobs.docs), jobId, r, refreshed);
      }
      FailRereadAnswered(max, who, refreshed);
      MovedNext(max, r0, r2, r3, jobs.monitor.record, jobId, from, FailReread(who), Called(Op.Get, refreshed));
      res := Reread(refreshed);
    }

    method CancelJob(jobId: string, reason: string, now: Time) returns (res: Outcome)
      requires jobs.Ready(jobId, CancelRead(reason, now))
      modifies jobs`docs, jobs`index, jobs.monitor
      ensures jobs.Undisturbed()
      ensures jobs.Went(jobId, CancelRead(reason, now), Done(res))
      ensures jobs.quiet && jobId in old(jobs.docs) ==>
                var j := old(jobs.docs)[jobId];
                if j.executionStatus.IsTerminal() then res.Refused? && jobs.docs == old(jobs.docs)
                else
                  && res.Ok?
                  && jobs.docs == DocsAfter(Op.Update(CancelPatch(j, now, reason)), old(jobs.docs), jobId)
      ensures jobs.quiet && jobId in old(jobs.docs)
              && !(old(jobs.docs)[jobId].executionStatus.Completed? || old(jobs.docs)[jobId].executionStatus.Failed?
                   || old(jobs.docs)[jobId].executionStatus.Cancelled?) ==>
                var j := old(jobs.docs)[jobId];
                && res.Ok?
                && jobs.docs == old(jobs.docs)[jobId := j.(
                     executionStatus := ExecutionStatus.Cancelled, status := JobStatus.Cancelled,
                     startedAt := if j.startedAt.Some? then j.startedAt else Some(now),
                     completedAt := if j.completedAt.Some? then j.completedAt else Some(now),
                     metadata := if reason == "" then j.metadata else j.metadata["cancellation_reason" := reason])]
      ensures jobs.quiet && jobId !in old(jobs.docs) ==> res.JobNotFound? && jobs.docs == old(jobs.docs)
    {
      ghost var max, r0, from := jobs.monitor.maxAttempts, jobs.monitor.record, CancelRead(reason, now);
      jobs.OthersRun();
      ghost var r1 := jobs.monitor.record;
      var seen := jobs.Get(jobId, from);
      ghost var r2 := jobs.monitor.record;
      CancelAnswered(max, reason, now, seen);
      MovedFirst(max, r0, r1, r2, jobId, from, Called(Op.Get, seen));
      if !seen.Found? {
        return Problem(seen);
      }
      if seen.job.executionStatus.IsTerminal() {
        return Refused;
      }

      var patch := Cancellation(seen.job, reason, now);

      ghost var at := CancelWrite(seen.job.executionStatus, patch);
      CancellationLeaves(jobs.docs, jobId, seen.job, reason, now);
      res := WriteBack(jobId, patch, at);
      MovedOn(max, r0, r2, jobs.monitor.record, jobId, from, at, Done(res));
    }

    /** The write of a cancellation, whatever the job has become. */
    method WriteBack(jobId: string, patch: UpdateJob, ghost at: Pc) returns (res: Outcome)
      requires at.CancelWrite? && at.patch == patch && patch != UpdateJob() && jobs.Ready(jobId, at)
      modifies jobs`docs, jobs`index, jobs.monitor
      ensures jobs.Undisturbed()
      ensures jobs.Went(jobId, at, Done(res))
      ensures jobs.quiet ==> jobs.docs == DocsAfter(Op.Update(patch), old(jobs.docs), jobId)
      ensures jobs.quiet ==> res == if jobId in old(jobs.docs) then Ok else JobNotFound
    {
      ghost var max, r0 := jobs.monitor.maxAttempts, jobs.monitor.record;
      jobs.OthersRun();
      ghost var r1 := jobs.monitor.record;
      var r := jobs.Update(jobId, patch, at);
      MovedFirst(max, r0, r1, jobs.monitor.record, jobId, at, Called(Op.Update(patch), r));
      res := if r.Wrote? then Ok else Problem(r);
    }

    /** The cancelled state on top of what was read, and the patch that writes it back. */
    method Cancellation(seen: Job, reason: string, now: Time) returns (patch: UpdateJob)
      ensures patch == CancelPatch(seen, now, reason)
    {
      var model := seen.(executionStatus := ExecutionStatus.Cancelled, status := JobStatus.Cancelled);
      if model.startedAt.None? {
        model := model.(startedAt := Some(now));
      }
      if model.completedAt.None? {
        model := model.(completedAt := Some(now));
      }
      if reason != "" {
        model := model.(metadata := model.metadata["cancellation_reason" := reason]);
      }
      patch := UpdateJob(
        status := Some(model.status),
        executionStatus := Some(model.executionStatus),
        startedAt := model.startedAt,
        completedAt := model.completedAt,
        metadata := Some(model.metadata));
    }

    method RetryJob(jobId: string) returns (res: Outcome)
      requires jobs.Ready(jobId, RetryRead)
      modifies jobs`docs, jobs`index, jobs.monitor
      ensures jobs.Undisturbed()
      ensures jobs.Went(jobId, RetryRead, Done(res))
      ensures jobs.quiet && jobId in old(jobs.docs) ==>
                var j := old(jobs.docs)[jobId];
                if j.executionStatus.Failed? then res.Ok? && jobs.docs == old(jobs.docs)[jobId := Retried(j)]
                else res.Refused? && jobs.docs == old(jobs.docs)
      ensures jobs.quiet && jobId in old(jobs.docs) && old(jobs.docs)[jobId].executionStatus.Failed? ==>
                var j := old(jobs.docs)[jobId];
                && res.Ok?
                && jobs.docs == old(jobs.docs)[jobId := j.(
                     retryCount := j.retryCount + 1, status := JobStatus.PendingDispatch,
                     dispatchStatus := DispatchStatus.Pending, executionStatus := ExecutionStatus.NotStarted,
                     dispatchAttempts := 0, startedAt := None, completedAt := None)]
      ensures jobs.quiet && jobId !in old(jobs.docs) ==> res.JobNotFound? && jobs.docs == old(jobs.docs)
    {
      ghost var max, r0 := jobs.monitor.maxAttempts, jobs.monitor.record;
      jobs.OthersRun();
      ghost var r1 := jobs.monitor.record;
      var seen := jobs.Get(jobId, RetryRead);
      ghost var r2 := jobs.monitor.record;
      MovedFirst(max, r0, r1, r2, jobId, RetryRead, Called(Op.Get, seen));
      if !seen.Found? {
        return Problem(seen);
      }
      if !seen.job.executionStatus.Failed? {
        return Refused;
      }
      if jobId in jobs.docs {
        RetryLeaves(jobs.docs, jobId);
      }
      res := IncrementAndReset(jobId);
      MovedOn(max, r0, r2, jobs.monitor.record, jobId, RetryRead, RetryIncrement, Done(res));
    }

    /** RetryJob once it has seen the job failed. */
    method IncrementAndReset(jobId: string) returns (res: Outcome)
      requires jobs.Ready(jobId, RetryIncrement)
      modifies jobs`docs, jobs`index, jobs.monitor
      ensures jobs.Undisturbed()
      ensures jobs.Went(jobId, RetryIncrement, Done(res))
      ensures jobs.quiet ==>
                && jobs.docs == DocsRetried(old(jobs.docs), jobId)
                && res == if jobId in old(jobs.docs) then Ok else JobNotFound
    {
      ghost var max, r0, d0 := jobs.monitor.maxAttempts, jobs.monitor.record, jobs.docs;
      jobs.OthersRun();
      ghost var r1 := jobs.monitor.record;
      var r := jobs.IncrementRetryCount(jobId, RetryIncrement);
      ghost var r2 := jobs.monitor.record;
      RetryWriteAnswered(max, RetryIncrement, Op.IncrementRetryCount, r, RetryReset);
      MovedFirst(max, r0, r1, r2, jobId, RetryIncrement, Called(Op.IncrementRetryCount, r));
      if !r.Wrote? {
        return Problem(r);
      }

      res := ResetAndClear(jobId);
      if jobs.quiet {
        RetryInOneGo(d0, jobId);
      }
      MovedOn(max, r0, r2, jobs.monitor.record, jobId, RetryIncrement, RetryReset, Done(res));
    }

    /** The rest of a retry, after the increment. */
    method ResetAndClear(jobId: string) returns (res: Outcome)
      requires jobs.Ready(jobId, RetryReset)
      modifies jobs`docs, jobs`index, jobs.monitor
      ensures jobs.Undisturbed()
      ensures jobs.Went(jobId, RetryReset, Done(res))
      ensures jobs.quiet ==>
                && jobs.docs
                   == DocsAfter(ClearJobExecutionTimestamps, DocsAfter(Update(ResetPatch()), old(jobs.docs), jobId),
                                jobId)
                && res == if jobId in old(jobs.docs) then Ok else JobNotFound
    {
      ghost var max, r0 := jobs.monitor.maxAttempts, jobs.monitor.record;
      var patch := UpdateJob(
        status := Some(JobStatus.PendingDispatch),
        dispatchStatus := Some(DispatchStatus.Pending),
        executionStatus := Some(ExecutionStatus.NotStarted),
        dispatchAttempts := Some(0));
      assert patch == ResetPatch();
      jobs.OthersRun();
      ghost var r1 := jobs.monitor.record;
      var r := jobs.Update(jobId, patch, RetryReset);
      ghost var r2 := jobs.monitor.record;
      RetryWriteAnswered(max, RetryReset, Op.Update(patch), r, RetryClear);
      MovedFirst(max, r0, r1, r2, jobId, RetryReset, Called(Op.Update(patch), r));
      if !r.Wrote? {
        return Problem(r);
      }
      res := ClearAndReload(jobId);
      MovedOn(max, r0, r2, jobs.monitor.record, jobId, RetryReset, RetryClear, Done(res));
    }

    /** The rest of a retry, after the reset. */
    method ClearAndReload(jobId: string) returns (res: Outcome)
      requires jobs.Ready(jobId, RetryClear)
      modifies jobs`docs, jobs`index, jobs.monitor
      ensures jobs.Undisturbed()
      ensures jobs.Went(jobId, RetryClear, Done(res))
      ensures jobs.quiet ==> jobs.docs == DocsAfter(ClearJobExecutionTimestamps, old(jobs.docs), jobId)
      ensures jobs.quiet ==> res == if jobId in old(jobs.docs) then Ok else JobNotFound
    {
      ghost var max, r0 := jobs.monitor.maxAttempts, jobs.monitor.record;
      jobs.OthersRun();
      ghost var r1 := jobs.monitor.record;
      var r := jobs.ClearJobExecutionTimestamps(jobId, RetryClear);
      ghost var r2 := jobs.monitor.record;
      RetryWriteAnswered(max, RetryClear, Op.ClearJobExecutionTimestamps, r, RetryReload);
      MovedFirst(max, r0, r1, r2, jobId, RetryClear, Called(Op.ClearJobExecutionTimestamps, r));
      if !r.Wrote? {
        return Problem(r);
      }

      jobs.OthersRun();
      ghost var r3 := jobs.monitor.record;
      var refreshed := jobs.Get(jobId, RetryReload);
      MovedNext(max, r0, r2, r3, jobs.monitor.record, jobId, RetryClear, RetryReload, Called(Op.Get, refreshed));
      res := if refreshed.Found? then Ok else Problem(refreshed);
    }
  }
}
