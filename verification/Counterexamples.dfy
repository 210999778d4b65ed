/**
 Why the regimes of the main results are there: for every job there is a run
 outside them that breaks the conclusion.
 */
module Counterexamples {
  import opened Options
  import opened Status
  import opened JobModel
  import opened Writes
  import opened Protocol
  import opened Machine
  import opened Counting
  import opened AtomicRetry
  import opened ErrorLaw
  import opened Ownership
  import opened Care
  import opened Acks
  import opened Display
  import opened Validity

  ghost predicate Reaches(max: int, s: World, t: World) {
    exists run :: Legal(max, s, run, ANY_STEP) && Exec(max, s, run, ANY_STEP) == t
  }

  lemma Here(max: int, s: World)
    ensures Reaches(max, s, s)
  {
    assert Exec(max, s, [], ANY_STEP) == s;
  }

  lemma Go(max: int, s: World, t: World, a: Action, t': World)
    requires Reaches(max, s, t) && Enabled(max, t, a) && t' == Step(max, t, a)
    ensures Reaches(max, s, t')
  {
    var run :| Legal(max, s, run, ANY_STEP) && Exec(max, s, run, ANY_STEP) == t;
    StepThenRun(max, t, a, t', []);
    RunThenRun(max, s, run, [a] + []);
  }

  lemma GoRetry(max: int, s: World, t: World)
    requires Reaches(max, s, t) && t.doc.executionStatus.Failed?
    ensures Reaches(max, s, InRetry(t, Done(Ok), Retried(t.doc), t.h.resets + 1))
  {
    var run :| Legal(max, s, run, ANY_STEP) && Exec(max, s, run, ANY_STEP) == t;
    RetryIsLegal(max, t);
    RunThenRun(max, s, run, RETRY_STEPS);
  }

  /** One undisturbed collection call. */
  lemma GoCall(max: int, s: World, t: World, pc: Pc, op: Op, others: multiset<Pc>) returns (t': World)
    requires Reaches(max, s, t) && t.threads == others + multiset{pc} && Issues(pc, op)
    ensures Reaches(max, s, t')
    ensures t'.doc == After(op, t.doc) && t'.threads == others + multiset{Resume(max, pc, Answer(op, t.doc))}
    ensures t'.unacked == t.unacked && t'.sent == t.sent
    ensures t'.h == Tally(t.h, pc, Resume(max, pc, Answer(op, t.doc)), op, t.doc, Fine)
  {
    t' := CallStep(max, t, pc, op, Fine);
    Go(max, s, t, Call(pc, op, Fine), t');
  }

  /** An operator's FailJob, as far as its write. */
  lemma GoFailRead(max: int, s: World, t: World) returns (t': World)
    requires Reaches(max, s, t)
    ensures Reaches(max, s, t')
    ensures t' == t.(threads := t.threads + multiset{FailWrite(Caller, "e", t.doc.retryCount)})
  {
    var t1 := t.(threads := t.threads + multiset{FailRead(Caller, "e")});
    Go(max, s, t, RequestFail("e"), t1);
    t' := t.(threads := t.threads + multiset{FailWrite(Caller, "e", t.doc.retryCount)});
    assert t1.threads - multiset{FailRead(Caller, "e")} == t.threads;
    Go(max, s, t1, Call(FailRead(Caller, "e"), Get, Fine), t');
  }

  lemma GoFailWrite(max: int, s: World, t: World, n: int) returns (t': World)
    requires Reaches(max, s, t) && FailWrite(Caller, "e", n) in t.threads && t.doc.executionStatus.NotStarted?
    ensures Reaches(max, s, t')
    ensures t'.doc == After(FailIfNotTerminal(JobError(Execution, n, "e", 1), 1), t.doc)
    ensures t'.threads == t.threads - multiset{FailWrite(Caller, "e", n)} + multiset{Done(Ok)}
    ensures t'.unacked == t.unacked && t'.sent == t.sent && t'.h.overwrites == t.h.overwrites
  {
    var op := FailIfNotTerminal(JobError(Execution, n, "e", 1), 1);
    t' := CallStep(max, t, FailWrite(Caller, "e", n), op, Fine);
    Go(max, s, t, Call(FailWrite(Caller, "e", n), op, Fine), t');
  }

  /** The insert's dispatch, as far as its confirm. */
  lemma GoPublish(max: int, j: Job) returns (t: World)
    requires Creatable(j)
    ensures Reaches(max, Initial(j), t)
    ensures t.doc == j && t.threads == multiset{Confirm(0)} && t.unacked == {0} && t.sent == [0]
    ensures t.h.runs == multiset{} && t.h.faults == 0 && t.h.errorReturns == 0
  {
    var s := Initial(j);
    var p := Publish(JobDispatchFromMetadata(j));
    Here(max, s);
    var t1 := s.(threads := multiset{p});
    Go(max, s, s, StreamInsert, t1);
    t := SendStep(t1, p, Fine, "");
    Go(max, s, t1, Send(p, Fine, ""), t);
  }

  /** A message that cannot be run fails its job and is acknowledged. */
  lemma GoRejected(max: int, s: World, t: World) returns (t': World)
    requires Reaches(max, s, t) && t.threads == multiset{Confirm(0)} && t.unacked == {0}
    requires t.doc.executionStatus.NotStarted?
    ensures Reaches(max, s, t')
    ensures t'.doc.executionStatus.Failed? && t'.unacked == {} && Confirm(0) in t'.threads
  {
    var c := multiset{Confirm(0)};
    var r, w := FailRead(Preflight(0), "e"), FailWrite(Preflight(0), "e", t.doc.retryCount);
    var op := FailIfNotTerminal(JobError(Execution, t.doc.retryCount, "e", 1), 1);
    var t1 := t.(threads := c + multiset{r});
    Go(max, s, t, Deliver(0, false, "e"), t1);
    var t2 := GoCall(max, s, t1, r, Get, c);
    var t3 := GoCall(max, s, t2, w, op, c);
    t' := GoAck(max, s, t3);
  }

  lemma GoAck(max: int, s: World, t: World) returns (t': World)
    requires Reaches(max, s, t) && t.threads == multiset{Confirm(0)} + multiset{Acking(0)} && t.unacked == {0}
    ensures Reaches(max, s, t')
    ensures t'.doc == t.doc && t'.unacked == {} && Confirm(0) in t'.threads
  {
    t' := Step(max, t, Ack(Acking(0), true));
    Go(max, s, t, Ack(Acking(0), true), t');
  }

  /** A retry between a publish and its confirm: the job ends up dispatched, not started, and with no message left. */
  lemma RetryInTheWindowOrphans(max: int, j: Job) returns (s: World)
    requires max >= 1 && Creatable(j)
    ensures Reaches(max, Initial(j), s) && !DispatchedCared(s) && s.unacked == {}
  {
    var t := GoPublish(max, j);
    t := GoRejected(max, Initial(j), t);
    GoRetry(max, Initial(j), t);
    t := InRetry(t, Done(Ok), Retried(t.doc), t.h.resets + 1);
    s := CallStep(max, t, Confirm(0), MarkDispatchedIfPending(1), Fine);
    Go(max, Initial(j), t, Call(Confirm(0), MarkDispatchedIfPending(1), Fine), s);
  }

  /** A poll of an eligible job with the broker down. */
  lemma GoFailedDispatch(max: int, s: World, t: World) returns (t': World)
    requires Reaches(max, s, t) && Eligible(t.doc, max)
    ensures var attempts := t.doc.dispatchAttempts + 1;
            && Reaches(max, s, t')
            && t'.doc == t.doc.(dispatchAttempts := attempts, dispatchLastError := "e")
            && t'.threads == t.threads + multiset{if attempts >= max then MarkFailed("e") else Done(Ok)}
  {
    var p, r := Publish(JobDispatchFromMetadata(t.doc)), Record(t.doc.dispatchAttempts + 1, "e");
    var t1 := Spawn(t, p);
    Go(max, s, t, PollFetch, t1);
    var t2 := SendStep(t1, p, LostRequest, "e");
    assert t2.threads == t.threads + multiset{r};
    Go(max, s, t1, Send(p, LostRequest, "e"), t2);
    t' := GoCall(max, s, t2, r, RecordDispatchAttemptIfPending(t.doc.dispatchAttempts + 1, "e"), t.threads);
  }

  lemma {:induction false} GoFailedDispatches(max: int, j: Job, n: nat) returns (t: World)
    requires Creatable(j) && n < max
    ensures Reaches(max, Initial(j), t) && t.doc.dispatchAttempts == n && Eligible(t.doc, max)
    ensures forall x :: x in t.threads ==> x.Done?
  {
    if n == 0 {
      Here(max, Initial(j));
      t := Initial(j);
    } else {
      t := GoFailedDispatches(max, j, n - 1);
      t := GoFailedDispatch(max, Initial(j), t);
    }
  }

  /** A crash between the last recorded attempt and marking the dispatch failed: pending, and never polled again. */
  lemma CrashStrandsPending(max: int, j: Job) returns (s: World)
    requires max >= 1 && Creatable(j)
    ensures Reaches(max, Initial(j), s) && !PendingCared(max, s) && forall t :: t in s.threads ==> t.Done?
  {
    var t := GoFailedDispatches(max, j, max - 1);
    t := GoFailedDispatch(max, Initial(j), t);
    s := t.(threads := t.threads - multiset{MarkFailed("e")});
    Go(max, Initial(j), t, Crash(MarkFailed("e")), s);
  }

  /** A retry between FailJob's read and its write: the second failure is filed under the first attempt. */
  lemma RetryDuringFailureMisfiles(max: int, j: Job) returns (s: World)
    requires max >= 1 && Creatable(j)
    ensures Reaches(max, Initial(j), s)
    ensures s.doc.retryCount == 1 && |ErrorsOf(s.doc.errors, Execution)| == 2
    ensures !Numbered(ErrorsOf(s.doc.errors, Execution))
  {
    var i := Initial(j);
    Here(max, i);
    var t := GoFailRead(max, i, i);
    t := GoFailRead(max, i, t);
    t := GoFailWrite(max, i, t, 0);
    GoRetry(max, i, t);
    t := InRetry(t, Done(Ok), Retried(t.doc), t.h.resets + 1);
    s := GoFailWrite(max, i, t, 0);
    assert s.doc.errors == [] + [JobError(Execution, 0, "e", 1)] + [JobError(Execution, 0, "e", 1)];
    TwoUnderOneAttempt(JobError(Execution, 0, "e", 1));
  }

  lemma TwoUnderOneAttempt(e: JobError)
    requires e.kind == Execution && e.retryAttempt == 0
    ensures ErrorsOf([] + [e] + [e], Execution) == [e, e]
    ensures !Numbered([e, e])
  {
    ErrorsOfAppend([], e, Execution);
    ErrorsOfAppend([] + [e], e, Execution);
    assert [e, e][1].retryAttempt == 0;
  }

  /** What a cancel of the job as it was created would write. */
  function EarlyCancel(j: Job): Pc {
    CancelWrite(ExecutionStatus.NotStarted, CancelPatch(j, 1, ""))
  }

  lemma GoCancelRead(max: int, j: Job) returns (t: World)
    requires Creatable(j)
    ensures Reaches(max, Initial(j), t)
    ensures t.doc == j && t.threads == multiset{EarlyCancel(j)} && t.h.overwrites == 0
  {
    var i := Initial(j);
    Here(max, i);
    var t1 := i.(threads := multiset{CancelRead("", 1)});
    Go(max, i, i, RequestCancel("", 1), t1);
    t := GoCall(max, i, t1, CancelRead("", 1), Get, multiset{});
  }

  lemma GoFailBehindCancel(max: int, j: Job) returns (t: World)
    requires Creatable(j)
    ensures Reaches(max, Initial(j), t)
    ensures t.doc.executionStatus.Failed? && t.doc.errors == [JobError(Execution, 0, "e", 1)] && t.doc.retryCount == 0
    ensures t.threads == multiset{Done(Ok)} + multiset{EarlyCancel(j)} && t.h.overwrites == 0
  {
    var t1 := GoCancelRead(max, j);
    var t2 := GoFailRead(max, Initial(j), t1);
    t := GoFailWrite(max, Initial(j), t2, 0);
  }

  /** A cancel that read the job before it failed overwrites the failure: the case the exact law counts. */
  lemma LateCancelOverwritesFailure(max: int, j: Job) returns (s: World)
    requires max >= 1 && Creatable(j)
    ensures Reaches(max, Initial(j), s)
    ensures s.doc.executionStatus.Cancelled? && s.h.overwrites == 1
    ensures CountErrors(s.doc.errors, Execution) == 1 && s.doc.retryCount == 0
  {
    var t := GoFailBehindCancel(max, j);
    s := GoCall(max, Initial(j), t, EarlyCancel(j), Update(EarlyCancel(j).patch), multiset{Done(Ok)});
    ErrorsOfAppend([], JobError(Execution, 0, "e", 1), Execution);
  }

  /** A collection call whose answer is lost, before or after it took effect. */
  lemma GoLostCall(max: int, s: World, t: World, pc: Pc, op: Op, net: Net, others: multiset<Pc>) returns (t': World)
    requires Reaches(max, s, t) && t.threads == others + multiset{pc} && Issues(pc, op) && !net.Fine?
    ensures Reaches(max, s, t')
    ensures t'.doc == Landed(op, t.doc, net) && t'.threads == others + multiset{Resume(max, pc, Unavailable)}
    ensures t'.unacked == t.unacked && t'.h.runs == t.h.runs
  {
    t' := CallStep(max, t, pc, op, net);
    Go(max, s, t, Call(pc, op, net), t');
  }

  /** A start that took effect but whose answer was lost: the message is handed back. */
  lemma GoLostStart(max: int, s: World, t: World) returns (t': World)
    requires Reaches(max, s, t) && t.threads == multiset{Confirm(0)} && t.unacked == {0} && t.h.runs == multiset{}
    requires t.doc.executionStatus.NotStarted?
    ensures Reaches(max, s, t')
    ensures t'.doc.executionStatus.Running? && t'.unacked == {0} && t'.h.runs == multiset{}
    ensures t'.threads == multiset{Confirm(0), Done(StoreError)}
  {
    var t1 := t.(threads := t.threads + multiset{Start(0)});
    Go(max, s, t, Deliver(0, true, ""), t1);
    var t2 := GoLostCall(max, s, t1, Start(0), MarkRunningIfDispatched(1), LostReply, t.threads);
    t' := GoNack(max, s, t2);
  }

  lemma GoNack(max: int, s: World, t: World) returns (t': World)
    requires Reaches(max, s, t) && t.threads == multiset{Confirm(0)} + multiset{Nacking(0)}
    ensures Reaches(max, s, t')
    ensures t' == t.(threads := multiset{Confirm(0), Done(StoreError)})
  {
    t' := t.(threads := multiset{Confirm(0), Done(StoreError)});
    assert t.threads - multiset{Nacking(0)} + multiset{Done(StoreError)} == t'.threads;
    Go(max, s, t, Nack(Nacking(0)), t');
  }

  /** A start of a running job: nothing to be done, and acknowledged. */
  lemma GoMissedStart(max: int, s: World, t: World, others: multiset<Pc>) returns (t': World)
    requires Reaches(max, s, t) && t.threads == others + multiset{Start(0)} && t.doc.executionStatus.Running?
    ensures Reaches(max, s, t') && t'.threads == others + multiset{Acking(0)}
    ensures t'.doc == t.doc && t'.unacked == t.unacked && t'.h.runs == t.h.runs
  {
    t' := GoCall(max, s, t, Start(0), MarkRunningIfDispatched(1), others);
  }

  lemma GoSpentAck(max: int, s: World, t: World, others: multiset<Pc>) returns (t': World)
    requires Reaches(max, s, t) && t.threads == others + multiset{Acking(0)} && t.unacked == {0}
    ensures Reaches(max, s, t') && t'.threads == others + multiset{Done(Ok)}
    ensures t'.doc == t.doc && t'.unacked == {} && t'.h.runs == t.h.runs
  {
    t' := t.(threads := others + multiset{Done(Ok)}, unacked := {});
    assert t.threads - multiset{Acking(0)} == others && t.unacked - {0} == {};
    Go(max, s, t, Ack(Acking(0), true), t');
  }

  /** Its redelivery is taken for a duplicate. */
  lemma GoRedelivered(max: int, s: World, t: World) returns (t': World)
    requires Reaches(max, s, t) && t.threads == multiset{Confirm(0), Done(StoreError)} && t.unacked == {0}
    requires t.doc.executionStatus.Running?
    ensures Reaches(max, s, t')
    ensures t'.doc == t.doc && t'.unacked == {} && t'.h.runs == t.h.runs
    ensures t'.threads == multiset{Confirm(0), Done(StoreError), Done(Ok)}
  {
    var t1 := Spawn(t, Start(0));
    Go(max, s, t, Deliver(0, true, ""), t1);
    t' := GoMissedStart(max, s, t1, t.threads);
    t' := GoSpentAck(max, s, t', t.threads);
  }

  /**
   One lost answer to a start: the job stays running with no handler ever
   invoked, nobody to finish it and no message left to bring it up again.
   */
  lemma LostStartStrandsRunning(max: int, j: Job) returns (s: World)
    requires max >= 1 && Creatable(j)
    ensures Reaches(max, Initial(j), s)
    ensures !RunningCared(s) && s.unacked == {} && s.h.runs == multiset{}
  {
    var t := GoPublish(max, j);
    t := GoLostStart(max, Initial(j), t);
    s := GoRedelivered(max, Initial(j), t);
  }

  /** A delivery, as far as its handler. */
  lemma GoDelivered(max: int, s: World, t: World) returns (t': World)
    requires Reaches(max, s, t) && 0 in t.unacked && t.doc.executionStatus.NotStarted?
    ensures Reaches(max, s, t')
    ensures t'.doc == After(MarkRunningIfDispatched(1), t.doc) && t'.threads == t.threads + multiset{RunHandler(0)}
    ensures t'.unacked == t.unacked && t'.h.faults == t.h.faults && t'.h.errorReturns == t.h.errorReturns
  {
    var t1 := Spawn(t, Start(0));
    Go(max, s, t, Deliver(0, true, ""), t1);
    t' := GoCall(max, s, t1, Start(0), MarkRunningIfDispatched(1), t.threads);
  }

  lemma GoHandled(max: int, s: World, t: World, ok: bool, others: multiset<Pc>) returns (t': World)
    requires Reaches(max, s, t) && t.threads == others + multiset{RunHandler(0)}
    ensures Reaches(max, s, t')
    ensures t'.doc == t.doc && t'.threads == others + multiset{AfterHandler(0, ok, "e")} && t'.unacked == t.unacked
    ensures t'.h.faults == t.h.faults && t'.h.errorReturns == t.h.errorReturns
  {
    t' := Step(max, t, Run(RunHandler(0), ok, "e"));
    Go(max, s, t, Run(RunHandler(0), ok, "e"), t');
  }

  /** A handler error whose FailJob cannot read the job: acknowledged all the same, and running for good. */
  lemma LostFailJobStrandsRunning(max: int, j: Job) returns (s: World)
    requires max >= 1 && Creatable(j)
    ensures Reaches(max, Initial(j), s) && !RunningCared(s) && s.unacked == {}
  {
    var i, c := Initial(j), multiset{Confirm(0)};
    var t := GoPublish(max, j);
    t := GoDelivered(max, i, t);
    t := GoHandled(max, i, t, false, c);
    t := GoLostCall(max, i, t, FailRead(HandlerError(0), "e"), Get, LostRequest, c);
    s := Step(max, t, Ack(Acking(0), true));
    Go(max, i, t, Ack(Acking(0), true), s);
  }

  /** A completion that never arrives: handed back, and its redelivery taken for a duplicate. */
  lemma LostCompletionStrandsRunning(max: int, j: Job) returns (s: World)
    requires max >= 1 && Creatable(j)
    ensures Reaches(max, Initial(j), s) && !RunningCared(s) && s.unacked == {}
  {
    var i, c := Initial(j), multiset{Confirm(0)};
    var t := GoPublish(max, j);
    t := GoDelivered(max, i, t);
    t := GoHandled(max, i, t, true, c);
    t := GoLostCall(max, i, t, Complete(0, None), CompleteIfRunning(1, None), LostRequest, c);
    t := GoNack(max, i, t);
    s := GoRedelivered(max, i, t);
  }

  /** A message that cannot be run, and whose FailJob cannot read the job: used up, with the job still not started. */
  lemma LostRejectionOrphans(max: int, j: Job) returns (s: World)
    requires max >= 1 && Creatable(j)
    ensures Reaches(max, Initial(j), s) && !DispatchedCared(s) && s.unacked == {}
  {
    var i, c := Initial(j), multiset{Confirm(0)};
    var t := GoPublish(max, j);
    var t1 := Spawn(t, FailRead(Preflight(0), "e"));
    Go(max, i, t, Deliver(0, false, "e"), t1);
    t := GoLostCall(max, i, t1, FailRead(Preflight(0), "e"), Get, LostRequest, c);
    t := GoAck(max, i, t);
    s := CallStep(max, t, Confirm(0), MarkDispatchedIfPending(1), Fine);
    Go(max, i, t, Call(Confirm(0), MarkDispatchedIfPending(1), Fine), s);
  }

  // ---- Retries ----

  /** An operator fails a running job. */
  lemma GoFailRunning(max: int, s: World, t: World) returns (t': World)
    requires Reaches(max, s, t) && t.doc.executionStatus.Running?
    ensures Reaches(max, s, t')
    ensures t'.doc == After(FailIfNotTerminal(JobError(Execution, t.doc.retryCount, "e", 1), 1), t.doc)
    ensures t'.threads == t.threads + multiset{Done(Ok)}
    ensures t'.unacked == t.unacked && t'.h.faults == t.h.faults && t'.h.errorReturns == t.h.errorReturns
  {
    var w := FailWrite(Caller, "e", t.doc.retryCount);
    var t1 := GoFailRead(max, s, t);
    t' := GoCall(max, s, t1, w, FailIfNotTerminal(JobError(Execution, t.doc.retryCount, "e", 1), 1), t.threads);
  }

  /** With a retry behind its back a delivery can end in an error although no collection call has failed. */
  lemma RetryCausesNack(max: int, j: Job) returns (s: World)
    requires max >= 1 && Creatable(j)
    ensures Reaches(max, Initial(j), s) && s.h.faults == 0 && s.h.errorReturns == 1
  {
    var i := Initial(j);
    var t := GoPublish(max, j);
    t := GoDelivered(max, i, t);
    t := GoFailRunning(max, i, t);
    s := GoRetryUnderHandler(max, i, t);
  }

  lemma GoRetryUnderHandler(max: int, s: World, t: World) returns (t': World)
    requires Reaches(max, s, t) && t.threads == multiset{Confirm(0), RunHandler(0), Done(Ok)}
    requires t.doc.executionStatus.Failed?
    ensures Reaches(max, s, t') && t'.h.faults == t.h.faults && t'.h.errorReturns == t.h.errorReturns + 1
  {
    var others := multiset{Confirm(0), Done(Ok), Done(Ok)};
    GoRetry(max, s, t);
    var t1 := InRetry(t, Done(Ok), Retried(t.doc), t.h.resets + 1);
    assert t1.threads == others + multiset{RunHandler(0)};
    var t2 := GoHandled(max, s, t1, true, others);
    t' := GoMissedCompletion(max, s, t2, others);
  }

  /** A completion that finds the job waiting for another attempt. */
  lemma GoMissedCompletion(max: int, s: World, t: World, others: multiset<Pc>) returns (t': World)
    requires Reaches(max, s, t) && t.threads == others + multiset{Complete(0, None)}
    requires t.doc.dispatchStatus.Pending? && t.doc.executionStatus.NotStarted?
    ensures Reaches(max, s, t') && t'.h.faults == t.h.faults && t'.h.errorReturns == t.h.errorReturns + 1
  {
    var op := CompleteIfRunning(1, None);
    assert Answer(op, t.doc) == Matched(false) && After(op, t.doc) == t.doc;
    var t1 := GoCall(max, s, t, Complete(0, None), op, others);
    assert t1.doc == t.doc && !t.doc.DisplayStatus().IsTerminal();
    assert Resume(max, CompleteReread(0), Answer(Get, t.doc)) == Nacking(0);
    t' := GoCall(max, s, t1, CompleteReread(0), Get, others);
  }

  /** A failed job with one thread just short of its reset. */
  lemma GoRetryHalfway(max: int, s: World, t: World) returns (t': World)
    requires Reaches(max, s, t) && t.doc.executionStatus.Failed?
    ensures Reaches(max, s, t')
    ensures t'.doc == After(IncrementRetryCount, t.doc) && t'.threads == t.threads + multiset{RetryReset}
    ensures t'.unacked == t.unacked
  {
    var t1 := Spawn(t, RetryRead);
    Go(max, s, t, RequestRetry, t1);
    var t2 := GoCall(max, s, t1, RetryRead, Get, t.threads);
    t' := GoCall(max, s, t2, RetryIncrement, IncrementRetryCount, t.threads);
  }

  /** Two retries of one failure: the retry count goes up by two, with one execution entry filed. */
  lemma OverlappingRetriesMiscount(max: int, j: Job) returns (s: World)
    requires max >= 1 && Creatable(j)
    ensures Reaches(max, Initial(j), s) && s.doc.executionStatus.Failed?
    ensures s.doc.retryCount == 2 && CountErrors(s.doc.errors, Execution) == 1
  {
    var i := Initial(j);
    Here(max, i);
    var t := GoFailRead(max, i, i);
    t := GoFailWrite(max, i, t, 0);
    ErrorsOfAppend([], JobError(Execution, 0, "e", 1), Execution);
    t := GoRetryHalfway(max, i, t);
    s := GoRetryHalfway(max, i, t);
  }

  /** The operator's failure of a job as it was created. */
  function FailedAtOnce(j: Job): Job {
    After(FailIfNotTerminal(JobError(Execution, 0, "e", 1), 1), j)
  }

  /** A failed job, reset, started and only then cleared. */
  function ClearedLate(j: Job): Job {
    After(ClearJobExecutionTimestamps,
          After(MarkRunningIfDispatched(1), After(Update(ResetPatch()), After(IncrementRetryCount, j))))
  }

  lemma ClearedLateIsInvalid(j: Job)
    requires Creatable(j)
    ensures ClearedLate(FailedAtOnce(j)).executionStatus.Running?
    ensures Validate(ClearedLate(FailedAtOnce(j))) == Some(RunningWithoutStart)
  {
  }

  lemma GoReset(max: int, s: World, t: World, others: multiset<Pc>) returns (t': World)
    requires Reaches(max, s, t) && t.doc.executionStatus.Failed? && t.threads == others && 0 in t.unacked
    ensures Reaches(max, s, t') && 0 in t'.unacked
    ensures t'.doc == After(Update(ResetPatch()), After(IncrementRetryCount, t.doc))
    ensures t'.threads == others + multiset{RetryClear}
  {
    t' := GoRetryHalfway(max, s, t);
    t' := GoCall(max, s, t', RetryReset, Update(ResetPatch()), others);
  }

  /** A start between a retry's reset and its clear. */
  lemma GoStartInsideRetry(max: int, s: World, t: World, others: multiset<Pc>) returns (t': World)
    requires Reaches(max, s, t) && t.doc.executionStatus.Failed? && t.threads == others && 0 in t.unacked
    ensures Reaches(max, s, t') && t'.doc == ClearedLate(t.doc)
    ensures t'.threads == others + multiset{RunHandler(0)} + multiset{Done(Ok)}
  {
    t' := GoReset(max, s, t, others);
    t' := GoDelivered(max, s, t');
    t' := GoCall(max, s, t', RetryClear, ClearJobExecutionTimestamps, others + multiset{RunHandler(0)});
    t' := GoCall(max, s, t', RetryReload, Get, others + multiset{RunHandler(0)});
  }

  /**
   A start between a retry's reset and its clear: the clear takes away the new
   start time, and with every retry finished the running job fails validation.
   */
  lemma StartInsideRetryInvalidates(max: int, j: Job) returns (s: World)
    requires max >= 1 && Creatable(j)
    ensures Reaches(max, Initial(j), s)
    ensures s.doc.executionStatus.Running? && Validate(s.doc) == Some(RunningWithoutStart)
    ensures forall t :: t in s.threads ==> !Retrying(t)
  {
    var i := Initial(j);
    var t := GoPublish(max, j);
    t := GoFailRead(max, i, t);
    t := GoFailWrite(max, i, t, 0);
    assert t.threads == multiset{Confirm(0), Done(Ok)};
    s := GoStartInsideRetry(max, i, t, t.threads);
    ClearedLateIsInvalid(j);
  }

  lemma ResetIsInvalid(j: Job)
    requires Creatable(j)
    ensures Validate(After(Update(ResetPatch()), After(IncrementRetryCount, FailedAtOnce(j))))
            == Some(DispatchPhaseTimestamps)
  {
  }

  /** A retry whose clear is lost: with every retry finished, the pending job fails validation. */
  lemma LostClearInvalidates(max: int, j: Job) returns (s: World)
    requires max >= 1 && Creatable(j)
    ensures Reaches(max, Initial(j), s) && Validate(s.doc) == Some(DispatchPhaseTimestamps)
    ensures forall t :: t in s.threads ==> !Retrying(t)
  {
    var i := Initial(j);
    var t := GoPublish(max, j);
    t := GoFailRead(max, i, t);
    t := GoFailWrite(max, i, t, 0);
    var others := t.threads;
    assert others == multiset{Confirm(0), Done(Ok)};
    t := GoReset(max, i, t, others);
    s := GoLostCall(max, i, t, RetryClear, ClearJobExecutionTimestamps, LostRequest, others);
    ResetIsInvalid(j);
  }

  /** The bookkeeping is stricter than it need be: a reset may break it with the job cared for all the same. */
  lemma ResetInTheWindowIsCaredFor(max: int, j: Job) returns (s: World, a: Action)
    requires max >= 1 && Creatable(j)
    ensures Reaches(max, Initial(j), s) && Enabled(max, s, a)
    ensures LosesMessage(s, a) && !Strands(max, s, a) && Cared(max, Step(max, s, a))
  {
    var i := Initial(j);
    s := GoPublish(max, j);
    s := GoFailRead(max, i, s);
    s := GoFailWrite(max, i, s, 0);
    s := GoRetryHalfway(max, i, s);
    a := Call(RetryReset, Update(ResetPatch()), Fine);
    ResetIsCaredFor(max, s);
  }

  lemma ResetIsCaredFor(max: int, s: World)
    requires max >= 1 && RetryReset in s.threads && Confirm(0) in s.threads && s.doc.topic != ""
    ensures var a := Call(RetryReset, Update(ResetPatch()), Fine);
            LosesMessage(s, a) && !Strands(max, s, a) && Cared(max, Step(max, s, a))
  {
    CallChanges(max, s, RetryReset, Update(ResetPatch()));
  }

  // ---- Display and dispatch ----

  /** A late cancel makes a visible change that is no edge, and no step up. */
  lemma LateCancelIsNoEdge(max: int, j: Job) returns (s: World, a: Action)
    requires max >= 1 && Creatable(j)
    ensures Reaches(max, Initial(j), s) && Enabled(max, s, a) && a.Call? && !a.t.RetryReset?
    ensures var from, to := s.doc.DisplayStatus(), Step(max, s, a).doc.DisplayStatus();
            from != to && !from.CanTransitionTo(to) && !Overtakes(from, to) && Rank(from) == Rank(to)
  {
    s := GoFailBehindCancel(max, j);
    a := Call(EarlyCancel(j), Update(EarlyCancel(j).patch), Fine);
  }

  /** A dispatched job that an operator fails before it has started. */
  lemma GoDispatchedAndFailed(max: int, j: Job) returns (t: World)
    requires Creatable(j)
    ensures Reaches(max, Initial(j), t)
    ensures t.doc.dispatchStatus.Dispatched? && t.doc.executionStatus.Failed?
  {
    var i := Initial(j);
    t := GoPublish(max, j);
    t := GoCall(max, i, t, Confirm(0), MarkDispatchedIfPending(1), multiset{});
    t := GoFailRead(max, i, t);
    t := GoFailWrite(max, i, t, 0);
  }

  lemma CallChanges(max: int, s: World, t: Pc, op: Op)
    requires t in s.threads && Issues(t, op)
    ensures Step(max, s, Call(t, op, Fine)).doc == After(op, s.doc)
  {
  }

  lemma ResetUndoes(j: Job)
    requires j.dispatchStatus.Dispatched? && j.executionStatus.Failed?
    ensures !SameDispatch(j, After(Update(ResetPatch()), j))
    ensures Rank(After(Update(ResetPatch()), j).DisplayStatus()) < Rank(j.DisplayStatus())
  {
  }

  /** A reset takes the visible status down again, and the dispatch back to its beginning. */
  lemma ResetStartsOver(max: int, j: Job) returns (s: World, a: Action)
    requires max >= 1 && Creatable(j)
    ensures Reaches(max, Initial(j), s) && Enabled(max, s, a) && a.Call? && a.t.RetryReset?
    ensures s.doc.dispatchStatus.Dispatched? && !SameDispatch(s.doc, Step(max, s, a).doc)
    ensures Rank(Step(max, s, a).doc.DisplayStatus()) < Rank(s.doc.DisplayStatus())
  {
    var t := GoDispatchedAndFailed(max, j);
    s := GoRetryHalfway(max, Initial(j), t);
    a := Call(RetryReset, Update(ResetPatch()), Fine);
    ResetUndoes(s.doc);
    CallChanges(max, s, RetryReset, Update(ResetPatch()));
  }
}
