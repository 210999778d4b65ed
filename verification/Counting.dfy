/**
 What holds in every run: any interleaving, any lost request or answer, any
 crash, overlapping cancels and overlapping retries.
 */
module Counting {
  import opened Options
  import opened Status
  import opened JobModel
  import opened Writes
  import opened Protocol
  import opened Machine

  function Bit(b: bool): nat {
    if b then 1 else 0
  }

  /** A cancellation sets the cancelled state and both timestamps, and may replace the metadata. */
  predicate IsCancelPatch(p: UpdateJob) {
    p.startedAt.Some? && p.completedAt.Some? &&
    p == UpdateJob(status := Some(JobStatus.Cancelled), executionStatus := Some(ExecutionStatus.Cancelled),
                   startedAt := p.startedAt, completedAt := p.completedAt, metadata := p.metadata)
  }

  /** What a thread's locals say, given the retry count and the number of messages so far. */
  predicate ThreadOk(max: int, retryCount: int, sent: nat, t: Pc) {
    match t
    case Publish(job) => 0 <= job.dispatchAttempts < max && job.topic != ""
    case Record(attempts, _) => 1 <= attempts <= max
    case Confirm(mid) => mid < sent
    case Start(mid) => mid < sent
    case RunHandler(mid) => mid < sent
    case ResultRead(mid, _) => mid < sent
    case Complete(mid, _) => mid < sent
    case CompleteReread(mid) => mid < sent
    case Acking(mid) => mid < sent
    case Nacking(mid) => mid < sent
    case FailRead(who, _) => who.Caller? || who.mid < sent
    case FailWrite(who, _, attempt) => 0 <= attempt <= retryCount && (who.Caller? || who.mid < sent)
    case FailReread(who) => who.Caller? || who.mid < sent
    case CancelWrite(seen, patch) => !seen.IsTerminal() && IsCancelPatch(patch)
    case _ => true
  }

  ghost predicate DocSane(max: int, j: Job) {
    && j.Composite().IsValid() && j.topic != ""
    && 0 <= j.retryCount
    && 0 <= j.dispatchAttempts <= max
    && (forall e :: e in j.errors ==> 0 <= e.retryAttempt <= j.retryCount)
  }

  ghost predicate BrokerSane(s: World) {
    && (forall mid :: mid in s.unacked ==> mid < |s.sent|)
    && (forall mid :: 0 <= mid < |s.sent| ==> s.sent[mid] <= s.h.resets)
    && (s.doc.dispatchStatus.Dispatched? ==> s.sent != [])
  }

  ghost predicate ThreadsSane(max: int, s: World) {
    forall t :: t in s.threads ==> ThreadOk(max, s.doc.retryCount, |s.sent|, t)
  }

  ghost predicate Sane(max: int, s: World) {
    && s.inserted.dispatchAttempts == 0 && s.inserted.topic != ""
    && DocSane(max, s.doc) && BrokerSane(s) && ThreadsSane(max, s)
  }

  /** Each quantity is paid for: once by the creation, once more by each increment of the retry count. */
  ghost predicate Budgeted(s: World) {
    var pending := s.threads[RetryReset];   // retries that have paid but not yet reset the job
    && s.h.started + Bit(s.doc.executionStatus.NotStarted?) + pending <= 1 + s.doc.retryCount
    && s.h.terminalWrites + Bit(!s.doc.executionStatus.IsTerminal()) + pending <= 1 + s.doc.retryCount
    && CountErrors(s.doc.errors, Execution) <= s.h.terminalWrites
    && CountErrors(s.doc.errors, Dispatch) + Bit(s.doc.dispatchStatus.Pending?) + pending <= 1 + s.doc.retryCount
    && s.h.resets + pending <= s.doc.retryCount
  }

  /** Handler runs are covered by claims, message by message. */
  ghost predicate RunsCovered(s: World) {
    && |s.h.claims| <= s.h.started
    && forall mid :: s.h.runs[mid] + s.threads[RunHandler(mid)] <= s.h.claims[mid]
  }

  ghost predicate Inv(max: int, s: World) {
    Sane(max, s) && Budgeted(s) && RunsCovered(s)
  }

  lemma SaneStart(max: int, j: Job)
    requires max >= 1 && Creatable(j)
    ensures Inv(max, Initial(j))
  {
  }

  lemma DocStaysSane(max: int, sent: nat, t: Pc, op: Op, j: Job)
    requires max >= 1 && DocSane(max, j) && Issues(t, op) && ThreadOk(max, j.retryCount, sent, t)
    ensures DocSane(max, After(op, j))
    ensures j.retryCount <= After(op, j).retryCount
  {
  }

  lemma DispatchedNeedsConfirm(t: Pc, op: Op, j: Job, sent: nat, max: int)
    requires Issues(t, op) && ThreadOk(max, j.retryCount, sent, t)
    ensures After(op, j).dispatchStatus.Dispatched? ==> t.Confirm? || j.dispatchStatus.Dispatched?
  {
  }

  lemma ResumeStaysOk(max: int, sent: nat, t: Pc, op: Op, j: Job, net: Net)
    requires DocSane(max, j) && Issues(t, op) && ThreadOk(max, j.retryCount, sent, t)
    ensures ThreadOk(max, j.retryCount, sent, Resume(max, t, ReplyOver(op, j, net)))
  {
  }

  lemma ThreadOkGrows(max: int, retryCount: int, retryCount': int, sent: nat, sent': nat, t: Pc)
    requires retryCount <= retryCount' && sent <= sent' && ThreadOk(max, retryCount, sent, t)
    ensures ThreadOk(max, retryCount', sent', t)
  {
  }

  lemma MovedThreads(max: int, s: World, s': World, u: Pc)
    requires ThreadsSane(max, s) && ThreadOk(max, s'.doc.retryCount, |s'.sent|, u)
    requires s.doc.retryCount <= s'.doc.retryCount && |s.sent| <= |s'.sent|
    requires s'.threads <= s.threads + multiset{u}
    ensures ThreadsSane(max, s')
  {
    forall x | x in s'.threads ensures ThreadOk(max, s'.doc.retryCount, |s'.sent|, x) {
      if x != u {
        assert x in s.threads;
        ThreadOkGrows(max, s.doc.retryCount, s'.doc.retryCount, |s.sent|, |s'.sent|, x);
      }
    }
  }

  lemma CallKeepsSane(max: int, s: World, t: Pc, op: Op, net: Net)
    requires max >= 1 && Sane(max, s) && t in s.threads && Issues(t, op)
    ensures Sane(max, CallStep(max, s, t, op, net))
  {
    var u := Resume(max, t, ReplyOver(op, s.doc, net));
    DocStaysSane(max, |s.sent|, t, op, s.doc);
    DispatchedNeedsConfirm(t, op, s.doc, |s.sent|, max);
    ResumeStaysOk(max, |s.sent|, t, op, s.doc, net);
    ThreadOkGrows(max, s.doc.retryCount, Landed(op, s.doc, net).retryCount, |s.sent|, |s.sent|, u);
    MovedThreads(max, s, CallStep(max, s, t, op, net), u);
  }

  /** The position a step other than a call brings in. */
  function Arrives(s: World, a: Action): Pc
    requires !a.Call?
  {
    match a
    case StreamInsert => BeginDispatch(JobDispatchFromMetadata(s.inserted))
    case PollFetch => BeginDispatch(JobDispatchFromMetadata(s.doc))
    case Deliver(mid, runnable, message) => BeginDelivery(mid, runnable, message)
    case RequestFail(message) => FailRead(Caller, message)
    case RequestCancel(reason, now) => CancelRead(reason, now)
    case RequestRetry => RetryRead
    case Send(t, net, error) =>
      if t.Publish? then AfterPublish(t.job, if net.Fine? then Some(|s.sent|) else None, error) else t
    case Run(t, ok, error) => if t.RunHandler? then AfterHandler(t.mid, ok, error) else t
    case Nack(_) => Done(StoreError)
    case _ => Done(Ok)
  }

  /** Only calls touch the document. */
  lemma OtherSteps(max: int, s: World, a: Action)
    requires Enabled(max, s, a) && !a.Call?
    ensures var s' := Step(max, s, a);
            && s'.doc == s.doc && s'.inserted == s.inserted
            && s'.h == s.h.(runs := if a.Run? then s.h.runs + multiset{a.t.mid} else s.h.runs)
            && s.sent <= s'.sent
            && s'.threads <= s.threads + multiset{Arrives(s, a)}
  {
  }

  /** The thread that takes a step other than a call, if it is not a new one. */
  predicate Leaves(a: Action, x: Pc) {
    (a.Send? || a.Run? || a.Ack? || a.Nack? || a.Crash?) && x == a.t
  }

  lemma OtherThreadsExactly(max: int, s: World, a: Action)
    requires Enabled(max, s, a) && !a.Call?
    ensures var gone := if a.Send? || a.Run? || a.Ack? || a.Nack? || a.Crash? then multiset{a.t} else multiset{};
            var come := if a.Crash? then multiset{} else multiset{Arrives(s, a)};
            Step(max, s, a).threads == s.threads - gone + come
  {
  }

  lemma OtherThreads(max: int, s: World, a: Action, s': World)
    requires Enabled(max, s, a) && !a.Call? && s' == Step(max, s, a)
    ensures forall x :: x in s.threads && !Leaves(a, x) ==> x in s'.threads
    ensures forall x :: x in s'.threads && x !in s.threads ==> x == Arrives(s, a)
    ensures !a.Crash? ==> Arrives(s, a) in s'.threads
  {
    OtherThreadsExactly(max, s, a);
  }

  lemma ArrivesOk(max: int, s: World, a: Action)
    requires max >= 1 && Sane(max, s) && Enabled(max, s, a) && !a.Call?
    ensures ThreadOk(max, s.doc.retryCount, |Step(max, s, a).sent|, Arrives(s, a))
  {
    if a.Send? || a.Run? {
      assert ThreadOk(max, s.doc.retryCount, |s.sent|, a.t);
    }
  }

  lemma BrokerStaysSane(max: int, s: World, a: Action)
    requires BrokerSane(s) && Enabled(max, s, a) && !a.Call?
    ensures BrokerSane(Step(max, s, a))
  {
  }

  lemma StepKeepsSane(max: int, s: World, a: Action)
    requires max >= 1 && Sane(max, s) && Enabled(max, s, a)
    ensures Sane(max, Step(max, s, a))
  {
    if a.Call? {
      CallKeepsSane(max, s, a.t, a.op, a.net);
    } else {
      OtherSteps(max, s, a);
      ArrivesOk(max, s, a);
      BrokerStaysSane(max, s, a);
      MovedThreads(max, s, Step(max, s, a), Arrives(s, a));
    }
  }

  /** What a call costs, and what pays for it: the document's part of the budgets. */
  lemma CallPays(max: int, sent: nat, t: Pc, op: Op, j: Job, net: Net)
    requires max >= 1 && DocSane(max, j) && Issues(t, op) && ThreadOk(max, j.retryCount, sent, t)
    ensures var j', u := Landed(op, j, net), Resume(max, t, ReplyOver(op, j, net));
            var paid := Bit(t.RetryReset?) + j'.retryCount - j.retryCount - Bit(u.RetryReset?);
            && Bit(op.MarkRunningIfDispatched? && Matches(op, j, net)) + Bit(j'.executionStatus.NotStarted?)
               <= Bit(j.executionStatus.NotStarted?) + paid
            && Bit((op.CompleteIfRunning? || op.FailIfNotTerminal?) && Matches(op, j, net))
               + Bit(!j'.executionStatus.IsTerminal())
               <= Bit(!j.executionStatus.IsTerminal()) + paid
            && Bit(op.MarkDispatchFailedIfPending? && Matches(op, j, net)) + Bit(j'.dispatchStatus.Pending?)
               <= Bit(j.dispatchStatus.Pending?) + paid
            && Bit(t.RetryReset? && Matches(op, j, net)) <= paid
  {
  }

  /** The entry a failure write files. */
  function Filed(op: Op): seq<JobError> {
    match op
    case MarkDispatchFailedIfPending(message, at) => [JobError(Dispatch, 0, message, at)]
    case FailIfNotTerminal(entry, _) => [entry]
    case _ => []
  }

  /** Calls only ever append to the error history, and only what a matched failure write files. */
  lemma CallAppends(max: int, sent: nat, t: Pc, op: Op, j: Job, net: Net)
    requires Issues(t, op) && ThreadOk(max, j.retryCount, sent, t)
    ensures Landed(op, j, net).errors == j.errors + if Matches(op, j, net) then Filed(op) else []
  {
  }

  lemma CountFiled(errors: seq<JobError>, t: Pc, op: Op)
    requires Issues(t, op)
    ensures CountErrors(errors + Filed(op), Execution) == CountErrors(errors, Execution) + Bit(op.FailIfNotTerminal?)
    ensures CountErrors(errors + Filed(op), Dispatch)
            == CountErrors(errors, Dispatch) + Bit(op.MarkDispatchFailedIfPending?)
  {
    if Filed(op) == [] {
      assert errors + Filed(op) == errors;
    } else {
      ErrorsOfAppend(errors, Filed(op)[0], Execution);
      ErrorsOfAppend(errors, Filed(op)[0], Dispatch);
    }
  }

  lemma CallFilesErrors(max: int, sent: nat, t: Pc, op: Op, j: Job, net: Net)
    requires Issues(t, op) && ThreadOk(max, j.retryCount, sent, t)
    ensures CountErrors(Landed(op, j, net).errors, Execution)
            == CountErrors(j.errors, Execution) + Bit(op.FailIfNotTerminal? && Matches(op, j, net))
    ensures CountErrors(Landed(op, j, net).errors, Dispatch)
            == CountErrors(j.errors, Dispatch) + Bit(op.MarkDispatchFailedIfPending? && Matches(op, j, net))
  {
    CallAppends(max, sent, t, op, j, net);
    if Matches(op, j, net) {
      CountFiled(j.errors, t, op);
    } else {
      assert j.errors + [] == j.errors;
    }
  }

  lemma CallKeepsBudget(max: int, s: World, t: Pc, op: Op, net: Net)
    requires max >= 1 && Sane(max, s) && Budgeted(s) && t in s.threads && Issues(t, op)
    ensures Budgeted(CallStep(max, s, t, op, net))
  {
    var u := Resume(max, t, ReplyOver(op, s.doc, net));
    var s' := CallStep(max, s, t, op, net);
    assert s'.threads[RetryReset] == s.threads[RetryReset] - Bit(t.RetryReset?) + Bit(u.RetryReset?);
    CallPays(max, |s.sent|, t, op, s.doc, net);
    CallFilesErrors(max, |s.sent|, t, op, s.doc, net);
  }

  lemma StepKeepsBudget(max: int, s: World, a: Action)
    requires max >= 1 && Sane(max, s) && Budgeted(s) && Enabled(max, s, a)
    ensures Budgeted(Step(max, s, a))
  {
    if a.Call? {
      CallKeepsBudget(max, s, a.t, a.op, a.net);
    } else {
      OtherSteps(max, s, a);
    }
  }

  lemma OnlyStartRuns(max: int, t: Pc, op: Op, j: Job, net: Net)
    requires Issues(t, op) && Resume(max, t, ReplyOver(op, j, net)).RunHandler?
    ensures t == Start(Resume(max, t, ReplyOver(op, j, net)).mid)
    ensures op.MarkRunningIfDispatched? && Matches(op, j, net)
  {
  }

  lemma CallKeepsRunsCovered(max: int, s: World, t: Pc, op: Op, net: Net)
    requires RunsCovered(s) && t in s.threads && Issues(t, op)
    ensures RunsCovered(CallStep(max, s, t, op, net))
  {
    var u := Resume(max, t, ReplyOver(op, s.doc, net));
    if u.RunHandler? {
      OnlyStartRuns(max, t, op, s.doc, net);
    }
    assert !t.RunHandler?;
    assert CallStep(max, s, t, op, net).threads == s.threads - multiset{t} + multiset{u};
  }

  lemma StepKeepsRunsCovered(max: int, s: World, a: Action)
    requires RunsCovered(s) && Enabled(max, s, a)
    ensures RunsCovered(Step(max, s, a))
  {
    if a.Call? {
      CallKeepsRunsCovered(max, s, a.t, a.op, a.net);
    } else {
      OtherSteps(max, s, a);
    }
  }

  lemma StepKeepsInv(max: int, s: World, a: Action)
    requires max >= 1 && Inv(max, s) && Enabled(max, s, a)
    ensures Inv(max, Step(max, s, a))
  {
    StepKeepsSane(max, s, a);
    StepKeepsBudget(max, s, a);
    StepKeepsRunsCovered(max, s, a);
  }

  lemma {:induction false} RunKeepsInv(max: int, s: World, run: seq<Action>, regime: Regime)
    requires max >= 1 && Inv(max, s) && Legal(max, s, run, regime)
    ensures Inv(max, Exec(max, s, run, regime))
    decreases |run|
  {
    if run != [] {
      StepKeepsInv(max, s, run[0]);
      RunKeepsInv(max, Step(max, s, run[0]), run[1..], regime);
    }
  }

  // ---- Main results ----

  lemma SubMultisetSize<T>(a: multiset<T>, b: multiset<T>)
    requires a <= b
    ensures |a| <= |b|
  {
    assert b == a + (b - a);
  }

  /** A job's handler is invoked at most once, plus once per retry. */
  lemma HandlerRunsBounded(max: int, j: Job, run: seq<Action>, regime: Regime)
    requires max >= 1 && Creatable(j) && Legal(max, Initial(j), run, regime)
    ensures var s := Exec(max, Initial(j), run, regime);
            |s.h.runs| <= 1 + s.doc.retryCount
  {
    SaneStart(max, j);
    RunKeepsInv(max, Initial(j), run, regime);
    var s := Exec(max, Initial(j), run, regime);
    forall mid ensures s.h.runs[mid] <= s.h.claims[mid] {
      assert s.h.runs[mid] + s.threads[RunHandler(mid)] <= s.h.claims[mid];
    }
    SubMultisetSize(s.h.runs, s.h.claims);
  }

  /** Completions and failures that took effect number at most one per attempt. */
  lemma OneTerminalWritePerAttempt(max: int, j: Job, run: seq<Action>, regime: Regime)
    requires max >= 1 && Creatable(j) && Legal(max, Initial(j), run, regime)
    ensures var s := Exec(max, Initial(j), run, regime);
            s.h.terminalWrites + Bit(!s.doc.executionStatus.IsTerminal()) <= 1 + s.doc.retryCount
  {
    SaneStart(max, j);
    RunKeepsInv(max, Initial(j), run, regime);
  }

  /** A terminal execution status changes only under a cancel that read an earlier state, or a retry. */
  lemma TerminalChangesOnlyBy(max: int, s: World, a: Action)
    requires Sane(max, s) && Enabled(max, s, a) && s.doc.executionStatus.IsTerminal()
    requires Step(max, s, a).doc.executionStatus != s.doc.executionStatus
    ensures a.Call? && (a.t.RetryReset? || (a.t.CancelWrite? && !a.t.seen.IsTerminal()))
  {
    if a.Call? {
      assert ThreadOk(max, s.doc.retryCount, |s.sent|, a.t);
    } else {
      OtherSteps(max, s, a);
    }
  }

  /** At most two entries per attempt, none filed under an attempt that has not begun. */
  lemma ErrorHistoryBounded(max: int, j: Job, run: seq<Action>, regime: Regime)
    requires max >= 1 && Creatable(j) && Legal(max, Initial(j), run, regime)
    ensures var d := Exec(max, Initial(j), run, regime).doc;
            && |d.errors| <= 2 * (1 + d.retryCount)
            && CountErrors(d.errors, Execution) <= 1 + d.retryCount
            && CountErrors(d.errors, Dispatch) <= 1 + d.retryCount
            && forall e :: e in d.errors ==> 0 <= e.retryAttempt <= d.retryCount
  {
    SaneStart(max, j);
    RunKeepsInv(max, Initial(j), run, regime);
    TwoErrorTypes(Exec(max, Initial(j), run, regime).doc.errors);
  }

  /** Nothing is ever removed from the error history or altered in it. */
  lemma {:induction false} ErrorHistoryOnlyGrows(max: int, s: World, run: seq<Action>, regime: Regime)
    requires max >= 1 && Inv(max, s) && Legal(max, s, run, regime)
    ensures s.doc.errors <= Exec(max, s, run, regime).doc.errors
    decreases |run|
  {
    if run != [] {
      var a := run[0];
      if a.Call? {
        assert ThreadOk(max, s.doc.retryCount, |s.sent|, a.t);
        CallAppends(max, |s.sent|, a.t, a.op, s.doc, a.net);
      } else {
        OtherSteps(max, s, a);
      }
      StepKeepsInv(max, s, a);
      ErrorHistoryOnlyGrows(max, Step(max, s, a), run[1..], regime);
    }
  }

  /** Attempts never exceed the configured maximum, however stale the projections are. */
  lemma DispatchAttemptsBounded(max: int, j: Job, run: seq<Action>, regime: Regime)
    requires max >= 1 && Creatable(j) && Legal(max, Initial(j), run, regime)
    ensures 0 <= Exec(max, Initial(j), run, regime).doc.dispatchAttempts <= max
  {
    SaneStart(max, j);
    RunKeepsInv(max, Initial(j), run, regime);
  }

  /** A job is marked dispatched only once a message carrying its id has reached the broker. */
  lemma DispatchedOnlyAfterPublish(max: int, j: Job, run: seq<Action>, regime: Regime)
    requires max >= 1 && Creatable(j) && Legal(max, Initial(j), run, regime)
    ensures var s := Exec(max, Initial(j), run, regime);
            s.doc.dispatchStatus.Dispatched? ==> s.sent != []
  {
    SaneStart(max, j);
    RunKeepsInv(max, Initial(j), run, regime);
  }
}
