/** The seven-value status as a refinement: which changes an observer can see, and how many. */
module Display {
  import opened Options
  import opened Status
  import opened JobModel
  import opened Writes
  import opened Protocol
  import opened Machine
  import opened Counting

  /** Changes outside the transition table: the executor and the operators may overtake the dispatcher. */
  predicate Overtakes(from: JobStatus, to: JobStatus) {
    || (from.PendingDispatch? && (to.Running? || to.Failed?))
    || (from.DispatchFailed? && (to.Running? || to.Failed? || to.Cancelled?))
  }

  function Rank(d: JobStatus): nat {
    if d.IsTerminal() then 3
    else if d.Running? then 2
    else if d.PendingDispatch? then 0
    else 1
  }

  /** A cancel lands on a job that has completed or failed since the cancel read it. */
  predicate LandsLateCancel(j: Job, t: Pc, net: Net) {
    t.CancelWrite? && !net.LostRequest? && (j.executionStatus.Completed? || j.executionStatus.Failed?)
  }

  /** A reset lands on a job that another retry has already taken back, and that has moved on since. */
  predicate LandsSecondReset(j: Job, t: Pc, net: Net) {
    var d := j.DisplayStatus();
    t.RetryReset? && !net.LostRequest? && !(d.PendingDispatch? || d.Failed? || d.DispatchFailed?)
  }

  /** A reset lands on a job with anything to take back. */
  predicate LandsReset(j: Job, t: Pc, net: Net) {
    t.RetryReset? && !net.LostRequest? && !j.DisplayStatus().PendingDispatch?
  }

  predicate AlongEdge(from: JobStatus, to: JobStatus) {
    from == to || from.CanTransitionTo(to) || Overtakes(from, to)
  }

  lemma CallTakesEdgeExactly(max: int, sent: nat, t: Pc, op: Op, j: Job, net: Net)
    requires DocSane(max, j) && Issues(t, op) && ThreadOk(max, j.retryCount, sent, t)
    ensures AlongEdge(j.DisplayStatus(), Landed(op, j, net).DisplayStatus())
            <==> !LandsLateCancel(j, t, net) && !LandsSecondReset(j, t, net)
  {
  }

  lemma CallClimbsExactly(max: int, sent: nat, t: Pc, op: Op, j: Job, net: Net)
    requires DocSane(max, j) && Issues(t, op) && ThreadOk(max, j.retryCount, sent, t)
    ensures var from, to := j.DisplayStatus(), Landed(op, j, net).DisplayStatus();
            && (from == to || Rank(from) < Rank(to) <==> !LandsLateCancel(j, t, net) && !LandsReset(j, t, net))
            && (LandsLateCancel(j, t, net) ==> Rank(from) == Rank(to))
  {
  }

  predicate LateCancel(s: World, a: Action) {
    a.Call? && LandsLateCancel(s.doc, a.t, a.net)
  }

  predicate SecondReset(s: World, a: Action) {
    a.Call? && LandsSecondReset(s.doc, a.t, a.net)
  }

  predicate Reset(s: World, a: Action) {
    a.Call? && LandsReset(s.doc, a.t, a.net)
  }

  /** Every visible change is an edge of the table or an overtaking, but for late cancels and second resets. */
  lemma StepTakesEdgeExactly(max: int, s: World, a: Action)
    requires Sane(max, s) && Enabled(max, s, a)
    ensures AlongEdge(s.doc.DisplayStatus(), Step(max, s, a).doc.DisplayStatus())
            <==> !LateCancel(s, a) && !SecondReset(s, a)
  {
    if a.Call? {
      assert ThreadOk(max, s.doc.retryCount, |s.sent|, a.t);
      CallTakesEdgeExactly(max, |s.sent|, a.t, a.op, s.doc, a.net);
    } else {
      OtherSteps(max, s, a);
    }
  }

  /** Every visible change goes up in rank, but for late cancels and resets. */
  lemma StepClimbsExactly(max: int, s: World, a: Action)
    requires Sane(max, s) && Enabled(max, s, a)
    ensures var from, to := s.doc.DisplayStatus(), Step(max, s, a).doc.DisplayStatus();
            && (from == to || Rank(from) < Rank(to) <==> !LateCancel(s, a) && !Reset(s, a))
            && (LateCancel(s, a) ==> Rank(from) == Rank(to))
  {
    if a.Call? {
      assert ThreadOk(max, s.doc.retryCount, |s.sent|, a.t);
      CallClimbsExactly(max, |s.sent|, a.t, a.op, s.doc, a.net);
    } else {
      OtherSteps(max, s, a);
    }
  }

  /** How often the visible status changes along a run. */
  function VisibleChanges(max: int, s: World, run: seq<Action>): nat
    requires Legal(max, s, run, ANY_STEP)
    decreases |run|
  {
    if run == [] then 0
    else
      var s' := Step(max, s, run[0]);
      Bit(s.doc.DisplayStatus() != s'.doc.DisplayStatus()) + VisibleChanges(max, s', run[1..])
  }

  function LateCancels(max: int, s: World, run: seq<Action>): nat
    requires Legal(max, s, run, ANY_STEP)
    decreases |run|
  {
    if run == [] then 0 else Bit(LateCancel(s, run[0])) + LateCancels(max, Step(max, s, run[0]), run[1..])
  }

  function Resets(max: int, s: World, run: seq<Action>): nat
    requires Legal(max, s, run, ANY_STEP)
    decreases |run|
  {
    if run == [] then 0 else Bit(Reset(s, run[0])) + Resets(max, Step(max, s, run[0]), run[1..])
  }

  /** A reset can undo three changes, and is one itself; a late cancel is one that leads nowhere. */
  lemma {:induction false} ChangesClimb(max: int, s: World, run: seq<Action>)
    requires max >= 1 && Sane(max, s) && Legal(max, s, run, ANY_STEP)
    ensures Rank(s.doc.DisplayStatus()) + VisibleChanges(max, s, run)
            <= Rank(Exec(max, s, run, ANY_STEP).doc.DisplayStatus())
               + LateCancels(max, s, run) + 4 * Resets(max, s, run)
    decreases |run|
  {
    if run != [] {
      StepClimbsExactly(max, s, run[0]);
      StepKeepsSane(max, s, run[0]);
      ChangesClimb(max, Step(max, s, run[0]), run[1..]);
    }
  }

  /** In any run: three visible changes for a start, four more a reset, one more a late cancel. */
  lemma VisibleChangesBounded(max: int, s: World, run: seq<Action>)
    requires max >= 1 && Inv(max, s) && Legal(max, s, run, ANY_STEP)
    ensures VisibleChanges(max, s, run)
            <= 3 - Rank(s.doc.DisplayStatus()) + LateCancels(max, s, run) + 4 * Resets(max, s, run)
  {
    ChangesClimb(max, s, run);
  }

  /** Between resets, and without late cancels. */
  const ORDERLY: Regime := (s: World, a: Action) => !LateCancel(s, a) && !Reset(s, a)

  lemma {:induction false} OrderlyRuns(max: int, s: World, run: seq<Action>)
    requires Legal(max, s, run, ORDERLY)
    ensures Legal(max, s, run, ANY_STEP) && LateCancels(max, s, run) == 0 && Resets(max, s, run) == 0
    decreases |run|
  {
    if run != [] {
      OrderlyRuns(max, Step(max, s, run[0]), run[1..]);
    }
  }

  /** From any state a run of this kind can reach or start in, at most three visible changes happen. */
  lemma AtMostThreeVisibleChanges(max: int, s: World, run: seq<Action>)
    requires max >= 1 && Inv(max, s) && Legal(max, s, run, ORDERLY)
    ensures Legal(max, s, run, ANY_STEP)
    ensures VisibleChanges(max, s, run) <= 3 - Rank(s.doc.DisplayStatus())
  {
    OrderlyRuns(max, s, run);
    VisibleChangesBounded(max, s, run);
  }

  // ---- The edges are no more than the code can take ----

  /** The write that takes a job along an edge, if one does. */
  function WriteFor(to: JobStatus): (Pc, Op) {
    match to
    case Dispatched => (Confirm(0), MarkDispatchedIfPending(1))
    case DispatchFailed => (MarkFailed("e"), MarkDispatchFailedIfPending("e", 1))
    case Running => (Start(0), MarkRunningIfDispatched(1))
    case Completed => (Complete(0, None), CompleteIfRunning(1, None))
    case Failed => (FailWrite(Caller, "e", 0), FailIfNotTerminal(JobError(Execution, 0, "e", 1), 1))
    case _ =>
      var patch := UpdateJob(status := Some(JobStatus.Cancelled), executionStatus := Some(ExecutionStatus.Cancelled),
                             startedAt := Some(1), completedAt := Some(1));
      (CancelWrite(ExecutionStatus.NotStarted, patch), Update(patch))
  }

  /** Every allowed edge that does not lead back to pending is taken by some write, from every document there. */
  lemma EveryEdgeIsTaken(j: Job, to: JobStatus)
    requires j.Composite().IsValid() && !to.PendingDispatch?
    requires j.DisplayStatus().CanTransitionTo(to) || Overtakes(j.DisplayStatus(), to)
    ensures Issues(WriteFor(to).0, WriteFor(to).1)
    ensures Landed(WriteFor(to).1, j, Fine).DisplayStatus() == to
  {
  }

  // ---- Once dispatched ----

  const NO_RESET: Regime := (s: World, a: Action) => a.Call? ==> !a.t.RetryReset?

  predicate SameDispatch(j: Job, k: Job) {
    && j.dispatchStatus == k.dispatchStatus && j.dispatchedAt == k.dispatchedAt
    && j.dispatchAttempts == k.dispatchAttempts && j.dispatchLastError == k.dispatchLastError
  }

  lemma ConfirmedStays(max: int, sent: nat, t: Pc, op: Op, j: Job, net: Net)
    requires Issues(t, op) && ThreadOk(max, j.retryCount, sent, t) && !t.RetryReset?
    requires j.dispatchStatus.Dispatched?
    ensures SameDispatch(j, Landed(op, j, net))
  {
  }

  /** Within one attempt the first confirm is the last word: no later dispatch changes what it recorded. */
  lemma {:induction false} FirstConfirmStands(max: int, s: World, run: seq<Action>)
    requires max >= 1 && Sane(max, s) && Legal(max, s, run, NO_RESET) && s.doc.dispatchStatus.Dispatched?
    ensures SameDispatch(s.doc, Exec(max, s, run, NO_RESET).doc)
    decreases |run|
  {
    if run != [] {
      var a := run[0];
      StepKeepsSane(max, s, a);
      if a.Call? {
        assert ThreadOk(max, s.doc.retryCount, |s.sent|, a.t);
        ConfirmedStays(max, |s.sent|, a.t, a.op, s.doc, a.net);
      } else {
        OtherSteps(max, s, a);
      }
      FirstConfirmStands(max, Step(max, s, a), run[1..]);
    }
  }
}
