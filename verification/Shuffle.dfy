/**
 The dispatcher and the executor do not interfere: each side sees, and leaves
 behind, what it would have alone, however their writes are shuffled.
 Operators' cancellations belong to the executor's side.
 */
module Shuffle {
  import opened Options
  import opened Status
  import opened JobModel
  import opened Writes

  /** One atomic step of one side. `slot` names a cancellation in progress. */
  datatype Act =
    | Dispatching(op: Op)
    | Executing(op: Op)
    | CancelSees(slot: nat)
    | CancelWrites(slot: nat, now: Time, reason: string)
  {
    predicate Dispatchers() {
      Dispatching?
    }

    predicate Legal() {
      match this
      case Dispatching(op) =>
        op.MarkDispatchedIfPending? || op.RecordDispatchAttemptIfPending? || op.MarkDispatchFailedIfPending?
      case Executing(op) =>
        op.MarkRunningIfDispatched? || op.CompleteIfRunning? || (op.FailIfNotTerminal? && op.entry.kind == Execution)
      case _ => true
    }
  }

  /** The document, and what cancellations in progress have read. */
  datatype Desk = Desk(doc: Job, seen: map<nat, Job>)

  function TakeAct(d: Desk, a: Act): Desk {
    match a
    case Dispatching(op) => d.(doc := After(op, d.doc))
    case Executing(op) => d.(doc := After(op, d.doc))
    case CancelSees(slot) => d.(seen := d.seen[slot := d.doc])
    case CancelWrites(slot, now, reason) =>
      if Took(d, a) then d.(doc := ApplyPatch(CancelPatch(d.seen[slot], now, reason), d.doc)) else d
  }

  /** The flag the step returns: whether it matched, or whether the cancellation went ahead. */
  predicate Took(d: Desk, a: Act) {
    match a
    case Dispatching(op) => Guard(op, d.doc)
    case Executing(op) => Guard(op, d.doc)
    case CancelSees(_) => true
    case CancelWrites(slot, _, _) => slot in d.seen && !d.seen[slot].executionStatus.IsTerminal()
  }

  function RunAll(d: Desk, acts: seq<Act>): Desk
    decreases |acts|
  {
    if acts == [] then d else RunAll(TakeAct(d, acts[0]), acts[1..])
  }

  /** The flags returned to one side, in order. */
  function Flags(d: Desk, acts: seq<Act>, dispatchers: bool): seq<bool>
    decreases |acts|
  {
    if acts == [] then []
    else
      (if acts[0].Dispatchers() == dispatchers then [Took(d, acts[0])] else [])
      + Flags(TakeAct(d, acts[0]), acts[1..], dispatchers)
  }

  /** One side's steps, in order. */
  function Only(acts: seq<Act>, dispatchers: bool): seq<Act> {
    if acts == [] then []
    else (if acts[0].Dispatchers() == dispatchers then [acts[0]] else []) + Only(acts[1..], dispatchers)
  }

  datatype DispatchSide = DispatchSide(
    status: DispatchStatus, at: Option<Time>, attempts: int, lastError: string, errors: seq<JobError>)

  datatype ExecutionSide = ExecutionSide(
    status: ExecutionStatus,
    startedAt: Option<Time>,
    completedAt: Option<Time>,
    metadata: Fields,
    errors: seq<JobError>)

  function DispatchView(j: Job): DispatchSide {
    DispatchSide(j.dispatchStatus, j.dispatchedAt, j.dispatchAttempts, j.dispatchLastError,
                 ErrorsOf(j.errors, Dispatch))
  }

  function ExecutionView(j: Job): ExecutionSide {
    ExecutionSide(j.executionStatus, j.startedAt, j.completedAt, j.metadata, ErrorsOf(j.errors, Execution))
  }

  /** The parts of what was read that a cancellation uses. */
  predicate SameSight(seen: map<nat, Job>, seen': map<nat, Job>) {
    seen.Keys == seen'.Keys
    && forall k :: k in seen ==>
         seen[k].executionStatus == seen'[k].executionStatus && seen[k].startedAt == seen'[k].startedAt
         && seen[k].completedAt == seen'[k].completedAt && seen[k].metadata == seen'[k].metadata
  }

  predicate ExecutorsAgree(d: Desk, e: Desk) {
    ExecutionView(d.doc) == ExecutionView(e.doc) && SameSight(d.seen, e.seen)
  }

  predicate DispatchersAgree(d: Desk, e: Desk) {
    DispatchView(d.doc) == DispatchView(e.doc)
  }

  lemma FiledBy(j: Job, op: Op, kind: JobErrorType)
    requires Dispatching(op).Legal() || Executing(op).Legal()
    ensures ErrorsOf(After(op, j).errors, kind)
            == ErrorsOf(j.errors, kind)
               + if Guard(op, j) && op.MarkDispatchFailedIfPending? && kind == Dispatch then
                   [JobError(Dispatch, 0, op.message, op.failedAt)]
                 else if Guard(op, j) && op.FailIfNotTerminal? && kind == Execution then [op.entry]
                 else []
  {
    if op.MarkDispatchFailedIfPending? && Guard(op, j) {
      assert After(op, j).errors == j.errors + [JobError(Dispatch, 0, op.message, op.failedAt)];
      ErrorsOfAppend(j.errors, JobError(Dispatch, 0, op.message, op.failedAt), kind);
    } else if op.FailIfNotTerminal? && Guard(op, j) {
      assert After(op, j).errors == j.errors + [op.entry];
      ErrorsOfAppend(j.errors, op.entry, kind);
    } else {
      FilesNothing(j, op);
    }
  }

  lemma FilesNothing(j: Job, op: Op)
    requires Dispatching(op).Legal() || Executing(op).Legal()
    requires !Guard(op, j) || !(op.MarkDispatchFailedIfPending? || op.FailIfNotTerminal?)
    ensures After(op, j).errors == j.errors
  {
  }

  /** A side's own step: same flag, same effect, on documents that agree on its view. */
  lemma OwnDispatchStep(d: Desk, e: Desk, a: Act)
    requires a.Dispatching? && a.Legal() && DispatchersAgree(d, e)
    ensures Took(d, a) == Took(e, a) && DispatchersAgree(TakeAct(d, a), TakeAct(e, a))
  {
    FiledBy(d.doc, a.op, Dispatch);
    FiledBy(e.doc, a.op, Dispatch);
  }

  lemma OwnExecutionStep(d: Desk, e: Desk, a: Act)
    requires !a.Dispatching? && a.Legal() && ExecutorsAgree(d, e)
    ensures Took(d, a) == Took(e, a) && ExecutorsAgree(TakeAct(d, a), TakeAct(e, a))
  {
    if a.Executing? {
      FiledBy(d.doc, a.op, Execution);
      FiledBy(e.doc, a.op, Execution);
    }
  }

  /** The other side's step: nothing to be seen of it. */
  lemma OthersStep(d: Desk, e: Desk, a: Act)
    requires a.Legal()
    ensures a.Dispatching? && ExecutorsAgree(d, e) ==> ExecutorsAgree(TakeAct(d, a), e)
    ensures !a.Dispatching? && DispatchersAgree(d, e) ==> DispatchersAgree(TakeAct(d, a), e)
  {
    if a.Dispatching? {
      FiledBy(d.doc, a.op, Execution);
    }
    if a.Executing? {
      FiledBy(d.doc, a.op, Dispatch);
    }
  }

  lemma {:induction false} DispatchersUndisturbed(d: Desk, e: Desk, acts: seq<Act>)
    requires (forall k :: 0 <= k < |acts| ==> acts[k].Legal()) && DispatchersAgree(d, e)
    ensures DispatchersAgree(RunAll(d, acts), RunAll(e, Only(acts, true)))
    ensures Flags(d, acts, true) == Flags(e, Only(acts, true), true)
    decreases |acts|
  {
    if acts != [] {
      var a, rest := acts[0], acts[1..];
      if a.Dispatching? {
        OwnDispatchStep(d, e, a);
        assert Only(acts, true)[1..] == Only(rest, true);
        DispatchersUndisturbed(TakeAct(d, a), TakeAct(e, a), rest);
      } else {
        OthersStep(d, e, a);
        assert Only(acts, true) == Only(rest, true);
        DispatchersUndisturbed(TakeAct(d, a), e, rest);
      }
    }
  }

  lemma {:induction false} ExecutorsUndisturbed(d: Desk, e: Desk, acts: seq<Act>)
    requires (forall k :: 0 <= k < |acts| ==> acts[k].Legal()) && ExecutorsAgree(d, e)
    ensures ExecutorsAgree(RunAll(d, acts), RunAll(e, Only(acts, false)))
    ensures Flags(d, acts, false) == Flags(e, Only(acts, false), false)
    decreases |acts|
  {
    if acts != [] {
      var a, rest := acts[0], acts[1..];
      if a.Dispatching? {
        OthersStep(d, e, a);
        assert Only(acts, false) == Only(rest, false);
        ExecutorsUndisturbed(TakeAct(d, a), e, rest);
      } else {
        OwnExecutionStep(d, e, a);
        assert Only(acts, false)[1..] == Only(rest, false);
        ExecutorsUndisturbed(TakeAct(d, a), TakeAct(e, a), rest);
      }
    }
  }

  // ---- Main result ----

  /**
   For every job and every shuffle of a dispatcher-side and an executor-side
   sequence of steps: each side's fields, each side's entries in the error
   history and every flag returned are what that side's sequence gives alone.
   */
  lemma SidesDoNotInterfere(j: Job, acts: seq<Act>)
    requires forall k :: 0 <= k < |acts| ==> acts[k].Legal()
    ensures var both, start := RunAll(Desk(j, map[]), acts), Desk(j, map[]);
            && DispatchView(both.doc) == DispatchView(RunAll(start, Only(acts, true)).doc)
            && ExecutionView(both.doc) == ExecutionView(RunAll(start, Only(acts, false)).doc)
            && Flags(start, acts, true) == Flags(start, Only(acts, true), true)
            && Flags(start, acts, false) == Flags(start, Only(acts, false), false)
  {
    DispatchersUndisturbed(Desk(j, map[]), Desk(j, map[]), acts);
    ExecutorsUndisturbed(Desk(j, map[]), Desk(j, map[]), acts);
  }

  /** The stored status is the one field both sides write, and there the last writer wins. */
  lemma StoredStatusIsContested(j: Job)
    requires j.dispatchStatus.Pending? && j.executionStatus.NotStarted?
    ensures var confirm, start := Dispatching(MarkDispatchedIfPending(1)), Executing(MarkRunningIfDispatched(1));
            && RunAll(Desk(j, map[]), [confirm, start]).doc.status == JobStatus.Running
            && RunAll(Desk(j, map[]), [start, confirm]).doc.status == JobStatus.Dispatched
            && RunAll(Desk(j, map[]), [start, confirm]).doc.DisplayStatus() == JobStatus.Running
  {
    var confirm, start := Dispatching(MarkDispatchedIfPending(1)), Executing(MarkRunningIfDispatched(1));
    var started, confirmed := After(start.op, j), After(confirm.op, j);
    assert started.dispatchStatus.Pending? && started.executionStatus.Running?;
    assert confirmed.executionStatus.NotStarted?;
    RunTwo(Desk(j, map[]), confirm, start);
    RunTwo(Desk(j, map[]), start, confirm);
  }

  lemma RunTwo(d: Desk, a: Act, b: Act)
    ensures RunAll(d, [a, b]) == TakeAct(TakeAct(d, a), b)
  {
    assert [a, b][1..] == [b];
    assert RunAll(TakeAct(d, a), [b]) == RunAll(TakeAct(TakeAct(d, a), b), []);
  }
}
