/**
 The two independently owned states of a job, the seven-value status derived
 from them, and their transition tables.

 Each status is a string in the program.  `Unknown` stands for every string
 that is not one of the declared constants.
 */
module Status {

  /** Owned by the dispatcher: publish and retry bookkeeping. */
  datatype DispatchStatus = Pending | Dispatched | Failed | Unknown(text: string) {

    predicate IsValid() {
      !Unknown?
    }

    predicate CanTransitionTo(target: DispatchStatus) {
      target.IsValid() && this != target &&
      match this
      case Pending => target.Dispatched? || target.Failed?
      case Failed => target.Pending?
      case Dispatched => false
      case Unknown(_) => false
    }
  }

  /** Owned by the executor, and by cancellation. */
  datatype ExecutionStatus = NotStarted | Running | Completed | Failed | Cancelled | Unknown(text: string) {

    predicate IsValid() {
      !Unknown?
    }

    predicate IsTerminal() {
      Completed? || Failed? || Cancelled?
    }

    predicate CanTransitionTo(target: ExecutionStatus) {
      target.IsValid() && this != target && !IsTerminal() &&
      match this
      case NotStarted => target.Running? || target.Failed? || target.Cancelled?
      case Running => target.Completed? || target.Failed? || target.Cancelled?
      case _ => false
    }
  }

  /** The external, seven-value status. */
  datatype JobStatus =
    | PendingDispatch
    | Dispatched
    | DispatchFailed
    | Running
    | Completed
    | Failed
    | Cancelled
    | Unknown(text: string)
  {
    predicate IsValid() {
      !Unknown?
    }

    predicate IsTerminal() {
      Completed? || Failed? || Cancelled?
    }

    predicate IsDispatchPhase() {
      PendingDispatch? || Dispatched? || DispatchFailed?
    }

    predicate CanTransitionTo(target: JobStatus) {
      if !target.IsValid() || this == target then false
      else if Failed? then target.PendingDispatch?
      else if IsTerminal() then false
      else
        match this
        case PendingDispatch => target.Dispatched? || target.DispatchFailed? || target.Cancelled?
        case DispatchFailed => target.PendingDispatch?
        case Dispatched => target.Running? || target.Cancelled? || target.Failed?
        case Running => target.Completed? || target.Failed? || target.Cancelled?
        case _ => false
    }
  }

  datatype CompositeStatus = CompositeStatus(dispatch: DispatchStatus, execution: ExecutionStatus) {

    predicate IsValid() {
      dispatch.IsValid() && execution.IsValid()
    }

    /** Execution wins as soon as it has moved past not_started. */
    function DisplayStatus(): JobStatus {
      match execution
      case Running => JobStatus.Running
      case Completed => JobStatus.Completed
      case Failed => JobStatus.Failed
      case Cancelled => JobStatus.Cancelled
      case _ =>
        match dispatch
        case Dispatched => JobStatus.Dispatched
        case Failed => JobStatus.DispatchFailed
        case _ => JobStatus.PendingDispatch
    }
  }
}
