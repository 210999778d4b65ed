/**
 The exact shape of the error history, in runs where every retry is atomic and
 none falls between a FailJob's read and its write.  Lost answers, crashes and
 racing cancels are all allowed.
 */
module ErrorLaw {
  import opened Options
  import opened Status
  import opened JobModel
  import opened Writes
  import opened Protocol
  import opened Machine
  import opened Counting
  import opened AtomicRetry
  import opened Acks

  /** Some FailJob has read the retry count and not yet written. */
  ghost predicate FailureInFlight(s: World) {
    exists t :: t in s.threads && t.FailWrite?
  }

  ghost const RETRIES_APART: (World, Macro) -> bool :=
    (s: World, m: Macro) => m.WholeRetry? ==> !FailureInFlight(s)

  /** The i-th execution entry is filed under attempt i. */
  predicate Numbered(entries: seq<JobError>) {
    forall i :: 0 <= i < |entries| ==> entries[i].retryAttempt == i
  }

  /** What a thread's locals say while retries stay apart. */
  predicate Fresh(t: Pc, retryCount: int) {
    !Retrying(t) && (t.FailWrite? ==> t.attempt == retryCount) && (t.CancelWrite? ==> IsCancelPatch(t.patch))
  }

  predicate DocLaw(j: Job, overwrites: nat) {
    && j.executionStatus.IsValid()
    && (overwrites == 0 || (overwrites == 1 && j.executionStatus.Cancelled?))
    && CountErrors(j.errors, Execution) == j.retryCount + Bit(j.executionStatus.Failed?) + overwrites
    && Numbered(ErrorsOf(j.errors, Execution))
  }

  ghost predicate Law(s: World) {
    && DocLaw(s.doc, s.h.overwrites)
    && forall t :: t in s.threads ==> Fresh(t, s.doc.retryCount)
  }

  /** A call other than a failure write leaves the execution entries alone. */
  lemma EntriesKept(t: Pc, op: Op, j: Job, net: Net)
    requires Issues(t, op) && Fresh(t, j.retryCount) && !(op.FailIfNotTerminal? && Matches(op, j, net))
    ensures ErrorsOf(Landed(op, j, net).errors, Execution) == ErrorsOf(j.errors, Execution)
  {
    if op.MarkDispatchFailedIfPending? && Matches(op, j, net) {
      ErrorsOfAppend(j.errors, JobError(Dispatch, 0, op.message, op.failedAt), Execution);
    }
  }

  lemma CallKeepsDocLaw(t: Pc, op: Op, j: Job, net: Net, overwrites: nat)
    requires Issues(t, op) && Fresh(t, j.retryCount) && DocLaw(j, overwrites)
    ensures Landed(op, j, net).retryCount == j.retryCount
    ensures DocLaw(Landed(op, j, net),
                   overwrites + Bit(t.CancelWrite? && Matches(op, j, net) && j.executionStatus.Failed?))
  {
    if op.FailIfNotTerminal? && Matches(op, j, net) {
      ErrorsOfAppend(j.errors, op.entry, Execution);
    } else {
      EntriesKept(t, op, j, net);
    }
  }

  lemma AnswersFresh(max: int, t: Pc, op: Op, j: Job, net: Net)
    requires Issues(t, op) && Fresh(t, j.retryCount)
    ensures Fresh(Resume(max, t, ReplyOver(op, j, net)), j.retryCount)
  {
  }

  lemma CallKeepsLaw(max: int, s: World, t: Pc, op: Op, net: Net)
    requires Law(s) && t in s.threads && Issues(t, op)
    ensures Law(CallStep(max, s, t, op, net))
  {
    CallKeepsDocLaw(t, op, s.doc, net, s.h.overwrites);
    AnswersFresh(max, t, op, s.doc, net);
  }

  lemma ArrivalFresh(max: int, s: World, a: Action)
    requires Enabled(max, s, a) && !a.Call? && !a.RequestRetry?
    ensures Fresh(Arrives(s, a), s.doc.retryCount)
  {
  }

  lemma OtherStepKeepsLaw(max: int, s: World, a: Action, s': World)
    requires Law(s) && Enabled(max, s, a) && !a.Call? && !a.RequestRetry? && s' == Step(max, s, a)
    ensures Law(s')
  {
    OtherSteps(max, s, a);
    OtherThreads(max, s, a, s');
    ArrivalFresh(max, s, a);
  }

  lemma RetriedErrors(j: Job)
    ensures Retried(j).errors == j.errors && Retried(j).retryCount == j.retryCount + 1
    ensures Retried(j).executionStatus.NotStarted?
  {
  }

  lemma RetryKeepsLaw(max: int, s: World)
    requires Law(s) && s.doc.executionStatus.Failed? && !FailureInFlight(s)
    ensures Law(MacroStep(max, s, WholeRetry))
  {
    RetryIsLegal(max, s);
    RetriedErrors(s.doc);
  }

  lemma {:induction false} RunKeepsLaw(max: int, s: World, run: seq<Macro>)
    requires Law(s) && MacroLegal(max, s, run, RETRIES_APART)
    ensures Law(MacroExec(max, s, run, RETRIES_APART))
    decreases |run|
  {
    if run != [] {
      match run[0] {
        case WholeRetry => RetryKeepsLaw(max, s);
        case One(a) =>
          if a.Call? {
            CallKeepsLaw(max, s, a.t, a.op, a.net);
          } else {
            OtherStepKeepsLaw(max, s, a, Step(max, s, a));
          }
      }
      RunKeepsLaw(max, MacroStep(max, s, run[0]), run[1..]);
    }
  }

  // ---- Main result ----

  /**
   One execution entry per retry, one more while the job is failed, filed in
   order under attempts 0, 1, 2, ...  The count is off exactly when a
   cancellation has overwritten a failure it raced with, and then by one.
   */
  lemma ExactErrorHistory(max: int, j: Job, run: seq<Macro>)
    requires Creatable(j) && MacroLegal(max, Initial(j), run, RETRIES_APART)
    ensures var s := MacroExec(max, Initial(j), run, RETRIES_APART);
            var entries := ErrorsOf(s.doc.errors, Execution);
            && Numbered(entries)
            && s.h.overwrites <= 1
            && |entries| == s.doc.retryCount + Bit(s.doc.executionStatus.Failed?) + s.h.overwrites
            && (|entries| == s.doc.retryCount + Bit(s.doc.executionStatus.Failed?) <==> s.h.overwrites == 0)
            && (s.h.overwrites == 1 ==> s.doc.executionStatus.Cancelled?)
  {
    RunKeepsLaw(max, Initial(j), run);
  }
}
