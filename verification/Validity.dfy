/**
 The validation rules as an invariant: every document the system stores passes
 them after every atomic step, as long as retries are atomic.
 */
module Validity {
  import opened Options
  import opened Status
  import opened JobModel
  import opened Writes
  import opened Protocol
  import opened Machine
  import opened Counting
  import opened AtomicRetry
  import opened Acks

  /** Validation, strengthened by the one fact it needs to survive a retry. */
  predicate Strong(j: Job) {
    j.IsValid() && j.topic != ""
  }

  predicate Harmless(t: Pc) {
    && !Retrying(t)
    && (t.Record? ==> t.attempts >= 0)
    && (t.CancelWrite? ==> IsCancelPatch(t.patch))
    && (t.Publish? ==> t.job.dispatchAttempts >= 0)
  }

  ghost predicate AllStrong(s: World) {
    Strong(s.inserted) && Strong(s.doc) && forall t :: t in s.threads ==> Harmless(t)
  }

  lemma CallKeepsStrong(t: Pc, op: Op, j: Job, net: Net)
    requires Issues(t, op) && Harmless(t) && Strong(j)
    ensures Strong(Landed(op, j, net))
  {
  }

  lemma AnswersHarmless(max: int, t: Pc, op: Op, j: Job, net: Net)
    requires Issues(t, op) && Harmless(t)
    ensures Harmless(Resume(max, t, ReplyOver(op, j, net)))
  {
  }

  /** Failed jobs only: the guard of RetryJob. */
  lemma RetriedStrong(j: Job)
    requires Strong(j) && j.executionStatus.Failed?
    ensures Strong(Retried(j))
  {
  }

  lemma MacroKeepsStrong(max: int, s: World, m: Macro)
    requires AllStrong(s) && MacroEnabled(max, s, m)
    ensures AllStrong(MacroStep(max, s, m))
  {
    match m {
      case WholeRetry =>
        RetryIsLegal(max, s);
        RetriedStrong(s.doc);
      case One(a) =>
        if a.Call? {
          CallKeepsStrong(a.t, a.op, s.doc, a.net);
          AnswersHarmless(max, a.t, a.op, s.doc, a.net);
        } else {
          OtherStepKeepsStrong(max, s, a, Step(max, s, a));
        }
    }
  }

  lemma ArrivalHarmless(max: int, s: World, a: Action)
    requires AllStrong(s) && Enabled(max, s, a) && !a.Call? && !a.RequestRetry?
    ensures Harmless(Arrives(s, a))
  {
    if a.Send? {
      assert Harmless(a.t);
    }
  }

  lemma OtherStepKeepsStrong(max: int, s: World, a: Action, s': World)
    requires AllStrong(s) && Enabled(max, s, a) && !a.Call? && !a.RequestRetry? && s' == Step(max, s, a)
    ensures AllStrong(s')
  {
    OtherSteps(max, s, a);
    OtherThreads(max, s, a, s');
    ArrivalHarmless(max, s, a);
  }

  lemma {:induction false} RunKeepsStrong(max: int, s: World, run: seq<Macro>, regime: (World, Macro) -> bool)
    requires AllStrong(s) && MacroLegal(max, s, run, regime)
    ensures AllStrong(MacroExec(max, s, run, regime))
    decreases |run|
  {
    if run != [] {
      MacroKeepsStrong(max, s, run[0]);
      RunKeepsStrong(max, MacroStep(max, s, run[0]), run[1..], regime);
    }
  }

  // ---- Main results ----

  /** Whatever the interleaving, losses and crashes: the stored document passes validation. */
  lemma StoredJobsStayValid(max: int, j: Job, run: seq<Macro>, regime: (World, Macro) -> bool)
    requires Creatable(j) && MacroLegal(max, Initial(j), run, regime)
    ensures MacroExec(max, Initial(j), run, regime).doc.IsValid()
  {
    RunKeepsStrong(max, Initial(j), run, regime);
  }

  /** In the middle of a retry of any valid failed job the document breaks exactly one rule. */
  lemma RetryIsInvalidMidway(j: Job)
    requires Strong(j) && j.executionStatus.Failed?
    ensures var midway := After(Update(ResetPatch()), After(IncrementRetryCount, j));
            && Validate(midway) == Some(DispatchPhaseTimestamps)
            && Validate(After(ClearJobExecutionTimestamps, midway)) == None
  {
    RetriedStrong(j);
  }

  /** Validation alone does not survive a retry: it does exactly when the job has a topic. */
  lemma RetryNeedsTopic(j: Job)
    requires j.IsValid() && j.executionStatus.Failed?
    ensures Retried(j).IsValid() <==> j.topic != ""
  {
  }

  /** A call with which a retry that is not alone can break a valid document. */
  predicate Breaks(t: Pc, j: Job) {
    || (t.RetryReset? && (j.startedAt.Some? || j.completedAt.Some?))
    || (t.RetryClear? && !j.executionStatus.NotStarted?)
  }

  /** Whatever interleaves with it, a call that lands keeps a valid document valid exactly when it is none of those. */
  lemma ValidityLostExactly(t: Pc, op: Op, j: Job, net: Net)
    requires Issues(t, op) && (Harmless(t) || Retrying(t)) && Strong(j)
    ensures Strong(Landed(op, j, net)) <==> net.LostRequest? || !Breaks(t, j)
  {
    if Harmless(t) {
      CallKeepsStrong(t, op, j, net);
    }
  }

  /** What a thread at any point of any program may hold. */
  ghost predicate StrongThroughout(s: World) {
    Strong(s.inserted) && Strong(s.doc) && forall t :: t in s.threads ==> Harmless(t) || Retrying(t)
  }

  /** The step lets a retry break the document. */
  predicate BreaksDocument(s: World, a: Action) {
    a.Call? && !a.net.LostRequest? && Breaks(a.t, s.doc)
  }

  lemma AnswersHarmlessOrRetrying(max: int, t: Pc, op: Op, j: Job, net: Net)
    requires Issues(t, op) && (Harmless(t) || Retrying(t))
    ensures var u := Resume(max, t, ReplyOver(op, j, net)); Harmless(u) || Retrying(u)
  {
  }

  lemma CallStaysHarmless(max: int, s: World, t: Pc, op: Op, net: Net, s': World)
    requires StrongThroughout(s) && t in s.threads && Issues(t, op) && s' == CallStep(max, s, t, op, net)
    ensures s'.inserted == s.inserted && s'.doc == Landed(op, s.doc, net)
    ensures forall x :: x in s'.threads ==> Harmless(x) || Retrying(x)
  {
    AnswersHarmlessOrRetrying(max, t, op, s.doc, net);
  }

  lemma ArrivalHarmlessOrRetrying(max: int, s: World, a: Action)
    requires StrongThroughout(s) && Enabled(max, s, a) && !a.Call?
    ensures Harmless(Arrives(s, a)) || Retrying(Arrives(s, a))
  {
    if a.Send? {
      assert Harmless(a.t);
    }
  }

  lemma OtherStepStaysStrong(max: int, s: World, a: Action, s': World)
    requires StrongThroughout(s) && Enabled(max, s, a) && !a.Call? && s' == Step(max, s, a)
    ensures StrongThroughout(s')
  {
    OtherSteps(max, s, a);
    OtherThreads(max, s, a, s');
    ArrivalHarmlessOrRetrying(max, s, a);
  }

  lemma StepBreaksExactly(max: int, s: World, a: Action)
    requires StrongThroughout(s) && Enabled(max, s, a)
    ensures StrongThroughout(Step(max, s, a)) <==> !BreaksDocument(s, a)
    ensures Strong(Step(max, s, a).doc) <==> !BreaksDocument(s, a)
  {
    if a.Call? {
      ValidityLostExactly(a.t, a.op, s.doc, a.net);
      CallStaysHarmless(max, s, a.t, a.op, a.net, Step(max, s, a));
    } else {
      OtherStepStaysStrong(max, s, a, Step(max, s, a));
    }
  }

  ghost predicate ValidThroughout(max: int, s: World, run: seq<Action>)
    requires Legal(max, s, run, ANY_STEP)
    decreases |run|
  {
    Strong(s.doc) && (run != [] ==> ValidThroughout(max, Step(max, s, run[0]), run[1..]))
  }

  ghost predicate NeverBreaks(max: int, s: World, run: seq<Action>)
    requires Legal(max, s, run, ANY_STEP)
    decreases |run|
  {
    run != [] ==> !BreaksDocument(s, run[0]) && NeverBreaks(max, Step(max, s, run[0]), run[1..])
  }

  lemma {:induction false} ValidExactlyFrom(max: int, s: World, run: seq<Action>)
    requires StrongThroughout(s) && Legal(max, s, run, ANY_STEP)
    ensures ValidThroughout(max, s, run) <==> NeverBreaks(max, s, run)
    decreases |run|
  {
    if run != [] {
      var s' := Step(max, s, run[0]);
      StepBreaksExactly(max, s, run[0]);
      if !BreaksDocument(s, run[0]) {
        ValidExactlyFrom(max, s', run[1..]);
      } else {
        assert !ValidThroughout(max, s', run[1..]);
      }
    }
  }

  /**
   In any run at all, retries included that overlap with anything, the document
   is valid throughout exactly when no reset finds a timestamp to contradict it
   and no clear finds the job started again.
   */
  lemma ValidExactly(max: int, j: Job, run: seq<Action>)
    requires Creatable(j) && Legal(max, Initial(j), run, ANY_STEP)
    ensures ValidThroughout(max, Initial(j), run) <==> NeverBreaks(max, Initial(j), run)
  {
    ValidExactlyFrom(max, Initial(j), run);
  }

  // ---- Validity and timestamps ----

  /** The timestamps that go with the execution status. */
  predicate TimesFit(j: Job) {
    match j.executionStatus
    case NotStarted => j.startedAt.None? && j.completedAt.None?
    case Running => j.startedAt.Some?
    case Completed => j.startedAt.Some? && j.completedAt.Some?
    case Cancelled => j.startedAt.Some? && j.completedAt.Some?
    case Failed => j.completedAt.Some?
    case Unknown(_) => false
  }

  /** Every rule that is not about timestamps, and a topic. */
  predicate FieldsFit(j: Job) {
    && IsUuidLength(j.jobId) && IsNameLength(j.name)
    && j.dispatchStatus.IsValid() && j.executionStatus.IsValid() && j.status.IsValid()
    && 0 <= j.priority <= 10 && j.createdAt != 0
    && j.retryCount >= 0 && j.dispatchAttempts >= 0 && j.topic != ""
    && (j.executionStatus.Failed? ==> j.errors != [])
  }

  lemma StrongMeansBothFit(j: Job)
    ensures Strong(j) <==> FieldsFit(j) && TimesFit(j)
  {
  }

  /** No call of any program breaks a rule that is not about timestamps. */
  lemma FieldsStayFit(t: Pc, op: Op, j: Job, net: Net)
    requires Issues(t, op) && (Harmless(t) || Retrying(t)) && FieldsFit(j)
    ensures FieldsFit(Landed(op, j, net))
  {
  }

  ghost predicate FitThroughout(s: World) {
    Strong(s.inserted) && FieldsFit(s.doc) && forall t :: t in s.threads ==> Harmless(t) || Retrying(t)
  }

  lemma StepStaysFit(max: int, s: World, a: Action, s': World)
    requires FitThroughout(s) && Enabled(max, s, a) && s' == Step(max, s, a)
    ensures FitThroughout(s')
  {
    if a.Call? {
      FieldsStayFit(a.t, a.op, s.doc, a.net);
      AnswersHarmlessOrRetrying(max, a.t, a.op, s.doc, a.net);
    } else {
      OtherSteps(max, s, a);
      OtherThreads(max, s, a, s');
      ArrivalFits(max, s, a);
    }
  }

  lemma ArrivalFits(max: int, s: World, a: Action)
    requires FitThroughout(s) && Enabled(max, s, a) && !a.Call?
    ensures Harmless(Arrives(s, a)) || Retrying(Arrives(s, a))
  {
    if a.Send? {
      assert Harmless(a.t);
    }
  }

  lemma {:induction false} RunStaysFit(max: int, s: World, run: seq<Action>, regime: Regime)
    requires FitThroughout(s) && Legal(max, s, run, regime)
    ensures FitThroughout(Exec(max, s, run, regime))
    decreases |run|
  {
    if run != [] {
      StepStaysFit(max, s, run[0], Step(max, s, run[0]));
      RunStaysFit(max, Step(max, s, run[0]), run[1..], regime);
    }
  }

  /** In any run whatever, the document is valid exactly when its timestamps fit its execution status. */
  lemma ValidExactlyByTimes(max: int, j: Job, run: seq<Action>, regime: Regime)
    requires Creatable(j) && Legal(max, Initial(j), run, regime)
    ensures var doc := Exec(max, Initial(j), run, regime).doc;
            doc.IsValid() <==> TimesFit(doc)
  {
    StrongMeansBothFit(j);
    RunStaysFit(max, Initial(j), run, regime);
    StrongMeansBothFit(Exec(max, Initial(j), run, regime).doc);
  }

  // ---- Between reset and clear ----

  predicate LandsAt(a: Action, here: Pc) {
    a.Call? && a.t == here && !a.net.LostRequest?
  }

  /** Whether a reset has landed that no clear has followed yet. */
  predicate UnclearedAfter(a: Action, uncleared: bool) {
    if LandsAt(a, RetryReset) then true else if LandsAt(a, RetryClear) then false else uncleared
  }

  /** As `TimesFit`, but for what an uncleared reset leaves behind. */
  predicate Timely(j: Job, uncleared: bool) {
    TimesFit(j) || (uncleared && j.executionStatus.NotStarted?)
  }

  /** A clear lands on a job that has started again. */
  predicate ClearsStarted(s: World, a: Action) {
    LandsAt(a, RetryClear) && !s.doc.executionStatus.NotStarted?
  }

  lemma CallKeepsTime(t: Pc, op: Op, j: Job, net: Net, uncleared: bool)
    requires Issues(t, op) && (Harmless(t) || Retrying(t)) && j.executionStatus.IsValid() && Timely(j, uncleared)
    ensures Timely(Landed(op, j, net), UnclearedAfter(Call(t, op, net), uncleared))
            <==> !(t.RetryClear? && !net.LostRequest? && !j.executionStatus.NotStarted?)
  {
  }

  lemma StepKeepsTime(max: int, s: World, a: Action, uncleared: bool)
    requires FitThroughout(s) && Timely(s.doc, uncleared) && Enabled(max, s, a)
    ensures Timely(Step(max, s, a).doc, UnclearedAfter(a, uncleared)) <==> !ClearsStarted(s, a)
  {
    if a.Call? {
      CallKeepsTime(a.t, a.op, s.doc, a.net, uncleared);
    } else {
      OtherSteps(max, s, a);
    }
  }

  /** The document is valid at every moment at which no reset waits for its clear. */
  ghost predicate ValidWhenCleared(max: int, s: World, run: seq<Action>, uncleared: bool)
    requires Legal(max, s, run, ANY_STEP)
    decreases |run|
  {
    && (!uncleared ==> s.doc.IsValid())
    && (run != [] ==> ValidWhenCleared(max, Step(max, s, run[0]), run[1..], UnclearedAfter(run[0], uncleared)))
  }

  ghost predicate NeverClearsStarted(max: int, s: World, run: seq<Action>)
    requires Legal(max, s, run, ANY_STEP)
    decreases |run|
  {
    run != [] ==> !ClearsStarted(s, run[0]) && NeverClearsStarted(max, Step(max, s, run[0]), run[1..])
  }

  lemma {:induction false} ValidWhenClearedFrom(max: int, s: World, run: seq<Action>, uncleared: bool)
    requires FitThroughout(s) && Timely(s.doc, uncleared) && Legal(max, s, run, ANY_STEP)
    ensures ValidWhenCleared(max, s, run, uncleared) <==> NeverClearsStarted(max, s, run)
    decreases |run|
  {
    StrongMeansBothFit(s.doc);
    if run != [] {
      var s', later := Step(max, s, run[0]), UnclearedAfter(run[0], uncleared);
      StepStaysFit(max, s, run[0], s');
      StepKeepsTime(max, s, run[0], uncleared);
      if ClearsStarted(s, run[0]) {
        StrongMeansBothFit(s'.doc);
        assert !ValidWhenCleared(max, s', run[1..], later);
      } else {
        ValidWhenClearedFrom(max, s', run[1..], later);
      }
    }
  }

  /**
   In any run at all, with any number of retries overlapping anything and any
   of their calls lost: the document is valid whenever no reset is waiting for
   its clear, exactly when no clear lands on a job that has started again.
   */
  lemma ValidWhenClearedExactly(max: int, j: Job, run: seq<Action>)
    requires Creatable(j) && Legal(max, Initial(j), run, ANY_STEP)
    ensures ValidWhenCleared(max, Initial(j), run, false) <==> NeverClearsStarted(max, Initial(j), run)
  {
    StrongMeansBothFit(j);
    ValidWhenClearedFrom(max, Initial(j), run, false);
  }
}
