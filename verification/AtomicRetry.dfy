/**
 Runs in which a retry happens all at once: its six steps follow each other
 with nothing in between and nothing lost.  Everything else still interleaves.
 */
module AtomicRetry {
  import opened Options
  import opened Status
  import opened JobModel
  import opened Writes
  import opened Protocol
  import opened Machine
  import opened Counting

  datatype Macro = One(a: Action) | WholeRetry

  /** The machine steps of one undisturbed RetryJob. */
  const RETRY_STEPS: seq<Action> := [
    RequestRetry,
    Call(RetryRead, Get, Fine),
    Call(RetryIncrement, IncrementRetryCount, Fine),
    Call(RetryReset, Update(ResetPatch()), Fine),
    Call(RetryClear, ClearJobExecutionTimestamps, Fine),
    Call(RetryReload, Get, Fine)]

  predicate MacroEnabled(max: int, s: World, m: Macro) {
    match m
    case One(a) => Enabled(max, s, a) && !a.RequestRetry?
    case WholeRetry => s.doc.executionStatus.Failed?
  }

  /** `s` with one more thread, at `t`, and with what the retry has changed so far. */
  function InRetry(s: World, t: Pc, doc: Job, resets: nat): World {
    s.(threads := s.threads + multiset{t}, doc := doc, h := s.h.(resets := resets))
  }

  lemma RetryTally(h: History, t: Pc, u: Pc, op: Op, j: Job)
    requires Issues(t, op) && (t.RetryRead? || t.RetryIncrement? || t.RetryReset? || t.RetryClear? || t.RetryReload?)
    requires !u.RunHandler? && !u.Nacking?
    ensures Tally(h, t, u, op, j, Fine) == h.(resets := if t.RetryReset? then h.resets + 1 else h.resets)
  {
  }

  lemma RetryStaysInside(max: int, t: Pc, op: Op, j: Job)
    requires Issues(t, op) && (t.RetryRead? || t.RetryIncrement? || t.RetryReset? || t.RetryClear? || t.RetryReload?)
    ensures var u := Resume(max, t, Answer(op, j)); !u.RunHandler? && !u.Nacking?
  {
  }

  lemma RetryStage(max: int, s: World, t: Pc, op: Op, doc: Job, resets: nat)
    requires Issues(t, op) && (t.RetryRead? || t.RetryIncrement? || t.RetryReset? || t.RetryClear? || t.RetryReload?)
    ensures Step(max, InRetry(s, t, doc, resets), Call(t, op, Fine))
            == InRetry(s, Resume(max, t, Answer(op, doc)), After(op, doc), if t.RetryReset? then resets + 1 else resets)
  {
    var u := Resume(max, t, Answer(op, doc));
    RetryStaysInside(max, t, op, doc);
    RetryTally(s.h.(resets := resets), t, u, op, doc);
    assert s.threads + multiset{t} - multiset{t} + multiset{u} == s.threads + multiset{u};
  }

  /** A legal step in front of a legal run. */
  lemma StepThenRun(max: int, s: World, a: Action, s1: World, rest: seq<Action>)
    requires Enabled(max, s, a) && s1 == Step(max, s, a) && Legal(max, s1, rest, ANY_STEP)
    ensures Legal(max, s, [a] + rest, ANY_STEP)
    ensures Exec(max, s, [a] + rest, ANY_STEP) == Exec(max, s1, rest, ANY_STEP)
  {
    assert ([a] + rest)[1..] == rest;
  }

  /** One stage of the retry in front of the rest of it. */
  lemma StageThenRest(max: int, s: World, i: nat, t: Pc, op: Op, doc: Job, resets: nat, s1: World)
    requires i < |RETRY_STEPS| && RETRY_STEPS[i] == Call(t, op, Fine)
    requires Issues(t, op) && (t.RetryRead? || t.RetryIncrement? || t.RetryReset? || t.RetryClear? || t.RetryReload?)
    requires s1 == InRetry(s, Resume(max, t, Answer(op, doc)), After(op, doc),
                           if t.RetryReset? then resets + 1 else resets)
    requires Legal(max, s1, RETRY_STEPS[i + 1..], ANY_STEP)
    ensures Legal(max, InRetry(s, t, doc, resets), RETRY_STEPS[i..], ANY_STEP)
    ensures Exec(max, InRetry(s, t, doc, resets), RETRY_STEPS[i..], ANY_STEP)
            == Exec(max, s1, RETRY_STEPS[i + 1..], ANY_STEP)
  {
    RetryStage(max, s, t, op, doc, resets);
    StepThenRun(max, InRetry(s, t, doc, resets), RETRY_STEPS[i], s1, RETRY_STEPS[i + 1..]);
    assert RETRY_STEPS[i..] == [RETRY_STEPS[i]] + RETRY_STEPS[i + 1..];
  }

  lemma ClearIsLegal(max: int, s: World, d: Job, k: nat)
    ensures Legal(max, InRetry(s, RetryClear, d, k), RETRY_STEPS[4..], ANY_STEP)
    ensures Exec(max, InRetry(s, RetryClear, d, k), RETRY_STEPS[4..], ANY_STEP)
            == InRetry(s, Done(Ok), After(ClearJobExecutionTimestamps, d), k)
  {
    var d1 := After(ClearJobExecutionTimestamps, d);
    StageThenRest(max, s, 5, RetryReload, Get, d1, k, InRetry(s, Done(Ok), d1, k));
    StageThenRest(max, s, 4, RetryClear, ClearJobExecutionTimestamps, d, k, InRetry(s, RetryReload, d1, k));
  }

  lemma ResetIsLegal(max: int, s: World, d: Job, d1: Job, k: nat)
    requires d1 == After(Update(ResetPatch()), d)
    ensures Legal(max, InRetry(s, RetryReset, d, k), RETRY_STEPS[3..], ANY_STEP)
    ensures Exec(max, InRetry(s, RetryReset, d, k), RETRY_STEPS[3..], ANY_STEP)
            == InRetry(s, Done(Ok), After(ClearJobExecutionTimestamps, d1), k + 1)
  {
    ClearIsLegal(max, s, d1, k + 1);
    StageThenRest(max, s, 3, RetryReset, Update(ResetPatch()), d, k, InRetry(s, RetryClear, d1, k + 1));
  }

  lemma IncrementIsLegal(max: int, s: World, d: Job, k: nat)
    ensures Legal(max, InRetry(s, RetryIncrement, d, k), RETRY_STEPS[2..], ANY_STEP)
    ensures Exec(max, InRetry(s, RetryIncrement, d, k), RETRY_STEPS[2..], ANY_STEP)
            == InRetry(s, Done(Ok), Retried(d), k + 1)
  {
    var d1 := After(IncrementRetryCount, d);
    ResetIsLegal(max, s, d1, After(Update(ResetPatch()), d1), k);
    StageThenRest(max, s, 2, RetryIncrement, IncrementRetryCount, d, k, InRetry(s, RetryReset, d1, k));
  }

  lemma ReadIsLegal(max: int, s: World, d: Job, k: nat)
    requires d.executionStatus.Failed?
    ensures Legal(max, InRetry(s, RetryRead, d, k), RETRY_STEPS[1..], ANY_STEP)
    ensures Exec(max, InRetry(s, RetryRead, d, k), RETRY_STEPS[1..], ANY_STEP)
            == InRetry(s, Done(Ok), Retried(d), k + 1)
  {
    IncrementIsLegal(max, s, d, k);
    StageThenRest(max, s, 1, RetryRead, Get, d, k, InRetry(s, RetryIncrement, d, k));
  }

  /** A failed job can be retried in one go, and this is what that does. */
  lemma RetryIsLegal(max: int, s: World)
    requires s.doc.executionStatus.Failed?
    ensures Legal(max, s, RETRY_STEPS, ANY_STEP)
    ensures Exec(max, s, RETRY_STEPS, ANY_STEP) == InRetry(s, Done(Ok), Retried(s.doc), s.h.resets + 1)
  {
    ReadIsLegal(max, s, s.doc, s.h.resets);
    StepThenRun(max, s, RETRY_STEPS[0], InRetry(s, RetryRead, s.doc, s.h.resets), RETRY_STEPS[1..]);
    assert RETRY_STEPS == [RETRY_STEPS[0]] + RETRY_STEPS[1..];
  }

  function MacroStep(max: int, s: World, m: Macro): World
    requires MacroEnabled(max, s, m)
  {
    match m
    case One(a) => Step(max, s, a)
    case WholeRetry => RetryIsLegal(max, s); Exec(max, s, RETRY_STEPS, ANY_STEP)
  }

  predicate MacroLegal(max: int, s: World, run: seq<Macro>, regime: (World, Macro) -> bool)
    decreases |run|
  {
    run != [] ==>
      && MacroEnabled(max, s, run[0]) && regime(s, run[0])
      && MacroLegal(max, MacroStep(max, s, run[0]), run[1..], regime)
  }

  function MacroExec(max: int, s: World, run: seq<Macro>, regime: (World, Macro) -> bool): World
    requires MacroLegal(max, s, run, regime)
    decreases |run|
  {
    if run == [] then s else MacroExec(max, MacroStep(max, s, run[0]), run[1..], regime)
  }

  /** A macro run is a run of the machine. */
  lemma {:induction false} MacroRunsAreRuns(max: int, s: World, run: seq<Macro>, regime: (World, Macro) -> bool)
    returns (steps: seq<Action>)
    requires MacroLegal(max, s, run, regime)
    ensures Legal(max, s, steps, ANY_STEP)
    ensures Exec(max, s, steps, ANY_STEP) == MacroExec(max, s, run, regime)
    decreases |run|
  {
    if run == [] {
      steps := [];
    } else {
      var rest := MacroRunsAreRuns(max, MacroStep(max, s, run[0]), run[1..], regime);
      match run[0] {
        case One(a) =>
          steps := [a] + rest;
          StepThenRun(max, s, a, Step(max, s, a), rest);
        case WholeRetry =>
          steps := RETRY_STEPS + rest;
          RetryIsLegal(max, s);
          RunThenRun(max, s, RETRY_STEPS, rest);
      }
    }
  }

  lemma {:induction false} RunThenRun(max: int, s: World, first: seq<Action>, rest: seq<Action>)
    requires Legal(max, s, first, ANY_STEP) && Legal(max, Exec(max, s, first, ANY_STEP), rest, ANY_STEP)
    ensures Legal(max, s, first + rest, ANY_STEP)
    ensures Exec(max, s, first + rest, ANY_STEP) == Exec(max, Exec(max, s, first, ANY_STEP), rest, ANY_STEP)
    decreases |first|
  {
    if first == [] {
      assert first + rest == rest;
    } else {
      assert (first + rest)[1..] == first[1..] + rest;
      RunThenRun(max, Step(max, s, first[0]), first[1..], rest);
    }
  }
}
