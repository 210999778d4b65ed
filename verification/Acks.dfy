/**
 Acknowledgement discipline: in runs without retries a delivery ends in an
 error, and its message is handed back, at most once per collection call whose
 answer was lost.
 */
module Acks {
  import opened Options
  import opened Status
  import opened JobModel
  import opened Writes
  import opened Protocol
  import opened Machine
  import opened Counting

  const NO_RETRY: Regime := (s: World, a: Action) => !a.RequestRetry?

  predicate Retrying(t: Pc) {
    t.RetryRead? || t.RetryIncrement? || t.RetryReset? || t.RetryClear? || t.RetryReload?
  }

  /** What a delivery that claimed the job knows about it for good, as long as nobody retries. */
  predicate Knows(t: Pc, e: ExecutionStatus) {
    match t
    case ResultRead(_, _) => !e.NotStarted?
    case Complete(_, _) => !e.NotStarted?
    case RunHandler(_) => !e.NotStarted?
    case CompleteReread(_) => e.IsTerminal()
    case _ => !Retrying(t)
  }

  ghost predicate Disciplined(max: int, s: World) {
    && Sane(max, s)
    && (forall t :: t in s.threads ==> Knows(t, s.doc.executionStatus))
    && s.h.errorReturns <= s.h.faults
  }

  /** Without a reset, execution only moves forward. */
  lemma ExecutionAdvances(max: int, sent: nat, t: Pc, op: Op, j: Job, net: Net)
    requires DocSane(max, j) && Issues(t, op) && ThreadOk(max, j.retryCount, sent, t) && !Retrying(t)
    ensures Landed(op, j, net).executionStatus.NotStarted? ==> j.executionStatus.NotStarted?
    ensures j.executionStatus.IsTerminal() ==> Landed(op, j, net).executionStatus.IsTerminal()
  {
  }

  lemma KnowledgeKept(t: Pc, e: ExecutionStatus, e': ExecutionStatus)
    requires Knows(t, e)
    requires e'.NotStarted? ==> e.NotStarted?
    requires e.IsTerminal() ==> e'.IsTerminal()
    ensures Knows(t, e')
  {
  }

  /** A missed completion finds the job terminal, so only a lost answer makes a delivery fail. */
  lemma CallTeaches(max: int, sent: nat, t: Pc, op: Op, j: Job, net: Net)
    requires DocSane(max, j) && Issues(t, op) && ThreadOk(max, j.retryCount, sent, t) && Knows(t, j.executionStatus)
    ensures var u := Resume(max, t, ReplyOver(op, j, net));
            && Knows(u, Landed(op, j, net).executionStatus)
            && (u.Nacking? ==> !net.Fine?)
  {
    assert j.executionStatus.IsTerminal() ==> j.DisplayStatus().IsTerminal();
  }

  lemma CallKeepsDisciplined(max: int, s: World, t: Pc, op: Op, net: Net)
    requires max >= 1 && Disciplined(max, s) && t in s.threads && Issues(t, op)
    ensures Disciplined(max, CallStep(max, s, t, op, net))
  {
    var s' := CallStep(max, s, t, op, net);
    var u := Resume(max, t, ReplyOver(op, s.doc, net));
    CallKeepsSane(max, s, t, op, net);
    CallTeaches(max, |s.sent|, t, op, s.doc, net);
    ExecutionAdvances(max, |s.sent|, t, op, s.doc, net);
    forall x | x in s'.threads ensures Knows(x, s'.doc.executionStatus) {
      if x != u {
        KnowledgeKept(x, s.doc.executionStatus, s'.doc.executionStatus);
      }
    }
  }

  lemma ArrivalKnows(max: int, s: World, a: Action)
    requires Disciplined(max, s) && Enabled(max, s, a) && !a.Call? && !a.RequestRetry?
    ensures Knows(Arrives(s, a), s.doc.executionStatus)
  {
    if a.Run? {
      assert Knows(a.t, s.doc.executionStatus);
    }
  }

  lemma OtherStepKeepsKnowledge(max: int, s: World, a: Action, s': World)
    requires Disciplined(max, s) && Enabled(max, s, a) && !a.Call? && !a.RequestRetry? && s' == Step(max, s, a)
    ensures forall t :: t in s'.threads ==> Knows(t, s.doc.executionStatus)
  {
    OtherThreads(max, s, a, s');
    ArrivalKnows(max, s, a);
  }

  lemma StepKeepsDisciplined(max: int, s: World, a: Action)
    requires max >= 1 && Disciplined(max, s) && Enabled(max, s, a) && NO_RETRY(s, a)
    ensures Disciplined(max, Step(max, s, a))
  {
    if a.Call? {
      CallKeepsDisciplined(max, s, a.t, a.op, a.net);
    } else {
      StepKeepsSane(max, s, a);
      OtherSteps(max, s, a);
      OtherStepKeepsKnowledge(max, s, a, Step(max, s, a));
    }
  }

  lemma {:induction false} RunKeepsDisciplined(max: int, s: World, run: seq<Action>)
    requires max >= 1 && Disciplined(max, s) && Legal(max, s, run, NO_RETRY)
    ensures Disciplined(max, Exec(max, s, run, NO_RETRY))
    decreases |run|
  {
    if run != [] {
      StepKeepsDisciplined(max, s, run[0]);
      RunKeepsDisciplined(max, Step(max, s, run[0]), run[1..]);
    }
  }

  // ---- Main results ----

  /** The deliveries that end in an error, hence the nacks, never outnumber the collection calls that failed. */
  lemma NacksBoundedByFaults(max: int, j: Job, run: seq<Action>)
    requires max >= 1 && Creatable(j) && Legal(max, Initial(j), run, NO_RETRY)
    ensures var s := Exec(max, Initial(j), run, NO_RETRY);
            s.h.errorReturns <= s.h.faults
  {
    RunKeepsDisciplined(max, Initial(j), run);
  }

  /** How many more steps a thread can take. */
  function StepsLeft(t: Pc): nat {
    match t
    case Publish(_) => 3
    case Confirm(_) => 1
    case Record(_, _) => 2
    case MarkFailed(_) => 1
    case Start(_) => 6
    case RunHandler(_) => 5
    case ResultRead(_, _) => 4
    case Complete(_, _) => 3
    case CompleteReread(_) => 2
    case Acking(_) => 1
    case Nacking(_) => 1
    case FailRead(_, _) => 4
    case FailWrite(_, _, _) => 3
    case FailReread(_) => 2
    case CancelRead(_, _) => 2
    case CancelWrite(_, _) => 1
    case RetryRead => 5
    case RetryIncrement => 4
    case RetryReset => 3
    case RetryClear => 2
    case RetryReload => 1
    case Done(_) => 0
  }

  lemma AnswersShorten(max: int, t: Pc, op: Op, reply: Reply)
    requires Issues(t, op)
    ensures StepsLeft(Resume(max, t, reply)) < StepsLeft(t)
  {
  }

  /** The position a step brings in. */
  function NextPosition(max: int, s: World, a: Action): Pc {
    if a.Call? then Resume(max, a.t, ReplyOver(a.op, s.doc, a.net)) else Arrives(s, a)
  }

  /** A step replaces the thread that takes it by one with fewer steps left. */
  lemma ThreadsProgress(max: int, s: World, a: Action)
    requires Enabled(max, s, a) && (a.Send? || a.Call? || a.Run? || a.Ack? || a.Nack?)
    ensures Step(max, s, a).threads == s.threads - multiset{a.t} + multiset{NextPosition(max, s, a)}
    ensures StepsLeft(NextPosition(max, s, a)) < StepsLeft(a.t)
  {
    if a.Call? {
      AnswersShorten(max, a.t, a.op, ReplyOver(a.op, s.doc, a.net));
    } else {
      OtherThreadsExactly(max, s, a);
    }
  }

  /** The message a thread is on its way to acknowledge. */
  function OnTrack(t: Pc): Option<MsgId> {
    match t
    case Start(mid) => Some(mid)
    case RunHandler(mid) => Some(mid)
    case ResultRead(mid, _) => Some(mid)
    case Complete(mid, _) => Some(mid)
    case CompleteReread(mid) => Some(mid)
    case Acking(mid) => Some(mid)
    case FailRead(who, _) => if who.Caller? then None else Some(who.mid)
    case FailWrite(who, _, _) => if who.Caller? then None else Some(who.mid)
    case FailReread(who) => if who.Caller? then None else Some(who.mid)
    case _ => None
  }

  /**
   Without retries, a delivery whose own calls are answered keeps heading for
   the acknowledgement of its message, whatever the others do in between; with
   ThreadsProgress it gets there in at most six steps of its own.
   */
  lemma DeliveryStaysOnTrack(max: int, s: World, a: Action)
    requires Disciplined(max, s) && Enabled(max, s, a) && (a.Call? || a.Run? || a.Ack?) && OnTrack(a.t).Some?
    requires a.Call? ==> a.net.Fine?
    ensures if a.Ack? then a.delivered ==> OnTrack(a.t).value !in Step(max, s, a).unacked
            else OnTrack(NextPosition(max, s, a)) == OnTrack(a.t)
  {
    if a.Call? {
      assert ThreadOk(max, s.doc.retryCount, |s.sent|, a.t);
      assert Knows(a.t, s.doc.executionStatus);
      CallTeaches(max, |s.sent|, a.t, a.op, s.doc, Fine);
    }
  }

  /** The messages that the events acknowledge or hand back, in order. */
  function Settlements(events: seq<Seen>): seq<MsgId> {
    if events == [] then []
    else
      var last := events[|events| - 1].e;
      Settlements(events[..|events| - 1]) + if last.Acked? || last.Nacked? then [last.mid] else []
  }

  lemma {:induction false} SettlementsJoin(first: seq<Seen>, rest: seq<Seen>)
    ensures Settlements(first + rest) == Settlements(first) + Settlements(rest)
  {
    if rest == [] {
      assert first + rest == first;
    } else {
      SettlementsJoin(first, rest[..|rest| - 1]);
      assert (first + rest)[..|first + rest| - 1] == first + rest[..|rest| - 1];
    }
  }

  lemma OneSettlement(s: Seen, mid: MsgId)
    requires s.e == Acked(mid)
    ensures forall trace: seq<Seen> :: Settlements((trace + [s])[|trace|..]) == [mid]
  {
    forall trace: seq<Seen> ensures Settlements((trace + [s])[|trace|..]) == [mid] {
      assert (trace + [s])[|trace|..] == [s];
      assert [s][..0] == [];
    }
  }

  lemma SettlementsSince(before: seq<Seen>, mid: seq<Seen>, after: seq<Seen>)
    requires before <= mid <= after
    ensures Settlements(after[|before|..]) == Settlements(mid[|before|..]) + Settlements(after[|mid|..])
  {
    assert after[|before|..] == mid[|before|..] + after[|mid|..];
    SettlementsJoin(mid[|before|..], after[|mid|..]);
  }

  /** A position of the delivery of this message. */
  predicate Delivers(t: Pc, mid: MsgId) {
    t.Done? || t == Nacking(mid) || OnTrack(t) == Some(mid)
  }

  lemma DeliveryEvent(max: int, t: Pc, mid: MsgId, e: Event)
    requires Delivers(t, mid) && Observe(max, t, e).Some?
    ensures var u := Observe(max, t, e).value;
            && !t.Done? && Delivers(u, mid)
            && (u.Done? <==> e.Acked? || e.Nacked?)
            && (e.Acked? || e.Nacked? ==> e.mid == mid)
  {
  }

  /** However a delivery goes, it settles its own message, once, and that is the last thing it does. */
  lemma {:induction false} DeliverySettlesOnce(max: int, job: string, from: Pc, mid: MsgId, events: seq<Seen>, to: Pc)
    requires Delivers(from, mid) && !from.Done? && Follow(max, job, from, events) == Some(to)
    ensures Delivers(to, mid)
    ensures Settlements(events) == if to.Done? then [mid] else []
  {
    if events != [] {
      var before := events[..|events| - 1];
      var at := Follow(max, job, from, before).value;
      DeliverySettlesOnce(max, job, from, mid, before, at);
      DeliveryEvent(max, at, mid, events[|events| - 1].e);
    }
  }

  /** The call, at its place among the events, goes wrong in a way for which a message is handed back. */
  predicate GoesWrong(events: seq<Seen>, k: nat)
    requires k < |events|
  {
    events[k].e.Called? &&
    match events[k].e.op
    case MarkRunningIfDispatched(_) => events[k].e.reply.Unavailable?
    case CompleteIfRunning(_, _) => events[k].e.reply.Unavailable?
    case Get =>
      && k > 0 && events[k - 1].e.Called? && events[k - 1].e.op.CompleteIfRunning?
      && events[k - 1].e.reply == Matched(false)
      && !(events[k].e.reply.Found?
           && var e := events[k].e.reply.job.executionStatus; e.Completed? || e.Failed? || e.Cancelled?)
    case _ => false
  }

  predicate Troubled(events: seq<Seen>) {
    exists k :: 0 <= k < |events| && GoesWrong(events, k)
  }

  predicate LastIsClaim(events: seq<Seen>) {
    events != [] && var e := events[|events| - 1].e;
    e.Called? && e.op.MarkRunningIfDispatched? && e.reply == Matched(true)
  }

  predicate LastIsMiss(events: seq<Seen>) {
    events != [] && var e := events[|events| - 1].e;
    e.Called? && e.op.CompleteIfRunning? && e.reply == Matched(false)
  }

  /** What the position of a delivery says about the events so far. */
  predicate Recounts(at: Pc, events: seq<Seen>) {
    && !at.ResultRead?
    && (at.RunHandler? <==> LastIsClaim(events))
    && (at.CompleteReread? <==> LastIsMiss(events))
    && (Troubled(events) <==> at.Nacking? || (at.Done? && at.outcome.StoreError?))
    && (at.Done? ==> at.outcome.Ok? || at.outcome.StoreError?)
  }

  lemma TroubleGrows(before: seq<Seen>, s: Seen)
    ensures Troubled(before + [s]) <==> Troubled(before) || GoesWrong(before + [s], |before|)
  {
    var after := before + [s];
    forall k | 0 <= k < |before| ensures GoesWrong(after, k) <==> GoesWrong(before, k) {
    }
    if Troubled(before) {
      var k :| 0 <= k < |before| && GoesWrong(before, k);
      assert GoesWrong(after, k);
    }
    if GoesWrong(after, |before|) {
      assert Troubled(after);
    }
    if Troubled(after) {
      var k :| 0 <= k < |after| && GoesWrong(after, k);
      if k < |before| {
        assert GoesWrong(before, k);
      }
    }
  }

  lemma EventRecounts(max: int, mid: MsgId, at: Pc, before: seq<Seen>, s: Seen)
    requires Delivers(at, mid) && Recounts(at, before) && Observe(max, at, s.e).Some?
    ensures Recounts(Observe(max, at, s.e).value, before + [s])
  {
    TroubleGrows(before, s);
    DeliveryEvent(max, at, mid, s.e);
    if s.e.Called? {
      CallRecounts(max, mid, at, before, s);
    }
  }

  lemma CallRecounts(max: int, mid: MsgId, at: Pc, before: seq<Seen>, s: Seen)
    requires Delivers(at, mid) && Recounts(at, before) && s.e.Called? && Observe(max, at, s.e).Some?
    ensures var u := Observe(max, at, s.e).value;
            && !u.Done? && !u.ResultRead?
            && (u.Nacking? <==> GoesWrong(before + [s], |before|))
            && (u.RunHandler? <==> LastIsClaim(before + [s]))
            && (u.CompleteReread? <==> LastIsMiss(before + [s]))
  {
    var after := before + [s];
    assert |before| > 0 ==> after[|before| - 1] == before[|before| - 1];
    assert after[|before|] == s;
  }

  /** A message is handed back exactly when one of the delivery's own calls went wrong in one of these ways. */
  lemma {:induction false} HandedBackExactly(max: int, job: string, from: Pc, mid: MsgId, events: seq<Seen>, to: Pc)
    requires from == Start(mid) || (from.FailRead? && from.who == Preflight(mid))
    requires Follow(max, job, from, events) == Some(to)
    ensures Delivers(to, mid) && Recounts(to, events)
  {
    if events != [] {
      var before := events[..|events| - 1];
      var at := Follow(max, job, from, before).value;
      HandedBackExactly(max, job, from, mid, before, at);
      assert events == before + [events[|events| - 1]];
      DeliveryEvent(max, at, mid, events[|events| - 1].e);
      EventRecounts(max, mid, at, before, events[|events| - 1]);
    }
  }

  /** A handler runs only right after a claim that matched. */
  lemma {:induction false} HandlerOnlyAfterClaim(max: int, job: string, from: Pc, mid: MsgId, events: seq<Seen>, to: Pc,
                                                 k: nat)
    requires from == Start(mid) || (from.FailRead? && from.who == Preflight(mid))
    requires Follow(max, job, from, events) == Some(to)
    requires k < |events| && events[k].e.HandlerReturned?
    ensures k > 0 && LastIsClaim(events[..k])
  {
    var before := events[..|events| - 1];
    var at := Follow(max, job, from, before).value;
    if k < |before| {
      HandlerOnlyAfterClaim(max, job, from, mid, before, at, k);
      assert before[..k] == events[..k];
    } else {
      HandedBackExactly(max, job, from, mid, before, at);
    }
  }

  /** A step the thread can always take, with nothing going wrong. */
  function NextAction(t: Pc): Action {
    if t.Publish? then Send(t, Fine, "")
    else if t.RunHandler? then Run(t, true, "")
    else if t.Acking? then Ack(t, true)
    else if t.Nacking? then Nack(t)
    else Call(t, NextCall(t), Fine)
  }

  function NextCall(t: Pc): Op {
    match t
    case Confirm(_) => MarkDispatchedIfPending(0)
    case Record(attempts, lastError) => RecordDispatchAttemptIfPending(attempts, lastError)
    case MarkFailed(message) => MarkDispatchFailedIfPending(message, 0)
    case Start(_) => MarkRunningIfDispatched(0)
    case Complete(_, meta) => CompleteIfRunning(0, meta)
    case FailWrite(_, message, attempt) => FailIfNotTerminal(JobError(Execution, attempt, message, 0), 0)
    case CancelWrite(_, patch) => Update(patch)
    case RetryIncrement => IncrementRetryCount
    case RetryReset => Update(ResetPatch())
    case RetryClear => ClearJobExecutionTimestamps
    case _ => Get
  }

  /** No thread is ever stuck before its end, whatever the others did to the job. */
  lemma ThreadsNeverStuck(max: int, s: World, t: Pc)
    requires t in s.threads
    ensures Enabled(max, s, NextAction(t)) <==> !t.Done?
  {
  }
}
