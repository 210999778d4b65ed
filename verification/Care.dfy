/**
 No job is ever left with nobody working on it, as long as no step is taken
 that leaves it alone.  Which steps those are is exact, for what an observer
 sees at each moment and so for whole runs, whatever crashes, fails or
 interferes.
 */
module Care {
  import opened Options
  import opened Status
  import opened JobModel
  import opened Writes
  import opened Protocol
  import opened Machine
  import opened Counting
  import opened Ownership

  /** The message will still be tried: it is out, and no thread is past the claim with it. */
  ghost predicate Unspent(s: World, mid: MsgId) {
    mid in s.unacked && forall t :: t in s.threads ==> PastGate(t) != Some(mid)
  }

  /** A pending job is in the next poll's reach, or a thread is about to give up on it. */
  ghost predicate PendingCared(max: int, s: World) {
    s.doc.dispatchStatus.Pending? ==>
      Eligible(s.doc, max) || exists message :: MarkFailed(message) in s.threads
  }

  /** Dispatched, and waiting for a delivery. */
  predicate AwaitsDelivery(j: Job) {
    j.dispatchStatus.Dispatched? && j.executionStatus.NotStarted?
  }

  /** A dispatched job that has not started has a message that will still be tried. */
  ghost predicate DispatchedCared(s: World) {
    AwaitsDelivery(s.doc) ==> exists mid :: Unspent(s, mid)
  }

  /** A running job has the delivery that claimed it, before its terminal write. */
  ghost predicate RunningCared(s: World) {
    s.doc.executionStatus.Running? ==> exists t :: t in s.threads && OwnsRun(t)
  }

  ghost predicate Cared(max: int, s: World) {
    PendingCared(max, s) && DispatchedCared(s) && RunningCared(s)
  }

  // ---- Messages ----

  /**
   The steps that leave a dispatched job without a message: a confirm when
   every message is spent already, and giving up unheard on the last one.
   */
  ghost predicate StrandsDispatched(s: World, a: Action) {
    a.Call? && s.doc.executionStatus.NotStarted? &&
    match a.t
    case Confirm(_) =>
      s.doc.dispatchStatus.Pending? && !a.net.LostRequest? && forall mid :: !Unspent(s, mid)
    case FailRead(Preflight(mid), _) =>
      s.doc.dispatchStatus.Dispatched? && !a.net.Fine? && forall m :: Unspent(s, m) ==> m == mid
    case FailWrite(Preflight(mid), _, _) =>
      s.doc.dispatchStatus.Dispatched? && a.net.LostRequest? && forall m :: Unspent(s, m) ==> m == mid
    case _ => false
  }

  /** A call after which the job awaits delivery found it so, or confirmed its dispatch. */
  lemma DeliveryAwaited(max: int, sent: nat, t: Pc, op: Op, j: Job, net: Net)
    requires DocSane(max, j) && Issues(t, op) && ThreadOk(max, j.retryCount, sent, t)
    ensures AwaitsDelivery(Landed(op, j, net)) ==>
              if t.Confirm? && !net.LostRequest? then j.executionStatus.NotStarted? && !j.dispatchStatus.Failed?
              else AwaitsDelivery(j)
    ensures t.Confirm? && !net.LostRequest? && j.dispatchStatus.Pending? && j.executionStatus.NotStarted? ==>
              AwaitsDelivery(Landed(op, j, net))
  {
  }

  /** A call that leaves the job not started spends no message, unless it gives up unheard. */
  lemma CallSpendsNothing(max: int, s: World, t: Pc, op: Op, net: Net, s': World, mid: MsgId)
    requires Sane(max, s) && t in s.threads && Issues(t, op) && s' == CallStep(max, s, t, op, net)
    requires !GivesUpUnheard(t, net) && s'.doc.executionStatus.NotStarted? && Unspent(s, mid)
    ensures Unspent(s', mid)
  {
    var u := Resume(max, t, ReplyOver(op, s.doc, net));
    assert ThreadOk(max, s.doc.retryCount, |s.sent|, t);
    PassingTheGate(max, |s.sent|, t, op, s.doc, net);
    forall x | x in s'.threads ensures PastGate(x) != Some(mid) {
      assert x == u || x in s.threads;
    }
  }

  /** A confirm leaves every message as it was. */
  lemma ConfirmSpendsNothing(max: int, s: World, t: Pc, op: Op, net: Net, s': World)
    requires t in s.threads && t.Confirm? && Issues(t, op) && s' == CallStep(max, s, t, op, net)
    ensures forall mid :: Unspent(s', mid) ==> Unspent(s, mid)
  {
    forall mid: MsgId | Unspent(s', mid) ensures Unspent(s, mid) {
      forall x | x in s.threads ensures PastGate(x) != Some(mid) {
        assert x == t || x in s'.threads;
      }
    }
  }

  /** Giving up unheard spends the one message and no other. */
  lemma GivingUpSpendsOne(max: int, s: World, t: Pc, op: Op, net: Net, s': World)
    requires t in s.threads && Issues(t, op) && GivesUpUnheard(t, net) && s' == CallStep(max, s, t, op, net)
    ensures s'.doc == s.doc
    ensures forall mid :: Unspent(s', mid) <==> Unspent(s, mid) && mid != t.who.mid
  {
    GivingUp(max, t, op, s.doc, net);
    var u := Acking(t.who.mid);
    assert s'.threads == s.threads - multiset{t} + multiset{u} && PastGate(t).None?;
    assert u in s'.threads && PastGate(u) == Some(t.who.mid);
    forall mid ensures Unspent(s', mid) <==> Unspent(s, mid) && mid != t.who.mid {
      assert forall x :: x in s'.threads ==> x == u || x in s.threads;
      assert forall x :: x in s.threads && x != t ==> x in s'.threads;
    }
  }

  lemma CallStrandsDispatchedExactly(max: int, s: World, t: Pc, op: Op, net: Net, s': World)
    requires Sane(max, s) && DispatchedCared(s) && t in s.threads && Issues(t, op)
    requires s' == CallStep(max, s, t, op, net)
    ensures DispatchedCared(s') <==> !StrandsDispatched(s, Call(t, op, net))
  {
    assert ThreadOk(max, s.doc.retryCount, |s.sent|, t);
    assert s'.doc == Landed(op, s.doc, net);
    DeliveryAwaited(max, |s.sent|, t, op, s.doc, net);
    if GivesUpUnheard(t, net) {
      GivingUpSpendsOne(max, s, t, op, net, s');
    } else {
      if t.Confirm? {
        ConfirmSpendsNothing(max, s, t, op, net, s');
      }
      forall mid | Unspent(s, mid) && s'.doc.executionStatus.NotStarted? ensures Unspent(s', mid) {
        CallSpendsNothing(max, s, t, op, net, s', mid);
      }
    }
  }

  lemma OtherStepSpendsNothing(max: int, s: World, a: Action, s': World, mid: MsgId)
    requires Enabled(max, s, a) && !a.Call? && s' == Step(max, s, a) && Unspent(s, mid)
    ensures Unspent(s', mid)
  {
    OtherThreads(max, s, a, s');
    OtherMessages(max, s, a);
    OtherArrival(max, s, a);
    forall x | x in s'.threads ensures PastGate(x) != Some(mid) {
      assert x in s.threads || (x == Arrives(s, a) && (PastGate(x).Some? ==> a.t in s.threads));
    }
    assert PastGate(Acking(mid)) == Some(mid);
  }

  /** A dispatched job is left without a message by exactly these steps. */
  lemma DispatchedStrandedExactly(max: int, s: World, a: Action)
    requires Sane(max, s) && DispatchedCared(s) && Enabled(max, s, a)
    ensures DispatchedCared(Step(max, s, a)) <==> !StrandsDispatched(s, a)
  {
    if a.Call? {
      CallStrandsDispatchedExactly(max, s, a.t, a.op, a.net, Step(max, s, a));
    } else {
      OtherSteps(max, s, a);
      if AwaitsDelivery(s.doc) {
        var mid :| Unspent(s, mid);
        OtherStepSpendsNothing(max, s, a, Step(max, s, a), mid);
      }
    }
  }

  // ---- Whole runs ----

  /** A step that leaves the job alone in one way or another. */
  ghost predicate Strands(max: int, s: World, a: Action) {
    StrandsDispatched(s, a) || StrandsRun(s, a) || StrandsExhausted(max, s, a)
  }

  lemma CareIsOwnership(max: int, s: World)
    requires Sane(max, s)
    ensures PendingCared(max, s) <==> ExhaustionOwned(max, s)
    ensures RunningCared(s) <==> RunOwned(s)
  {
  }

  /** A job that is cared for stops being so by exactly these steps. */
  lemma CareLostExactly(max: int, s: World, a: Action)
    requires max >= 1 && Sane(max, s) && Cared(max, s) && Enabled(max, s, a)
    ensures Cared(max, Step(max, s, a)) <==> !Strands(max, s, a)
  {
    StepKeepsSane(max, s, a);
    CareIsOwnership(max, s);
    CareIsOwnership(max, Step(max, s, a));
    DispatchedStrandedExactly(max, s, a);
    RunStrandedExactly(max, s, a);
    ExhaustedStrandedExactly(max, s, a);
  }

  ghost predicate AlwaysCared(max: int, s: World, run: seq<Action>)
    requires Legal(max, s, run, ANY_STEP)
    decreases |run|
  {
    Cared(max, s) && (run != [] ==> AlwaysCared(max, Step(max, s, run[0]), run[1..]))
  }

  ghost predicate NeverStrands(max: int, s: World, run: seq<Action>)
    requires Legal(max, s, run, ANY_STEP)
    decreases |run|
  {
    run != [] ==> !Strands(max, s, run[0]) && NeverStrands(max, Step(max, s, run[0]), run[1..])
  }

  lemma {:induction false} CaredExactlyFrom(max: int, s: World, run: seq<Action>)
    requires max >= 1 && Sane(max, s) && Cared(max, s) && Legal(max, s, run, ANY_STEP)
    ensures AlwaysCared(max, s, run) <==> NeverStrands(max, s, run)
    decreases |run|
  {
    if run != [] {
      var s' := Step(max, s, run[0]);
      StepKeepsSane(max, s, run[0]);
      CareLostExactly(max, s, run[0]);
      if !Strands(max, s, run[0]) {
        CaredExactlyFrom(max, s', run[1..]);
      } else {
        assert !AlwaysCared(max, s', run[1..]);
      }
    }
  }

  lemma {:induction false} AlwaysCaredAtEnd(max: int, s: World, run: seq<Action>)
    requires Legal(max, s, run, ANY_STEP) && AlwaysCared(max, s, run)
    ensures Cared(max, Exec(max, s, run, ANY_STEP))
    decreases |run|
  {
    if run != [] {
      AlwaysCaredAtEnd(max, Step(max, s, run[0]), run[1..]);
    }
  }

  // ---- Main results ----

  /**
   In any run at all: the job is cared for at every moment exactly when no step
   of the run leaves it alone.
   */
  lemma CaredExactly(max: int, j: Job, run: seq<Action>)
    requires max >= 1 && Creatable(j) && Legal(max, Initial(j), run, ANY_STEP)
    ensures AlwaysCared(max, Initial(j), run) <==> NeverStrands(max, Initial(j), run)
  {
    CaredExactlyFrom(max, Initial(j), run);
  }

  lemma NoOrphanedJob(max: int, j: Job, run: seq<Action>)
    requires max >= 1 && Creatable(j) && Legal(max, Initial(j), run, ANY_STEP)
    requires NeverStrands(max, Initial(j), run)
    ensures var s := Exec(max, Initial(j), run, ANY_STEP);
            PendingCared(max, s) && DispatchedCared(s) && RunningCared(s)
  {
    CaredExactly(max, j, run);
    AlwaysCaredAtEnd(max, Initial(j), run);
  }

  /** A running job has its owner, whatever happens to dispatches, polls, operators and retries. */
  lemma RunningIsOwned(max: int, j: Job, run: seq<Action>)
    requires max >= 1 && Creatable(j) && Legal(max, Initial(j), run, ANY_STEP)
    requires NeverStrandsRun(max, Initial(j), run)
    ensures RunningCared(Exec(max, Initial(j), run, ANY_STEP))
  {
    RunsStayOwned(max, Initial(j), run);
  }

  // ---- The bookkeeping is enough ----

  lemma OwnedMeansCared(max: int, s: World)
    requires Owned(max, s)
    ensures Cared(max, s)
  {
    CareIsOwnership(max, s);
    if AwaitsDelivery(s.doc) {
      var mid :| Current(s, mid);
      assert Unspent(s, mid);
    }
  }

  /** A step that keeps to the bookkeeping does not leave the job alone. */
  lemma {:induction false} KeepingOnIsCaring(max: int, s: World, run: seq<Action>)
    requires max >= 1 && Owned(max, s) && Legal(max, s, run, ANY_STEP) && NeverLetsGo(max, s, run)
    ensures NeverStrands(max, s, run)
    decreases |run|
  {
    if run != [] {
      OwnedLostExactly(max, s, run[0]);
      OwnedMeansCared(max, s);
      OwnedMeansCared(max, Step(max, s, run[0]));
      CareLostExactly(max, s, run[0]);
      KeepingOnIsCaring(max, Step(max, s, run[0]), run[1..]);
    }
  }

  /** Without crashes, failing calls and resets between a publish and its confirm every job is cared for. */
  lemma ReliableRunsCare(max: int, j: Job, run: seq<Action>)
    requires max >= 1 && Creatable(j) && Legal(max, Initial(j), run, RELIABLE)
    ensures Legal(max, Initial(j), run, ANY_STEP) && AlwaysCared(max, Initial(j), run)
  {
    ReliableNeverLetsGo(max, Initial(j), run);
    KeepingOnIsCaring(max, Initial(j), run);
    CaredExactly(max, j, run);
  }
}
