/**
 The bookkeeping by which jobs are looked after: who owns a run, who will give
 up on an exhausted job, which messages belong to the current attempt.  Each
 part of the invariant is lost by precisely the steps named for it, whatever
 else crashes, fails or interferes.
 */
module Ownership {
  import opened Options
  import opened Status
  import opened JobModel
  import opened Writes
  import opened Protocol
  import opened Machine
  import opened Counting

  /** Some dispatch of the job has published and not yet confirmed. */
  ghost predicate AwaitingConfirm(s: World) {
    exists mid :: Confirm(mid) in s.threads
  }

  /** The message, if any, that the thread will not try to claim the job for again, nor hand back. */
  function PastGate(t: Pc): Option<MsgId> {
    match t
    case RunHandler(mid) => Some(mid)
    case ResultRead(mid, _) => Some(mid)
    case Complete(mid, _) => Some(mid)
    case CompleteReread(mid) => Some(mid)
    case Acking(mid) => Some(mid)
    case FailRead(HandlerError(mid), _) => Some(mid)
    case FailWrite(HandlerError(mid), _, _) => Some(mid)
    case FailReread(Preflight(mid)) => Some(mid)
    case FailReread(HandlerError(mid)) => Some(mid)
    case _ => None
  }

  /** A delivery that claimed the job and has not yet made its terminal write. */
  predicate OwnsRun(t: Pc) {
    match t
    case RunHandler(_) => true
    case ResultRead(_, _) => true
    case Complete(_, _) => true
    case FailRead(HandlerError(_), _) => true
    case FailWrite(HandlerError(_), _, _) => true
    case _ => false
  }

  /** The message reached the broker in the job's current attempt. */
  predicate Current(s: World, mid: MsgId) {
    mid < |s.sent| && s.sent[mid] == s.h.resets
  }

  /** A message of the current attempt is used up only by taking the job out of not_started. */
  ghost predicate GateKept(s: World) {
    s.doc.executionStatus.NotStarted? ==>
      && (forall t :: t in s.threads && PastGate(t).Some? ==> !Current(s, PastGate(t).value))
      && (forall mid :: Current(s, mid) ==> mid in s.unacked)
  }

  ghost predicate ConfirmsCurrent(s: World) {
    && (forall mid :: Confirm(mid) in s.threads ==> Current(s, mid))
    && (s.doc.dispatchStatus.Dispatched? ==> exists mid :: Current(s, mid))
  }

  ghost predicate RunOwned(s: World) {
    s.doc.executionStatus.Running? ==> exists t :: t in s.threads && OwnsRun(t)
  }

  ghost predicate ExhaustionOwned(max: int, s: World) {
    s.doc.dispatchStatus.Pending? && s.doc.dispatchAttempts == max ==>
      exists message :: MarkFailed(message) in s.threads
  }

  ghost predicate Owned(max: int, s: World) {
    Sane(max, s) && GateKept(s) && ConfirmsCurrent(s) && RunOwned(s) && ExhaustionOwned(max, s)
  }

  // ---- Messages ----

  /**
   The steps that break the bookkeeping of messages: a rejected message whose
   failure is not recorded, and a reset that lands while a dispatch is between
   its publish and its confirm, whose message then is of an earlier attempt.
   */
  ghost predicate LosesMessage(s: World, a: Action) {
    a.Call? &&
    match a.t
    case FailRead(Preflight(mid), _) => !a.net.Fine? && s.doc.executionStatus.NotStarted? && Current(s, mid)
    case FailWrite(Preflight(mid), _, _) => a.net.LostRequest? && s.doc.executionStatus.NotStarted? && Current(s, mid)
    case RetryReset => !a.net.LostRequest? && AwaitingConfirm(s)
    case _ => false
  }

  /** A rejected message whose failure is not recorded. */
  predicate GivesUpUnheard(t: Pc, net: Net) {
    || (t.FailRead? && t.who.Preflight? && !net.Fine?)
    || (t.FailWrite? && t.who.Preflight? && net.LostRequest?)
  }

  /** The gate: whoever passes it, other than by giving up unheard, leaves the job started. */
  lemma PassingTheGate(max: int, sent: nat, t: Pc, op: Op, j: Job, net: Net)
    requires DocSane(max, j) && Issues(t, op) && ThreadOk(max, j.retryCount, sent, t) && !GivesUpUnheard(t, net)
    ensures var u := Resume(max, t, ReplyOver(op, j, net));
            PastGate(u).Some? ==> PastGate(t) == PastGate(u) || !Landed(op, j, net).executionStatus.NotStarted?
  {
  }

  lemma GivingUp(max: int, t: Pc, op: Op, j: Job, net: Net)
    requires Issues(t, op) && GivesUpUnheard(t, net)
    ensures Resume(max, t, ReplyOver(op, j, net)) == Acking(t.who.mid) && Landed(op, j, net) == j
  {
  }

  /** Only a reset takes a job back to not started. */
  lemma StartedStays(max: int, sent: nat, t: Pc, op: Op, j: Job, net: Net)
    requires DocSane(max, j) && Issues(t, op) && ThreadOk(max, j.retryCount, sent, t)
    ensures Landed(op, j, net).executionStatus.NotStarted? ==>
              j.executionStatus.NotStarted? || (t.RetryReset? && !net.LostRequest?)
  {
  }

  lemma CallKeepsGate(max: int, s: World, t: Pc, op: Op, net: Net)
    requires Sane(max, s) && GateKept(s) && t in s.threads && Issues(t, op) && !GivesUpUnheard(t, net)
    ensures GateKept(CallStep(max, s, t, op, net))
  {
    var u := Resume(max, t, ReplyOver(op, s.doc, net));
    assert ThreadOk(max, s.doc.retryCount, |s.sent|, t);
    PassingTheGate(max, |s.sent|, t, op, s.doc, net);
    StartedStays(max, |s.sent|, t, op, s.doc, net);
    var s' := CallStep(max, s, t, op, net);
    forall x | x in s'.threads && PastGate(x).Some? && s'.doc.executionStatus.NotStarted?
      ensures !Current(s', PastGate(x).value)
    {
      assert x == u || x in s.threads;
    }
  }

  lemma GivingUpAtTheGate(max: int, s: World, t: Pc, op: Op, net: Net, s': World)
    requires GateKept(s) && t in s.threads && Issues(t, op) && GivesUpUnheard(t, net)
    requires s' == CallStep(max, s, t, op, net)
    ensures GateKept(s') <==> !LosesMessage(s, Call(t, op, net))
  {
    GivingUp(max, t, op, s.doc, net);
    var u := Acking(t.who.mid);
    assert s'.doc == s.doc && s'.threads == s.threads - multiset{t} + multiset{u};
    assert u in s'.threads && PastGate(u) == Some(t.who.mid);
    assert Current(s', t.who.mid) <==> Current(s, t.who.mid);
    forall x | x in s'.threads ensures x == u || x in s.threads {
    }
  }

  /** What a step other than a call does for the message bookkeeping. */
  lemma OtherMessages(max: int, s: World, a: Action)
    requires Enabled(max, s, a) && !a.Call?
    ensures var s' := Step(max, s, a);
            && s'.h.resets == s.h.resets
            && (forall mid :: Current(s, mid) ==> Current(s', mid))
            && (forall mid :: 0 <= mid < |s.sent| && Current(s', mid) ==> Current(s, mid))
            && (forall mid :: Current(s', mid) && !Current(s, mid) ==> mid in s'.unacked)
            && (forall mid :: mid in s.unacked && mid !in s'.unacked ==> a.Ack? && a.t == Acking(mid))
  {
  }

  /** What the position brought in by such a step knows about messages. */
  lemma OtherArrival(max: int, s: World, a: Action)
    requires Enabled(max, s, a) && !a.Call?
    ensures Arrives(s, a).Confirm? ==> Current(Step(max, s, a), Arrives(s, a).mid)
    ensures PastGate(Arrives(s, a)).Some? ==> a.Run? && PastGate(Arrives(s, a)) == PastGate(a.t)
  {
  }

  lemma OtherStepKeepsGateThreads(max: int, s: World, a: Action, s': World, x: Pc)
    requires Sane(max, s) && GateKept(s) && Enabled(max, s, a) && !a.Call? && s' == Step(max, s, a)
    requires s.doc.executionStatus.NotStarted? && x in s'.threads && PastGate(x).Some?
    ensures !Current(s', PastGate(x).value)
  {
    OtherThreads(max, s, a, s');
    OtherMessages(max, s, a);
    OtherArrival(max, s, a);
    var y := if x in s.threads then x else a.t;
    assert y in s.threads && PastGate(y) == PastGate(x);
    assert ThreadOk(max, s.doc.retryCount, |s.sent|, y);
  }

  lemma OtherStepKeepsGate(max: int, s: World, a: Action, s': World)
    requires Sane(max, s) && GateKept(s) && Enabled(max, s, a) && !a.Call? && s' == Step(max, s, a)
    ensures GateKept(s')
  {
    OtherSteps(max, s, a);
    OtherMessages(max, s, a);
    if s'.doc.executionStatus.NotStarted? {
      forall x | x in s'.threads && PastGate(x).Some? ensures !Current(s', PastGate(x).value) {
        OtherStepKeepsGateThreads(max, s, a, s', x);
      }
      forall mid | Current(s', mid) ensures mid in s'.unacked {
        assert PastGate(Acking(mid)) == Some(mid);
      }
    }
  }

  /** No message of the current attempt is used up while the job has not started. */
  lemma StepKeepsGate(max: int, s: World, a: Action)
    requires Sane(max, s) && GateKept(s) && Enabled(max, s, a)
    ensures GateKept(Step(max, s, a)) <==> !LosesMessage(s, a) || a.t.RetryReset?
  {
    if !a.Call? {
      OtherStepKeepsGate(max, s, a, Step(max, s, a));
    } else if GivesUpUnheard(a.t, a.net) {
      GivingUpAtTheGate(max, s, a.t, a.op, a.net, Step(max, s, a));
    } else {
      CallKeepsGate(max, s, a.t, a.op, a.net);
    }
  }

  lemma CallDispatchEffect(max: int, sent: nat, t: Pc, op: Op, j: Job, net: Net)
    requires Issues(t, op) && ThreadOk(max, j.retryCount, sent, t)
    ensures !Resume(max, t, ReplyOver(op, j, net)).Confirm?
    ensures t.RetryReset? && !net.LostRequest? ==> !Landed(op, j, net).dispatchStatus.Dispatched?
    ensures Landed(op, j, net).dispatchStatus.Dispatched? ==> t.Confirm? || j.dispatchStatus.Dispatched?
  {
  }

  lemma CallKeepsConfirms(max: int, s: World, t: Pc, op: Op, net: Net)
    requires Sane(max, s) && ConfirmsCurrent(s) && t in s.threads && Issues(t, op)
    requires t.RetryReset? ==> net.LostRequest? || !AwaitingConfirm(s)
    ensures ConfirmsCurrent(CallStep(max, s, t, op, net))
  {
    var s' := CallStep(max, s, t, op, net);
    assert ThreadOk(max, s.doc.retryCount, |s.sent|, t);
    CallDispatchEffect(max, |s.sent|, t, op, s.doc, net);
    forall mid | Confirm(mid) in s'.threads ensures Current(s', mid) {
      assert Confirm(mid) in s.threads;
    }
    if s'.doc.dispatchStatus.Dispatched? {
      if t.Confirm? {
        assert Current(s', t.mid);
      } else {
        var mid :| Current(s, mid);
        assert Current(s', mid);
      }
    }
  }

  lemma ResetBreaksConfirms(max: int, s: World, op: Op, net: Net)
    requires Sane(max, s) && RetryReset in s.threads && Issues(RetryReset, op)
    requires !net.LostRequest? && AwaitingConfirm(s)
    ensures !ConfirmsCurrent(CallStep(max, s, RetryReset, op, net))
  {
    var mid :| Confirm(mid) in s.threads;
    assert Confirm(mid) in CallStep(max, s, RetryReset, op, net).threads;
  }

  lemma OtherStepKeepsConfirms(max: int, s: World, a: Action, s': World)
    requires ConfirmsCurrent(s) && Enabled(max, s, a) && !a.Call? && s' == Step(max, s, a)
    ensures ConfirmsCurrent(s')
  {
    OtherSteps(max, s, a);
    OtherThreads(max, s, a, s');
    OtherMessages(max, s, a);
    OtherArrival(max, s, a);
    if s'.doc.dispatchStatus.Dispatched? {
      var mid :| Current(s, mid);
      assert Current(s', mid);
    }
  }

  /** A confirm under way belongs to a message of the current attempt. */
  lemma StepKeepsConfirms(max: int, s: World, a: Action)
    requires Sane(max, s) && ConfirmsCurrent(s) && Enabled(max, s, a)
    ensures ConfirmsCurrent(Step(max, s, a)) <==> !(LosesMessage(s, a) && a.t.RetryReset?)
  {
    if !a.Call? {
      OtherStepKeepsConfirms(max, s, a, Step(max, s, a));
    } else if LosesMessage(s, a) && a.t.RetryReset? {
      ResetBreaksConfirms(max, s, a.op, a.net);
    } else {
      CallKeepsConfirms(max, s, a.t, a.op, a.net);
    }
  }

  /** The bookkeeping of messages is lost by exactly these steps. */
  lemma MessagesLostExactly(max: int, s: World, a: Action)
    requires Sane(max, s) && GateKept(s) && ConfirmsCurrent(s) && Enabled(max, s, a)
    ensures GateKept(Step(max, s, a)) && ConfirmsCurrent(Step(max, s, a)) <==> !LosesMessage(s, a)
  {
    StepKeepsGate(max, s, a);
    StepKeepsConfirms(max, s, a);
  }

  // ---- Runs ----

  /** Nobody but the thread that takes the step owns the run. */
  ghost predicate NoOtherOwner(s: World, t: Pc) {
    forall o :: o in s.threads - multiset{t} ==> !OwnsRun(o)
  }

  /** A call after which the job is running and its thread does not, or no longer, own the run. */
  predicate LetsGoOfRun(t: Pc, net: Net, e: ExecutionStatus) {
    match t
    case Start(_) => e.NotStarted? && net.LostReply?
    case ResultRead(_, _) => e.Running? && !net.Fine?
    case Complete(_, _) => e.Running? && net.LostRequest?
    case FailRead(HandlerError(_), _) => e.Running? && !net.Fine?
    case FailWrite(HandlerError(_), _, _) => e.Running? && net.LostRequest?
    case _ => false
  }

  /** The steps that leave a run without an owner. */
  ghost predicate StrandsRun(s: World, a: Action) {
    match a
    case Crash(t) => s.doc.executionStatus.Running? && OwnsRun(t) && NoOtherOwner(s, t)
    case Call(t, _, net) => LetsGoOfRun(t, net, s.doc.executionStatus) && NoOtherOwner(s, t)
    case _ => false
  }

  /** A run starts with an owner, who lets go of it only by ending it, or by one of those calls. */
  lemma OwnersPersist(max: int, t: Pc, op: Op, j: Job, net: Net)
    requires Issues(t, op) && j.Composite().IsValid()
    requires t.CancelWrite? ==> IsCancelPatch(t.patch)
    requires OwnsRun(t) || !j.executionStatus.Running?
    ensures Landed(op, j, net).executionStatus.Running? ==>
              (OwnsRun(Resume(max, t, ReplyOver(op, j, net))) <==> !LetsGoOfRun(t, net, j.executionStatus))
  {
  }

  /** After each of those calls the job is running, and its thread no owner. */
  lemma LettingGo(max: int, t: Pc, op: Op, j: Job, net: Net)
    requires Issues(t, op) && LetsGoOfRun(t, net, j.executionStatus)
    ensures Landed(op, j, net).executionStatus.Running? && !OwnsRun(Resume(max, t, ReplyOver(op, j, net)))
  {
  }

  /** Whether there is an owner after the thread at `t` has moved to `u`. */
  lemma MovedOwner(s: World, t: Pc, threads: multiset<Pc>, u: Pc)
    requires t in s.threads && threads == s.threads - multiset{t} + multiset{u}
    ensures (exists o :: o in s.threads && OwnsRun(o)) <==> OwnsRun(t) || !NoOtherOwner(s, t)
    ensures (exists o :: o in threads && OwnsRun(o)) <==> OwnsRun(u) || !NoOtherOwner(s, t)
  {
    assert u in threads;
    if !NoOtherOwner(s, t) {
      var o :| o in s.threads - multiset{t} && OwnsRun(o);
      assert o in threads && o in s.threads;
    } else {
      assert forall o :: o in s.threads && o != t ==> o in s.threads - multiset{t};
      assert forall o :: o in threads && o != u ==> o in s.threads - multiset{t};
    }
  }

  lemma LastOwnerStrandsExactly(max: int, s: World, t: Pc, op: Op, net: Net, u: Pc, e: ExecutionStatus)
    requires s.doc.Composite().IsValid() && (t.CancelWrite? ==> IsCancelPatch(t.patch))
    requires Issues(t, op) && (s.doc.executionStatus.Running? ==> OwnsRun(t))
    requires u == Resume(max, t, ReplyOver(op, s.doc, net)) && e == Landed(op, s.doc, net).executionStatus
    ensures (e.Running? ==> OwnsRun(u)) <==> !LetsGoOfRun(t, net, s.doc.executionStatus)
  {
    if LetsGoOfRun(t, net, s.doc.executionStatus) {
      LettingGo(max, t, op, s.doc, net);
    } else {
      OwnersPersist(max, t, op, s.doc, net);
    }
  }

  lemma CallStrandsExactly(max: int, s: World, t: Pc, op: Op, net: Net, s': World)
    requires s.doc.Composite().IsValid() && (t.CancelWrite? ==> IsCancelPatch(t.patch))
    requires RunOwned(s) && t in s.threads && Issues(t, op) && s' == CallStep(max, s, t, op, net)
    ensures RunOwned(s') <==> !StrandsRun(s, Call(t, op, net))
  {
    var u := Resume(max, t, ReplyOver(op, s.doc, net));
    assert s'.threads == s.threads - multiset{t} + multiset{u};
    assert s'.doc.executionStatus == Landed(op, s.doc, net).executionStatus;
    StrandsByParts(max, s, t, op, net, u, s'.doc.executionStatus, s'.threads);
  }

  lemma StrandsByParts(max: int, s: World, t: Pc, op: Op, net: Net, u: Pc, e: ExecutionStatus, threads: multiset<Pc>)
    requires s.doc.Composite().IsValid() && (t.CancelWrite? ==> IsCancelPatch(t.patch))
    requires RunOwned(s) && t in s.threads && Issues(t, op)
    requires u == Resume(max, t, ReplyOver(op, s.doc, net)) && e == Landed(op, s.doc, net).executionStatus
    requires threads == s.threads - multiset{t} + multiset{u}
    ensures (e.Running? ==> exists o :: o in threads && OwnsRun(o))
            <==> !(LetsGoOfRun(t, net, s.doc.executionStatus) && NoOtherOwner(s, t))
  {
    MovedOwner(s, t, threads, u);
    if NoOtherOwner(s, t) {
      LastOwnerStrandsExactly(max, s, t, op, net, u, e);
    }
  }

  lemma CrashStrandsExactly(max: int, s: World, t: Pc)
    requires RunOwned(s) && t in s.threads
    ensures RunOwned(Step(max, s, Crash(t))) <==> !StrandsRun(s, Crash(t))
  {
    if s.doc.executionStatus.Running? && !NoOtherOwner(s, t) {
      var o :| o in s.threads - multiset{t} && OwnsRun(o);
      assert o in Step(max, s, Crash(t)).threads;
    }
  }

  lemma OtherStepKeepsRunOwned(max: int, s: World, a: Action, s': World)
    requires RunOwned(s) && Enabled(max, s, a) && !a.Call? && !a.Crash? && s' == Step(max, s, a)
    ensures RunOwned(s')
  {
    OtherSteps(max, s, a);
    OtherThreads(max, s, a, s');
    if s'.doc.executionStatus.Running? {
      var o :| o in s.threads && OwnsRun(o);
      if Leaves(a, o) {
        assert Arrives(s, a) in s'.threads && OwnsRun(Arrives(s, a));
      } else {
        assert o in s'.threads;
      }
    }
  }

  /** A running job loses its owner by exactly these steps. */
  lemma RunStrandedExactly(max: int, s: World, a: Action)
    requires Sane(max, s) && RunOwned(s) && Enabled(max, s, a)
    ensures RunOwned(Step(max, s, a)) <==> !StrandsRun(s, a)
  {
    if a.Call? {
      assert ThreadOk(max, s.doc.retryCount, |s.sent|, a.t);
      CallStrandsExactly(max, s, a.t, a.op, a.net, Step(max, s, a));
    } else if a.Crash? {
      CrashStrandsExactly(max, s, a.t);
    } else {
      OtherStepKeepsRunOwned(max, s, a, Step(max, s, a));
    }
  }

  // ---- Exhausted dispatches ----

  ghost predicate NobodyElseGivesUp(s: World, t: Pc) {
    forall o :: o in s.threads - multiset{t} ==> !o.MarkFailed?
  }

  predicate Exhausted(max: int, j: Job) {
    j.dispatchStatus.Pending? && j.dispatchAttempts == max
  }

  /** A call after which the job is exhausted and its thread is not about to give up on it. */
  predicate LetsGoOfExhausted(max: int, t: Pc, net: Net, j: Job) {
    match t
    case MarkFailed(_) => Exhausted(max, j) && net.LostRequest?
    case Record(attempts, _) => j.dispatchStatus.Pending? && attempts == max && net.LostReply?
    case _ => false
  }

  /** The steps that leave an exhausted job without anyone to give up on it. */
  ghost predicate StrandsExhausted(max: int, s: World, a: Action) {
    match a
    case Crash(t) => Exhausted(max, s.doc) && t.MarkFailed? && NobodyElseGivesUp(s, t)
    case Call(t, _, net) => LetsGoOfExhausted(max, t, net, s.doc) && NobodyElseGivesUp(s, t)
    case _ => false
  }

  /** Recording the last attempt leads straight to marking the dispatch failed, unless its answer is lost. */
  lemma ExhaustionLeadsOn(max: int, sent: nat, t: Pc, op: Op, j: Job, net: Net)
    requires max >= 1 && DocSane(max, j) && Issues(t, op) && ThreadOk(max, j.retryCount, sent, t)
    ensures var j', u := Landed(op, j, net), Resume(max, t, ReplyOver(op, j, net));
            && (Exhausted(max, j') && (t.MarkFailed? || !Exhausted(max, j)) ==>
                  (u.MarkFailed? <==> !LetsGoOfExhausted(max, t, net, j)))
            && (LetsGoOfExhausted(max, t, net, j) ==> Exhausted(max, j') && !u.MarkFailed?)
  {
  }

  lemma MovedGivingUp(s: World, t: Pc, threads: multiset<Pc>, u: Pc)
    requires t in s.threads && threads == s.threads - multiset{t} + multiset{u}
    ensures (exists message :: MarkFailed(message) in s.threads) <==> t.MarkFailed? || !NobodyElseGivesUp(s, t)
    ensures (exists message :: MarkFailed(message) in threads) <==> u.MarkFailed? || !NobodyElseGivesUp(s, t)
  {
    assert u in threads;
    assert u.MarkFailed? ==> u == MarkFailed(u.message);
    assert t.MarkFailed? ==> t == MarkFailed(t.message);
    if !NobodyElseGivesUp(s, t) {
      var o :| o in s.threads - multiset{t} && o.MarkFailed?;
      assert MarkFailed(o.message) in threads && MarkFailed(o.message) in s.threads;
    } else {
      assert forall o :: o in s.threads && o != t ==> o in s.threads - multiset{t};
      assert forall o :: o in threads && o != u ==> o in s.threads - multiset{t};
    }
  }

  lemma CallStrandsExhaustedExactly(max: int, s: World, t: Pc, op: Op, net: Net)
    requires max >= 1 && Sane(max, s) && ExhaustionOwned(max, s) && t in s.threads && Issues(t, op)
    ensures ExhaustionOwned(max, CallStep(max, s, t, op, net)) <==> !StrandsExhausted(max, s, Call(t, op, net))
  {
    assert ThreadOk(max, s.doc.retryCount, |s.sent|, t);
    ExhaustionLeadsOn(max, |s.sent|, t, op, s.doc, net);
    MovedGivingUp(s, t, CallStep(max, s, t, op, net).threads, Resume(max, t, ReplyOver(op, s.doc, net)));
  }

  lemma CrashStrandsExhaustedExactly(max: int, s: World, t: Pc)
    requires ExhaustionOwned(max, s) && t in s.threads
    ensures ExhaustionOwned(max, Step(max, s, Crash(t))) <==> !StrandsExhausted(max, s, Crash(t))
  {
    MovedGivingUp(s, t, s.threads - multiset{t} + multiset{Done(Ok)}, Done(Ok));
    assert forall message :: MarkFailed(message) in s.threads - multiset{t} + multiset{Done(Ok)}
                             <==> MarkFailed(message) in Step(max, s, Crash(t)).threads;
  }

  lemma OtherStepKeepsExhaustionOwned(max: int, s: World, a: Action, s': World)
    requires ExhaustionOwned(max, s) && Enabled(max, s, a) && !a.Call? && !a.Crash? && s' == Step(max, s, a)
    ensures ExhaustionOwned(max, s')
  {
    OtherSteps(max, s, a);
    OtherThreads(max, s, a, s');
    if Exhausted(max, s'.doc) {
      var message :| MarkFailed(message) in s.threads;
      assert MarkFailed(message) in s'.threads;
    }
  }

  /** An exhausted job loses the thread that will give up on it by exactly these steps. */
  lemma ExhaustedStrandedExactly(max: int, s: World, a: Action)
    requires max >= 1 && Sane(max, s) && ExhaustionOwned(max, s) && Enabled(max, s, a)
    ensures ExhaustionOwned(max, Step(max, s, a)) <==> !StrandsExhausted(max, s, a)
  {
    if a.Call? {
      CallStrandsExhaustedExactly(max, s, a.t, a.op, a.net);
    } else if a.Crash? {
      CrashStrandsExhaustedExactly(max, s, a.t);
    } else {
      OtherStepKeepsExhaustionOwned(max, s, a, Step(max, s, a));
    }
  }

  // ---- Whole runs ----

  /** A step that breaks the bookkeeping in one way or another. */
  ghost predicate LetsGo(max: int, s: World, a: Action) {
    LosesMessage(s, a) || StrandsRun(s, a) || StrandsExhausted(max, s, a)
  }

  ghost predicate AlwaysOwned(max: int, s: World, run: seq<Action>)
    requires Legal(max, s, run, ANY_STEP)
    decreases |run|
  {
    Owned(max, s) && (run != [] ==> AlwaysOwned(max, Step(max, s, run[0]), run[1..]))
  }

  ghost predicate NeverLetsGo(max: int, s: World, run: seq<Action>)
    requires Legal(max, s, run, ANY_STEP)
    decreases |run|
  {
    run != [] ==> !LetsGo(max, s, run[0]) && NeverLetsGo(max, Step(max, s, run[0]), run[1..])
  }

  lemma OwnedLostExactly(max: int, s: World, a: Action)
    requires max >= 1 && Owned(max, s) && Enabled(max, s, a)
    ensures Owned(max, Step(max, s, a)) <==> !LetsGo(max, s, a)
  {
    StepKeepsSane(max, s, a);
    MessagesLostExactly(max, s, a);
    RunStrandedExactly(max, s, a);
    ExhaustedStrandedExactly(max, s, a);
  }

  /** Along any run the bookkeeping holds throughout exactly when no step breaks it. */
  lemma {:induction false} OwnedExactly(max: int, s: World, run: seq<Action>)
    requires max >= 1 && Owned(max, s) && Legal(max, s, run, ANY_STEP)
    ensures AlwaysOwned(max, s, run) <==> NeverLetsGo(max, s, run)
    ensures NeverLetsGo(max, s, run) ==> Owned(max, Exec(max, s, run, ANY_STEP))
    decreases |run|
  {
    if run != [] {
      OwnedLostExactly(max, s, run[0]);
      if !LetsGo(max, s, run[0]) {
        OwnedExactly(max, Step(max, s, run[0]), run[1..]);
      } else {
        assert !AlwaysOwned(max, Step(max, s, run[0]), run[1..]);
      }
    }
  }

  /** Only the part about runs, for runs in which the others may be lost. */
  ghost predicate NeverStrandsRun(max: int, s: World, run: seq<Action>)
    requires Legal(max, s, run, ANY_STEP)
    decreases |run|
  {
    run != [] ==> !StrandsRun(s, run[0]) && NeverStrandsRun(max, Step(max, s, run[0]), run[1..])
  }

  lemma {:induction false} RunsStayOwned(max: int, s: World, run: seq<Action>)
    requires max >= 1 && Sane(max, s) && RunOwned(s) && Legal(max, s, run, ANY_STEP)
    requires NeverStrandsRun(max, s, run)
    ensures RunOwned(Exec(max, s, run, ANY_STEP))
    decreases |run|
  {
    if run != [] {
      StepKeepsSane(max, s, run[0]);
      RunStrandedExactly(max, s, run[0]);
      RunsStayOwned(max, Step(max, s, run[0]), run[1..]);
    }
  }

  /** No crashes, no failing collection calls, and no reset between a publish and its confirm. */
  ghost const RELIABLE: Regime := (s: World, a: Action) =>
    !a.Crash? && (a.Call? ==> a.net.Fine? && (a.t.RetryReset? ==> !AwaitingConfirm(s)))

  /** Reliable runs never let go of a job. */
  lemma {:induction false} ReliableNeverLetsGo(max: int, s: World, run: seq<Action>)
    requires Legal(max, s, run, RELIABLE)
    ensures Legal(max, s, run, ANY_STEP) && NeverLetsGo(max, s, run)
    decreases |run|
  {
    if run != [] {
      assert RELIABLE(s, run[0]);
      ReliableNeverLetsGo(max, Step(max, s, run[0]), run[1..]);
    }
  }
}
