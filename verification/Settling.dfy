/**
 Every message is acknowledged in the end: of the deliveries of a message that
 have run their course, at most one for each failing collection call, and for
 each completion that finds the job taken back by a retry, has ended in
 anything but an acknowledgement.
 */
module Settling {
  import opened Options
  import opened Status
  import opened JobModel
  import opened Writes
  import opened Protocol
  import opened Machine
  import opened Counting
  import opened Acks

  // ---- Counting threads and steps ----

  /** How many threads are at positions of this kind. */
  ghost function HowMany(threads: multiset<Pc>, kind: Pc -> bool): nat
    decreases |threads|
  {
    if exists t :: t in threads && kind(t) then
      var t :| t in threads && kind(t);
      assert threads[t := 0] <= threads && |threads[t := 0]| == |threads| - threads[t];
      threads[t] + HowMany(threads[t := 0], kind)
    else 0
  }

  lemma {:induction false} HowManyAt(threads: multiset<Pc>, kind: Pc -> bool, t: Pc)
    requires t in threads && kind(t)
    ensures HowMany(threads, kind) == threads[t] + HowMany(threads[t := 0], kind)
    decreases |threads|
  {
    var x :| x in threads && kind(x) && HowMany(threads, kind) == threads[x] + HowMany(threads[x := 0], kind);
    if x != t {
      assert |threads[x := 0]| == |threads| - threads[x] && |threads[t := 0]| == |threads| - threads[t];
      HowManyAt(threads[x := 0], kind, t);
      HowManyAt(threads[t := 0], kind, x);
      assert threads[x := 0][t := 0] == threads[t := 0][x := 0];
    }
  }

  lemma {:induction false} OneMoreThread(threads: multiset<Pc>, kind: Pc -> bool, t: Pc)
    ensures HowMany(threads + multiset{t}, kind) == HowMany(threads, kind) + Bit(kind(t))
    decreases |threads|
  {
    var more := threads + multiset{t};
    if kind(t) {
      HowManyAt(more, kind, t);
      assert more[t := 0] == threads[t := 0];
      if t in threads {
        HowManyAt(threads, kind, t);
      } else {
        assert threads[t := 0] == threads;
      }
    } else if exists x :: x in threads && kind(x) {
      var x :| x in threads && kind(x);
      HowManyAt(threads, kind, x);
      HowManyAt(more, kind, x);
      assert more[x := 0] == threads[x := 0] + multiset{t};
      assert |threads[x := 0]| == |threads| - threads[x];
      OneMoreThread(threads[x := 0], kind, t);
    } else {
      assert forall x :: x in more ==> x == t || x in threads;
    }
  }

  lemma MovedThread(threads: multiset<Pc>, kind: Pc -> bool, t: Pc, u: Pc)
    requires t in threads
    ensures HowMany(threads - multiset{t} + multiset{u}, kind) + Bit(kind(t)) == HowMany(threads, kind) + Bit(kind(u))
  {
    var rest := threads - multiset{t};
    OneMoreThread(rest, kind, t);
    OneMoreThread(rest, kind, u);
    assert rest + multiset{t} == threads;
  }

  /** How many steps of a run are of this kind. */
  function HowOften(run: seq<Action>, kind: Action -> bool): nat {
    if run == [] then 0 else Bit(kind(run[0])) + HowOften(run[1..], kind)
  }

  lemma {:induction false} AtMostAsOften(run: seq<Action>, kind: Action -> bool, wider: Action -> bool)
    requires forall a :: kind(a) ==> wider(a)
    ensures HowOften(run, kind) <= HowOften(run, wider)
  {
    if run != [] {
      AtMostAsOften(run[1..], kind, wider);
    }
  }

  // ---- The life of a delivery ----

  /** Positions of a delivery of the message that has not ended. */
  function InFlight(mid: MsgId): Pc -> bool {
    (t: Pc) => Delivers(t, mid) && !t.Done?
  }

  function DeliveryOf(mid: MsgId): Action -> bool {
    (a: Action) => a.Deliver? && a.mid == mid
  }

  function AckOf(mid: MsgId): Action -> bool {
    (a: Action) => a.Ack? && a.t == Acking(mid)
  }

  function NackOf(mid: MsgId): Action -> bool {
    (a: Action) => a.Nack? && a.t == Nacking(mid)
  }

  function CrashOf(mid: MsgId): Action -> bool {
    (a: Action) => a.Crash? && InFlight(mid)(a.t)
  }

  lemma CallStaysInFlight(max: int, mid: MsgId, t: Pc, op: Op, reply: Reply)
    requires Issues(t, op)
    ensures InFlight(mid)(t) <==> InFlight(mid)(Resume(max, t, reply))
  {
  }

  lemma ArrivalInFlight(max: int, s: World, a: Action, mid: MsgId)
    requires Enabled(max, s, a) && !a.Call? && !a.Crash?
    ensures InFlight(mid)(Arrives(s, a)) <==> DeliveryOf(mid)(a) || (a.Run? && InFlight(mid)(a.t))
    ensures (a.Send? || a.Ack? || a.Nack?) && InFlight(mid)(a.t) ==> AckOf(mid)(a) || NackOf(mid)(a)
    ensures AckOf(mid)(a) || NackOf(mid)(a) ==> InFlight(mid)(a.t)
  {
  }

  /** A delivery begins, and ends in one of three ways. */
  lemma StepBalance(max: int, s: World, a: Action, mid: MsgId)
    requires Enabled(max, s, a)
    ensures HowMany(Step(max, s, a).threads, InFlight(mid))
            + Bit(AckOf(mid)(a)) + Bit(NackOf(mid)(a)) + Bit(CrashOf(mid)(a))
            == HowMany(s.threads, InFlight(mid)) + Bit(DeliveryOf(mid)(a))
  {
    var s' := Step(max, s, a);
    if a.Call? {
      CallStaysInFlight(max, mid, a.t, a.op, ReplyOver(a.op, s.doc, a.net));
      MovedThread(s.threads, InFlight(mid), a.t, Resume(max, a.t, ReplyOver(a.op, s.doc, a.net)));
    } else if a.Crash? {
      OneMoreThread(s'.threads, InFlight(mid), a.t);
      assert s'.threads + multiset{a.t} == s.threads;
    } else {
      OtherStepBalance(max, s, a, mid, s');
    }
  }

  lemma OtherStepBalance(max: int, s: World, a: Action, mid: MsgId, s': World)
    requires Enabled(max, s, a) && !a.Call? && !a.Crash? && s' == Step(max, s, a)
    ensures HowMany(s'.threads, InFlight(mid)) + Bit(AckOf(mid)(a)) + Bit(NackOf(mid)(a))
            == HowMany(s.threads, InFlight(mid)) + Bit(DeliveryOf(mid)(a))
  {
    ArrivalInFlight(max, s, a, mid);
    OtherThreadsExactly(max, s, a);
    var u := Arrives(s, a);
    if a.Send? || a.Run? || a.Ack? || a.Nack? {
      MovedThread(s.threads, InFlight(mid), a.t, u);
    } else {
      OneMoreThread(s.threads, InFlight(mid), u);
      assert s'.threads == s.threads + multiset{u};
    }
  }

  /** Each delivery is in flight, acknowledged, handed back or lost in a crash. */
  lemma {:induction false} DeliveriesBalance(max: int, s: World, run: seq<Action>, regime: Regime, mid: MsgId)
    requires Legal(max, s, run, regime)
    ensures HowMany(Exec(max, s, run, regime).threads, InFlight(mid)) + HowOften(run, AckOf(mid))
            + HowOften(run, NackOf(mid)) + HowOften(run, CrashOf(mid))
            == HowMany(s.threads, InFlight(mid)) + HowOften(run, DeliveryOf(mid))
    decreases |run|
  {
    if run != [] {
      StepBalance(max, s, run[0], mid);
      DeliveriesBalance(max, Step(max, s, run[0]), run[1..], regime, mid);
    }
  }

  // ---- Handing back ----

  const HANDING_BACK: Pc -> bool := (t: Pc) => t.Nacking?

  const HAND_BACK: Action -> bool := (a: Action) => a.Nack?

  const CRASH_HANDING_BACK: Action -> bool := (a: Action) => a.Crash? && a.t.Nacking?

  lemma StepNacks(max: int, s: World, a: Action)
    requires Enabled(max, s, a)
    ensures Step(max, s, a).h.errorReturns + HowMany(s.threads, HANDING_BACK)
            == s.h.errorReturns + HowMany(Step(max, s, a).threads, HANDING_BACK)
               + Bit(HAND_BACK(a)) + Bit(CRASH_HANDING_BACK(a))
  {
    var s' := Step(max, s, a);
    if a.Call? {
      var u := Resume(max, a.t, ReplyOver(a.op, s.doc, a.net));
      MovedThread(s.threads, HANDING_BACK, a.t, u);
    } else if a.Crash? {
      OneMoreThread(s'.threads, HANDING_BACK, a.t);
      assert s'.threads + multiset{a.t} == s.threads;
    } else {
      OtherStepNacks(max, s, a, s');
    }
  }

  lemma OtherStepNacks(max: int, s: World, a: Action, s': World)
    requires Enabled(max, s, a) && !a.Call? && !a.Crash? && s' == Step(max, s, a)
    ensures s'.h.errorReturns == s.h.errorReturns
    ensures HowMany(s.threads, HANDING_BACK) == HowMany(s'.threads, HANDING_BACK) + Bit(HAND_BACK(a))
  {
    OtherSteps(max, s, a);
    OtherThreadsExactly(max, s, a);
    NobodyElseHandsBack(max, s, a);
    if a.Send? || a.Run? || a.Ack? || a.Nack? {
      MovedThread(s.threads, HANDING_BACK, a.t, Arrives(s, a));
    } else {
      OneMoreThread(s.threads, HANDING_BACK, Arrives(s, a));
      assert s'.threads == s.threads + multiset{Arrives(s, a)};
    }
  }

  lemma NobodyElseHandsBack(max: int, s: World, a: Action)
    requires Enabled(max, s, a) && !a.Call? && !a.Crash?
    ensures !HANDING_BACK(Arrives(s, a))
    ensures a.Send? || a.Run? || a.Ack? || a.Nack? ==> (HANDING_BACK(a.t) <==> HAND_BACK(a))
  {
  }

  /** Deliveries that ended in an error have handed their message back, are about to, or were cut off. */
  lemma {:induction false} ErrorReturnsAreNacks(max: int, s: World, run: seq<Action>, regime: Regime)
    requires Legal(max, s, run, regime)
    ensures Exec(max, s, run, regime).h.errorReturns + HowMany(s.threads, HANDING_BACK)
            == s.h.errorReturns + HowMany(Exec(max, s, run, regime).threads, HANDING_BACK)
               + HowOften(run, HAND_BACK) + HowOften(run, CRASH_HANDING_BACK)
    decreases |run|
  {
    if run != [] {
      StepNacks(max, s, run[0]);
      ErrorReturnsAreNacks(max, Step(max, s, run[0]), run[1..], regime);
    }
  }

  // ---- What makes a delivery end in an error ----

  /** A missed completion finds the job not terminal: a retry has taken it back. */
  predicate StaleReread(s: World, a: Action) {
    a.Call? && a.net.Fine? && a.t.CompleteReread? && !s.doc.DisplayStatus().IsTerminal()
  }

  function StaleRereads(max: int, s: World, run: seq<Action>, regime: Regime): nat
    requires Legal(max, s, run, regime)
    decreases |run|
  {
    if run == [] then 0
    else Bit(StaleReread(s, run[0])) + StaleRereads(max, Step(max, s, run[0]), run[1..], regime)
  }

  /** An answered call ends a delivery in an error exactly then. */
  lemma AnsweredNackExactly(max: int, t: Pc, op: Op, j: Job)
    requires Issues(t, op)
    ensures Resume(max, t, Answer(op, j)).Nacking? <==> t.CompleteReread? && !j.DisplayStatus().IsTerminal()
  {
  }

  lemma StepErrs(max: int, s: World, a: Action)
    requires Enabled(max, s, a)
    ensures var s' := Step(max, s, a);
            && s'.h.errorReturns <= s.h.errorReturns + s'.h.faults - s.h.faults + Bit(StaleReread(s, a))
            && s.h.faults <= s'.h.faults
  {
    if a.Call? {
      AnsweredNackExactly(max, a.t, a.op, s.doc);
    } else {
      OtherSteps(max, s, a);
    }
  }

  lemma {:induction false} RunErrs(max: int, s: World, run: seq<Action>, regime: Regime)
    requires Legal(max, s, run, regime)
    ensures var s' := Exec(max, s, run, regime);
            s'.h.errorReturns <= s.h.errorReturns + s'.h.faults - s.h.faults + StaleRereads(max, s, run, regime)
    decreases |run|
  {
    if run != [] {
      StepErrs(max, s, run[0]);
      RunErrs(max, Step(max, s, run[0]), run[1..], regime);
    }
  }

  /** Without retries there is no such reread. */
  lemma {:induction false} NoStaleRereads(max: int, s: World, run: seq<Action>)
    requires max >= 1 && Disciplined(max, s) && Legal(max, s, run, NO_RETRY)
    ensures StaleRereads(max, s, run, NO_RETRY) == 0
    decreases |run|
  {
    if run != [] {
      StepKeepsDisciplined(max, s, run[0]);
      if run[0].Call? {
        assert Knows(run[0].t, s.doc.executionStatus);
      }
      NoStaleRereads(max, Step(max, s, run[0]), run[1..]);
    }
  }

  // ---- Main results ----

  /** In any run messages are handed back at most once for each failing call and each such reread. */
  lemma HandBacksBounded(max: int, j: Job, run: seq<Action>, regime: Regime)
    requires Legal(max, Initial(j), run, regime)
    ensures HowOften(run, HAND_BACK)
            <= Exec(max, Initial(j), run, regime).h.faults + StaleRereads(max, Initial(j), run, regime)
  {
    RunErrs(max, Initial(j), run, regime);
    ErrorReturnsAreNacks(max, Initial(j), run, regime);
  }

  /** Without retries, no more often than collection calls fail. */
  lemma HandBacksBoundedByFaults(max: int, j: Job, run: seq<Action>)
    requires max >= 1 && Creatable(j) && Legal(max, Initial(j), run, NO_RETRY)
    ensures HowOften(run, HAND_BACK) <= Exec(max, Initial(j), run, NO_RETRY).h.faults
  {
    HandBacksBounded(max, j, run, NO_RETRY);
    NoStaleRereads(max, Initial(j), run);
  }

  /**
   Of the deliveries of a message, all are acknowledged but those in flight,
   those cut off by a crash, and one for each failing collection call and each
   reread that finds a retried job.
   */
  lemma DeliveriesAreAcked(max: int, j: Job, run: seq<Action>, regime: Regime, mid: MsgId)
    requires Legal(max, Initial(j), run, regime)
    ensures var s := Exec(max, Initial(j), run, regime);
            HowOften(run, DeliveryOf(mid))
            <= HowOften(run, AckOf(mid)) + HowMany(s.threads, InFlight(mid)) + HowOften(run, CrashOf(mid))
               + s.h.faults + StaleRereads(max, Initial(j), run, regime)
  {
    DeliveriesBalance(max, Initial(j), run, regime, mid);
    HandBacksBounded(max, j, run, regime);
    AtMostAsOften(run, NackOf(mid), HAND_BACK);
  }

  /** So without retries one more finished delivery than there are faults means an acknowledgement. */
  lemma EnoughDeliveriesMeanAnAck(max: int, j: Job, run: seq<Action>, mid: MsgId) returns (k: nat)
    requires max >= 1 && Creatable(j) && Legal(max, Initial(j), run, NO_RETRY)
    requires HowOften(run, CrashOf(mid)) == 0
    requires var s := Exec(max, Initial(j), run, NO_RETRY);
             HowOften(run, DeliveryOf(mid)) > HowMany(s.threads, InFlight(mid)) + s.h.faults
    ensures k < |run| && run[k].Ack? && run[k].t == Acking(mid)
  {
    DeliveriesAreAcked(max, j, run, NO_RETRY, mid);
    NoStaleRereads(max, Initial(j), run);
    k := FirstOf(run, AckOf(mid));
  }

  lemma {:induction false} FirstOf(run: seq<Action>, kind: Action -> bool) returns (k: nat)
    requires HowOften(run, kind) > 0
    ensures k < |run| && kind(run[k])
  {
    if kind(run[0]) {
      k := 0;
    } else {
      k := FirstOf(run[1..], kind);
      k := k + 1;
    }
  }
}
