/**
 Polling when jobs were created at the same instant, and the query may return
 such jobs in another order each time: the bound is then on the work the jobs
 created no later can call for.
 */
module PollingTies {
  import opened Options
  import opened Status
  import opened JobModel
  import opened Writes
  import opened Machine
  import opened Counting
  import opened Polling

  /** The places of a batch: the oldest eligible jobs up to the limit, ties broken in any way. */
  ghost predicate Chosen(view: seq<Job>, batch: set<nat>, max: int, limit: int) {
    && (forall i :: i in batch ==> i < |view| && Eligible(view[i], max))
    && |batch| <= limit
    && forall k :: 0 <= k < |view| && k !in batch && Eligible(view[k], max) ==>
         |batch| == limit && forall i :: i in batch ==> view[i].createdAt <= view[k].createdAt
  }

  datatype TiedRound = TiedRound(batch: set<nat>, now: Time, polled: seq<Job>, next: seq<Job>)

  /** Jobs that arrive between two polls are created later than the one waited for. */
  ghost predicate TiedPolled(view: seq<Job>, r: TiedRound, max: int, limit: int, horizon: Time) {
    && Chosen(view, r.batch, max, limit)
    && |r.polled| == |view|
    && (forall i :: 0 <= i < |view| ==>
          if i in r.batch then Attempted(view[i], r.polled[i], max, r.now) else r.polled[i] == view[i])
    && Between(r.polled, r.next)
    && forall i :: |view| <= i < |r.next| ==> r.next[i].createdAt > horizon
  }

  ghost predicate TiedRounds(view: seq<Job>, rounds: seq<TiedRound>, max: int, limit: int, horizon: Time)
    decreases |rounds|
  {
    rounds != [] ==>
      && TiedPolled(view, rounds[0], max, limit, horizon)
      && TiedRounds(rounds[0].next, rounds[1..], max, limit, horizon)
  }

  function TiedFinal(view: seq<Job>, rounds: seq<TiedRound>): seq<Job> {
    if rounds == [] then view else rounds[|rounds| - 1].next
  }

  /** The polls the first `n` jobs can take up before job `i`: the attempts left of the others created no later. */
  function Work(view: seq<Job>, n: nat, i: nat, max: int): int
    requires n <= |view| && i < |view|
  {
    if n == 0 then 0
    else Work(view, n - 1, i, max) + Share(view, n - 1, i, max)
  }

  /** One job's share of that work. */
  function Share(view: seq<Job>, k: nat, i: nat, max: int): int
    requires k < |view| && i < |view|
  {
    if Competes(view, k, i, max) then max - view[k].dispatchAttempts else 0
  }

  predicate Competes(view: seq<Job>, k: nat, i: nat, max: int)
    requires k < |view| && i < |view|
  {
    k != i && Eligible(view[k], max) && view[k].createdAt <= view[i].createdAt
  }

  /** How many eligible jobs were created no later than job `i`, itself not counted. */
  function Rivals(view: seq<Job>, n: nat, i: nat, max: int): nat
    requires n <= |view| && i < |view|
  {
    if n == 0 then 0 else Rivals(view, n - 1, i, max) + Bit(Competes(view, n - 1, i, max))
  }

  /** How many of the first `n` places are in the batch. */
  function Places(batch: set<nat>, n: nat): nat {
    if n == 0 then 0 else Places(batch, n - 1) + Bit(n - 1 in batch)
  }

  lemma {:induction false} PlacesCount(batch: set<nat>, n: nat)
    requires forall i :: i in batch ==> i < n
    ensures Places(batch, n) == |batch|
    decreases n
  {
    if n == 0 {
      assert batch == {};
    } else {
      var rest := batch - {n - 1};
      PlacesCount(rest, n - 1);
      PlacesAgree(batch, rest, n - 1);
      if n - 1 in batch {
        assert batch == rest + {n - 1};
      } else {
        assert batch == rest;
      }
    }
  }

  lemma {:induction false} PlacesAgree(a: set<nat>, b: set<nat>, n: nat)
    requires forall i :: 0 <= i < n ==> (i in a <==> i in b)
    ensures Places(a, n) == Places(b, n)
  {
    if n > 0 {
      PlacesAgree(a, b, n - 1);
    }
  }

  lemma {:induction false} WorkBounded(view: seq<Job>, n: nat, i: nat, max: int)
    requires n <= |view| && i < |view| && Sensible(view, |view|, max)
    ensures Work(view, n, i, max) <= Rivals(view, n, i, max) * max
  {
    if n > 0 {
      WorkBounded(view, n - 1, i, max);
    }
  }

  /** What a poll does to one job: an attempt or its eligibility if it is in the batch, nothing otherwise. */
  lemma TiedRoundEffect(view: seq<Job>, r: TiedRound, max: int, limit: int, horizon: Time, k: nat)
    requires k < |view| && TiedPolled(view, r, max, limit, horizon)
    ensures k < |r.next| && r.next[k].createdAt == view[k].createdAt && r.next[k].jobId == view[k].jobId
    ensures Eligible(r.next[k], max) ==>
              Eligible(view[k], max) && r.next[k].dispatchAttempts == view[k].dispatchAttempts + Bit(k in r.batch)
    ensures (view[k].dispatchStatus.Pending? ==> Eligible(view[k], max)) ==>
              (r.next[k].dispatchStatus.Pending? ==> Eligible(r.next[k], max))
  {
    assert SameDispatchState(r.polled[k], r.next[k]);
    if k in r.batch {
      var sent, error :| r.polled[k] == Handled(view[k], JobDispatchFromMetadata(view[k]), sent, error, r.now, max);
    }
  }

  /** A job's share never grows, and a rival in the batch spends an attempt of it. */
  lemma ShareShrinks(view: seq<Job>, r: TiedRound, max: int, limit: int, horizon: Time, i: nat, k: nat)
    requires i < |view| && k < |view| && TiedPolled(view, r, max, limit, horizon)
    ensures i < |r.next| && k < |r.next|
    ensures Share(r.next, k, i, max) <= Share(view, k, i, max) - Bit(k in r.batch && Competes(view, k, i, max))
  {
    TiedRoundEffect(view, r, max, limit, horizon, i);
    TiedRoundEffect(view, r, max, limit, horizon, k);
  }

  /** When the job is eligible and not in the batch, everybody in it is a rival, and it is full. */
  lemma BatchOfRivals(view: seq<Job>, r: TiedRound, max: int, limit: int, horizon: Time, i: nat)
    requires i < |view| && TiedPolled(view, r, max, limit, horizon) && i !in r.batch && Eligible(view[i], max)
    ensures |r.batch| == limit && forall k :: k in r.batch ==> k < |view| && Competes(view, k, i, max)
  {
  }

  lemma {:induction false} SharesSum(view: seq<Job>, next: seq<Job>, spent: set<nat>, i: nat, n: nat, max: int)
    requires i < |view| && n <= |view| <= |next|
    requires forall k {:trigger Share(view, k, i, max)} :: 0 <= k < n ==>
               Share(next, k, i, max) <= Share(view, k, i, max) - Bit(k in spent)
    ensures Work(next, n, i, max) <= Work(view, n, i, max) - Places(spent, n)
  {
    if n > 0 {
      SharesSum(view, next, spent, i, n - 1, max);
      assert Share(view, n - 1, i, max) == Share(view, n - 1, i, max);
    }
  }

  lemma {:induction false} NoPlaces(n: nat)
    ensures Places({}, n) == 0
  {
    if n > 0 {
      NoPlaces(n - 1);
    }
  }

  /** Later arrivals are no rivals. */
  lemma {:induction false} ArrivalsDoNotCompete(view: seq<Job>, m: nat, n: nat, i: nat, max: int)
    requires i < |view| && m <= n <= |view|
    requires forall k :: m <= k < n ==> view[k].createdAt > view[i].createdAt
    ensures Work(view, n, i, max) == Work(view, m, i, max)
  {
    if m < n {
      ArrivalsDoNotCompete(view, m, n - 1, i, max);
    }
  }

  lemma {:induction false} WorkIsNatural(view: seq<Job>, n: nat, i: nat, max: int)
    requires n <= |view| && i < |view|
    ensures Work(view, n, i, max) >= 0
  {
    if n > 0 {
      WorkIsNatural(view, n - 1, i, max);
    }
  }

  /** One poll: the job is in the batch, or a batch full of its rivals has spent an attempt each. */
  lemma RoundSpends(view: seq<Job>, r: TiedRound, max: int, limit: int, i: nat)
    requires limit >= 1 && i < |view| && TiedPolled(view, r, max, limit, view[i].createdAt) && Eligible(view[i], max)
    ensures i < |r.next| && r.next[i].createdAt == view[i].createdAt
    ensures Work(r.next, |r.next|, i, max)
            <= Work(view, |view|, i, max) - if i in r.batch then 0 else limit
  {
    TiedRoundEffect(view, r, max, limit, view[i].createdAt, i);
    ArrivalsDoNotCompete(r.next, |view|, |r.next|, i, max);
    var spent := if i in r.batch then {} else r.batch;
    if i !in r.batch {
      BatchOfRivals(view, r, max, limit, view[i].createdAt, i);
      PlacesCount(r.batch, |view|);
    }
    forall k | 0 <= k < |view|
      ensures Share(r.next, k, i, max) <= Share(view, k, i, max) - Bit(k in spent)
    {
      ShareShrinks(view, r, max, limit, view[i].createdAt, i, k);
    }
    NoPlaces(|view|);
    SharesSum(view, r.next, spent, i, |view|, max);
  }

  lemma {:induction false} GoneStaysGone(view: seq<Job>, rounds: seq<TiedRound>, max: int, limit: int, horizon: Time,
                                         i: nat)
    requires i < |view| && TiedRounds(view, rounds, max, limit, horizon)
    requires !view[i].dispatchStatus.Pending?
    ensures i < |TiedFinal(view, rounds)| && TiedFinal(view, rounds)[i].jobId == view[i].jobId
    ensures !TiedFinal(view, rounds)[i].dispatchStatus.Pending?
    decreases |rounds|
  {
    if rounds != [] {
      TiedRoundEffect(view, rounds[0], max, limit, horizon, i);
      GoneStaysGone(rounds[0].next, rounds[1..], max, limit, horizon, i);
    }
  }

  /** With enough polls for the work of its rivals and its own attempts, the job is through. */
  lemma {:induction false} TiedJobThrough(view: seq<Job>, rounds: seq<TiedRound>, max: int, limit: int, i: nat)
    requires max >= 1 && limit >= 1 && i < |view| && TiedRounds(view, rounds, max, limit, view[i].createdAt)
    requires view[i].dispatchStatus.Pending? ==> Eligible(view[i], max)
    requires |rounds| >= max - view[i].dispatchAttempts + Work(view, |view|, i, max) / limit
    ensures i < |TiedFinal(view, rounds)| && TiedFinal(view, rounds)[i].jobId == view[i].jobId
    ensures !TiedFinal(view, rounds)[i].dispatchStatus.Pending?
    decreases |rounds|
  {
    if !view[i].dispatchStatus.Pending? {
      GoneStaysGone(view, rounds, max, limit, view[i].createdAt, i);
    } else {
      WorkIsNatural(view, |view|, i, max);
      assert rounds != [];
      var next := rounds[0].next;
      TiedRoundEffect(view, rounds[0], max, limit, view[i].createdAt, i);
      if !next[i].dispatchStatus.Pending? {
        GoneStaysGone(next, rounds[1..], max, limit, view[i].createdAt, i);
      } else {
        OnePollLess(view, rounds[0], max, limit, i);
        TiedJobThrough(next, rounds[1..], max, limit, i);
      }
    }
  }

  lemma OnePollLess(view: seq<Job>, r: TiedRound, max: int, limit: int, i: nat)
    requires limit >= 1 && i < |view| && TiedPolled(view, r, max, limit, view[i].createdAt) && Eligible(view[i], max)
    requires i < |r.next| && Eligible(r.next[i], max)
    ensures max - r.next[i].dispatchAttempts + Work(r.next, |r.next|, i, max) / limit
            <= max - view[i].dispatchAttempts + Work(view, |view|, i, max) / limit - 1
  {
    var w, w' := Work(view, |view|, i, max), Work(r.next, |r.next|, i, max);
    TiedRoundEffect(view, r, max, limit, view[i].createdAt, i);
    RoundSpends(view, r, max, limit, i);
    WorkIsNatural(view, |view|, i, max);
    WorkIsNatural(r.next, |r.next|, i, max);
    if i in r.batch {
      DivMonotone(w', w, limit);
    } else {
      DivLess(w', w, limit);
    }
  }

  lemma DivLess(w': nat, w: nat, limit: int)
    requires limit >= 1 && w' <= w - limit
    ensures w' / limit <= w / limit - 1
  {
    DivMonotone(w' + limit, w, limit);
    DivStep(w', limit);
  }

  // ---- Main results ----

  /**
   Whatever the order of jobs created at the same instant, and however it
   changes from poll to poll: a job with r eligible jobs created no later has
   left pending after max + (r * max) / limit polls.
   */
  lemma StarvationFreeWithTies(view: seq<Job>, rounds: seq<TiedRound>, max: int, limit: int, i: nat)
    requires max >= 1 && limit >= 1 && i < |view| && TiedRounds(view, rounds, max, limit, view[i].createdAt)
    requires view[i].dispatchStatus.Pending? ==> Eligible(view[i], max)
    requires Sensible(view, |view|, max)
    requires |rounds| >= max + Rivals(view, |view|, i, max) * max / limit
    ensures i < |TiedFinal(view, rounds)| && TiedFinal(view, rounds)[i].jobId == view[i].jobId
    ensures !TiedFinal(view, rounds)[i].dispatchStatus.Pending?
  {
    if !view[i].dispatchStatus.Pending? {
      GoneStaysGone(view, rounds, max, limit, view[i].createdAt, i);
    } else {
      WorkBounded(view, |view|, i, max);
      WorkIsNatural(view, |view|, i, max);
      DivMonotone(Work(view, |view|, i, max), Rivals(view, |view|, i, max) * max, limit);
      TiedJobThrough(view, rounds, max, limit, i);
    }
  }

  // ---- Ties can cost a poll ----

  /** A poll of this batch with the broker down. */
  function Refused(view: seq<Job>, batch: set<nat>, max: int): (view': seq<Job>)
    ensures |view'| == |view|
  {
    seq(|view|, i requires 0 <= i < |view| =>
      if i in batch then Handled(view[i], JobDispatchFromMetadata(view[i]), false, "", 0, max) else view[i])
  }

  function RefusedRound(view: seq<Job>, batch: set<nat>, max: int): TiedRound {
    TiedRound(batch, 0, Refused(view, batch, max), Refused(view, batch, max))
  }

  lemma RefusedIsRound(view: seq<Job>, batch: set<nat>, max: int, limit: int, horizon: Time)
    requires Chosen(view, batch, max, limit)
    ensures TiedPolled(view, RefusedRound(view, batch, max), max, limit, horizon)
  {
    var view' := Refused(view, batch, max);
    forall i | 0 <= i < |view| && i in batch ensures Attempted(view[i], view'[i], max, 0) {
      assert view'[i] == Handled(view[i], JobDispatchFromMetadata(view[i]), false, "", 0, max);
    }
  }

  /** Four jobs of one instant, the attempts they have used, of two. */
  predicate Four(view: seq<Job>, used: seq<nat>) {
    && |view| == 4 && |used| == 4
    && forall i :: 0 <= i < 4 ==>
         && view[i].createdAt == view[0].createdAt
         && (Eligible(view[i], 2) <==> used[i] < 2)
         && (used[i] < 2 ==> view[i].dispatchAttempts == used[i])
  }

  lemma OneOfFourPolled(view: seq<Job>, used: seq<nat>, batch: set<nat>, i: nat)
    requires Four(view, used) && i < 4 && (i in batch ==> used[i] < 2)
    ensures var j, n := Refused(view, batch, 2)[i], used[i] + Bit(i in batch);
            && j.createdAt == view[0].createdAt
            && (Eligible(j, 2) <==> n < 2) && (n < 2 ==> j.dispatchAttempts == n)
  {
    assert Eligible(view[i], 2) <==> used[i] < 2;
    assert view[i].createdAt == view[0].createdAt;
  }

  /** A poll of two jobs, or of the only one left. */
  lemma FourPolled(view: seq<Job>, used: seq<nat>, a: nat, b: nat, used': seq<nat>) returns (r: TiedRound)
    requires Four(view, used) && |used'| == 4 && a <= b < 4 && used[a] < 2 && used[b] < 2
    requires a == b ==> forall i :: 0 <= i < 4 && used[i] < 2 ==> i == a
    requires forall i :: 0 <= i < 4 ==> used'[i] == used[i] + Bit(i == a || i == b)
    ensures TiedPolled(view, r, 2, 2, view[0].createdAt)
    ensures Four(r.next, used') && r.next[0].createdAt == view[0].createdAt
  {
    var batch := {a, b};
    assert a in batch && b in batch && |batch| == if a == b then 1 else 2;
    BatchChosen(view, used, a, b);
    RefusedIsRound(view, batch, 2, 2, view[0].createdAt);
    r := RefusedRound(view, batch, 2);
    OneOfFourPolled(view, used, batch, 0);
    forall i | 0 <= i < 4
      ensures r.next[i].createdAt == r.next[0].createdAt
      ensures (Eligible(r.next[i], 2) <==> used'[i] < 2) && (used'[i] < 2 ==> r.next[i].dispatchAttempts == used'[i])
    {
      OneOfFourPolled(view, used, batch, i);
    }
  }

  lemma BatchChosen(view: seq<Job>, used: seq<nat>, a: nat, b: nat)
    requires Four(view, used) && a <= b < 4 && used[a] < 2 && used[b] < 2
    requires a == b ==> forall i :: 0 <= i < 4 && used[i] < 2 ==> i == a
    ensures Chosen(view, {a, b}, 2, 2)
  {
    forall i | i in {a, b} ensures i < 4 && Eligible(view[i], 2) && view[i].createdAt == view[0].createdAt {
    }
    forall k | 0 <= k < 4 && k !in {a, b} && Eligible(view[k], 2)
      ensures |{a, b}| == 2 && view[k].createdAt == view[0].createdAt
    {
      assert used[k] < 2;
    }
  }

  /** Four jobs, two a poll, two attempts each: in the four polls a fixed order needs, one may get a single attempt. */
  lemma TiesCanCostAPoll(view: seq<Job>) returns (rounds: seq<TiedRound>)
    requires Four(view, [0, 0, 0, 0])
    ensures PollBound(3, 2, 2) == 4 == |rounds| && TiedRounds(view, rounds, 2, 2, view[0].createdAt)
    ensures |TiedFinal(view, rounds)| == 4 && TiedFinal(view, rounds)[3].dispatchStatus.Pending?
  {
    var h := view[0].createdAt;
    var r0, r1 := FirstTwoPolls(view);
    var r2, r3 := LastTwoPolls(r1.next);
    rounds := FourRounds(view, r0, r1, r2, r3, h);
  }

  lemma FirstTwoPolls(view: seq<Job>) returns (r0: TiedRound, r1: TiedRound)
    requires Four(view, [0, 0, 0, 0])
    ensures TiedPolled(view, r0, 2, 2, view[0].createdAt) && TiedPolled(r0.next, r1, 2, 2, view[0].createdAt)
    ensures Four(r1.next, [2, 1, 1, 0]) && r1.next[0].createdAt == view[0].createdAt
  {
    r0 := FourPolled(view, [0, 0, 0, 0], 0, 1, [1, 1, 0, 0]);
    r1 := FourPolled(r0.next, [1, 1, 0, 0], 0, 2, [2, 1, 1, 0]);
  }

  lemma LastTwoPolls(view: seq<Job>) returns (r2: TiedRound, r3: TiedRound)
    requires Four(view, [2, 1, 1, 0])
    ensures TiedPolled(view, r2, 2, 2, view[0].createdAt) && TiedPolled(r2.next, r3, 2, 2, view[0].createdAt)
    ensures |r3.next| == 4 && r3.next[3].dispatchStatus.Pending?
  {
    r2 := FourPolled(view, [2, 1, 1, 0], 1, 2, [2, 2, 2, 0]);
    r3 := FourPolled(r2.next, [2, 2, 2, 0], 3, 3, [2, 2, 2, 1]);
    assert Eligible(r3.next[3], 2);
  }

  lemma FourRounds(view: seq<Job>, r0: TiedRound, r1: TiedRound, r2: TiedRound, r3: TiedRound, h: Time)
    returns (rounds: seq<TiedRound>)
    requires TiedPolled(view, r0, 2, 2, h) && TiedPolled(r0.next, r1, 2, 2, h)
    requires TiedPolled(r1.next, r2, 2, 2, h) && TiedPolled(r2.next, r3, 2, 2, h)
    ensures |rounds| == 4 && TiedRounds(view, rounds, 2, 2, h) && TiedFinal(view, rounds) == r3.next
  {
    OneInFront(r2.next, r3, [], h);
    OneInFront(r1.next, r2, [r3], h);
    OneInFront(r0.next, r1, [r2] + [r3], h);
    rounds := [r0] + ([r1] + ([r2] + [r3]));
    assert [r3] + [] == [r3];
    OneInFront(view, r0, [r1] + ([r2] + [r3]), h);
  }

  lemma OneInFront(view: seq<Job>, r: TiedRound, rest: seq<TiedRound>, h: Time)
    requires TiedPolled(view, r, 2, 2, h) && TiedRounds(r.next, rest, 2, 2, h)
    ensures TiedRounds(view, [r] + rest, 2, 2, h)
  {
    assert ([r] + rest)[1..] == rest;
  }
}
