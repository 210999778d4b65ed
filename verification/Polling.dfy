/**
 Polling as a bounded scheduler: who is in a batch, what a poll does to the
 collection, and how many polls an eligible job can be kept waiting.
 */
module Polling {
  import opened Options
  import opened Status
  import opened JobModel
  import opened Writes
  import opened Machine
  import opened Counting

  // ---- One poll ----

  /** How many of the first `i` jobs, in creation order, are eligible. */
  function Ahead(view: seq<Job>, i: nat, max: int): nat
    requires i <= |view|
  {
    if i == 0 then 0 else Ahead(view, i - 1, max) + Bit(Eligible(view[i - 1], max))
  }

  /** A limit that is not positive means no limit. */
  predicate InBatch(view: seq<Job>, i: nat, max: int, limit: int)
    requires i < |view|
  {
    Eligible(view[i], max) && (limit <= 0 || Ahead(view, i, max) < limit)
  }

  /** What FetchPending returns from the first `n` jobs. */
  function Batch(view: seq<Job>, n: nat, max: int, limit: int): seq<Projection>
    requires n <= |view|
  {
    if n == 0 then []
    else
      Batch(view, n - 1, max, limit) +
      if InBatch(view, n - 1, max, limit) then [JobDispatchFromMetadata(view[n - 1])] else []
  }

  lemma {:induction false} AheadGrows(view: seq<Job>, i: nat, k: nat, max: int)
    requires i <= k <= |view|
    ensures Ahead(view, i, max) <= Ahead(view, k, max)
    ensures forall m :: i <= m < k && Eligible(view[m], max) ==> Ahead(view, i, max) < Ahead(view, k, max)
  {
    if i < k {
      AheadGrows(view, i, k - 1, max);
    }
  }

  /** A batch holds the oldest eligible jobs, up to the limit. */
  lemma {:induction false} BatchSize(view: seq<Job>, n: nat, max: int, limit: int)
    requires n <= |view|
    ensures |Batch(view, n, max, limit)|
            == if limit <= 0 || Ahead(view, n, max) < limit then Ahead(view, n, max) else limit
  {
    if n > 0 {
      BatchSize(view, n - 1, max, limit);
    }
  }

  lemma {:induction false} BatchFull(view: seq<Job>, k: nat, n: nat, max: int, limit: int)
    requires k <= n <= |view| && 0 < limit <= Ahead(view, k, max)
    ensures Batch(view, n, max, limit) == Batch(view, k, max, limit)
  {
    if k < n {
      AheadGrows(view, k, n - 1, max);
      BatchFull(view, k, n - 1, max, limit);
    }
  }

  /** The member of the batch at position k is the job with k eligible jobs ahead of it. */
  lemma {:induction false} BatchMember(view: seq<Job>, n: nat, max: int, limit: int, k: nat) returns (i: nat)
    requires n <= |view| && k < |Batch(view, n, max, limit)|
    ensures i < n && InBatch(view, i, max, limit) && Ahead(view, i, max) == k
    ensures Batch(view, n, max, limit)[k] == JobDispatchFromMetadata(view[i])
  {
    if k < |Batch(view, n - 1, max, limit)| {
      i := BatchMember(view, n - 1, max, limit, k);
    } else {
      i := n - 1;
      BatchSize(view, n - 1, max, limit);
    }
  }

  lemma SameRankSameJob(view: seq<Job>, i: nat, k: nat, max: int)
    requires i < |view| && k < |view| && Eligible(view[i], max) && Eligible(view[k], max)
    requires Ahead(view, i, max) == Ahead(view, k, max)
    ensures i == k
  {
    if i < k {
      AheadGrows(view, i, k, max);
    } else if k < i {
      AheadGrows(view, k, i, max);
    }
  }

  /** The document after one undisturbed HandleDispatch of its projection. */
  function Handled(j: Job, p: Projection, sent: bool, error: string, now: Time, max: int): Job {
    if sent then After(MarkDispatchedIfPending(now), j)
    else
      var recorded := After(RecordDispatchAttemptIfPending(p.dispatchAttempts + 1, error), j);
      if p.dispatchAttempts + 1 >= max then After(MarkDispatchFailedIfPending(error, now), recorded) else recorded
  }

  ghost predicate Attempted(j: Job, j': Job, max: int, now: Time) {
    exists sent, error :: j' == Handled(j, JobDispatchFromMetadata(j), sent, error, now, max)
  }

  /** What one poll can make of the collection, whatever the broker does. */
  ghost predicate PollOutcome(view: seq<Job>, view': seq<Job>, max: int, limit: int, now: Time) {
    && |view'| == |view|
    && forall i :: 0 <= i < |view| ==>
         if InBatch(view, i, max, limit) then Attempted(view[i], view'[i], max, now) else view'[i] == view[i]
  }

  // ---- Rounds of polls ----

  /** The same job, with the same dispatch before it. */
  predicate SameDispatchState(j: Job, k: Job) {
    && j.jobId == k.jobId && j.createdAt == k.createdAt
    && j.dispatchStatus == k.dispatchStatus && j.dispatchAttempts == k.dispatchAttempts && j.topic == k.topic
  }

  /** Between two polls later jobs may arrive, and executors and operators may do anything but retry. */
  predicate Between(view: seq<Job>, view': seq<Job>) {
    |view| <= |view'| && forall i :: 0 <= i < |view| ==> SameDispatchState(view[i], view'[i])
  }

  datatype Round = Round(now: Time, polled: seq<Job>, next: seq<Job>)

  ghost predicate Polled(view: seq<Job>, r: Round, max: int, limit: int) {
    PollOutcome(view, r.polled, max, limit, r.now) && Between(r.polled, r.next)
  }

  ghost predicate Rounds(view: seq<Job>, rounds: seq<Round>, max: int, limit: int)
    decreases |rounds|
  {
    rounds != [] ==> Polled(view, rounds[0], max, limit) && Rounds(rounds[0].next, rounds[1..], max, limit)
  }

  function Final(view: seq<Job>, rounds: seq<Round>): seq<Job> {
    if rounds == [] then view else rounds[|rounds| - 1].next
  }

  /** A round never makes a job eligible, and costs an eligible job in the batch an attempt or its eligibility. */
  lemma RoundEffect(view: seq<Job>, r: Round, max: int, limit: int, k: nat)
    requires k < |view| && Polled(view, r, max, limit)
    ensures k < |r.next| && r.next[k].jobId == view[k].jobId
    ensures Eligible(r.next[k], max) ==>
              && Eligible(view[k], max)
              && r.next[k].dispatchAttempts == view[k].dispatchAttempts + Bit(InBatch(view, k, max, limit))
    ensures (view[k].dispatchStatus.Pending? ==> Eligible(view[k], max)) ==>
              (r.next[k].dispatchStatus.Pending? ==> Eligible(r.next[k], max))
  {
    assert SameDispatchState(r.polled[k], r.next[k]);
    if InBatch(view, k, max, limit) {
      var sent, error :| r.polled[k] == Handled(view[k], JobDispatchFromMetadata(view[k]), sent, error, r.now, max);
    }
  }

  lemma {:induction false} AheadShrinks(view: seq<Job>, r: Round, max: int, limit: int, i: nat)
    requires i <= |view| && Polled(view, r, max, limit)
    ensures Ahead(r.next, i, max) <= Ahead(view, i, max)
  {
    if i > 0 {
      RoundEffect(view, r, max, limit, i - 1);
      AheadShrinks(view, r, max, limit, i - 1);
    }
  }

  lemma {:induction false} RoundsEffect(view: seq<Job>, rounds: seq<Round>, max: int, limit: int, k: nat)
    requires k < |view| && Rounds(view, rounds, max, limit)
    ensures |view| <= |Final(view, rounds)| && Final(view, rounds)[k].jobId == view[k].jobId
    ensures Eligible(Final(view, rounds)[k], max) ==> Eligible(view[k], max)
    ensures Eligible(Final(view, rounds)[k], max) ==>
              Final(view, rounds)[k].dispatchAttempts >= view[k].dispatchAttempts
    ensures (view[k].dispatchStatus.Pending? ==> Eligible(view[k], max)) ==>
              (Final(view, rounds)[k].dispatchStatus.Pending? ==> Eligible(Final(view, rounds)[k], max))
    decreases |rounds|
  {
    if rounds != [] {
      RoundEffect(view, rounds[0], max, limit, k);
      RoundsEffect(rounds[0].next, rounds[1..], max, limit, k);
    }
  }

  /** A job within the batch limit stays within it, and is through after as many polls as it has attempts left. */
  lemma {:induction false} WindowClears(view: seq<Job>, rounds: seq<Round>, max: int, limit: int, k: nat)
    requires limit >= 1 && k < |view| && Rounds(view, rounds, max, limit)
    requires Ahead(view, k, max) < limit
    requires Eligible(view[k], max) ==> |rounds| >= max - view[k].dispatchAttempts
    ensures |view| <= |Final(view, rounds)|
    ensures !Eligible(Final(view, rounds)[k], max)
    decreases |rounds|
  {
    RoundsEffect(view, rounds, max, limit, k);
    if Eligible(view[k], max) {
      var next := rounds[0].next;
      RoundEffect(view, rounds[0], max, limit, k);
      AheadShrinks(view, rounds[0], max, limit, k);
      if Eligible(next[k], max) {
        WindowClears(next, rounds[1..], max, limit, k);
      } else {
        RoundsEffect(next, rounds[1..], max, limit, k);
      }
    }
  }

  /** The first `i` jobs have sensible attempt counts while they are eligible. */
  predicate Sensible(view: seq<Job>, i: nat, max: int)
    requires i <= |view|
  {
    forall k :: 0 <= k < i ==> Eligible(view[k], max) ==> view[k].dispatchAttempts >= 0
  }

  lemma SensibleStays(view: seq<Job>, rounds: seq<Round>, max: int, limit: int, i: nat)
    requires i <= |view| && Rounds(view, rounds, max, limit) && Sensible(view, i, max)
    ensures i <= |Final(view, rounds)| && Sensible(Final(view, rounds), i, max)
  {
    FinalGrows(view, rounds, max, limit);
    var final := Final(view, rounds);
    forall k | 0 <= k < i && Eligible(final[k], max) ensures final[k].dispatchAttempts >= 0 {
      RoundsEffect(view, rounds, max, limit, k);
    }
  }

  /** After `max` polls a whole batch is gone from in front of every job. */
  lemma {:induction false} BatchGone(view: seq<Job>, rounds: seq<Round>, max: int, limit: int, i: nat)
    requires limit >= 1 && i <= |view| && Rounds(view, rounds, max, limit) && |rounds| >= max
    requires Sensible(view, i, max)
    ensures |view| <= |Final(view, rounds)|
    ensures Ahead(Final(view, rounds), i, max)
            <= if Ahead(view, i, max) < limit then 0 else Ahead(view, i, max) - limit
  {
    if i > 0 {
      BatchGone(view, rounds, max, limit, i - 1);
      RoundsEffect(view, rounds, max, limit, i - 1);
      if Ahead(view, i - 1, max) < limit {
        WindowClears(view, rounds, max, limit, i - 1);
      }
    } else {
      FinalGrows(view, rounds, max, limit);
    }
  }

  lemma {:induction false} FinalGrows(view: seq<Job>, rounds: seq<Round>, max: int, limit: int)
    requires Rounds(view, rounds, max, limit)
    ensures |view| <= |Final(view, rounds)|
    decreases |rounds|
  {
    if rounds != [] {
      FinalGrows(rounds[0].next, rounds[1..], max, limit);
    }
  }

  lemma {:induction false} RoundsSplit(view: seq<Job>, rounds: seq<Round>, n: nat, max: int, limit: int)
    requires n <= |rounds| && Rounds(view, rounds, max, limit)
    ensures Rounds(view, rounds[..n], max, limit)
    ensures Rounds(Final(view, rounds[..n]), rounds[n..], max, limit)
    ensures Final(Final(view, rounds[..n]), rounds[n..]) == Final(view, rounds)
    decreases |rounds|
  {
    if n > 0 {
      var first, rest := rounds[0], rounds[1..];
      RoundsSplit(first.next, rest, n - 1, max, limit);
      assert rounds[n..] == rest[n - 1..];
      RoundInFront(view, first, rest[..n - 1], max, limit);
      assert rounds[..n] == [first] + rest[..n - 1];
    } else {
      assert rounds[0..] == rounds;
    }
  }

  lemma RoundInFront(view: seq<Job>, first: Round, rest: seq<Round>, max: int, limit: int)
    requires Polled(view, first, max, limit) && Rounds(first.next, rest, max, limit)
    ensures Rounds(view, [first] + rest, max, limit)
    ensures Final(view, [first] + rest) == Final(first.next, rest)
  {
    assert ([first] + rest)[1..] == rest;
  }

  /** The bound on the polls a job can need with `ahead` eligible jobs in front of it. */
  function PollBound(ahead: nat, limit: int, max: int): int
    requires limit >= 1
  {
    (ahead / limit + 1) * max
  }

  lemma BoundSplits(ahead: nat, ahead': nat, limit: int, max: int)
    requires limit >= 1 && max >= 1 && ahead >= limit && ahead' <= ahead - limit
    ensures max + PollBound(ahead', limit, max) <= PollBound(ahead, limit, max)
    ensures PollBound(ahead', limit, max) >= 1
  {
    DivMonotone(ahead' + limit, ahead, limit);
    DivStep(ahead', limit);
    MulMonotone(ahead' / limit + 1, ahead / limit, max);
  }

  lemma BoundOfOneBatch(ahead: nat, limit: int, max: int)
    requires ahead < limit
    ensures PollBound(ahead, limit, max) == max
  {
  }

  lemma BoundAtLeast(ahead: nat, limit: int, max: int)
    requires limit >= 1 && max >= 1 && ahead >= limit
    ensures PollBound(ahead, limit, max) >= max
  {
    BoundSplits(ahead, ahead - limit, limit, max);
  }

  lemma DivMonotone(a: nat, b: nat, d: int)
    requires d >= 1 && a <= b
    ensures a / d <= b / d
  {
    if a / d > b / d {
      MulMonotone(b / d + 1, a / d, d);
    }
  }

  lemma DivStep(a: nat, d: int)
    requires d >= 1
    ensures (a + d) / d == a / d + 1
  {
    var q := a / d;
    assert a == q * d + a % d;
    assert a + d == (q + 1) * d + a % d;
    if (a + d) / d > q + 1 {
      MulMonotone(q + 2, (a + d) / d, d);
    } else if (a + d) / d < q + 1 {
      MulMonotone((a + d) / d + 1, q + 1, d);
    }
  }

  lemma MulMonotone(a: int, b: int, m: int)
    requires a <= b && m >= 1
    ensures a * m <= b * m && m + b * m == (b + 1) * m && (a >= 1 ==> a * m >= 1)
  {
  }

  // ---- Main result ----

  /**
   An eligible job with r eligible jobs ahead of it has left pending after
   (r / limit + 1) * max polls, for every pattern of publish outcomes and
   however many later jobs arrive in between.
   */
  lemma {:induction false} StarvationFree(view: seq<Job>, rounds: seq<Round>, max: int, limit: int, i: nat)
    requires max >= 1 && limit >= 1 && i < |view| && Rounds(view, rounds, max, limit)
    requires view[i].dispatchStatus.Pending? ==> Eligible(view[i], max)
    requires Sensible(view, i + 1, max)
    requires |rounds| >= PollBound(Ahead(view, i, max), limit, max)
    ensures i < |Final(view, rounds)| && !Final(view, rounds)[i].dispatchStatus.Pending?
    decreases Ahead(view, i, max)
  {
    var ahead := Ahead(view, i, max);
    if ahead < limit {
      BoundOfOneBatch(ahead, limit, max);
      RoundsEffect(view, rounds, max, limit, i);
      WindowClears(view, rounds, max, limit, i);
    } else {
      BoundAtLeast(ahead, limit, max);
      FirstBatch(view, rounds, max, limit, i);
      var middle, ahead' := Final(view, rounds[..max]), Ahead(Final(view, rounds[..max]), i, max);
      BoundSplits(ahead, ahead', limit, max);
      assert |rounds[max..]| >= PollBound(ahead', limit, max);
      StarvationFree(middle, rounds[max..], max, limit, i);
    }
  }

  /** The situation of job `i` after the first `max` polls. */
  lemma FirstBatch(view: seq<Job>, rounds: seq<Round>, max: int, limit: int, i: nat)
    requires max >= 1 && limit >= 1 && i < |view| && Rounds(view, rounds, max, limit) && |rounds| >= max
    requires view[i].dispatchStatus.Pending? ==> Eligible(view[i], max)
    requires Sensible(view, i + 1, max) && Ahead(view, i, max) >= limit
    ensures var middle := Final(view, rounds[..max]);
            && i < |middle| && Rounds(middle, rounds[max..], max, limit)
            && Final(middle, rounds[max..]) == Final(view, rounds)
            && Ahead(middle, i, max) <= Ahead(view, i, max) - limit
            && Sensible(middle, i + 1, max)
            && (middle[i].dispatchStatus.Pending? ==> Eligible(middle[i], max))
  {
    RoundsSplit(view, rounds, max, max, limit);
    BatchGone(view, rounds[..max], max, limit, i);
    RoundsEffect(view, rounds[..max], max, limit, i);
    SensibleStays(view, rounds[..max], max, limit, i + 1);
  }

  /** After so many polls, every job whose bound is no more is through. */
  predicate Freed(view: seq<Job>, final: seq<Job>, polls: nat, max: int, limit: int)
    requires limit >= 1
  {
    forall i {:trigger view[i]} :: 0 <= i < |view| ==>
      (view[i].dispatchStatus.Pending? ==> Eligible(view[i], max)) && Sensible(view, i + 1, max)
      && polls >= PollBound(Ahead(view, i, max), limit, max) ==>
        i < |final| && final[i].jobId == view[i].jobId && !final[i].dispatchStatus.Pending?
  }

  lemma AllFreed(view: seq<Job>, rounds: seq<Round>, max: int, limit: int)
    requires max >= 1 && limit >= 1 && Rounds(view, rounds, max, limit)
    ensures Freed(view, Final(view, rounds), |rounds|, max, limit)
  {
    forall i | 0 <= i < |view| && (view[i].dispatchStatus.Pending? ==> Eligible(view[i], max))
               && Sensible(view, i + 1, max) && |rounds| >= PollBound(Ahead(view, i, max), limit, max)
      ensures i < |Final(view, rounds)| && Final(view, rounds)[i].jobId == view[i].jobId
      ensures !Final(view, rounds)[i].dispatchStatus.Pending?
    {
      StarvationFree(view, rounds, max, limit, i);
      RoundsEffect(view, rounds, max, limit, i);
    }
  }
}
