/** The polling bound cannot be improved: when every publish fails it is reached exactly. */
module PollingTight {
  import opened Options
  import opened Status
  import opened JobModel
  import opened Writes
  import opened Machine
  import opened Counting
  import opened Polling
  import opened Collection

  /** A poll in which the broker refuses everything. */
  function AllRefused(view: seq<Job>, max: int, limit: int): (view': seq<Job>)
    ensures |view'| == |view|
  {
    seq(|view|, i requires 0 <= i < |view| =>
      if InBatch(view, i, max, limit) then Handled(view[i], JobDispatchFromMetadata(view[i]), false, "", 0, max)
      else view[i])
  }

  /** `n` such polls, with nothing happening in between. */
  function Outage(view: seq<Job>, n: nat, max: int, limit: int): (rounds: seq<Round>)
    ensures |rounds| == n
    decreases n
  {
    if n == 0 then []
    else
      var view' := AllRefused(view, max, limit);
      [Round(0, view', view')] + Outage(view', n - 1, max, limit)
  }

  lemma {:induction false} OutageIsRounds(view: seq<Job>, n: nat, max: int, limit: int)
    ensures Rounds(view, Outage(view, n, max, limit), max, limit)
    decreases n
  {
    if n > 0 {
      var view' := AllRefused(view, max, limit);
      forall i | 0 <= i < |view| && InBatch(view, i, max, limit) ensures Attempted(view[i], view'[i], max, 0) {
        assert view'[i] == Handled(view[i], JobDispatchFromMetadata(view[i]), false, "", 0, max);
      }
      OutageIsRounds(view', n - 1, max, limit);
      assert Outage(view, n, max, limit)[1..] == Outage(view', n - 1, max, limit);
    }
  }

  /** Up to `gone` jobs have been given up on, the next `limit` have failed `attempts` times, the rest never. */
  predicate Staircase(view: seq<Job>, gone: nat, attempts: nat, max: int, limit: int) {
    forall i :: 0 <= i < |view| ==>
      if i < gone then !view[i].dispatchStatus.Pending?
      else view[i].dispatchStatus.Pending? && view[i].topic != ""
           && view[i].dispatchAttempts == if i < gone + limit then attempts else 0
  }

  lemma {:induction false} StaircaseAhead(view: seq<Job>, gone: nat, attempts: nat, max: int, limit: int, i: nat)
    requires i <= |view| && attempts < max && Staircase(view, gone, attempts, max, limit)
    ensures Ahead(view, i, max) == if i <= gone then 0 else i - gone
  {
    if i > 0 {
      StaircaseAhead(view, gone, attempts, max, limit, i - 1);
    }
  }

  lemma StaircaseStep(view: seq<Job>, gone: nat, attempts: nat, max: int, limit: int)
    requires max >= 1 && limit >= 1 && attempts < max && Staircase(view, gone, attempts, max, limit)
    ensures var view' := AllRefused(view, max, limit);
            if attempts + 1 < max then Staircase(view', gone, attempts + 1, max, limit)
            else Staircase(view', gone + limit, 0, max, limit)
  {
    forall i | 0 <= i < |view|
      ensures InBatch(view, i, max, limit) <==> gone <= i < gone + limit
    {
      StaircaseAhead(view, gone, attempts, max, limit, i);
    }
  }

  lemma {:induction false} OutageStairs(view: seq<Job>, block: nat, attempts: nat, n: nat, max: int, limit: int)
    returns (block': nat, attempts': nat)
    requires max >= 1 && limit >= 1 && attempts < max && Staircase(view, block * limit, attempts, max, limit)
    ensures attempts' < max && block' * max + attempts' == block * max + attempts + n
    ensures var final := Final(view, Outage(view, n, max, limit));
            |final| == |view| && Staircase(final, block' * limit, attempts', max, limit)
    decreases n
  {
    if n == 0 {
      block', attempts' := block, attempts;
    } else {
      var view' := AllRefused(view, max, limit);
      StaircaseStep(view, block * limit, attempts, max, limit);
      if attempts + 1 < max {
        block', attempts' := OutageStairs(view', block, attempts + 1, n - 1, max, limit);
      } else {
        assert (block + 1) * limit == block * limit + limit && (block + 1) * max == block * max + max;
        block', attempts' := OutageStairs(view', block + 1, 0, n - 1, max, limit);
      }
      var rest := Outage(view', n - 1, max, limit);
      if rest != [] {
        assert Outage(view, n, max, limit)[n - 1] == rest[n - 2];
      }
    }
  }

  lemma SameQuotient(a: nat, b: nat, x: nat, y: nat, m: int)
    requires m >= 1 && x < m && y < m && a * m + x == b * m + y
    ensures a == b && x == y
  {
    if a < b {
      MulMonotone(a + 1, b, m);
    } else if b < a {
      MulMonotone(b + 1, a, m);
    }
  }

  /** Newly created jobs with ids of their own, in creation order. */
  predicate FreshJobs(view: seq<Job>) {
    && (forall i :: 0 <= i < |view| ==> Creatable(view[i]))
    && (forall i, k :: 0 <= i < k < |view| ==> view[i].jobId != view[k].jobId && view[i].createdAt <= view[k].createdAt)
  }

  function Ids(view: seq<Job>): (ids: seq<string>)
    ensures |ids| == |view| && forall i :: 0 <= i < |ids| ==> ids[i] == view[i].jobId
  {
    seq(|view|, i requires 0 <= i < |view| => view[i].jobId)
  }

  /** Such jobs are what a collection shows. */
  lemma {:induction false} FreshJobsIndexed(view: seq<Job>) returns (docs: Docs)
    requires FreshJobs(view)
    ensures docs.Keys == (set id | id in Ids(view))
    ensures Indexed(docs, Ids(view)) && InOrder(docs, Ids(view)) == view
  {
    if view == [] {
      docs := map[];
    } else {
      var before, last := view[..|view| - 1], view[|view| - 1];
      var rest := FreshJobsIndexed(before);
      docs := rest[last.jobId := last];
      ShowOneMore(view, rest);
    }
  }

  lemma ShowOneMore(view: seq<Job>, rest: Docs)
    requires FreshJobs(view) && view != []
    requires var before := view[..|view| - 1];
             Indexed(rest, Ids(before)) && InOrder(rest, Ids(before)) == before
    ensures var docs := rest[view[|view| - 1].jobId := view[|view| - 1]];
            && docs.Keys == (set id | id in Ids(view))
            && Indexed(docs, Ids(view)) && InOrder(docs, Ids(view)) == view
  {
    var before, last := view[..|view| - 1], view[|view| - 1];
    var docs := rest[last.jobId := last];
    assert Ids(view) == Ids(before) + [last.jobId];
    forall i | 0 <= i < |view| ensures Ids(view)[i] in docs && docs[Ids(view)[i]] == view[i] {
      if i < |before| {
        assert InOrder(rest, Ids(before))[i] == before[i];
      }
    }
    forall id | id in docs ensures id in Ids(view) {
      assert id != last.jobId ==> id in Ids(before);
    }
  }

  /**
   The last of any number of newly created jobs: with the broker down, one
   poll less than the bound leaves it pending.
   */
  lemma BoundIsReached(view: seq<Job>, max: int, limit: int) returns (docs: Docs, rounds: seq<Round>)
    requires max >= 1 && limit >= 1 && view != [] && FreshJobs(view)
    ensures Indexed(docs, Ids(view)) && InOrder(docs, Ids(view)) == view
    ensures var last := |view| - 1;
            && Ahead(view, last, max) == last && Sensible(view, last + 1, max)
            && Rounds(view, rounds, max, limit) && |rounds| == PollBound(last, limit, max) - 1
            && |Final(view, rounds)| == |view| && Final(view, rounds)[last].dispatchStatus.Pending?
  {
    var last := |view| - 1;
    docs := FreshJobsIndexed(view);
    StaircaseAhead(view, 0, 0, max, limit, last);
    var n := BoundPositive(last, limit, max);
    rounds := Outage(view, n, max, limit);
    OutageIsRounds(view, n, max, limit);
    LastStair(view, last, n, max, limit);
  }

  lemma BoundPositive(ahead: nat, limit: int, max: int) returns (n: nat)
    requires max >= 1 && limit >= 1
    ensures n == PollBound(ahead, limit, max) - 1 == (ahead / limit) * max + (max - 1)
  {
    MulMonotone(1, ahead / limit + 1, max);
    assert (ahead / limit + 1) * max == (ahead / limit) * max + max;
    n := PollBound(ahead, limit, max) - 1;
  }

  lemma LastStair(view: seq<Job>, ahead: nat, n: nat, max: int, limit: int)
    requires max >= 1 && limit >= 1 && Staircase(view, 0, 0, max, limit) && ahead < |view|
    requires n == (ahead / limit) * max + (max - 1)
    ensures |Final(view, Outage(view, n, max, limit))| == |view|
    ensures Final(view, Outage(view, n, max, limit))[ahead].dispatchStatus.Pending?
  {
    var block, attempts := OutageStairs(view, 0, 0, n, max, limit);
    SameQuotient(block, ahead / limit, attempts, max - 1, max);
    assert block * limit <= ahead;
  }
}
