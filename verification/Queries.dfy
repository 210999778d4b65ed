/** Status filters and the statistics built on them. */
module Queries {
  import opened Options
  import opened Status
  import opened JobModel
  import opened Counting

  /** The pair a display status is looked up by; an unknown status has none that is valid. */
  function StatusToSubFields(s: JobStatus): CompositeStatus {
    match s
    case PendingDispatch => CompositeStatus(DispatchStatus.Pending, ExecutionStatus.NotStarted)
    case Dispatched => CompositeStatus(DispatchStatus.Dispatched, ExecutionStatus.NotStarted)
    case DispatchFailed => CompositeStatus(DispatchStatus.Failed, ExecutionStatus.NotStarted)
    case Running => CompositeStatus(DispatchStatus.Dispatched, ExecutionStatus.Running)
    case Completed => CompositeStatus(DispatchStatus.Dispatched, ExecutionStatus.Completed)
    case Failed => CompositeStatus(DispatchStatus.Dispatched, ExecutionStatus.Failed)
    case Cancelled => CompositeStatus(DispatchStatus.Dispatched, ExecutionStatus.Cancelled)
    case Unknown(_) => CompositeStatus(DispatchStatus.Unknown(""), ExecutionStatus.Unknown(""))
  }

  /** Looking a status up by its pair and displaying that pair gets the status back. */
  lemma DisplayInvertsLookup(s: JobStatus)
    ensures StatusToSubFields(s).IsValid() <==> s.IsValid()
    ensures s.IsValid() ==> StatusToSubFields(s).DisplayStatus() == s
  {
  }

  /** The pairs of the valid statuses, each where its first status stands. */
  function Pairs(statuses: seq<JobStatus>): (pairs: seq<CompositeStatus>)
    ensures forall p :: p in pairs <==> exists s :: s in statuses && s.IsValid() && p == StatusToSubFields(s)
    ensures forall i, k :: 0 <= i < k < |pairs| ==> pairs[i] != pairs[k]
  {
    if statuses == [] then []
    else
      var rest := Pairs(statuses[..|statuses| - 1]);
      var last := statuses[|statuses| - 1];
      assert statuses == statuses[..|statuses| - 1] + [last];
      DisplayInvertsLookup(last);
      if last.IsValid() && StatusToSubFields(last) !in rest then rest + [StatusToSubFields(last)] else rest
  }

  /** Every status looked up by `q` has one looked up by `p` before it. */
  predicate ComesFirst(statuses: seq<JobStatus>, p: CompositeStatus, q: CompositeStatus) {
    forall n :: 0 <= n < |statuses| && StatusToSubFields(statuses[n]) == q ==>
      exists m :: 0 <= m < n && StatusToSubFields(statuses[m]) == p
  }

  lemma ComesFirstStays(statuses: seq<JobStatus>, p: CompositeStatus, q: CompositeStatus, more: seq<JobStatus>)
    requires ComesFirst(statuses, p, q)
    requires (exists m :: 0 <= m < |statuses| && StatusToSubFields(statuses[m]) == p)
    ensures ComesFirst(statuses + more, p, q)
  {
    var m0 :| 0 <= m0 < |statuses| && StatusToSubFields(statuses[m0]) == p;
    var all := statuses + more;
    forall n | 0 <= n < |all| && StatusToSubFields(all[n]) == q
      ensures exists m :: 0 <= m < n && StatusToSubFields(all[m]) == p
    {
      if n < |statuses| {
        var m :| 0 <= m < n && StatusToSubFields(statuses[m]) == p;
        assert StatusToSubFields(all[m]) == p;
      } else {
        assert StatusToSubFields(all[m0]) == p;
      }
    }
  }

  /** The pairs stand in the order in which their statuses first occur. */
  lemma {:induction false} PairsInFirstOccurrenceOrder(statuses: seq<JobStatus>)
    ensures forall i, k :: 0 <= i < k < |Pairs(statuses)| ==>
            ComesFirst(statuses, Pairs(statuses)[i], Pairs(statuses)[k])
  {
    if statuses != [] {
      var before, last := statuses[..|statuses| - 1], statuses[|statuses| - 1];
      PairsInFirstOccurrenceOrder(before);
      assert statuses == before + [last];
      var pairs, rest := Pairs(statuses), Pairs(before);
      forall i, k | 0 <= i < k < |pairs| ensures ComesFirst(statuses, pairs[i], pairs[k]) {
        assert pairs[i] == rest[i] && rest[i] in rest;
        var s :| s in before && s.IsValid() && rest[i] == StatusToSubFields(s);
        var m :| 0 <= m < |before| && before[m] == s;
        if k == |rest| {
          NewPairComesLast(before, pairs[i], pairs[k]);
        }
        ComesFirstStays(before, pairs[i], pairs[k], [last]);
      }
    }
  }

  lemma NewPairComesLast(statuses: seq<JobStatus>, p: CompositeStatus, q: CompositeStatus)
    requires q !in Pairs(statuses) && q.IsValid()
    ensures ComesFirst(statuses, p, q)
  {
    forall n | 0 <= n < |statuses| ensures StatusToSubFields(statuses[n]) != q {
      DisplayInvertsLookup(statuses[n]);
      assert statuses[n] in statuses;
    }
  }

  method BuildStatusOrQuery(statuses: seq<JobStatus>) returns (conditions: seq<CompositeStatus>)
    ensures conditions == Pairs(statuses)
  {
    var seen: set<CompositeStatus> := {};
    conditions := [];
    var n := 0;
    while n < |statuses|
      invariant 0 <= n <= |statuses|
      invariant conditions == Pairs(statuses[..n])
      invariant forall p :: p in seen <==> p in conditions
    {
      assert statuses[..n + 1][..n] == statuses[..n];
      DisplayInvertsLookup(statuses[n]);
      var pair := StatusToSubFields(statuses[n]);
      if pair.IsValid() && pair !in seen {
        seen := seen + {pair};
        conditions := conditions + [pair];
      }
      n := n + 1;
    }
    assert statuses[..n] == statuses;
  }

  datatype ListFilter = ListFilter(
    names: seq<string> := [],
    statuses: seq<JobStatus> := [],
    tags: seq<string> := [],
    minPriority: Option<int> := None,
    maxPriority: Option<int> := None,
    createdAfter: Option<Time> := None,
    createdBefore: Option<Time> := None)

  /** A query: one clause a field, absent clauses unconstrained. */
  datatype Query = Query(
    names: Option<seq<string>>,
    statusOr: Option<seq<CompositeStatus>>,
    tags: Option<seq<string>>,
    minPriority: Option<int>,
    maxPriority: Option<int>,
    createdAfter: Option<Time>,
    createdBefore: Option<Time>)
  {
    predicate Selects(j: Job) {
      && (names.Some? ==> j.name in names.value)
      && (statusOr.Some? ==> j.Composite() in statusOr.value)
      && (tags.Some? ==> exists t :: t in j.tags && t in tags.value)
      && (minPriority.Some? ==> j.priority >= minPriority.value)
      && (maxPriority.Some? ==> j.priority <= maxPriority.value)
      && (createdAfter.Some? ==> j.createdAt > createdAfter.value)
      && (createdBefore.Some? ==> j.createdAt < createdBefore.value)
    }
  }

  /** What a filter asks for, said directly: empty lists ask for nothing. */
  predicate Wants(f: ListFilter, j: Job) {
    && (f.names != [] ==> j.name in f.names)
    && (f.statuses != [] ==> j.DisplayStatus() in f.statuses && Canonical(j))
    && (f.tags != [] ==> exists t :: t in j.tags && t in f.tags)
    && (f.minPriority.Some? ==> f.minPriority.value <= j.priority)
    && (f.maxPriority.Some? ==> j.priority <= f.maxPriority.value)
    && (f.createdAfter.Some? ==> f.createdAfter.value < j.createdAt)
    && (f.createdBefore.Some? ==> j.createdAt < f.createdBefore.value)
  }

  /** The status pair is the one its display status is looked up by. */
  predicate Canonical(j: Job) {
    j.Composite() == StatusToSubFields(j.DisplayStatus())
  }

  /** A job is found under a status list exactly when its display status is listed and its pair is canonical. */
  lemma StatusFilterExact(statuses: seq<JobStatus>, j: Job)
    ensures j.Composite() in Pairs(statuses) <==> j.DisplayStatus() in statuses && Canonical(j)
  {
    if j.Composite() in Pairs(statuses) {
      var s :| s in statuses && s.IsValid() && j.Composite() == StatusToSubFields(s);
      DisplayInvertsLookup(s);
    }
    if j.DisplayStatus() in statuses && Canonical(j) {
      DisplayInvertsLookup(j.DisplayStatus());
      assert j.DisplayStatus().IsValid();
    }
  }

  method BuildListQuery(f: ListFilter) returns (q: Query)
    ensures forall j :: q.Selects(j) <==> Wants(f, j)
  {
    q := Query(None, None, None, None, None, None, None);
    if |f.names| > 0 {
      q := q.(names := Some(f.names));
    }
    if |f.statuses| > 0 {
      var conditions := BuildStatusOrQuery(f.statuses);
      q := q.(statusOr := Some(conditions));
    }
    if |f.tags| > 0 {
      q := q.(tags := Some(f.tags));
    }
    if f.minPriority.Some? || f.maxPriority.Some? {
      q := q.(minPriority := f.minPriority, maxPriority := f.maxPriority);
    }
    if f.createdAfter.Some? || f.createdBefore.Some? {
      q := q.(createdAfter := f.createdAfter, createdBefore := f.createdBefore);
    }
    forall j ensures q.Selects(j) <==> Wants(f, j) {
      StatusFilterExact(f.statuses, j);
    }
  }

  // ---- Statistics ----

  /** How many jobs of a collection a filter asks for. */
  function Matching(jobs: seq<Job>, f: ListFilter): nat {
    if jobs == [] then 0 else Matching(jobs[1..], f) + Bit(Wants(f, jobs[0]))
  }

  function CanonicalJobs(jobs: seq<Job>): nat {
    if jobs == [] then 0 else CanonicalJobs(jobs[1..]) + Bit(Canonical(jobs[0]))
  }

  function Tallied(jobs: seq<Job>, s: JobStatus): nat {
    if jobs == [] then 0 else Tallied(jobs[1..], s) + Bit(Canonical(jobs[0]) && jobs[0].DisplayStatus() == s)
  }

  const DISPLAY_STATUSES: seq<JobStatus> := [
    JobStatus.PendingDispatch, JobStatus.Dispatched, JobStatus.DispatchFailed, JobStatus.Running,
    JobStatus.Completed, JobStatus.Failed, JobStatus.Cancelled]

  datatype JobStats = JobStats(
    total: nat,
    pendingDispatch: nat,
    dispatched: nat,
    dispatchFailed: nat,
    running: nat,
    completed: nat,
    failed: nat,
    cancelled: nat)
  {
    function Of(s: JobStatus): nat {
      match s
      case PendingDispatch => pendingDispatch
      case Dispatched => dispatched
      case DispatchFailed => dispatchFailed
      case Running => running
      case Completed => completed
      case Failed => failed
      case Cancelled => cancelled
      case Unknown(_) => 0
    }

    function With(s: JobStatus, n: nat): (r: JobStats)
      ensures s.IsValid() ==> r.Of(s) == n
      ensures forall o: JobStatus :: o != s ==> r.Of(o) == Of(o)
    {
      match s
      case PendingDispatch => this.(pendingDispatch := n)
      case Dispatched => this.(dispatched := n)
      case DispatchFailed => this.(dispatchFailed := n)
      case Running => this.(running := n)
      case Completed => this.(completed := n)
      case Failed => this.(failed := n)
      case Cancelled => this.(cancelled := n)
      case Unknown(_) => this
    }
  }

  /** Filtering for one status counts the jobs its tally counts. */
  lemma {:induction false} MatchingIsTallied(jobs: seq<Job>, s: JobStatus)
    ensures Matching(jobs, ListFilter(statuses := [s])) == Tallied(jobs, s)
  {
    if jobs != [] {
      MatchingIsTallied(jobs[1..], s);
    }
  }

  /** The seven tallies count disjoint sets of jobs, which together are the canonical ones. */
  lemma {:induction false} TalliesPartition(jobs: seq<Job>)
    ensures Tallied(jobs, JobStatus.PendingDispatch) + Tallied(jobs, JobStatus.Dispatched)
            + Tallied(jobs, JobStatus.DispatchFailed) + Tallied(jobs, JobStatus.Running)
            + Tallied(jobs, JobStatus.Completed) + Tallied(jobs, JobStatus.Failed)
            + Tallied(jobs, JobStatus.Cancelled) == CanonicalJobs(jobs) <= |jobs|
  {
    if jobs != [] {
      TalliesPartition(jobs[1..]);
    }
  }

  method CountJobs(jobs: seq<Job>, f: ListFilter) returns (n: nat)
    ensures n == Matching(jobs, f)
  {
    var query := BuildListQuery(f);
    n := 0;
    var k := |jobs|;
    while k > 0
      invariant 0 <= k <= |jobs| && n == Matching(jobs[k..], f)
    {
      k := k - 1;
      assert jobs[k..][1..] == jobs[k + 1..];
      if query.Selects(jobs[k]) {
        n := n + 1;
      }
    }
    assert jobs[0..] == jobs;
  }

  /** The seven counts, one query each. */
  method CountByStatus(jobs: seq<Job>) returns (stats: JobStats)
    ensures forall k :: 0 <= k < |DISPLAY_STATUSES| ==>
              stats.Of(DISPLAY_STATUSES[k]) == Tallied(jobs, DISPLAY_STATUSES[k])
  {
    stats := JobStats(0, 0, 0, 0, 0, 0, 0, 0);
    var k := 0;
    while k < |DISPLAY_STATUSES|
      invariant 0 <= k <= |DISPLAY_STATUSES|
      invariant forall i :: 0 <= i < k ==> stats.Of(DISPLAY_STATUSES[i]) == Tallied(jobs, DISPLAY_STATUSES[i])
    {
      var status := DISPLAY_STATUSES[k];
      var n := CountJobs(jobs, ListFilter(statuses := [status]));
      MatchingIsTallied(jobs, status);
      stats := stats.With(status, n);
      k := k + 1;
    }
  }

  /** Over a collection that does not change while the seven counts are taken. */
  method GetJobStats(jobs: seq<Job>) returns (stats: JobStats)
    ensures stats.pendingDispatch == Tallied(jobs, JobStatus.PendingDispatch)
    ensures stats.dispatched == Tallied(jobs, JobStatus.Dispatched)
    ensures stats.dispatchFailed == Tallied(jobs, JobStatus.DispatchFailed)
    ensures stats.running == Tallied(jobs, JobStatus.Running)
    ensures stats.completed == Tallied(jobs, JobStatus.Completed)
    ensures stats.failed == Tallied(jobs, JobStatus.Failed)
    ensures stats.cancelled == Tallied(jobs, JobStatus.Cancelled)
    ensures stats.total == CanonicalJobs(jobs) <= |jobs|
  {
    stats := CountByStatus(jobs);
    assert stats.Of(DISPLAY_STATUSES[0]) == stats.pendingDispatch;
    assert stats.Of(DISPLAY_STATUSES[1]) == stats.dispatched;
    assert stats.Of(DISPLAY_STATUSES[2]) == stats.dispatchFailed;
    assert stats.Of(DISPLAY_STATUSES[3]) == stats.running;
    assert stats.Of(DISPLAY_STATUSES[4]) == stats.completed;
    assert stats.Of(DISPLAY_STATUSES[5]) == stats.failed;
    assert stats.Of(DISPLAY_STATUSES[6]) == stats.cancelled;
    TalliesPartition(jobs);
    stats := stats.(total := stats.pendingDispatch + stats.dispatched + stats.dispatchFailed
                             + stats.running + stats.completed + stats.failed + stats.cancelled);
  }

  /** A job can be counted by none of the seven: one that failed before its dispatch was confirmed, say. */
  lemma NonCanonicalIsUncounted(j: Job)
    requires j.Composite().IsValid()
    ensures Canonical(j) <==> j.executionStatus.NotStarted? || j.dispatchStatus.Dispatched?
    ensures !Canonical(j) ==> forall s :: Tallied([j], s) == 0
  {
    if !Canonical(j) {
      assert [j][1..] == [];
    }
  }
}
