/** Publish-then-confirm for one job, and the poll that drives it over a batch. */
module Dispatcher {
  import opened Options
  import opened Status
  import opened JobModel
  import opened Writes
  import opened Protocol
  import opened Collection
  import opened Service
  import opened Broker
  import opened Text
  import opened Machine
  import opened Counting
  import opened Polling
  import opened Weaving

  /** The documents after an undisturbed HandleDispatch. */
  function DocsHandled(docs: Docs, job: Projection, sent: bool, error: string, now: Time, max: int): Docs {
    if job.jobId in docs && job.topic != "" then docs[job.jobId := Handled(docs[job.jobId], job, sent, error, now, max)]
    else docs
  }

  /** What an undisturbed dispatch leaves, field by field. */
  lemma DispatchLeaves(docs: Docs, job: Projection, sent: bool, error: string, now: Time, max: int)
    ensures DocsHandled(docs, job, sent, error, now, max)
            == if job.jobId !in docs || job.topic == "" || !docs[job.jobId].dispatchStatus.Pending? then docs
               else
                 var j := docs[job.jobId];
                 docs[job.jobId :=
                   if sent then
                     j.(dispatchStatus := DispatchStatus.Dispatched, status := JobStatus.Dispatched,
                        dispatchedAt := Some(now))
                   else if job.dispatchAttempts + 1 >= max then
                     j.(dispatchAttempts := job.dispatchAttempts + 1, dispatchLastError := error,
                        dispatchStatus := DispatchStatus.Failed, status := JobStatus.DispatchFailed,
                        errors := j.errors + [JobError(Dispatch, 0, error, now)])
                   else
                     j.(dispatchAttempts := job.dispatchAttempts + 1, dispatchLastError := error)]
  {
    if job.jobId in docs && job.topic != "" && !docs[job.jobId].dispatchStatus.Pending? {
      assert docs[job.jobId := docs[job.jobId]] == docs;
    }
  }

  /** What a poll makes of a member of its batch, field by field. */
  lemma HandledExactly(j: Job, sent: bool, error: string, now: Time, max: int)
    requires j.dispatchStatus.Pending?
    ensures Handled(j, JobDispatchFromMetadata(j), sent, error, now, max)
            == if sent then
                 j.(dispatchStatus := DispatchStatus.Dispatched, status := JobStatus.Dispatched,
                    dispatchedAt := Some(now))
               else if j.dispatchAttempts + 1 >= max then
                 j.(dispatchAttempts := j.dispatchAttempts + 1, dispatchLastError := error,
                    dispatchStatus := DispatchStatus.Failed, status := JobStatus.DispatchFailed,
                    errors := j.errors + [JobError(Dispatch, 0, error, now)])
               else j.(dispatchAttempts := j.dispatchAttempts + 1, dispatchLastError := error)
  {
  }

  lemma RecordThenGiveUp(docs: Docs, id: string, attempts: int, error: string, now: Time)
    requires id in docs && docs[id].dispatchStatus.Pending?
    ensures var recorded := docs[id := docs[id].(dispatchAttempts := attempts, dispatchLastError := error)];
            && recorded[id].dispatchStatus.Pending?
            && recorded[id := recorded[id].(
                 dispatchStatus := DispatchStatus.Failed, status := JobStatus.DispatchFailed,
                 errors := recorded[id].errors + [JobError(Dispatch, 0, error, now)])]
               == docs[id := docs[id].(
                 dispatchAttempts := attempts, dispatchLastError := error,
                 dispatchStatus := DispatchStatus.Failed, status := JobStatus.DispatchFailed,
                 errors := docs[id].errors + [JobError(Dispatch, 0, error, now)])]
  {
  }

  lemma PublishAnswered(max: int, job: Projection, sent: Option<MsgId>, error: string)
    ensures Observe(max, Publish(job), Published(sent, error))
            == Some(if sent.Some? then Confirm(sent.value) else Record(job.dispatchAttempts + 1, error))
  {
  }

  class DispatchHandler {
    const maxAttempts: int
    const publisher: MessageBroker
    const jobs: MetadataService

    constructor (maxAttempts: int, publisher: MessageBroker, jobs: MetadataService)
      ensures this.maxAttempts == maxAttempts && this.publisher == publisher && this.jobs == jobs
    {
      this.maxAttempts, this.publisher, this.jobs := maxAttempts, publisher, jobs;
    }

    /** One monitor watches both sides, and knows the configured maximum. */
    ghost predicate Valid()
      reads publisher
    {
      publisher.monitor == jobs.jobs.monitor && maxAttempts == publisher.monitor.maxAttempts && publisher.Valid()
    }

    method HandleDispatch(job: Projection, now: Time)
      returns (res: Outcome, ghost sent: Option<MsgId>, ghost error: string)
      requires Valid() && jobs.jobs.Ready(job.jobId, BeginDispatch(job))
      modifies publisher`unacked, publisher`next, jobs.jobs`docs, jobs.jobs`index, publisher.monitor
      ensures Valid() && jobs.jobs.Went(job.jobId, BeginDispatch(job), Done(res))
      ensures job.topic == "" ==>
                res.Refused? && publisher.unacked == old(publisher.unacked)
                && publisher.monitor.record == old(publisher.monitor.record)
      ensures jobs.jobs.quiet ==> jobs.jobs.index == old(jobs.jobs.index)
      ensures jobs.jobs.quiet && job.topic != "" ==> res.Ok?
      ensures jobs.jobs.quiet ==>
                jobs.jobs.docs
                == if job.jobId !in old(jobs.jobs.docs) || job.topic == ""
                      || !old(jobs.jobs.docs)[job.jobId].dispatchStatus.Pending? then old(jobs.jobs.docs)
                   else
                     var j := old(jobs.jobs.docs)[job.jobId];
                     old(jobs.jobs.docs)[job.jobId :=
                       if sent.Some? then
                         j.(dispatchStatus := DispatchStatus.Dispatched, status := JobStatus.Dispatched,
                            dispatchedAt := Some(now))
                       else if job.dispatchAttempts + 1 >= maxAttempts then
                         j.(dispatchAttempts := job.dispatchAttempts + 1, dispatchLastError := error,
                            dispatchStatus := DispatchStatus.Failed, status := JobStatus.DispatchFailed,
                            errors := j.errors + [JobError(Dispatch, 0, error, now)])
                       else
                         j.(dispatchAttempts := job.dispatchAttempts + 1, dispatchLastError := error)]
      ensures sent.Some? ==>
                && (job.jobId, sent.value) in publisher.unacked
                && (job.jobId, sent.value) !in old(publisher.unacked)
                && var m := publisher.unacked[(job.jobId, sent.value)];
                && Carries(m, job.topic, job.jobId, job.name, job.payload)
      ensures OnlyAdds(old(publisher.unacked), publisher.unacked, job)
      ensures publisher.reliable && job.topic != "" && !OnlySpace(job.jobId) && !OnlySpace(job.name) ==> sent.Some?
    {
      ghost var r0 := publisher.monitor.record;
      sent, error := None, "";
      if job.topic == "" {
        MovedStart(maxAttempts, r0, job.jobId, BeginDispatch(job));
        return Refused, None, "";
      }

      var mid, publishErr; ghost var stored;
      mid, publishErr, stored := publisher.Publish(job);
      sent, error := mid, publishErr;
      ghost var r1 := publisher.monitor.record;
      PublishAnswered(maxAttempts, job, mid, publishErr);
      MovedFirst(maxAttempts, r0, r0, r1, job.jobId, Publish(job), Published(mid, publishErr));
      ghost var next := if mid.Some? then Confirm(mid.value) else Record(job.dispatchAttempts + 1, publishErr);
      assert Moved(maxAttempts, r0, r1, job.jobId, Publish(job), next);
      if mid.Some? {
        res := ConfirmDispatch(job, now, mid.value);
      } else {
        res := RecordFailure(job, publishErr, now);
      }
      MovedOn(maxAttempts, r0, r1, publisher.monitor.record, job.jobId, Publish(job), next, Done(res));
    }

    /** HandleDispatch once the publish is confirmed. */
    method ConfirmDispatch(job: Projection, now: Time, mid: MsgId) returns (res: Outcome)
      requires Valid() && jobs.jobs.Ready(job.jobId, Confirm(mid))
      modifies jobs.jobs`docs, jobs.jobs`index, publisher.monitor
      ensures Valid() && jobs.jobs.Went(job.jobId, Confirm(mid), Done(res))
      ensures jobs.jobs.quiet ==> res.Ok? && jobs.jobs.index == old(jobs.jobs.index)
      ensures jobs.jobs.quiet ==>
                jobs.jobs.docs
                == if job.jobId !in old(jobs.jobs.docs) || !old(jobs.jobs.docs)[job.jobId].dispatchStatus.Pending? then
                     old(jobs.jobs.docs)
                   else
                     old(jobs.jobs.docs)[job.jobId := old(jobs.jobs.docs)[job.jobId].(
                       dispatchStatus := DispatchStatus.Dispatched, status := JobStatus.Dispatched,
                       dispatchedAt := Some(now))]
    {
      res := jobs.MarkJobDispatched(job.jobId, now, mid);
    }

    /** HandleDispatch once the publish has failed. */
    method RecordFailure(job: Projection, error: string, now: Time) returns (res: Outcome)
      requires Valid() && job.topic != "" && jobs.jobs.Ready(job.jobId, Record(job.dispatchAttempts + 1, error))
      modifies jobs.jobs`docs, jobs.jobs`index, publisher.monitor
      ensures Valid() && jobs.jobs.Went(job.jobId, Record(job.dispatchAttempts + 1, error), Done(res))
      ensures jobs.jobs.quiet ==> res.Ok? && jobs.jobs.index == old(jobs.jobs.index)
      ensures jobs.jobs.quiet ==>
                jobs.jobs.docs
                == if job.jobId !in old(jobs.jobs.docs) || !old(jobs.jobs.docs)[job.jobId].dispatchStatus.Pending? then
                     old(jobs.jobs.docs)
                   else
                     var j := old(jobs.jobs.docs)[job.jobId];
                     old(jobs.jobs.docs)[job.jobId :=
                       if job.dispatchAttempts + 1 >= maxAttempts then
                         j.(dispatchAttempts := job.dispatchAttempts + 1, dispatchLastError := error,
                            dispatchStatus := DispatchStatus.Failed, status := JobStatus.DispatchFailed,
                            errors := j.errors + [JobError(Dispatch, 0, error, now)])
                       else
                         j.(dispatchAttempts := job.dispatchAttempts + 1, dispatchLastError := error)]
    {
      ghost var r0 := publisher.monitor.record;
      var attempts := job.dispatchAttempts + 1;
      res := jobs.RecordDispatchAttempt(job.jobId, attempts, error);
      if !res.Ok? {
        return;
      }
      ghost var r1 := publisher.monitor.record;
      if attempts >= maxAttempts {
        if job.jobId in old(jobs.jobs.docs) && old(jobs.jobs.docs)[job.jobId].dispatchStatus.Pending? {
          RecordThenGiveUp(old(jobs.jobs.docs), job.jobId, attempts, error, now);
        }
        res := jobs.MarkJobDispatchFailed(job.jobId, error, now);
        MovedOn(maxAttempts, r0, r1, publisher.monitor.record, job.jobId, Record(attempts, error), MarkFailed(error),
                Done(res));
      }
    }
  }

  /** While places are left, the next job is taken exactly when it is eligible. */
  lemma BatchNext(view: seq<Job>, k: nat, max: int, limit: int)
    requires k < |view| && (limit <= 0 || |Batch(view, k, max, limit)| < limit)
    ensures Batch(view, k + 1, max, limit)
            == Batch(view, k, max, limit) + if Eligible(view[k], max) then [JobDispatchFromMetadata(view[k])] else []
  {
    BatchSize(view, k, max, limit);
  }

  /** A batch is complete when the jobs or its places run out. */
  lemma BatchComplete(view: seq<Job>, k: nat, max: int, limit: int)
    requires k <= |view| && (k == |view| || (limit > 0 && |Batch(view, k, max, limit)| >= limit))
    ensures Batch(view, k, max, limit) == Batch(view, |view|, max, limit)
  {
    BatchSize(view, k, max, limit);
    if k < |view| {
      BatchFull(view, k, |view|, max, limit);
    }
  }

  /** The projection is of this document, which is pending with a topic and attempts left. */
  predicate ShownAs(j: Job, p: Projection, max: int) {
    && j.dispatchStatus.Pending? && j.dispatchAttempts < max && j.topic != ""
    && p.jobId == j.jobId && p.name == j.name && p.topic == j.topic && p.dispatchAttempts == j.dispatchAttempts
    && p.payload == (if j.payload.Some? then j.payload.value else map[])
  }

  /** Where the members of a batch stand among the first `n` jobs. */
  function Places(view: seq<Job>, n: nat, max: int, limit: int): seq<nat>
    requires n <= |view|
  {
    if n == 0 then []
    else Places(view, n - 1, max, limit) + if InBatch(view, n - 1, max, limit) then [n - 1] else []
  }

  /**
   What was found is of the jobs at `places`, in their order; a pending job
   with a topic and attempts left is among them, or all places are taken by
   jobs before it.
   */
  ghost predicate Picks(view: seq<Job>, n: nat, found: seq<Projection>, places: seq<nat>, max: int, limit: int)
    requires n <= |view|
  {
    && |places| == |found| && (limit > 0 ==> |found| <= limit)
    && (forall k :: 0 <= k < |places| ==> places[k] < n && ShownAs(view[places[k]], found[k], max))
    && (forall k, m :: 0 <= k < m < |places| ==> places[k] < places[m])
    && (forall i :: 0 <= i < n && view[i].dispatchStatus.Pending? && view[i].dispatchAttempts < max
                    && view[i].topic != "" ==>
          i in places || (0 < limit == |found| && forall k :: 0 <= k < |places| ==> places[k] < i))
  }

  /** The next job takes a place, when one is left and it is eligible. */
  lemma PicksNext(view: seq<Job>, n: nat, found: seq<Projection>, places: seq<nat>, max: int, limit: int)
    requires n < |view| && Picks(view, n, found, places, max, limit)
    requires Eligible(view[n], max) && (limit <= 0 || |found| < limit)
    ensures Picks(view, n + 1, found + [JobDispatchFromMetadata(view[n])], places + [n], max, limit)
  {
    var more := places + [n];
    assert more[|places|] == n;
    assert forall i :: i in places ==> i in more;
    assert ShownAs(view[n], JobDispatchFromMetadata(view[n]), max);
  }

  lemma PicksNoMore(view: seq<Job>, n: nat, found: seq<Projection>, places: seq<nat>, max: int, limit: int)
    requires n < |view| && Picks(view, n, found, places, max, limit)
    requires !Eligible(view[n], max) || 0 < limit == |found|
    ensures Picks(view, n + 1, found, places, max, limit)
  {
  }

  lemma {:induction false} BatchPicks(view: seq<Job>, n: nat, max: int, limit: int)
    requires n <= |view|
    ensures Picks(view, n, Batch(view, n, max, limit), Places(view, n, max, limit), max, limit)
  {
    if n > 0 {
      BatchPicks(view, n - 1, max, limit);
      PlacesFollow(view, n - 1, max, limit, Batch(view, n - 1, max, limit), Places(view, n - 1, max, limit));
    }
  }

  lemma PlacesFollow(view: seq<Job>, n: nat, max: int, limit: int, found: seq<Projection>, places: seq<nat>)
    requires n < |view| && found == Batch(view, n, max, limit) && places == Places(view, n, max, limit)
    requires Picks(view, n, found, places, max, limit)
    ensures Picks(view, n + 1, Batch(view, n + 1, max, limit), Places(view, n + 1, max, limit), max, limit)
  {
    BatchSize(view, n, max, limit);
    var found', places' := Batch(view, n + 1, max, limit), Places(view, n + 1, max, limit);
    if InBatch(view, n, max, limit) {
      PicksNext(view, n, found, places, max, limit);
      assert found' == found + [JobDispatchFromMetadata(view[n])] && places' == places + [n];
    } else {
      PicksNoMore(view, n, found, places, max, limit);
      assert found' == found && places' == places;
    }
    assert Picks(view, n + 1, found', places', max, limit);
  }

  ghost function InOrderOrNone(docs: Docs, index: seq<string>): seq<Job> {
    if Indexed(docs, index) then InOrder(docs, index) else []
  }

  /** The projection is of a pending document with a topic and attempts left, as it is. */
  predicate Shown(docs: Docs, p: Projection, max: int) {
    exists id :: id in docs && ShownAs(docs[id], p, max)
  }

  predicate AllShown(docs: Docs, jobs: seq<Projection>, max: int) {
    forall k :: 0 <= k < |jobs| ==> Shown(docs, jobs[k], max)
  }

  lemma OneMoreShown(docs: Docs, jobs: seq<Projection>, id: string, max: int)
    requires AllShown(docs, jobs, max) && id in docs && Eligible(docs[id], max)
    ensures AllShown(docs, jobs + [JobDispatchFromMetadata(docs[id])], max)
  {
    var more := jobs + [JobDispatchFromMetadata(docs[id])];
    forall k | 0 <= k < |more| ensures Shown(docs, more[k], max) {
      if k < |jobs| {
        assert more[k] == jobs[k];
      } else {
        assert ShownAs(docs[id], more[k], max);
      }
    }
  }

  /** What has been collected from the first `k` jobs. */
  ghost predicate Collected(docs: Docs, index: seq<string>, k: nat, pending: seq<Projection>, max: int, limit: int) {
    && AllShown(docs, pending, max)
    && (Indexed(docs, index) ==> k <= |index| && pending == Batch(InOrder(docs, index), k, max, limit))
  }

  lemma CollectNext(docs: Docs, index: seq<string>, k: nat, pending: seq<Projection>, max: int, limit: int)
    requires k < |index| && Collected(docs, index, k, pending, max, limit) && (limit <= 0 || |pending| < limit)
    ensures Collected(docs, index, k + 1, CollectedNext(docs, index[k], pending, max), max, limit)
  {
    if index[k] in docs && Eligible(docs[index[k]], max) {
      OneMoreShown(docs, pending, index[k], max);
    }
    if Indexed(docs, index) {
      BatchNext(InOrder(docs, index), k, max, limit);
    }
  }

  function CollectedNext(docs: Docs, id: string, pending: seq<Projection>, max: int): seq<Projection> {
    if id in docs && Eligible(docs[id], max) then pending + [JobDispatchFromMetadata(docs[id])] else pending
  }

  lemma CollectedAll(docs: Docs, index: seq<string>, k: nat, pending: seq<Projection>, max: int, limit: int)
    requires Collected(docs, index, k, pending, max, limit)
    requires k == |index| || (limit > 0 && |pending| >= limit)
    ensures Indexed(docs, index) ==> pending == Batch(InOrder(docs, index), |index|, max, limit)
  {
    if Indexed(docs, index) {
      BatchComplete(InOrder(docs, index), k, max, limit);
    }
  }

  /** Reads the jobs still awaiting dispatch. */
  class PendingFetcher {
    const jobs: JobsCollection

    constructor (jobs: JobsCollection)
      ensures this.jobs == jobs
    {
      this.jobs := jobs;
    }

    /** None when the query fails. */
    method FetchPending(maxAttempts: int, limit: int) returns (found: Option<seq<Projection>>)
      ensures jobs.quiet ==> found.Some?
      ensures found.Some? ==> AllShown(jobs.docs, found.value, maxAttempts)
      ensures found.Some? && jobs.Valid() ==> found.value == Batch(jobs.View(), |jobs.View()|, maxAttempts, limit)
      ensures found.Some? && jobs.Valid() ==>
                exists places :: Picks(jobs.View(), |jobs.View()|, found.value, places, maxAttempts, limit)
    {
      var net := jobs.Transmit();
      if !net.Fine? {
        return None;
      }
      var docs, index := jobs.docs, jobs.index;
      var pending: seq<Projection> := [];
      var k := 0;
      while k < |index| && (limit <= 0 || |pending| < limit)
        invariant 0 <= k <= |index| && Collected(docs, index, k, pending, maxAttempts, limit)
      {
        CollectNext(docs, index, k, pending, maxAttempts, limit);
        if index[k] in docs {
          var doc := docs[index[k]];
          if Eligible(doc, maxAttempts) {
            pending := pending + [JobDispatchFromMetadata(doc)];
          }
        }
        k := k + 1;
      }
      CollectedAll(docs, index, k, pending, maxAttempts, limit);
      if jobs.Valid() {
        BatchPicks(jobs.View(), |jobs.View()|, maxAttempts, limit);
      }
      found := Some(pending);
    }
  }

  // ---- The poll ----

  /** The threads that a poll starts for the jobs it fetched. */
  function Waiting(jobs: seq<Projection>): multiset<(string, Pc)> {
    if jobs == [] then multiset{}
    else multiset{(jobs[0].jobId, BeginDispatch(jobs[0]))} + Waiting(jobs[1..])
  }

  lemma ShownMayStart(max: int, r: Chronicle, p: Projection)
    requires Told(max, r) && Shown(r.docs, p, max)
    ensures forall lives :: Explains(max, r.log, lives) && p.jobId in lives ==>
              Starts(max, WorldOf(max, lives[p.jobId]), PollFetch, BeginDispatch(p))
  {
    var id :| id in r.docs && ShownAs(r.docs[id], p, max);
    forall lives | Explains(max, r.log, lives) && p.jobId in lives
      ensures Starts(max, WorldOf(max, lives[p.jobId]), PollFetch, BeginDispatch(p))
    {
      assert Fitting(max, lives, r.docs, r.mine) && id in lives;
      assert Sound(max, lives[id], id, r.docs[id], r.mine);
    }
  }

  /** The others may have gone anywhere, and these watched threads have started. */
  ghost predicate Started(before: Chronicle, after: Chronicle, threads: multiset<(string, Pc)>) {
    && after.trace == before.trace && after.docs == before.docs
    && after.mine == before.mine + threads
    && before.log <= after.log
  }

  /** A thread starts for each job fetched, with what was read of it. */
  ghost method BeginPolls(monitor: Monitor, jobs: seq<Projection>)
    requires monitor.Keeps()
    requires AllShown(monitor.record.docs, jobs, monitor.maxAttempts)
    modifies monitor
    ensures monitor.Keeps() && Started(old(monitor.record), monitor.record, Waiting(jobs))
    ensures Lawful(monitor.maxAttempts, monitor.record.log) <==> Lawful(monitor.maxAttempts, old(monitor.record).log)
    decreases |jobs|
  {
    if jobs != [] {
      ShownMayStart(monitor.maxAttempts, monitor.record, jobs[0]);
      BegunStaysLawful(monitor.maxAttempts, monitor.record, jobs[0].jobId, PollFetch, BeginDispatch(jobs[0]));
      monitor.Begin(jobs[0].jobId, PollFetch, BeginDispatch(jobs[0]));
      BeginPolls(monitor, jobs[1..]);
    }
  }

  /** The first `k` members of the batch have been handled, and nothing else has changed. */
  ghost predicate PartlyPolled(view: seq<Job>, view': seq<Job>, k: nat, max: int, limit: int, now: Time) {
    && |view'| == |view|
    && forall i :: 0 <= i < |view| ==>
         if InBatch(view, i, max, limit) && Ahead(view, i, max) < k then Attempted(view[i], view'[i], max, now)
         else view'[i] == view[i]
  }

  /** Handling one projection changes one place of the view. */
  lemma HandlingChangesOne(docs: Docs, index: seq<string>, m: nat, job: Projection, j': Job)
    requires Indexed(docs, index) && m < |index| && job.jobId == index[m]
    requires j'.jobId == docs[index[m]].jobId && j'.createdAt == docs[index[m]].createdAt
    ensures Indexed(docs[index[m] := j'], index)
    ensures InOrder(docs[index[m] := j'], index) == InOrder(docs, index)[m := j']
  {
    ReplacementKeepsIndex(docs, index, index[m], j');
  }

  lemma MemberHandled(view: seq<Job>, view': seq<Job>, k: nat, m: nat, j': Job, max: int, limit: int, now: Time)
    requires PartlyPolled(view, view', k, max, limit, now)
    requires m < |view| && InBatch(view, m, max, limit) && Ahead(view, m, max) == k
    requires Attempted(view[m], j', max, now)
    ensures PartlyPolled(view, view'[m := j'], k + 1, max, limit, now)
  {
    forall i | 0 <= i < |view| && InBatch(view, i, max, limit) && Ahead(view, i, max) == k ensures i == m {
      SameRankSameJob(view, i, m, max);
    }
  }

  lemma HandledKeepsIdentity(j: Job, p: Projection, sent: bool, error: string, now: Time, max: int)
    ensures Handled(j, p, sent, error, now, max).jobId == j.jobId
    ensures Handled(j, p, sent, error, now, max).createdAt == j.createdAt
  {
  }

  lemma MemberPolled(view: seq<Job>, docs: Docs, index: seq<string>, k: nat, m: nat, sent: bool, error: string,
                     now: Time, max: int, limit: int)
    requires Indexed(docs, index) && PartlyPolled(view, InOrder(docs, index), k, max, limit, now)
    requires m < |view| && InBatch(view, m, max, limit) && Ahead(view, m, max) == k
    requires m < |index| && docs[index[m]] == view[m] && view[m].jobId == index[m]
    ensures var docs' := DocsHandled(docs, JobDispatchFromMetadata(view[m]), sent, error, now, max);
            Indexed(docs', index) && PartlyPolled(view, InOrder(docs', index), k + 1, max, limit, now)
  {
    var job := JobDispatchFromMetadata(view[m]);
    var j' := Handled(view[m], job, sent, error, now, max);
    HandledKeepsIdentity(view[m], job, sent, error, now, max);
    HandlingChangesOne(docs, index, m, job, j');
    MemberHandled(view, InOrder(docs, index), k, m, j', max, limit, now);
  }

  lemma WholeBatchPolled(view: seq<Job>, view': seq<Job>, max: int, limit: int, now: Time)
    requires PartlyPolled(view, view', |Batch(view, |view|, max, limit)|, max, limit, now)
    ensures PollOutcome(view, view', max, limit, now)
  {
    BatchSize(view, |view|, max, limit);
    forall i | 0 <= i < |view| && InBatch(view, i, max, limit)
      ensures Ahead(view, i, max) < |Batch(view, |view|, max, limit)|
    {
      AheadGrows(view, i, |view|, max);
    }
  }

  /** A poll of the collection as `view` showed it has handled `k` members of its batch. */
  ghost predicate Underway(view: seq<Job>, docs: Docs, index: seq<string>, jobs: seq<Projection>, k: nat, max: int,
                           limit: int, now: Time) {
    && Indexed(docs, index)
    && (forall i :: 0 <= i < |view| && i < |index| ==> view[i].jobId == index[i])
    && jobs == Batch(view, |view|, max, limit)
    && PartlyPolled(view, InOrder(docs, index), k, max, limit, now)
  }

  lemma PollStarts(docs: Docs, index: seq<string>, max: int, limit: int, now: Time)
    requires Indexed(docs, index)
    ensures var view := InOrder(docs, index);
            Underway(view, docs, index, Batch(view, |view|, max, limit), 0, max, limit, now)
  {
  }

  lemma PollEnds(view: seq<Job>, docs: Docs, index: seq<string>, jobs: seq<Projection>, max: int, limit: int, now: Time)
    requires Underway(view, docs, index, jobs, |jobs|, max, limit, now)
    ensures Indexed(docs, index) && PollOutcome(view, InOrder(docs, index), max, limit, now)
  {
    WholeBatchPolled(view, InOrder(docs, index), max, limit, now);
  }

  lemma UnderwayNext(view: seq<Job>, docs: Docs, index: seq<string>, jobs: seq<Projection>, k: nat, sent: bool,
                     error: string, max: int, limit: int, now: Time)
    requires Underway(view, docs, index, jobs, k, max, limit, now) && k < |jobs|
    ensures Underway(view, DocsHandled(docs, jobs[k], sent, error, now, max), index, jobs, k + 1, max, limit, now)
  {
    var m := BatchMember(view, |view|, max, limit, k);
    assert InOrder(docs, index)[m] == view[m];
    MemberPolled(view, docs, index, k, m, sent, error, now, max, limit);
  }

  /** The first jobs have been dispatched one after the other, `moments` being the records before and after each. */
  ghost predicate InTurn(max: int, jobs: seq<Projection>, moments: seq<Chronicle>, outcomes: seq<Outcome>) {
    && |outcomes| <= |jobs| && |moments| == |outcomes| + 1
    && forall k {:trigger outcomes[k]} :: 0 <= k < |outcomes| ==>
         Moved(max, moments[k], moments[k + 1], jobs[k].jobId, BeginDispatch(jobs[k]), Done(outcomes[k]))
  }

  lemma OneMoreInTurn(max: int, jobs: seq<Projection>, moments: seq<Chronicle>, outcomes: seq<Outcome>, r: Chronicle,
                      res: Outcome)
    requires InTurn(max, jobs, moments, outcomes) && |outcomes| < |jobs|
    requires var k := |outcomes|;
             Moved(max, moments[k], r, jobs[k].jobId, BeginDispatch(jobs[k]), Done(res))
    ensures InTurn(max, jobs, moments + [r], outcomes + [res])
  {
    var moments', outcomes' := moments + [r], outcomes + [res];
    forall k | 0 <= k < |outcomes'|
      ensures Moved(max, moments'[k], moments'[k + 1], jobs[k].jobId, BeginDispatch(jobs[k]), Done(outcomes'[k]))
    {
      if k < |outcomes| {
        assert outcomes'[k] == outcomes[k];
      }
    }
  }

  lemma {:induction false} InTurnGoesOn(max: int, jobs: seq<Projection>, moments: seq<Chronicle>,
                                        outcomes: seq<Outcome>)
    requires InTurn(max, jobs, moments, outcomes)
    ensures moments[0].log <= moments[|outcomes|].log
    decreases |outcomes|
  {
    if outcomes != [] {
      var n := |outcomes| - 1;
      assert Moved(max, moments[n], moments[n + 1], jobs[n].jobId, BeginDispatch(jobs[n]), Done(outcomes[n]));
      var moments', outcomes' := moments[..n + 1], outcomes[..n];
      forall k | 0 <= k < |outcomes'|
        ensures Moved(max, moments'[k], moments'[k + 1], jobs[k].jobId, BeginDispatch(jobs[k]), Done(outcomes'[k]))
      {
        assert outcomes'[k] == outcomes[k];
      }
      InTurnGoesOn(max, jobs, moments', outcomes');
    }
  }

  /** The others may have gone anywhere, and the threads of a poll have started. */
  ghost predicate Fetched(before: Chronicle, after: Chronicle, jobs: seq<Projection>) {
    && after.trace == before.trace
    && Waiting(jobs) <= after.mine
    && before.log <= after.log
  }

  /** The thread for the next job is there, and stays out of the way of the rest. */
  lemma NextWaits(jobs: seq<Projection>, k: nat, mine: multiset<(string, Pc)>)
    requires k < |jobs| && Waiting(jobs[k..]) <= mine
    ensures (jobs[k].jobId, BeginDispatch(jobs[k])) in mine
    ensures Waiting(jobs[k + 1..]) <= mine - multiset{(jobs[k].jobId, BeginDispatch(jobs[k]))}
  {
    assert jobs[k..][1..] == jobs[k + 1..];
    assert Waiting(jobs[k..]) == multiset{(jobs[k].jobId, BeginDispatch(jobs[k]))} + Waiting(jobs[k + 1..]);
  }

  /** Nothing is gone, and what is new are messages of these jobs. */
  ghost predicate AddsFor(before: map<MessageKey, Message>, after: map<MessageKey, Message>, jobs: seq<Projection>) {
    && (forall key :: key in before ==> key in after && after[key] == before[key])
    && (forall key :: key in after && key !in before ==>
          exists k :: 0 <= k < |jobs| && key.0 == jobs[k].jobId
                      && Carries(after[key], jobs[k].topic, jobs[k].jobId, jobs[k].name, jobs[k].payload))
  }

  lemma OneMoreAdds(a: map<MessageKey, Message>, b: map<MessageKey, Message>, c: map<MessageKey, Message>,
                    jobs: seq<Projection>, k: nat)
    requires k < |jobs| && AddsFor(a, b, jobs) && OnlyAdds(b, c, jobs[k])
    ensures AddsFor(a, c, jobs)
  {
    forall key | key in c && key !in a
      ensures exists i :: 0 <= i < |jobs| && key.0 == jobs[i].jobId
                          && Carries(c[key], jobs[i].topic, jobs[i].jobId, jobs[i].name, jobs[i].payload)
    {
      if key in b {
        var i :| 0 <= i < |jobs| && key.0 == jobs[i].jobId
                 && Carries(b[key], jobs[i].topic, jobs[i].jobId, jobs[i].name, jobs[i].payload);
        assert c[key] == b[key];
      }
    }
  }

  class DispatchWorker {
    const batchSize: int
    const handler: DispatchHandler
    const pending: PendingFetcher

    constructor (batchSize: int, handler: DispatchHandler, pending: PendingFetcher)
      ensures this.batchSize == batchSize && this.handler == handler && this.pending == pending
    {
      this.batchSize, this.handler, this.pending := batchSize, handler, pending;
    }

    ghost predicate Valid()
      reads handler.publisher
    {
      handler.Valid() && pending.jobs == handler.jobs.jobs
    }

    /**
     One poll: every job it fetched is dispatched, in order, and one that fails
     does not stop the rest.  On a quiet collection it is exactly one step of
     the scheduler.
     */
    method PollOnce(now: Time)
      returns (ghost fetched: Option<seq<Projection>>, ghost moments: seq<Chronicle>, ghost outcomes: seq<Outcome>)
      requires Valid() && pending.jobs.InStep()
      modifies handler.publisher`unacked, handler.publisher`next, pending.jobs`docs, pending.jobs`index,
               handler.publisher.monitor
      ensures Valid() && pending.jobs.InStep()
      ensures |moments| == |outcomes| + 1 && |outcomes| == |fetched.GetOr([])|
      ensures InTurn(handler.maxAttempts, fetched.GetOr([]), moments, outcomes)
      ensures Fetched(old(handler.publisher.monitor.record), moments[0], fetched.GetOr([]))
      ensures moments[|outcomes|] == handler.publisher.monitor.record
      ensures old(handler.publisher.monitor.record).log <= handler.publisher.monitor.record.log
      ensures AddsFor(old(handler.publisher.unacked), handler.publisher.unacked, fetched.GetOr([]))
      ensures pending.jobs.quiet && old(pending.jobs.Valid()) ==>
                && fetched
                   == Some(Batch(old(pending.jobs.View()), |old(pending.jobs.View())|, handler.maxAttempts, batchSize))
                && pending.jobs.Valid()
                && PollOutcome(old(pending.jobs.View()), pending.jobs.View(), handler.maxAttempts, batchSize, now)
    {
      ghost var quiet, index := pending.jobs.quiet && pending.jobs.Valid(), pending.jobs.index;
      ghost var view := InOrderOrNone(pending.jobs.docs, pending.jobs.index);
      var found := FetchBatch();
      fetched := found;
      moments, outcomes := [handler.publisher.monitor.record], [];
      if found.None? {
        return;
      }
      if quiet {
        PollStarts(pending.jobs.docs, index, handler.maxAttempts, batchSize, now);
      }
      moments, outcomes := DispatchBatch(found.value, view, now);
      InTurnGoesOn(handler.maxAttempts, found.value, moments, outcomes);
      if quiet {
        PollEnds(view, pending.jobs.docs, index, found.value, handler.maxAttempts, batchSize, now);
      }
    }

    /** The query of a poll, and the threads it starts. */
    method FetchBatch() returns (found: Option<seq<Projection>>)
      requires Valid() && pending.jobs.InStep()
      modifies pending.jobs`docs, pending.jobs`index, handler.publisher.monitor
      ensures Valid() && pending.jobs.InStep()
      ensures Fetched(old(handler.publisher.monitor.record), handler.publisher.monitor.record, found.GetOr([]))
      ensures pending.jobs.quiet ==>
                pending.jobs.docs == old(pending.jobs.docs) && pending.jobs.index == old(pending.jobs.index)
      ensures pending.jobs.quiet && old(pending.jobs.Valid()) ==>
                found == Some(Batch(old(pending.jobs.View()), |old(pending.jobs.View())|, handler.maxAttempts,
                                    batchSize))
    {
      ghost var r0 := handler.publisher.monitor.record;
      pending.jobs.OthersRun();
      ghost var r1 := handler.publisher.monitor.record;
      found := pending.FetchPending(handler.maxAttempts, batchSize);
      if found.None? {
        return;
      }
      BeginPolls(handler.publisher.monitor, found.value);
    }

    /** The loop of a poll over the jobs it fetched; `view` is the collection it fetched them from. */
    method DispatchBatch(jobs: seq<Projection>, ghost view: seq<Job>, now: Time)
      returns (ghost moments: seq<Chronicle>, ghost outcomes: seq<Outcome>)
      requires Valid() && pending.jobs.InStep() && Waiting(jobs) <= handler.publisher.monitor.record.mine
      modifies handler.publisher`unacked, handler.publisher`next, pending.jobs`docs, pending.jobs`index,
               handler.publisher.monitor
      ensures Valid() && pending.jobs.InStep()
      ensures |outcomes| == |jobs| && InTurn(handler.maxAttempts, jobs, moments, outcomes)
      ensures moments[0] == old(handler.publisher.monitor.record)
      ensures moments[|jobs|] == handler.publisher.monitor.record
      ensures AddsFor(old(handler.publisher.unacked), handler.publisher.unacked, jobs)
      ensures pending.jobs.quiet
              && old(Underway(view, pending.jobs.docs, pending.jobs.index, jobs, 0, handler.maxAttempts,
                              batchSize, now)) ==>
                && pending.jobs.index == old(pending.jobs.index)
                && Underway(view, pending.jobs.docs, pending.jobs.index, jobs, |jobs|, handler.maxAttempts,
                            batchSize, now)
    {
      ghost var index := pending.jobs.index;
      moments, outcomes := [handler.publisher.monitor.record], [];
      ghost var quiet := pending.jobs.quiet
                         && Underway(view, pending.jobs.docs, index, jobs, 0, handler.maxAttempts, batchSize, now);
      var k := 0;
      assert jobs[0..] == jobs;
      while k < |jobs|
        invariant 0 <= k <= |jobs| && Valid() && pending.jobs.InStep()
        invariant Waiting(jobs[k..]) <= handler.publisher.monitor.record.mine
        invariant |outcomes| == k && InTurn(handler.maxAttempts, jobs, moments, outcomes)
        invariant moments[0] == old(handler.publisher.monitor.record) && moments[k] == handler.publisher.monitor.record
        invariant AddsFor(old(handler.publisher.unacked), handler.publisher.unacked, jobs)
        invariant quiet ==>
                    && pending.jobs.index == index
                    && Underway(view, pending.jobs.docs, index, jobs, k, handler.maxAttempts, batchSize, now)
      {
        ghost var messages := handler.publisher.unacked;
        moments, outcomes := DispatchMember(jobs, k, view, now, moments, outcomes);
        OneMoreAdds(old(handler.publisher.unacked), messages, handler.publisher.unacked, jobs, k);
        k := k + 1;
      }
    }

    /** HandleDispatch, as the scheduler's rounds see it. */
    method DispatchOne(job: Projection, now: Time)
      returns (res: Outcome, ghost sent: Option<MsgId>, ghost error: string)
      requires Valid() && pending.jobs.Ready(job.jobId, BeginDispatch(job))
      modifies handler.publisher`unacked, handler.publisher`next, pending.jobs`docs, pending.jobs`index,
               handler.publisher.monitor
      ensures Valid() && pending.jobs.Went(job.jobId, BeginDispatch(job), Done(res))
      ensures pending.jobs.quiet ==>
                && pending.jobs.docs
                   == DocsHandled(old(pending.jobs.docs), job, sent.Some?, error, now, handler.maxAttempts)
                && pending.jobs.index == old(pending.jobs.index)
      ensures OnlyAdds(old(handler.publisher.unacked), handler.publisher.unacked, job)
    {
      ghost var docs := pending.jobs.docs;
      res, sent, error := handler.HandleDispatch(job, now);
      DispatchLeaves(docs, job, sent.Some?, error, now, handler.maxAttempts);
    }

    /** One turn of that loop; an error is only logged. */
    method DispatchMember(jobs: seq<Projection>, k: nat, ghost view: seq<Job>, now: Time,
                          ghost moments: seq<Chronicle>, ghost outcomes: seq<Outcome>)
      returns (ghost moments': seq<Chronicle>, ghost outcomes': seq<Outcome>)
      requires Valid() && pending.jobs.InStep() && k < |jobs|
      requires |outcomes| == k && InTurn(handler.maxAttempts, jobs, moments, outcomes)
      requires moments[k] == handler.publisher.monitor.record
      requires Waiting(jobs[k..]) <= handler.publisher.monitor.record.mine
      modifies handler.publisher`unacked, handler.publisher`next, pending.jobs`docs, pending.jobs`index,
               handler.publisher.monitor
      ensures Valid() && pending.jobs.InStep()
      ensures Waiting(jobs[k + 1..]) <= handler.publisher.monitor.record.mine
      ensures |outcomes'| == k + 1 && InTurn(handler.maxAttempts, jobs, moments', outcomes')
      ensures moments'[0] == moments[0] && moments'[k + 1] == handler.publisher.monitor.record
      ensures OnlyAdds(old(handler.publisher.unacked), handler.publisher.unacked, jobs[k])
      ensures pending.jobs.quiet
              && old(Underway(view, pending.jobs.docs, pending.jobs.index, jobs, k, handler.maxAttempts, batchSize,
                              now)) ==>
                && pending.jobs.index == old(pending.jobs.index)
                && Underway(view, pending.jobs.docs, pending.jobs.index, jobs, k + 1, handler.maxAttempts, batchSize,
                            now)
    {
      ghost var docs, index := pending.jobs.docs, pending.jobs.index;
      NextWaits(jobs, k, handler.publisher.monitor.record.mine);
      var outcome; ghost var sent; ghost var error;
      outcome, sent, error := DispatchOne(jobs[k], now);
      OneMoreInTurn(handler.maxAttempts, jobs, moments, outcomes, handler.publisher.monitor.record, outcome);
      moments', outcomes' := moments + [handler.publisher.monitor.record], outcomes + [outcome];
      if Underway(view, docs, index, jobs, k, handler.maxAttempts, batchSize, now) {
        UnderwayNext(view, docs, index, jobs, k, sent.Some?, error, handler.maxAttempts, batchSize, now);
      }
    }

    /**
     The poll loop, until its context ends after `ticks` more ticks of the
     timer.  In between, others create and execute jobs.
     */
    method RunPoll(ticks: nat, now: Time) returns (ghost rounds: seq<Round>)
      requires Valid() && pending.jobs.InStep()
      modifies handler.publisher`unacked, handler.publisher`next, pending.jobs`docs, pending.jobs`index,
               handler.publisher.monitor
      ensures Valid() && pending.jobs.InStep()
      ensures old(handler.publisher.monitor.record).log <= handler.publisher.monitor.record.log
      ensures pending.jobs.quiet && old(pending.jobs.Valid()) ==>
                && pending.jobs.Valid() && |rounds| == ticks + 1
                && Rounds(old(pending.jobs.View()), rounds, handler.maxAttempts, batchSize)
                && pending.jobs.View() == Final(old(pending.jobs.View()), rounds)
      ensures pending.jobs.quiet && old(pending.jobs.Valid()) && handler.maxAttempts >= 1 && batchSize >= 1 ==>
                pending.jobs.Valid()
                && Freed(old(pending.jobs.View()), pending.jobs.View(), ticks + 1, handler.maxAttempts, batchSize)
    {
      ghost var quiet := pending.jobs.quiet && pending.jobs.Valid();
      ghost var start := InOrderOrNone(pending.jobs.docs, pending.jobs.index);
      ghost var fetched, moments, outcomes := PollOnce(now);
      ghost var view := InOrderOrNone(pending.jobs.docs, pending.jobs.index);
      rounds := [Round(now, view, view)];
      var t := 0;
      while t < ticks
        invariant 0 <= t <= ticks && Valid() && pending.jobs.InStep() && |rounds| == t + 1
        invariant old(handler.publisher.monitor.record).log <= handler.publisher.monitor.record.log
        invariant quiet ==>
                    && pending.jobs.Valid() && Rounds(start, rounds, handler.maxAttempts, batchSize)
                    && pending.jobs.View() == Final(start, rounds)
      {
        pending.jobs.Meanwhile();
        view := InOrderOrNone(pending.jobs.docs, pending.jobs.index);
        if quiet {
          LongerLastRound(start, rounds, view, handler.maxAttempts, batchSize);
        }
        rounds := WithLast(rounds, view);
        fetched, moments, outcomes := PollOnce(now);
        ghost var polled := InOrderOrNone(pending.jobs.docs, pending.jobs.index);
        if quiet {
          OneMoreRound(start, rounds, Round(now, polled, polled), handler.maxAttempts, batchSize);
        }
        rounds := rounds + [Round(now, polled, polled)];
        t := t + 1;
      }
      if quiet && handler.maxAttempts >= 1 && batchSize >= 1 {
        AllFreed(start, rounds, handler.maxAttempts, batchSize);
      }
    }
  }

  /** The rounds, the last of them lasting until the collection looks like `view`. */
  function WithLast(rounds: seq<Round>, view: seq<Job>): (r: seq<Round>)
    requires rounds != []
    ensures |r| == |rounds|
  {
    rounds[..|rounds| - 1] + [rounds[|rounds| - 1].(next := view)]
  }

  lemma {:induction false} LongerLastRound(view: seq<Job>, rounds: seq<Round>, later: seq<Job>, max: int, limit: int)
    requires rounds != [] && Rounds(view, rounds, max, limit) && Between(Final(view, rounds), later)
    ensures Rounds(view, WithLast(rounds, later), max, limit) && Final(view, WithLast(rounds, later)) == later
    decreases |rounds|
  {
    if |rounds| > 1 {
      LongerLastRound(rounds[0].next, rounds[1..], later, max, limit);
      assert WithLast(rounds, later)[1..] == WithLast(rounds[1..], later);
    } else {
      BetweenOn(rounds[0].polled, rounds[0].next, later);
      assert WithLast(rounds, later)[1..] == [];
    }
  }

  lemma BetweenOn(a: seq<Job>, b: seq<Job>, c: seq<Job>)
    requires Between(a, b) && Between(b, c)
    ensures Between(a, c)
  {
    forall i | 0 <= i < |a| ensures SameDispatchState(a[i], c[i]) {
      assert SameDispatchState(a[i], b[i]) && SameDispatchState(b[i], c[i]);
    }
  }

  lemma {:induction false} OneMoreRound(view: seq<Job>, rounds: seq<Round>, r: Round, max: int, limit: int)
    requires Rounds(view, rounds, max, limit) && Polled(Final(view, rounds), r, max, limit)
    ensures Rounds(view, rounds + [r], max, limit) && Final(view, rounds + [r]) == r.next
    decreases |rounds|
  {
    if rounds != [] {
      OneMoreRound(rounds[0].next, rounds[1..], r, max, limit);
      assert (rounds + [r])[1..] == rounds[1..] + [r];
    }
  }
}
