/**
 The job collection, updated in place by single-document writes.

 Between two calls of one client any other client may have changed anything
 (`OthersRun`), and a call can be lost before or after it takes effect.  A
 `quiet` collection has one client and loses nothing.
 */
module Collection {
  import opened Options
  import opened Status
  import opened JobModel
  import opened Writes
  import opened Protocol
  import opened Polling
  import opened Weaving

  type Docs = map<string, Job>

  predicate Distinct(index: seq<string>) {
    forall i, k :: 0 <= i < k < |index| ==> index[i] != index[k]
  }

  predicate Named(docs: Docs, index: seq<string>) {
    forall id :: id in index ==> id in docs && docs[id].jobId == id
  }

  predicate Ordered(docs: Docs, index: seq<string>)
    requires Named(docs, index)
  {
    forall i, k :: 0 <= i < k < |index| ==> docs[index[i]].createdAt <= docs[index[k]].createdAt
  }

  /** `index` lists the ids by creation time. */
  predicate Indexed(docs: Docs, index: seq<string>) {
    docs.Keys == (set id | id in index) && Distinct(index) && Named(docs, index) && Ordered(docs, index)
  }

  function DocsAfter(op: Op, docs: Docs, id: string): Docs {
    if id in docs then docs[id := After(op, docs[id])] else docs
  }

  function DocsAnswer(op: Op, docs: Docs, id: string): Reply {
    if id in docs then Answer(op, docs[id]) else AnswerMissing(op)
  }

  /** The call took effect in one piece and answered truly, or its answer was lost. */
  predicate Atomic(op: Op, before: Docs, after: Docs, id: string, r: Reply, quiet: bool) {
    CanAnswer(op, r) &&
    (|| (after == DocsAfter(op, before, id) && r == DocsAnswer(op, before, id))
     || (!quiet && r.Unavailable? && (after == before || after == DocsAfter(op, before, id))))
  }

  lemma ReplacementKeepsIndex(docs: Docs, index: seq<string>, id: string, j: Job)
    requires Indexed(docs, index) && id in docs && j.jobId == docs[id].jobId && j.createdAt == docs[id].createdAt
    ensures Indexed(docs[id := j], index)
  {
    assert docs[id := j].Keys == docs.Keys;
  }

  lemma UnmatchedChangesNothing(op: Op, docs: Docs, id: string)
    requires id !in docs || !Guard(op, docs[id])
    ensures DocsAfter(op, docs, id) == docs
  {
    if id in docs {
      assert docs[id := docs[id]] == docs;
    }
  }

  /** Where a new document goes in the index: behind everything created no later. */
  function Slot(docs: Docs, index: seq<string>, createdAt: Time): (i: nat)
    ensures i <= |index|
    ensures i < |index| && Named(docs, index) ==> docs[index[i]].createdAt > createdAt
    ensures Named(docs, index) ==> forall k :: 0 <= k < i ==> docs[index[k]].createdAt <= createdAt
  {
    if index == [] || index[0] !in docs || docs[index[0]].createdAt > createdAt then 0
    else 1 + Slot(docs, index[1..], createdAt)
  }

  function Inserted(index: seq<string>, i: nat, id: string): (r: seq<string>)
    requires i <= |index|
    ensures |r| == |index| + 1 && r[i] == id
    ensures forall k :: 0 <= k < i ==> r[k] == index[k]
    ensures forall k :: i < k < |r| ==> r[k] == index[k - 1]
    ensures forall x :: x in r <==> x in index || x == id
  {
    var r := index[..i] + [id] + index[i..];
    assert index == index[..i] + index[i..];
    r
  }

  lemma InsertKeepsDistinct(index: seq<string>, i: nat, id: string)
    requires i <= |index| && Distinct(index) && id !in index
    ensures Distinct(Inserted(index, i, id))
  {
  }

  lemma InsertKeepsOrdered(docs: Docs, index: seq<string>, i: nat, job: Job)
    requires Named(docs, index) && Ordered(docs, index) && job.jobId !in docs && i == Slot(docs, index, job.createdAt)
    ensures Named(docs[job.jobId := job], Inserted(index, i, job.jobId))
    ensures Ordered(docs[job.jobId := job], Inserted(index, i, job.jobId))
  {
    var index', docs' := Inserted(index, i, job.jobId), docs[job.jobId := job];
    forall k, m | 0 <= k < m < |index'| ensures docs'[index'[k]].createdAt <= docs'[index'[m]].createdAt {
      var k0, m0 := if k < i then k else k - 1, if m < i then m else m - 1;
      if k == i {
        assert index'[m] == index[m0];
      } else if m == i {
        assert index'[k] == index[k0];
      } else {
        assert index'[k] == index[k0] && index'[m] == index[m0];
      }
    }
  }

  lemma InsertKeepsIndex(docs: Docs, index: seq<string>, job: Job)
    requires Indexed(docs, index) && job.jobId !in docs
    ensures Indexed(docs[job.jobId := job], Inserted(index, Slot(docs, index, job.createdAt), job.jobId))
  {
    assert forall id :: id in index <==> id in docs;
    var i := Slot(docs, index, job.createdAt);
    InsertKeepsDistinct(index, i, job.jobId);
    InsertKeepsOrdered(docs, index, i, job);
    assert docs[job.jobId := job].Keys == (set id | id in Inserted(index, i, job.jobId));
  }

  datatype CreateReply = Created | Duplicate | CreateUnavailable

  /** The documents in creation order. */
  function InOrder(docs: Docs, index: seq<string>): (view: seq<Job>)
    requires Indexed(docs, index)
    ensures |view| == |index| && forall i :: 0 <= i < |view| ==> view[i] == docs[index[i]]
  {
    seq(|index|, i requires 0 <= i < |index| => docs[index[i]])
  }

  /** The collection's calls are the machine's: each takes effect and answers as under some fate of the request. */
  lemma CallsLandAsInTheMachine(op: Op, before: Docs, after: Docs, id: string, r: Reply, quiet: bool) returns (net: Net)
    requires id in before && Atomic(op, before, after, id, r, quiet)
    ensures after == before[id := Landed(op, before[id], net)] && r == ReplyOver(op, before[id], net)
    ensures quiet ==> net.Fine?
  {
    if after == DocsAfter(op, before, id) && r == DocsAnswer(op, before, id) {
      net := Fine;
    } else if after == DocsAfter(op, before, id) {
      net := LostReply;
    } else {
      net := LostRequest;
      assert before[id := before[id]] == before;
    }
  }

  /** Whatever became of the request: the call was atomic, and the document is what the machine makes of it. */
  lemma LandsAtomically(op: Op, before: Docs, after: Docs, id: string, r: Reply, net: Net)
    requires after == if id in before then before[id := Landed(op, before[id], net)] else before
    requires r == if !net.Fine? then Unavailable else DocsAnswer(op, before, id)
    ensures Atomic(op, before, after, id, r, net.Fine?) && CanAnswer(op, r)
    ensures forall quiet :: (quiet ==> net.Fine?) ==> Atomic(op, before, after, id, r, quiet)
    ensures after == DocsThen(before, id, Called(op, r), net) && Answered(before, id, Called(op, r), net)
  {
    if id in before {
      assert before[id := before[id]] == before;
    }
  }

  class JobsCollection {
    var docs: Docs
    var index: seq<string>
    const quiet: bool
    const monitor: Monitor

    constructor (quiet: bool, monitor: Monitor)
      requires monitor.Keeps() && monitor.record.docs == map[]
      ensures Valid() && docs == map[] && index == [] && this.quiet == quiet && this.monitor == monitor
      ensures InStep()
    {
      this.quiet, this.monitor := quiet, monitor;
      docs, index := map[], [];
    }

    /** The index is in step with the documents. */
    predicate Valid()
      reads this
    {
      Indexed(docs, index)
    }

    function View(): seq<Job>
      requires Valid()
      reads this
    {
      InOrder(docs, index)
    }

    /** The documents are those of the jobs' lives. */
    ghost predicate InStep()
      reads this, monitor
    {
      monitor.Keeps() && docs == monitor.record.docs
    }

    /** One of the watched threads is there. */
    ghost predicate At(jobId: string, t: Pc)
      reads monitor
    {
      (jobId, t) in monitor.record.mine
    }

    /** A watched thread may go on from there. */
    ghost predicate Ready(jobId: string, t: Pc)
      reads this, monitor
    {
      InStep() && At(jobId, t)
    }

    /** The watched thread has gone from there to there, the others anywhere, and the documents with them. */
    twostate predicate Went(jobId: string, from: Pc, to: Pc)
      reads this, monitor
    {
      InStep() && Moved(monitor.maxAttempts, old(monitor.record), monitor.record, jobId, from, to)
    }

    /** With nobody else around, nothing unlawful has happened that had not happened before. */
    twostate predicate Undisturbed()
      reads this, monitor
    {
      quiet ==>
        (Lawful(monitor.maxAttempts, monitor.record.log) <==> Lawful(monitor.maxAttempts, old(monitor.record).log))
    }

    /** The watched thread at `t` has done this one thing. */
    twostate predicate Caused(jobId: string, t: Pc, e: Event)
      reads monitor
    {
      Took(monitor.maxAttempts, old(monitor.record), monitor.record, jobId, t, e)
      && (Lawful(monitor.maxAttempts, monitor.record.log) <==> Lawful(monitor.maxAttempts, old(monitor.record).log))
    }

    /** Any number of steps by any other threads. */
    method OthersRun()
      requires InStep()
      modifies this`docs, this`index, monitor
      ensures InStep() && Others(old(monitor.record), monitor.record)
      ensures quiet ==> docs == old(docs) && index == old(index) && monitor.record == old(monitor.record)
      ensures !quiet ==> monitor.record.log == old(monitor.record).log + [Left(docs, old(monitor.record).mine)]
    {
      if !quiet {
        docs, index := *, *;
        monitor.Witness(docs);
      }
    }

    /**
     What happens between two polls: on a quiet collection jobs may be created,
     executed and cancelled, not retried.
     */
    method Meanwhile()
      requires InStep()
      modifies this`docs, this`index, monitor
      ensures InStep() && Others(old(monitor.record), monitor.record)
      ensures quiet && old(Valid()) ==> Valid() && Between(old(View()), View())
    {
      var docs': Docs, index': seq<string> := *, *;
      if !quiet || (Valid() && Indexed(docs', index') && Between(View(), InOrder(docs', index'))) {
        docs, index := docs', index';
        monitor.Witness(docs);
      }
    }

    method Transmit() returns (net: Net)
      ensures quiet ==> net.Fine?
    {
      net := Fine;
      if !quiet {
        net := *;
      }
    }

    method Create(job: Job) returns (r: CreateReply)
      requires InStep()
      modifies this`docs, this`index, monitor
      ensures InStep()
      ensures old(Valid()) ==> Valid()
      ensures r.Created? ==> job.jobId !in old(docs) && docs == old(docs)[job.jobId := job]
      ensures r.Duplicate? ==> job.jobId in old(docs) && docs == old(docs)
      ensures r.CreateUnavailable? ==>
                !quiet && (docs == old(docs) || (job.jobId !in old(docs) && docs == old(docs)[job.jobId := job]))
      ensures monitor.record == if docs == old(docs) then old(monitor.record) else Bred(old(monitor.record), job)
      ensures Untouched(old(monitor.record).mine, job.jobId) ==>
                (Lawful(monitor.maxAttempts, monitor.record.log)
                 <==> Lawful(monitor.maxAttempts, old(monitor.record).log))
    {
      var net := Transmit();
      var duplicate := job.jobId in docs;
      if !net.LostRequest? && !duplicate {
        if Valid() {
          InsertKeepsIndex(docs, index, job);
        }
        var i := Slot(docs, index, job.createdAt);
        docs, index := docs[job.jobId := job], Inserted(index, i, job.jobId);
        if Untouched(monitor.record.mine, job.jobId) {
          BredStaysLawful(monitor.maxAttempts, monitor.record, job);
        }
        monitor.Breed(job);
      }
      r := if !net.Fine? then CreateUnavailable else if duplicate then Duplicate else Created;
    }

    method Get(jobId: string, ghost t: Pc) returns (r: Reply)
      requires InStep() && At(jobId, t) && Issues(t, Op.Get)
      modifies monitor
      ensures InStep()
      ensures Atomic(Op.Get, docs, docs, jobId, r, quiet)
      ensures Caused(jobId, t, Called(Op.Get, r))
    {
      var net := Transmit();
      r := if !net.Fine? then Unavailable else if jobId in docs then Found(docs[jobId]) else NotFound;
      LandsAtomically(Op.Get, docs, docs, jobId, r, net);
      monitor.Take(jobId, t, Called(Op.Get, r), net);
    }

    method Update(jobId: string, patch: UpdateJob, ghost t: Pc) returns (r: Reply)
      requires InStep() && At(jobId, t) && Issues(t, Op.Update(patch))
      modifies this`docs, monitor
      ensures InStep()
      ensures Atomic(Op.Update(patch), old(docs), docs, jobId, r, quiet)
      ensures Caused(jobId, t, Called(Op.Update(patch), r))
    {
      ghost var was := docs;
      var net: Net := Fine;
      if patch == UpdateJob() {
        UnmatchedChangesNothing(Op.Update(patch), docs, jobId);
        r := EmptyPatch;
      } else {
        net := Transmit();
        var found := jobId in docs;
        if !net.LostRequest? && found {
          docs := docs[jobId := ApplyPatch(patch, docs[jobId])];
        }
        r := if !net.Fine? then Unavailable else if found then Wrote else NotFound;
      }
      LandsAtomically(Op.Update(patch), was, docs, jobId, r, net);
      monitor.Take(jobId, t, Called(Op.Update(patch), r), net);
    }

    method IncrementRetryCount(jobId: string, ghost t: Pc) returns (r: Reply)
      requires InStep() && At(jobId, t) && Issues(t, Op.IncrementRetryCount)
      modifies this`docs, monitor
      ensures InStep()
      ensures Atomic(Op.IncrementRetryCount, old(docs), docs, jobId, r, quiet)
      ensures Caused(jobId, t, Called(Op.IncrementRetryCount, r))
    {
      ghost var was := docs;
      var net := Transmit();
      var found := jobId in docs;
      if !net.LostRequest? && found {
        var j := docs[jobId].(retryCount := docs[jobId].retryCount + 1);
        assert j == After(Op.IncrementRetryCount, docs[jobId]);
        docs := docs[jobId := j];
      }
      r := if !net.Fine? then Unavailable else if found then Wrote else NotFound;
      LandsAtomically(Op.IncrementRetryCount, was, docs, jobId, r, net);
      monitor.Take(jobId, t, Called(Op.IncrementRetryCount, r), net);
    }

    method ClearJobExecutionTimestamps(jobId: string, ghost t: Pc) returns (r: Reply)
      requires InStep() && At(jobId, t) && Issues(t, Op.ClearJobExecutionTimestamps)
      modifies this`docs, monitor
      ensures InStep()
      ensures Atomic(Op.ClearJobExecutionTimestamps, old(docs), docs, jobId, r, quiet)
      ensures Caused(jobId, t, Called(Op.ClearJobExecutionTimestamps, r))
    {
      ghost var was := docs;
      var net := Transmit();
      var found := jobId in docs;
      if !net.LostRequest? && found {
        docs := docs[jobId := docs[jobId].(startedAt := None, completedAt := None)];
      }
      r := if !net.Fine? then Unavailable else if found then Wrote else NotFound;
      LandsAtomically(Op.ClearJobExecutionTimestamps, was, docs, jobId, r, net);
      monitor.Take(jobId, t, Called(Op.ClearJobExecutionTimestamps, r), net);
    }

    method MarkDispatchedIfPending(jobId: string, dispatchedAt: Time, ghost t: Pc) returns (r: Reply)
      requires InStep() && At(jobId, t) && Issues(t, Op.MarkDispatchedIfPending(dispatchedAt))
      modifies this`docs, monitor
      ensures InStep()
      ensures Atomic(Op.MarkDispatchedIfPending(dispatchedAt), old(docs), docs, jobId, r, quiet)
      ensures Caused(jobId, t, Called(Op.MarkDispatchedIfPending(dispatchedAt), r))
    {
      ghost var was := docs;
      ghost var op := Op.MarkDispatchedIfPending(dispatchedAt);
      var net := Transmit();
      var matched := jobId in docs && docs[jobId].dispatchStatus.Pending?;
      if !net.LostRequest? && matched {
        docs := docs[jobId := docs[jobId].(
          dispatchStatus := DispatchStatus.Dispatched,
          status := JobStatus.Dispatched,
          dispatchedAt := Some(dispatchedAt))];
      }
      r := if net.Fine? then Matched(matched) else Unavailable;
      if !matched {
        UnmatchedChangesNothing(op, was, jobId);
      }
      LandsAtomically(op, was, docs, jobId, r, net);
      monitor.Take(jobId, t, Called(op, r), net);
    }

    method RecordDispatchAttemptIfPending(jobId: string, attempts: int, lastError: string, ghost t: Pc)
      returns (r: Reply)
      requires InStep() && At(jobId, t) && Issues(t, Op.RecordDispatchAttemptIfPending(attempts, lastError))
      modifies this`docs, monitor
      ensures InStep()
      ensures Atomic(Op.RecordDispatchAttemptIfPending(attempts, lastError), old(docs), docs, jobId, r, quiet)
      ensures Caused(jobId, t, Called(Op.RecordDispatchAttemptIfPending(attempts, lastError), r))
    {
      ghost var was := docs;
      ghost var op := Op.RecordDispatchAttemptIfPending(attempts, lastError);
      var net := Transmit();
      var matched := jobId in docs && docs[jobId].dispatchStatus.Pending?;
      if !net.LostRequest? && matched {
        docs := docs[jobId := docs[jobId].(dispatchAttempts := attempts, dispatchLastError := lastError)];
      }
      r := if net.Fine? then Matched(matched) else Unavailable;
      if !matched {
        UnmatchedChangesNothing(op, was, jobId);
      }
      LandsAtomically(op, was, docs, jobId, r, net);
      monitor.Take(jobId, t, Called(op, r), net);
    }

    method MarkDispatchFailedIfPending(jobId: string, message: string, now: Time, ghost t: Pc) returns (r: Reply)
      requires InStep() && At(jobId, t) && Issues(t, Op.MarkDispatchFailedIfPending(message, now))
      modifies this`docs, monitor
      ensures InStep()
      ensures Atomic(Op.MarkDispatchFailedIfPending(message, now), old(docs), docs, jobId, r, quiet)
      ensures Caused(jobId, t, Called(Op.MarkDispatchFailedIfPending(message, now), r))
    {
      ghost var was := docs;
      ghost var op := Op.MarkDispatchFailedIfPending(message, now);
      var net := Transmit();
      var errorEntry := JobError(Dispatch, 0, message, now);
      var matched := jobId in docs && docs[jobId].dispatchStatus.Pending?;
      if !net.LostRequest? && matched {
        docs := docs[jobId := docs[jobId].(
          dispatchStatus := DispatchStatus.Failed,
          status := JobStatus.DispatchFailed,
          errors := docs[jobId].errors + [errorEntry])];
      }
      r := if net.Fine? then Matched(matched) else Unavailable;
      if !matched {
        UnmatchedChangesNothing(op, was, jobId);
      }
      LandsAtomically(op, was, docs, jobId, r, net);
      monitor.Take(jobId, t, Called(op, r), net);
    }

    method MarkRunningIfDispatched(jobId: string, startedAt: Time, ghost t: Pc) returns (r: Reply)
      requires InStep() && At(jobId, t) && Issues(t, Op.MarkRunningIfDispatched(startedAt))
      modifies this`docs, monitor
      ensures InStep()
      ensures Atomic(Op.MarkRunningIfDispatched(startedAt), old(docs), docs, jobId, r, quiet)
      ensures Caused(jobId, t, Called(Op.MarkRunningIfDispatched(startedAt), r))
    {
      ghost var was := docs;
      ghost var op := Op.MarkRunningIfDispatched(startedAt);
      var net := Transmit();
      var matched := jobId in docs && docs[jobId].executionStatus.NotStarted?;
      if !net.LostRequest? && matched {
        docs := docs[jobId := docs[jobId].(
          executionStatus := ExecutionStatus.Running,
          status := JobStatus.Running,
          startedAt := Some(startedAt))];
      }
      r := if net.Fine? then Matched(matched) else Unavailable;
      if !matched {
        UnmatchedChangesNothing(op, was, jobId);
      }
      LandsAtomically(op, was, docs, jobId, r, net);
      monitor.Take(jobId, t, Called(op, r), net);
    }

    method CompleteIfRunning(jobId: string, completedAt: Time, meta: Option<Fields>, ghost t: Pc) returns (r: Reply)
      requires InStep() && At(jobId, t) && Issues(t, Op.CompleteIfRunning(completedAt, meta))
      modifies this`docs, monitor
      ensures InStep()
      ensures Atomic(Op.CompleteIfRunning(completedAt, meta), old(docs), docs, jobId, r, quiet)
      ensures Caused(jobId, t, Called(Op.CompleteIfRunning(completedAt, meta), r))
    {
      ghost var was := docs;
      ghost var op := Op.CompleteIfRunning(completedAt, meta);
      var net := Transmit();
      var matched := jobId in docs && docs[jobId].executionStatus.Running?;
      if !net.LostRequest? && matched {
        var j := docs[jobId].(
          executionStatus := ExecutionStatus.Completed,
          status := JobStatus.Completed,
          completedAt := Some(completedAt));
        if meta.Some? {
          j := j.(metadata := meta.value);
        }
        docs := docs[jobId := j];
      }
      r := if net.Fine? then Matched(matched) else Unavailable;
      if !matched {
        UnmatchedChangesNothing(op, was, jobId);
      }
      LandsAtomically(op, was, docs, jobId, r, net);
      monitor.Take(jobId, t, Called(op, r), net);
    }

    method FailIfNotTerminal(jobId: string, entry: JobError, completedAt: Time, ghost t: Pc) returns (r: Reply)
      requires InStep() && At(jobId, t) && Issues(t, Op.FailIfNotTerminal(entry, completedAt))
      modifies this`docs, monitor
      ensures InStep()
      ensures Atomic(Op.FailIfNotTerminal(entry, completedAt), old(docs), docs, jobId, r, quiet)
      ensures Caused(jobId, t, Called(Op.FailIfNotTerminal(entry, completedAt), r))
    {
      ghost var was := docs;
      ghost var op := Op.FailIfNotTerminal(entry, completedAt);
      var net := Transmit();
      var matched := jobId in docs && (docs[jobId].executionStatus.Running? || docs[jobId].executionStatus.NotStarted?);
      if !net.LostRequest? && matched {
        var j := docs[jobId].(
          executionStatus := ExecutionStatus.Failed,
          status := JobStatus.Failed,
          completedAt := Some(completedAt),
          startedAt := if docs[jobId].startedAt.Some? then docs[jobId].startedAt else Some(completedAt),
          errors := docs[jobId].errors + [entry]);
        assert j == After(op, docs[jobId]);
        docs := docs[jobId := j];
      }
      r := if net.Fine? then Matched(matched) else Unavailable;
      if !matched {
        UnmatchedChangesNothing(op, was, jobId);
      }
      LandsAtomically(op, was, docs, jobId, r, net);
      monitor.Take(jobId, t, Called(op, r), net);
    }
  }
}
