/** The stream watcher and its persisted resume token. */
module Stream {
  import opened Options
  import opened Status
  import opened JobModel
  import opened Writes
  import opened Protocol
  import opened Collection
  import opened Service
  import opened Broker
  import opened Dispatcher
  import opened Machine
  import opened Weaving
  import opened StreamProtocol

  datatype LoadResult = Loaded(token: Option<nat>) | LoadFailed

  /** A token in a file: written next to it, then renamed over it. */
  class FileResumeTokenStore {
    var file: Option<nat>
    var temp: Option<nat>
    const reliable: bool   // the file system does what it is asked

    /** The file may be there from an earlier process. */
    constructor (file: Option<nat>, reliable: bool)
      ensures this.file == file && this.reliable == reliable
    {
      this.file, temp, this.reliable := file, None, reliable;
    }

    method Works() returns (ok: bool)
      ensures reliable ==> ok
    {
      ok := true;
      if !reliable {
        ok := *;
      }
    }

    method Load() returns (r: LoadResult)
      ensures r.Loaded? ==> r.token == file
      ensures reliable ==> r.Loaded?
    {
      var readable := Works();
      r := if readable then Loaded(file) else LoadFailed;
    }

    /** All or nothing: a failed save leaves the token as it was. */
    method Save(token: nat) returns (ok: bool)
      modifies this
      ensures file == if ok then Some(token) else old(file)
      ensures reliable ==> ok
    {
      var directory := Works();
      if !directory {
        return false;
      }
      var written := Works();
      if !written {
        temp := *;
        return false;
      }
      temp := Some(token);
      var renamed := Works();
      if !renamed {
        return false;
      }
      file, temp := temp, None;
      ok := true;
    }
  }

  /** The collection's change log, appended to by every other client. */
  class ChangeLog {
    var log: seq<Change>
    const steady: bool   // streams open, and do not end by themselves

    constructor (log: seq<Change>, steady: bool)
      ensures this.log == log && this.steady == steady
    {
      this.log, this.steady := log, steady;
    }

    /** Whether a stream goes on. */
    method GoesOn() returns (ok: bool)
      ensures steady ==> ok
    {
      ok := true;
      if !steady {
        ok := *;
      }
    }

    method OthersAppend() returns (added: seq<Change>)
      modifies this
      ensures log == old(log) + added
    {
      added := *;
      log := log + added;
    }
  }

  function Appends(added: seq<Change>): seq<Tick> {
    seq(|added|, i requires 0 <= i < |added| => Append(added[i]))
  }

  lemma {:induction false} ReplayAppends(history: seq<Tick>, added: seq<Change>)
    requires Replay(history).Some?
    ensures Replay(history + Appends(added)) == Some(Replay(history).value.(log := Replay(history).value.log + added))
    ensures Opened(history + Appends(added)) == Opened(history)
  {
    if added == [] {
      assert history + Appends(added) == history;
      assert Replay(history).value.log + added == Replay(history).value.log;
    } else {
      var before := added[..|added| - 1];
      ReplayAppends(history, before);
      ReplayNext(history + Appends(before), Append(added[|added| - 1]));
      assert history + Appends(added) == history + Appends(before) + [Append(added[|added| - 1])];
      assert Replay(history).value.log + added == Replay(history).value.log + before + [added[|added| - 1]];
    }
  }

  class StreamWatcher {
    const source: ChangeLog
    const tokens: FileResumeTokenStore
    const handler: DispatchHandler
    ghost var history: seq<Tick>
    ghost var calls: seq<nat>      // positions of the changes the handler was called for

    /** `past` is what earlier processes did, up to their end. */
    constructor (source: ChangeLog, tokens: FileResumeTokenStore, handler: DispatchHandler, ghost past: seq<Tick>)
      requires handler.Valid() && handler.jobs.jobs.InStep() && Replay(past).Some? && !Replay(past).value.open
      requires Replay(past).value.log == source.log && Replay(past).value.saved == tokens.file
      ensures this.source == source && this.tokens == tokens && this.handler == handler
      ensures Valid() && history == past && calls == Replay(past).value.handled
    {
      this.source, this.tokens, this.handler := source, tokens, handler;
      history, calls := past, Replay(past).value.handled;
    }

    /** What happened is a history of the protocol, and the protocol's state is the real one. */
    ghost predicate InStep()
      reads this, source, tokens
    {
      && Replay(history).Some?
      && Replay(history).value.log == source.log
      && Replay(history).value.saved == tokens.file
      && Replay(history).value.handled == calls
    }

    ghost predicate Valid()
      reads this, source, tokens, handler.publisher, handler.jobs.jobs, handler.jobs.jobs.monitor
    {
      handler.Valid() && handler.jobs.jobs.InStep() && InStep() && !Replay(history).value.open
    }

    /** Rejects a change without a topic, and dispatches any other. */
    method HandlePendingDispatchInsert(doc: Job, now: Time) returns (res: Outcome)
      requires handler.Valid() && handler.jobs.jobs.InStep()
      modifies handler.publisher`unacked, handler.publisher`next, handler.jobs.jobs`docs, handler.jobs.jobs`index,
               handler.publisher.monitor
      ensures handler.Valid() && handler.jobs.jobs.InStep()
      ensures Dispatched(old(handler.publisher.monitor.record), handler.publisher.monitor.record, doc, res)
      ensures AddsForDoc(old(handler.publisher.unacked), handler.publisher.unacked, doc)
      ensures doc.topic == "" ==>
                res.Refused? && handler.publisher.monitor.record == old(handler.publisher.monitor.record)
                && handler.publisher.unacked == old(handler.publisher.unacked)
    {
      if doc.topic == "" {
        WalkStart(handler.maxAttempts, handler.publisher.monitor.record.trace, doc.jobId, Done(Refused));
        return Refused;
      }
      handler.publisher.monitor.Begin(doc.jobId, StreamInsert, BeginDispatch(JobDispatchFromMetadata(doc)));
      ghost var sent; ghost var error;
      res, sent, error := handler.HandleDispatch(JobDispatchFromMetadata(doc), now);
    }

    /** Nothing is gone from the broker, and what is new are messages of this document. */
    ghost predicate AddsForDoc(before: map<MessageKey, Message>, after: map<MessageKey, Message>, doc: Job) {
      && (forall key :: key in before ==> key in after && after[key] == before[key])
      && (forall key :: key in after && key !in before ==>
            key.0 == doc.jobId
            && Carries(after[key], doc.topic, doc.jobId, doc.name,
                       if doc.payload.Some? then doc.payload.value else map[]))
    }

    /** The inserted document has been dispatched, whatever came of it, and everybody's lives have gone on. */
    ghost predicate Dispatched(before: Chronicle, after: Chronicle, doc: Job, res: Outcome) {
      && Walk(handler.maxAttempts, before.trace, after.trace, doc.jobId, BeginDispatch(JobDispatchFromMetadata(doc)),
              Done(res))
      && before.log <= after.log
    }

    /** A stream is open at `cursor`, and the last change it yielded has been settled. */
    ghost predicate Streaming(cursor: nat)
      reads this, source, tokens
    {
      && InStep()
      && Replay(history).value.open && !Replay(history).value.unsettled
      && Replay(history).value.cursor == cursor
    }

    /** Still the same stream. */
    static predicate SameStart(before: seq<Tick>, after: seq<Tick>) {
      Replay(before).Some? && Replay(after).Some? && Replay(after).value.start == Replay(before).value.start
    }

    /** Adds a tick to the history. */
    ghost method Tell(t: Tick)
      requires Replay(history).Some? && CanTick(Replay(history).value, t)
      modifies this`history
      ensures history == old(history) + [t]
      ensures Replay(history) == Some(StreamProtocol.After(old(Replay(history).value), t, Opened(old(history))))
    {
      ReplayNext(history, t);
      history := history + [t];
    }

    /** Changes made by others since the stream last looked. */
    method AwaitChanges(cursor: nat) returns (i: nat)
      requires Streaming(cursor)
      modifies source, this`history
      ensures Streaming(cursor) && old(history) <= history
      ensures cursor <= |source.log| && i == NextWanted(source.log, cursor)
      ensures old(source.log) <= source.log && SameStart(old(history), history)
    {
      var added := source.OthersAppend();
      ReplayAppends(history, added);
      history := history + Appends(added);
      ReplayKeeps(history);
      i := NextWanted(source.log, cursor);
    }

    /** What is made of the change the stream yields: None when it does not decode. */
    method HandleChange(c: Change, now: Time) returns (ghost res: Option<Outcome>)
      requires handler.Valid() && handler.jobs.jobs.InStep() && Wanted(c)
      modifies handler.publisher`unacked, handler.publisher`next, handler.jobs.jobs`docs, handler.jobs.jobs`index,
               handler.publisher.monitor
      ensures handler.Valid() && handler.jobs.jobs.InStep()
      ensures res.Some? <==> c.readable
      ensures res.Some? ==>
                Dispatched(old(handler.publisher.monitor.record), handler.publisher.monitor.record, c.doc, res.value)
      ensures AddsForDoc(old(handler.publisher.unacked), handler.publisher.unacked, c.doc)
      ensures !Dispatchable(c) ==>
                handler.publisher.monitor.record == old(handler.publisher.monitor.record)
                && handler.publisher.unacked == old(handler.publisher.unacked)
    {
      if !c.readable {
        return None;
      }
      var outcome := HandlePendingDispatchInsert(c.doc, now);
      res := Some(outcome);
    }

    /** Handles the change the stream yields at `i`, then tries to save the token behind it. */
    method HandleEvent(cursor: nat, i: nat, now: Time) returns (ghost res: Option<Outcome>)
      requires handler.Valid() && handler.jobs.jobs.InStep() && Streaming(cursor)
      requires cursor <= |source.log| && i == NextWanted(source.log, cursor) && i < |source.log|
      modifies this, tokens, handler.publisher`unacked, handler.publisher`next,
               handler.jobs.jobs`docs, handler.jobs.jobs`index, handler.publisher.monitor
      ensures handler.Valid() && handler.jobs.jobs.InStep() && Streaming(i + 1) && old(history) <= history
      ensures SameStart(old(history), history)
      ensures calls == old(calls) + if Dispatchable(source.log[i]) then [i] else []
      ensures old(handler.publisher.monitor.record).log <= handler.publisher.monitor.record.log
      ensures res.Some? <==> source.log[i].readable
      ensures res.Some? ==>
                Dispatched(old(handler.publisher.monitor.record), handler.publisher.monitor.record,
                           source.log[i].doc, res.value)
      ensures AddsForDoc(old(handler.publisher.unacked), handler.publisher.unacked, source.log[i].doc)
      ensures !Dispatchable(source.log[i]) ==>
                handler.publisher.monitor.record == old(handler.publisher.monitor.record)
    {
      res := HandleChange(source.log[i], now);
      SaveBehind(cursor, i);
    }

    /** The change at `i` has been handed over or passed over; the token behind it is saved, if that works. */
    method SaveBehind(cursor: nat, i: nat)
      requires Streaming(cursor)
      requires cursor <= |source.log| && i == NextWanted(source.log, cursor) && i < |source.log|
      modifies this, tokens
      ensures Streaming(i + 1) && old(history) <= history && SameStart(old(history), history)
      ensures calls == old(calls) + if Dispatchable(source.log[i]) then [i] else []
    {
      if Dispatchable(source.log[i]) {
        calls := calls + [i];
      }
      Tell(Next);
      var saved := tokens.Save(i + 1);
      Tell(Save(saved));
    }

    /** When nothing wanted is left ahead of the cursor, everything dispatchable has been handed over. */
    lemma AllHandled(cursor: nat, start: nat, log0: seq<Change>)
      requires Streaming(cursor) && Replay(history).value.start == start && log0 <= source.log
      ensures WantedFrom(log0, cursor) == 0 ==>
                forall i :: start <= i < |log0| && Dispatchable(log0[i]) ==> i in calls
    {
      ReplayKeeps(history);
      if WantedFrom(log0, cursor) == 0 {
        forall i | start <= i < |log0| && Dispatchable(log0[i]) ensures i in calls {
          if i >= cursor {
            NoneWanted(log0, cursor, i);
          }
          assert log0[i] == source.log[i];
        }
      }
    }

    /** One stream, from opening to its end, over at most `patience` changes. */
    method RunOnce(patience: nat, now: Time)
      requires Valid()
      modifies this, source, tokens, handler.publisher`unacked, handler.publisher`next,
               handler.jobs.jobs`docs, handler.jobs.jobs`index, handler.publisher.monitor
      ensures Valid() && old(history) <= history
      ensures old(handler.publisher.monitor.record).log <= handler.publisher.monitor.record.log
      ensures tokens.reliable && source.steady && old(tokens.file).Some?
              && patience >= WantedFrom(old(source.log), old(tokens.file).value) ==>
                forall i :: old(tokens.file).value <= i < |old(source.log)| ==>
                  old(source.log)[i].Insert? && old(source.log)[i].readable
                  && old(source.log)[i].doc.dispatchStatus.Pending? && old(source.log)[i].doc.topic != "" ==>
                    i in calls
    {
      var loaded := tokens.Load();
      var opens := source.GoesOn();
      if loaded.LoadFailed? || !opens {
        return;
      }
      var cursor: nat := if loaded.token.Some? then loaded.token.value else |source.log|;
      Tell(Open);
      FollowStream(cursor, patience, now);
      Tell(Stop);
    }

    /**
     The changes of an open stream, until it ends.  One that does not end by
     itself yields, given the patience, everything that was there.
     */
    method FollowStream(cursor: nat, patience: nat, now: Time)
      requires handler.Valid() && handler.jobs.jobs.InStep() && Streaming(cursor)
      requires Replay(history).value.start == cursor
      modifies this, source, tokens, handler.publisher`unacked, handler.publisher`next,
               handler.jobs.jobs`docs, handler.jobs.jobs`index, handler.publisher.monitor
      ensures handler.Valid() && handler.jobs.jobs.InStep() && InStep() && old(history) <= history
      ensures old(handler.publisher.monitor.record).log <= handler.publisher.monitor.record.log
      ensures source.steady && patience >= WantedFrom(old(source.log), cursor) ==>
                forall i :: cursor <= i < |old(source.log)| && Dispatchable(old(source.log)[i]) ==> i in calls
    {
      ghost var log0 := source.log;
      var at, n, goesOn := cursor, 0, true;
      while n < patience && goesOn
        invariant handler.Valid() && handler.jobs.jobs.InStep() && Streaming(at) && old(history) <= history
        invariant old(handler.publisher.monitor.record).log <= handler.publisher.monitor.record.log
        invariant log0 <= source.log && Replay(history).value.start == cursor
        invariant n <= patience && Ahead(log0, cursor, at, n, patience)
        invariant !goesOn && source.steady ==> WantedFrom(log0, at) == 0
        decreases patience - n, goesOn
      {
        var more: bool;
        at, more := TakeChange(at, log0, now);
        goesOn := more;
        if more {
          n := n + 1;
        }
      }
      AllHandled(at, cursor, log0);
    }

    /** With that patience, what is left of it is enough for what is left ahead. */
    static predicate Ahead(log0: seq<Change>, start: nat, at: nat, n: nat, patience: nat) {
      patience >= WantedFrom(log0, start) ==> n + WantedFrom(log0, at) <= patience
    }

    /** The next change of the stream, unless it fails or its context ends. */
    method TakeChange(cursor: nat, ghost log0: seq<Change>, now: Time) returns (at: nat, more: bool)
      requires handler.Valid() && handler.jobs.jobs.InStep() && Streaming(cursor) && log0 <= source.log
      modifies this, source, tokens, handler.publisher`unacked, handler.publisher`next,
               handler.jobs.jobs`docs, handler.jobs.jobs`index, handler.publisher.monitor
      ensures handler.Valid() && handler.jobs.jobs.InStep() && Streaming(at) && old(history) <= history
      ensures old(handler.publisher.monitor.record).log <= handler.publisher.monitor.record.log
      ensures log0 <= source.log && SameStart(old(history), history)
      ensures more ==> WantedFrom(log0, at) == 0 || WantedFrom(log0, at) == WantedFrom(log0, cursor) - 1
      ensures !more ==> at == cursor && (source.steady ==> WantedFrom(log0, cursor) == 0)
    {
      var i := AwaitChanges(cursor);
      OneWantedLess(log0, source.log, cursor);
      var goesOn := source.GoesOn();
      if !goesOn || i == |source.log| {
        return cursor, false;
      }
      ghost var res := HandleEvent(cursor, i, now);
      at, more := i + 1, true;
    }

    /** Reconnects until the context ends, here after `streams` streams. */
    method Run(streams: nat, patience: nat, now: Time)
      requires Valid()
      modifies this, source, tokens, handler.publisher`unacked, handler.publisher`next,
               handler.jobs.jobs`docs, handler.jobs.jobs`index, handler.publisher.monitor
      ensures Valid() && old(history) <= history
      ensures old(handler.publisher.monitor.record).log <= handler.publisher.monitor.record.log
      ensures tokens.file.Some? ==>
                && Replay(history).value.origin.Some?
                && tokens.file.value <= |source.log|
                && forall i :: Replay(history).value.origin.value <= i < tokens.file.value ==>
                     source.log[i].Insert? && source.log[i].readable
                     && source.log[i].doc.dispatchStatus.Pending? && source.log[i].doc.topic != "" ==>
                       i in calls
      ensures forall i :: i in calls ==>
                && i < |source.log| && source.log[i].Insert? && source.log[i].readable
                && source.log[i].doc.dispatchStatus.Pending? && source.log[i].doc.topic != ""
      ensures |calls| <= CountDispatchable(source.log, |source.log|)
                         + Replay(history).value.reopens + Replay(history).value.failedSaves
    {
      var k := 0;
      while k < streams
        invariant Valid() && old(history) <= history
        invariant old(handler.publisher.monitor.record).log <= handler.publisher.monitor.record.log
      {
        RunOnce(patience, now);
        k := k + 1;
      }
      if tokens.file.Some? {
        NoInsertSkipped(history);
      }
      HandlerCallsBounded(history);
    }
  }
}
