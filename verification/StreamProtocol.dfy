/**
 Consuming the change stream with a persisted resume token: reconnects,
 crashes and failing saves in any order.

 A token is a position in the collection's change log.
 */
module StreamProtocol {
  import opened Options
  import opened Status
  import opened JobModel

  /** `readable` tells whether the inserted document decodes as a job. */
  datatype Change = Insert(doc: Job, readable: bool) | OtherChange

  /** The stream's filter: new jobs awaiting dispatch. */
  predicate Wanted(c: Change) {
    c.Insert? && c.doc.dispatchStatus.Pending?
  }

  /** Of those the ones the handler is called for: the others are passed over, and logged. */
  predicate Dispatchable(c: Change) {
    Wanted(c) && c.readable && c.doc.topic != ""
  }

  /** The first wanted change at or after `from`, or the end of the log. */
  function NextWanted(log: seq<Change>, from: nat): (i: nat)
    requires from <= |log|
    ensures from <= i <= |log|
    ensures i < |log| ==> Wanted(log[i])
    ensures forall k :: from <= k < i ==> !Wanted(log[k])
    decreases |log| - from
  {
    if from == |log| || Wanted(log[from]) then from else NextWanted(log, from + 1)
  }

  /** How many wanted changes there are from a position on. */
  function WantedFrom(log: seq<Change>, from: nat): nat
    decreases |log| - from
  {
    if from >= |log| then 0 else WantedFrom(log, from + 1) + if Wanted(log[from]) then 1 else 0
  }

  /** Passing the next wanted change of a longer log leaves one less in this one, or none. */
  lemma {:induction false} OneWantedLess(log: seq<Change>, longer: seq<Change>, from: nat)
    requires log <= longer && from <= |longer|
    ensures var i := NextWanted(longer, from);
            if i < |log| then WantedFrom(log, from) == 1 + WantedFrom(log, i + 1) else WantedFrom(log, from) == 0
    decreases |longer| - from
  {
    if from < |log| {
      assert log[from] == longer[from];
      if !Wanted(log[from]) {
        OneWantedLess(log, longer, from + 1);
      }
    }
  }

  lemma {:induction false} NoneWanted(log: seq<Change>, from: nat, k: nat)
    requires WantedFrom(log, from) == 0 && from <= k < |log|
    ensures !Wanted(log[k])
    decreases k - from
  {
    if from < k {
      NoneWanted(log, from + 1, k);
    }
  }

  function CountDispatchable(log: seq<Change>, n: nat): nat
    requires n <= |log|
  {
    if n == 0 then 0 else CountDispatchable(log, n - 1) + if Dispatchable(log[n - 1]) then 1 else 0
  }

  datatype Watch = Watch(
    log: seq<Change>,
    saved: Option<nat>,     // the persisted token
    open: bool,
    cursor: nat,            // where an open stream reads next
    start: nat,             // where the last stream was opened
    origin: Option<nat>,    // where the stream that saved the first token was opened
    unsettled: bool,        // yielded a change since the last attempt to save
    handled: seq<nat>,      // positions handed to the handler, in order
    reopens: nat,
    failedSaves: nat)

  datatype Tick =
    | Append(c: Change)
    | Open
    | Next            // the stream yields its next change, which is handed over or passed over
    | Save(ok: bool)
    | Stop            // the stream fails, or the process dies

  const FRESH := Watch([], None, false, 0, 0, None, false, [], 0, 0)

  predicate CanTick(w: Watch, t: Tick) {
    match t
    case Append(_) => true
    case Open => !w.open
    case Next => w.open && !w.unsettled && w.cursor <= |w.log| && NextWanted(w.log, w.cursor) < |w.log|
    case Save(_) => w.open && w.unsettled
    case Stop => true
  }

  /** Where a stream opens: behind the token, or at the end of the log when there is none. */
  function OpensAt(w: Watch): nat {
    w.saved.GetOr(|w.log|)
  }

  function After(w: Watch, t: Tick, everOpened: bool): Watch
    requires CanTick(w, t)
  {
    match t
    case Append(c) => w.(log := w.log + [c])
    case Open =>
      w.(open := true, cursor := OpensAt(w), start := OpensAt(w), unsettled := false,
         reopens := if everOpened then w.reopens + 1 else w.reopens)
    case Next =>
      var i := NextWanted(w.log, w.cursor);
      w.(handled := if Dispatchable(w.log[i]) then w.handled + [i] else w.handled, cursor := i + 1, unsettled := true)
    case Save(ok) =>
      if ok then
        w.(saved := Some(w.cursor), unsettled := false, origin := if w.origin.Some? then w.origin else Some(w.start))
      else w.(unsettled := false, failedSaves := w.failedSaves + 1)
    case Stop => w.(open := false)
  }

  /** Whether a history contains an opening. */
  predicate Opened(history: seq<Tick>) {
    exists k :: 0 <= k < |history| && history[k].Open?
  }

  /** The state after a history; None when some tick in it was not possible. */
  function Replay(history: seq<Tick>): Option<Watch> {
    if history == [] then Some(FRESH)
    else
      var w := Replay(history[..|history| - 1]);
      var t := history[|history| - 1];
      if w.Some? && CanTick(w.value, t) then Some(After(w.value, t, Opened(history[..|history| - 1]))) else None
  }

  lemma ReplayNext(history: seq<Tick>, t: Tick)
    requires Replay(history).Some? && CanTick(Replay(history).value, t)
    ensures Replay(history + [t]) == Some(After(Replay(history).value, t, Opened(history)))
    ensures Opened(history + [t]) <==> Opened(history) || t.Open?
  {
    assert (history + [t])[..|history|] == history;
    if Opened(history) {
      var k :| 0 <= k < |history| && history[k].Open?;
      assert (history + [t])[k].Open?;
    }
    if t.Open? {
      assert (history + [t])[|history|].Open?;
    }
  }

  /** Everything dispatchable between `from` and `to` has been handed over. */
  ghost predicate Covered(w: Watch, from: nat, to: nat) {
    forall i :: from <= i < to && i < |w.log| && Dispatchable(w.log[i]) ==> i in w.handled
  }

  /** Where the next stream would have to start to lose nothing. */
  function Settled(w: Watch): nat {
    w.saved.GetOr(w.start)
  }

  ghost predicate NothingSkipped(w: Watch) {
    && (forall i :: i in w.handled ==> i < |w.log| && Dispatchable(w.log[i]))
    && w.cursor <= |w.log| && w.start <= |w.log| && Settled(w) <= |w.log|
    && w.saved.Some? == w.origin.Some?
    && (w.open ==> w.start <= w.cursor && Settled(w) <= w.cursor && Covered(w, w.start, w.cursor))
    && (w.saved.Some? ==>
          && w.origin.value <= w.saved.value
          && Covered(w, w.origin.value, w.saved.value)
          && (w.open ==> Covered(w, w.origin.value, w.cursor)))
  }

  /** A hand-over whose token has not been tried to save yet. */
  predicate Owing(w: Watch) {
    w.unsettled && 1 <= w.cursor <= |w.log| && Dispatchable(w.log[w.cursor - 1])
  }

  /** Every hand-over is paid for by a change, a reopening or a failed save. */
  ghost predicate Paid(w: Watch, everOpened: bool) {
    && w.cursor <= |w.log| && Settled(w) <= |w.log|
    && |w.handled| <= CountDispatchable(w.log, Settled(w)) + w.reopens + w.failedSaves + (if Owing(w) then 1 else 0)
    && (w.unsettled ==> Settled(w) <= w.cursor)
    && (Owing(w) ==> CountDispatchable(w.log, Settled(w)) < CountDispatchable(w.log, w.cursor))
    && (w.open || w.unsettled || w.saved.Some? ==> everOpened)
    && (w.open ==> Settled(w) <= w.cursor)
  }

  lemma {:induction false} CountGrows(log: seq<Change>, m: nat, n: nat)
    requires m <= n <= |log|
    ensures CountDispatchable(log, m) <= CountDispatchable(log, n)
    ensures m < n && Dispatchable(log[n - 1]) ==> CountDispatchable(log, m) < CountDispatchable(log, n)
  {
    if m < n {
      CountGrows(log, m, n - 1);
    }
  }

  lemma {:induction false} CountStable(log: seq<Change>, c: Change, n: nat)
    requires n <= |log|
    ensures CountDispatchable(log + [c], n) == CountDispatchable(log, n)
  {
    if n > 0 {
      CountStable(log, c, n - 1);
    }
  }

  lemma TickSkipsNothing(w: Watch, t: Tick, everOpened: bool)
    requires CanTick(w, t) && NothingSkipped(w)
    ensures NothingSkipped(After(w, t, everOpened))
  {
  }

  lemma AppendPays(w: Watch, c: Change, everOpened: bool)
    requires Paid(w, everOpened)
    ensures Paid(After(w, Append(c), everOpened), everOpened)
  {
    CountStable(w.log, c, Settled(w));
    CountStable(w.log, c, w.cursor);
  }

  lemma NextPays(w: Watch, everOpened: bool)
    requires CanTick(w, Next) && Paid(w, everOpened)
    ensures Paid(After(w, Next, everOpened), everOpened)
  {
    CountGrows(w.log, Settled(w), NextWanted(w.log, w.cursor) + 1);
  }

  /** Each hand-over is paid for as it happens. */
  lemma TickPays(w: Watch, t: Tick, everOpened: bool)
    requires CanTick(w, t) && Paid(w, everOpened)
    ensures Paid(After(w, t, everOpened), everOpened || t.Open?)
  {
    match t {
      case Append(c) => AppendPays(w, c, everOpened);
      case Next => NextPays(w, everOpened);
      case Open => CountGrows(w.log, Settled(w), OpensAt(w));
      case Save(_) => CountGrows(w.log, Settled(w), w.cursor);
      case Stop =>
    }
  }

  lemma {:induction false} ReplayKeeps(history: seq<Tick>)
    requires Replay(history).Some?
    ensures NothingSkipped(Replay(history).value)
    ensures Paid(Replay(history).value, Opened(history))
  {
    if history != [] {
      var before := history[..|history| - 1];
      var t := history[|history| - 1];
      ReplayKeeps(before);
      TickSkipsNothing(Replay(before).value, t, Opened(before));
      TickPays(Replay(before).value, t, Opened(before));
      assert Opened(history) <==> Opened(before) || t.Open? by {
        assert forall k :: 0 <= k < |before| ==> before[k] == history[k];
        assert history[|history| - 1] == t;
      }
    }
  }

  // ---- Main results ----

  /**
   Once a first token has been saved: everything dispatchable from where that stream
   was opened up to the saved token has been handed to the handler, and a
   stream that is open has left nothing out since.  So nothing is lost however
   often the watcher dies and comes back.
   */
  lemma NoInsertSkipped(history: seq<Tick>)
    requires Replay(history).Some? && Replay(history).value.saved.Some?
    ensures var w := Replay(history).value;
            && w.origin.Some? && w.origin.value <= w.saved.value <= |w.log|
            && (w.open ==> w.saved.value <= w.cursor <= |w.log|)
            && (forall i :: w.origin.value <= i < (if w.open then w.cursor else w.saved.value) ==>
                  w.log[i].Insert? && w.log[i].readable
                  && w.log[i].doc.dispatchStatus.Pending? && w.log[i].doc.topic != "" ==>
                    i in w.handled)
  {
    ReplayKeeps(history);
  }

  /** Repeated hand-overs are bounded: by the reopenings and the failed saves. */
  lemma HandlerCallsBounded(history: seq<Tick>)
    requires Replay(history).Some?
    ensures var w := Replay(history).value;
            && |w.handled| <= CountDispatchable(w.log, |w.log|) + w.reopens + w.failedSaves
            && (forall i :: i in w.handled ==>
                  && i < |w.log| && w.log[i].Insert? && w.log[i].readable
                  && w.log[i].doc.dispatchStatus.Pending? && w.log[i].doc.topic != "")
  {
    ReplayKeeps(history);
    var w := Replay(history).value;
    CountGrows(w.log, Settled(w), |w.log|);
    CountGrows(w.log, w.cursor, |w.log|);
  }

  /** Before the first token a reopening starts at the end of the log, and what was inserted meanwhile is skipped. */
  lemma InsertBeforeFirstTokenSkipped(c: Change) returns (history: seq<Tick>)
    requires Dispatchable(c)
    ensures Replay(history).Some?
    ensures var w := Replay(history).value; w.open && w.log == [c] && w.cursor == 1 && w.handled == []
  {
    ReplayNext([], Open);
    ReplayNext([] + [Open], Stop);
    ReplayNext([] + [Open] + [Stop], Append(c));
    ReplayNext([] + [Open] + [Stop] + [Append(c)], Open);
    history := [] + [Open] + [Stop] + [Append(c)] + [Open];
  }
}
