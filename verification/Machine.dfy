/**
 All the threads working on one job, its document, and the broker's messages
 for it.  Every collection call, publish, handler run and acknowledgement is
 one atomic step; any thread may take the next step.  Requests can be lost
 before or after taking effect, and a thread can vanish at any point.

 Threads are anonymous: the state holds the multiset of their positions.
 */
module Machine {
  import opened Options
  import opened Status
  import opened JobModel
  import opened Writes
  import opened Protocol

  /** Tallies no thread reads. */
  datatype History = History(
    claims: multiset<MsgId>,   // matched starts answered to the deliverer, by message
    started: nat,              // matched starts
    runs: multiset<MsgId>,     // handler invocations, by message
    terminalWrites: nat,       // matched completions and failures
    resets: nat,               // retry writes that took a job back to pending
    faults: nat,               // collection calls whose answer was lost
    errorReturns: nat,         // deliveries that ended in an error, hence a nack
    overwrites: nat)           // cancel writes that landed on a failed job

  datatype World = World(
    inserted: Job,             // the document as it was created
    doc: Job,
    threads: multiset<Pc>,
    sent: seq<nat>,            // by message id: how many resets had happened when it reached the broker
    unacked: set<MsgId>,
    h: History)

  datatype Action =
    | StreamInsert                                        // the change stream hands over the insert, once more
    | PollFetch                                           // a poll reads the job
    | Deliver(mid: MsgId, runnable: bool, message: string)
    | RequestFail(message: string)
    | RequestCancel(reason: string, now: Time)
    | RequestRetry
    | Send(t: Pc, net: Net, error: string)                // publish to the broker
    | Call(t: Pc, op: Op, net: Net)                       // a collection call
    | Run(t: Pc, ok: bool, error: string)                 // the handler
    | Ack(t: Pc, delivered: bool)
    | Nack(t: Pc)
    | Crash(t: Pc)

  /** FetchPending's filter. */
  predicate Eligible(j: Job, maxAttempts: int) {
    j.dispatchStatus.Pending? && j.dispatchAttempts < maxAttempts && j.topic != ""
  }

  predicate Enabled(max: int, s: World, a: Action) {
    match a
    case StreamInsert => true
    case PollFetch => Eligible(s.doc, max)
    case Deliver(mid, _, _) => mid in s.unacked
    case RequestFail(_) => true
    case RequestCancel(_, _) => true
    case RequestRetry => true
    case Send(t, _, _) => t in s.threads && t.Publish?
    case Call(t, op, _) => t in s.threads && Issues(t, op)
    case Run(t, _, _) => t in s.threads && t.RunHandler?
    case Ack(t, _) => t in s.threads && t.Acking?
    case Nack(t) => t in s.threads && t.Nacking?
    case Crash(t) => t in s.threads
  }

  function Spawn(s: World, t: Pc): World {
    s.(threads := s.threads + multiset{t})
  }

  function Move(s: World, t: Pc, u: Pc): World {
    s.(threads := s.threads - multiset{t} + multiset{u})
  }

  predicate Matches(op: Op, j: Job, net: Net) {
    !net.LostRequest? && Guard(op, j)
  }

  function Tally(h: History, t: Pc, u: Pc, op: Op, j: Job, net: Net): History {
    h.(claims := if u.RunHandler? then h.claims + multiset{u.mid} else h.claims,
       started := if op.MarkRunningIfDispatched? && Matches(op, j, net) then h.started + 1 else h.started,
       terminalWrites :=
         if (op.CompleteIfRunning? || op.FailIfNotTerminal?) && Matches(op, j, net) then h.terminalWrites + 1
         else h.terminalWrites,
       resets := if t.RetryReset? && Matches(op, j, net) then h.resets + 1 else h.resets,
       faults := if net.Fine? then h.faults else h.faults + 1,
       errorReturns := if u.Nacking? then h.errorReturns + 1 else h.errorReturns,
       overwrites :=
         if t.CancelWrite? && Matches(op, j, net) && j.executionStatus.Failed? then h.overwrites + 1
         else h.overwrites)
  }

  function CallStep(max: int, s: World, t: Pc, op: Op, net: Net): World
    requires t in s.threads && Issues(t, op)
  {
    var u := Resume(max, t, ReplyOver(op, s.doc, net));
    Move(s, t, u).(doc := Landed(op, s.doc, net), h := Tally(s.h, t, u, op, s.doc, net))
  }

  function SendStep(s: World, t: Pc, net: Net, error: string): World
    requires t in s.threads && t.Publish?
  {
    var mid := |s.sent|;
    var u := AfterPublish(t.job, if net.Fine? then Some(mid) else None, error);
    if net.LostRequest? then Move(s, t, u)
    else Move(s, t, u).(sent := s.sent + [s.h.resets], unacked := s.unacked + {mid})
  }

  function Step(max: int, s: World, a: Action): World
    requires Enabled(max, s, a)
  {
    match a
    case StreamInsert => Spawn(s, BeginDispatch(JobDispatchFromMetadata(s.inserted)))
    case PollFetch => Spawn(s, BeginDispatch(JobDispatchFromMetadata(s.doc)))
    case Deliver(mid, runnable, message) => Spawn(s, BeginDelivery(mid, runnable, message))
    case RequestFail(message) => Spawn(s, FailRead(Caller, message))
    case RequestCancel(reason, now) => Spawn(s, CancelRead(reason, now))
    case RequestRetry => Spawn(s, RetryRead)
    case Send(t, net, error) => SendStep(s, t, net, error)
    case Call(t, op, net) => CallStep(max, s, t, op, net)
    case Run(t, ok, error) =>
      Move(s, t, AfterHandler(t.mid, ok, error)).(h := s.h.(runs := s.h.runs + multiset{t.mid}))
    case Ack(t, delivered) =>
      Move(s, t, Done(Ok)).(unacked := if delivered then s.unacked - {t.mid} else s.unacked)
    case Nack(t) => Move(s, t, Done(StoreError))
    case Crash(t) => s.(threads := s.threads - multiset{t})
  }

  /** Whether `j` is a document CreateJob can persist. */
  predicate Creatable(j: Job) {
    && j.IsValid()
    && j.status.PendingDispatch? && j.dispatchStatus.Pending? && j.executionStatus.NotStarted?
    && j.errors == [] && j.retryCount == 0 && j.dispatchAttempts == 0
  }

  function Initial(j: Job): World {
    World(j, j, multiset{}, [], {}, History(multiset{}, 0, multiset{}, 0, 0, 0, 0, 0))
  }

  // ---- Runs ----

  /** A restriction on the steps a run may take. */
  type Regime = (World, Action) -> bool

  /** Anything goes. */
  const ANY_STEP: Regime := (s, a) => true

  /** A run that stays within the regime. */
  predicate Legal(max: int, s: World, run: seq<Action>, regime: Regime)
    decreases |run|
  {
    run != [] ==>
      Enabled(max, s, run[0]) && regime(s, run[0]) && Legal(max, Step(max, s, run[0]), run[1..], regime)
  }

  function Exec(max: int, s: World, run: seq<Action>, regime: Regime): World
    requires Legal(max, s, run, regime)
    decreases |run|
  {
    if run == [] then s else Exec(max, Step(max, s, run[0]), run[1..], regime)
  }
}
