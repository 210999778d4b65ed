# Job lifecycle: model and proofs

A Dafny 4.11 model of the job lifecycle protocol: one MongoDB document per job
with a dispatcher-owned and an executor-owned status, changed by racing
processes through conditional single-document writes, with an at-least-once
message broker between dispatcher and executor.

`dafny verify dfyconfig.toml` checks everything.

## How it is put together

**Documents and calls.** `Status`, `JobModel` and `Writes` hold the statuses and
their tables, the document with its validation rules, and every collection call
as an atomic operation `Op` with its guard, its effect (`After`) and its answer.
`Protocol` holds the program of every kind of thread: which call it makes at
each position (`Issues`) and where each answer takes it (`Resume`).

**Classes.** `Collection.JobsCollection` is the collection, updated in place;
`Service.MetadataService`, `Dispatcher.DispatchHandler`, `PendingFetcher` and
`DispatchWorker`, `Executor.ExecutorService` and `JobConsumer`,
`Broker.MessageBroker`, `Stream.StreamWatcher` and `FileResumeTokenStore`,
`Topics.FileTopicResolver` and `Enqueue.EnqueueService` follow the Go types.
Before each collection call any other client may have changed anything
(`OthersRun`), and a request may be lost before or after it takes effect. The
methods have two contracts. Under any interference and any loss, `Went` says
that the method's thread has moved through its program, by the events recorded,
to the position that goes with the result, and that the documents are still
those of runs of the machine. On a *quiet* collection (one client, nothing lost)
they leave exactly the documents stated, field by field. `Rules` says the tables
and the validation rules a second time, in another way.

**The machine.** `Machine` is the transition system of one job: document,
multiset of thread positions, unacknowledged messages, and tallies that no
thread reads. It uses the same `After`, `Issues` and `Resume`. `System` puts any
number of jobs side by side.

**The bridge.** `Weaving.Monitor` keeps, as ghost state, a log: every event of
the watched threads, and every set of documents the others have left in between.
A log is *explained* by lives of the jobs, that is by runs of the machine in which
the watched threads take exactly the logged steps and the others any steps at all
(`Explains`). The log says what was seen and nothing else, so whether it can be
explained (`Lawful`) is not up to the methods: it depends on what other clients
left behind, on the numbers the broker gave (`PublishedLawfulExactly`), and on
what was delivered. A method's own calls, handler runs, acknowledgements, polls
and creations never make a log inexplicable (`TakenStaysLawful`,
`BegunStaysLawful`, `BredStaysLawful`), and no run of the others does either
(`AnyRunIsLawful`, `AnyBirthIsLawful`). `InStep`, kept by every method, says that
the real documents are those that every explanation has led to. So for every
explanation, between any two moments each document has moved by a run
(`DocumentsMoveByRuns`), and the bounds proved of all runs hold at every moment of
every method (`JobsKeepTheirBudgets`).

**Main results.** In `Counting` (every run whatsoever: crashes, lost requests
and answers, overlapping cancels and retries): handler runs, terminal writes and
error entries are bounded by the retry count, the error history only grows,
dispatch attempts stay within the maximum. In `Care`: no job is left without
someone responsible for it, and exactly which steps leave one alone; `Ownership`
has the bookkeeping behind it. In `ErrorLaw`: the exact content of the error
history. In `Validity`: when a document is valid, exactly. In `Acks` and
`Settling`: messages handed back are bounded by failing calls and by retries met,
and all other finished deliveries are acknowledged. In `Display` and `Shuffle`:
which visible changes are edges, exactly, and how many there are;
non-interference. In `Polling`, `PollingTight` and `PollingTies`: the starvation
bound, that it is reached, and what it is when jobs of one instant come in any
order. In `StreamProtocol`: nothing is skipped and repeats are bounded. In `Topics`
and `Enqueue`: when every message is heard, exactly. `Counterexamples` has, for
every job, a run outside each regime the results are restricted to
(`RETRIES_APART`, atomic retries, `NO_RETRY`, `ORDERLY`, `NO_RESET`) and runs for
each way of leaving a job alone.

**What the model shows about the code.**

- A running job is left without anyone to finish it by exactly these, once its
  last owner is concerned (`Ownership.RunStrandedExactly`): the owner crashes; the
  answer to its start is lost; its completion request is lost (or, when there is a
  result to report, the read before it fails); or, after a handler error, FailJob's
  read fails or its write request is lost. One failing call is enough in each case,
  the message is then acknowledged or its redelivery is taken for a duplicate, and
  the job stays running for good (`Counterexamples.LostStartStrandsRunning`,
  `LostFailJobStrandsRunning`, `LostCompletionStrandsRunning`).
- A pending job with all attempts used is left out of every poll's reach by
  exactly these (`Ownership.ExhaustedStrandedExactly`): a crash before the failure
  is marked, a lost request to mark it, or a lost answer to the last record.
- A dispatched job that has not started is left without a message that will still
  be tried by exactly these (`Care.DispatchedStrandedExactly`): a confirm that lands
  when every message is spent already, as after a retry between the publish and
  its confirm (`RetryInTheWindowOrphans`); and the failure of its last message, one
  that cannot be run, not being recorded (`LostRejectionOrphans`). A reset between a
  publish and its confirm does no harm by itself (`ResetInTheWindowIsCaredFor`).
- A start between a retry's reset and its clear loses its start time to the
  clear: with every retry finished, the running job fails validation
  (`StartInsideRetryInvalidates`). In any run the document is valid whenever no
  reset is waiting for its clear, exactly when no clear lands on a job that has
  started again (`Validity.ValidWhenClearedExactly`). A retry whose clear is lost
  leaves the pending job invalid for good (`LostClearInvalidates`).
- A cancel can overwrite a failure it raced with; the count of execution errors
  is then off by exactly one (`ErrorLaw.ExactErrorHistory`). Two overlapping retries
  of one failure raise the retry count twice (`OverlappingRetriesMiscount`), and the
  second can take a dispatched or running job back to pending: with late cancels,
  those are all the visible changes outside the edges (`Display.StepTakesEdgeExactly`).
- Jobs created at the same instant may come in another order at each poll. One of
  them can then need more polls than its place in any fixed order allows
  (`PollingTies.TiesCanCostAPoll`).
- Two manifest keys that trim to one name are accepted, and each process keeps
  the topic of whichever it happens to read last. Jobs can then be published where
  the executor does not listen (`Topics.CollidingManifestLosesJobs`). Every message
  is heard, for all orders of reading, exactly when each topic also has an entry
  whose name carries no other topic (`Topics.HeardExactlyWhenCovering`); a colliding
  name alone is not enough to lose one (`Topics.AmbiguousYetCovering`).
- The comments on `MarkRunningIfDispatched` in the writer interface speak of
  dispatched jobs, and job-saga.md says `retryAttempt` is the retry count for
  every entry; the code does not look at the dispatch status, and files dispatch
  errors under attempt 0. The model follows the code.

Integers are unbounded here. Clock readings are parameters. The broker numbers
the messages of each job.

## Model

| member | source | states |
|---|---|---|
| `Writes.GuardedWritesFollowTables` | internal/jobs/mongodb/mongo_writer.go:172-322 | the six conditional writes move each status only along its transition table, never both, and change nothing when they do not match |
| `Collection.JobsCollection.Create` | internal/jobs/mongodb/mongo_writer.go:21-32 | inserts a new id, refuses a known one, and says which |
| `Collection.JobsCollection.Update` | internal/jobs/mongodb/mongo_writer.go:34-55 | sets exactly the fields of the patch in one step; refuses an empty patch; reports a missing job |
| `Collection.JobsCollection.IncrementRetryCount` | internal/jobs/mongodb/mongo_writer.go:73-90 | one atomic increment, unconditional |
| `Collection.JobsCollection.ClearJobExecutionTimestamps` | internal/jobs/mongodb/mongo_writer.go:92-112 | removes both execution timestamps, unconditionally |
| `Collection.JobsCollection.MarkDispatchedIfPending` | internal/jobs/mongodb/mongo_writer.go:172-191 | pending to dispatched with its time, and nothing otherwise; tells whether it matched |
| `Collection.JobsCollection.RecordDispatchAttemptIfPending` | internal/jobs/mongodb/mongo_writer.go:193-210 | overwrites attempts and last error only while pending |
| `Collection.JobsCollection.MarkDispatchFailedIfPending` | internal/jobs/mongodb/mongo_writer.go:212-242 | pending to dispatch_failed with one dispatch error filed under attempt 0 |
| `Collection.JobsCollection.MarkRunningIfDispatched` | internal/jobs/mongodb/mongo_writer.go:244-264 | claims a job that has not started, whatever its dispatch status |
| `Collection.JobsCollection.CompleteIfRunning` | internal/jobs/mongodb/mongo_writer.go:266-287 | completes a running job only, replacing the metadata only when given |
| `Collection.JobsCollection.FailIfNotTerminal` | internal/jobs/mongodb/mongo_writer.go:289-322 | fails a running or not started job, appends the entry, keeps an existing start time |
| `Collection.JobsCollection.Get` | internal/jobs/mongodb/mongo_reader.go:25-39 | the document as it is at that moment, or not found |
| `Collection.JobsCollection.OthersRun` | internal/jobs/mongodb/mongo_writer.go:172-322 | any other client may have changed anything; what they left is logged, and lawful exactly when steps of the machine lead there |
| `Collection.CallsLandAsInTheMachine` | internal/jobs/mongodb/mongo_writer.go:172-322 | each collection call takes effect and answers as the machine's call does under some fate of the request |
| `Service.MetadataService.CreateJob` | internal/jobs/service/metadata_service.go:30-66 | the created document, every field of it, in terms of the request; refused exactly for the requests listed, with the first rule broken, storing nothing |
| `Service.NewJobExactly` | internal/jobs/metadata/model.go:75-105 | a new document field by field, and which request is refused for which reason |
| `Service.MetadataService.MarkJobDispatched` | internal/jobs/service/metadata_service.go:86-101 | a confirm under any interference, an unmatched one being a success; alone, exactly the two statuses and the time of a pending job |
| `Service.MetadataService.RecordDispatchAttempt` | internal/jobs/service/metadata_service.go:103-113 | a record under any interference; alone, exactly the attempts and the last error of a pending job |
| `Service.MetadataService.MarkJobDispatchFailed` | internal/jobs/service/metadata_service.go:115-129 | giving up under any interference; alone, exactly the two statuses and one dispatch entry of a pending job |
| `Service.MetadataService.StartJob` | internal/jobs/service/metadata_service.go:131-166 | the claim: matched exactly when the job had not started; alone, exactly the two statuses and the start time; a lost call is an error |
| `Service.MetadataService.CompleteJob` | internal/jobs/service/metadata_service.go:168-227 | with a result, reads the metadata first; alone, a running job gets exactly the completed statuses, its time and the metadata with the result; otherwise tells a terminal job from an unexpected one |
| `Service.MetadataService.FailJob` | internal/jobs/service/metadata_service.go:229-275 | read, compare-and-set with the retry count that was read, reread on a miss; alone, exactly the failed statuses, the completion time, the entry, and a start time that is kept if there |
| `Service.MetadataService.CancelJob` | internal/jobs/service/metadata_service.go:277-344 | refuses what it reads as terminal, otherwise writes back blindly what it read; alone, exactly the cancelled statuses, times kept if there, metadata kept with the reason set if given |
| `Service.MetadataService.RetryJob` | internal/jobs/service/metadata_service.go:346-401 | only what is read as failed; increment, reset and clear in that order, stopping at the first failing call; alone, exactly those fields |
| `Service.ConfirmLeaves` | internal/jobs/mongodb/mongo_writer.go:172-191 | field by field what a confirm leaves, and that it leaves any other job alone |
| `Service.RecordLeaves` | internal/jobs/mongodb/mongo_writer.go:193-210 | the same for a record |
| `Service.GivingUpLeaves` | internal/jobs/mongodb/mongo_writer.go:212-242 | the same for giving up |
| `Service.StartLeaves` | internal/jobs/mongodb/mongo_writer.go:244-264 | the same for a claim |
| `Service.CompletionLeaves` | internal/jobs/mongodb/mongo_writer.go:266-287 | the same for a completion: the given metadata, or the old ones |
| `Service.FailureLeaves` | internal/jobs/mongodb/mongo_writer.go:289-322 | the same for a failure: a start time that is there is kept |
| `Service.CancellationLeaves` | internal/jobs/service/metadata_service.go:294-326 | the same for a cancellation, of what was read |
| `Service.RetryLeaves` | internal/jobs/service/metadata_service.go:363-381 | the same for an undisturbed retry |
| `Dispatcher.DispatchHandler.HandleDispatch` | internal/jobs/dispatch/handler.go:25-46 | publish then confirm, or record and, at the maximum, give up; refuses a projection without a topic before publishing; alone, every field left; what is sent goes to the projection's topic with its id, name and payload |
| `Dispatcher.DispatchLeaves` | internal/jobs/dispatch/handler.go:25-46 | field by field what an undisturbed dispatch leaves |
| `Dispatcher.HandledExactly` | internal/jobs/dispatch/handler.go:33-45 | field by field what a poll makes of a member of its batch |
| `Dispatcher.BatchPicks` | internal/jobs/mongodb/pending.go:27-63 | a batch lists, in creation order and up to the limit, the pending jobs with a topic and attempts left, and leaves one out only for jobs before it |
| `Dispatcher.PendingFetcher.FetchPending` | internal/jobs/mongodb/pending.go:27-63 | pending documents with a topic and attempts left only, each with its own id, name, topic, payload and attempts; with the index in step, the oldest in creation order up to the limit: such a document is missing only when the limit is used up by documents before it |
| `Dispatcher.DispatchWorker.PollOnce` | internal/jobs/dispatch/worker.go:70-81 | every job fetched is dispatched in turn, failures included, and only messages of those jobs are sent; on a quiet collection the batch is the oldest eligible jobs, each gets one attempt, and no other job changes |
| `Dispatcher.InTurnGoesOn` | internal/jobs/dispatch/worker.go:76-80 | however a batch goes, every job's life goes on from where it was |
| `Dispatcher.DispatchWorker.RunPoll` | internal/jobs/dispatch/worker.go:54-68 | one poll at once and one a tick; with nobody else polling or retrying, and jobs created, executed and cancelled in between, a job with r eligible jobs ahead is through after as many polls as the bound says |
| `Broker.MessageBroker.Publish` | internal/jobs/pulsar/dispatch_publisher.go:22-29 | what is stored is one new message, to the job's topic, an envelope with the job's id, name and payload; a failed publish may have stored it too; a bad envelope is never sent; the log stays lawful exactly when the broker gave the job's next number |
| `Broker.ValidEnvelopeExactly` | internal/jobs/pulsar/message.go:37-45 | an envelope is valid exactly when id and name are more than white space |
| `Executor.ExecutorService.ValidateArgs` | internal/jobs/executor/service.go:102-114 | which argument is objected to, and that nothing else is |
| `Executor.ExecutorService.ExecuteJob` | internal/jobs/executor/service.go:28-100 | alone: the handler runs exactly for a job that has not started and a message with id, name, registered handler and a payload that decodes; every field left in each case, and which text is filed for which defect; hands the message back only on a failing call |
| `Executor.ObjectionExactly` | internal/jobs/executor/service.go:28-57 | what stops a message, and with which text, in order |
| `Executor.JobConsumer.HandleMessage` | internal/jobs/pulsar/consumer.go:128-168 | skips what is no valid envelope; hands a message back exactly when one of its own calls went wrong, acknowledges it otherwise; settles its own message, once, and no other; alone, leaves the job as its delivery calls for |
| `Executor.OwnMessageIsRunnable` | internal/jobs/pulsar/consumer.go:128-168 | a delivery of a job's own message is about that job, and runnable exactly when its name has a handler |
| `Executor.JobConsumer.ConsumeLoop` | internal/jobs/pulsar/consumer.go:97-126 | every receipt is settled once and in its turn, no other message leaves or is handed back; failed receives change nothing |
| `Weaving.AcceptedEventIsAStep` | internal/jobs/service/metadata_service.go:86-401 | an event the programs allow is a step of the machine with the same effect |
| `Weaving.TakenStaysTold` | internal/jobs/service/metadata_service.go:86-401 | after any event of a method, whatever explains the log has led to the documents the event left, with the method's thread at its new position |
| `Weaving.TakenStaysLawful` | internal/jobs/service/metadata_service.go:86-401 | an event the documents account for never makes a log inexplicable |
| `Weaving.PublishedLawfulExactly` | internal/jobs/pulsar/dispatch_publisher.go:22-29 | a confirmed publish is explicable exactly when the broker gave the job's next number |
| `Weaving.Monitor.Take` | internal/jobs/service/metadata_service.go:86-401 | a method's event is logged with the same effect on the documents as the machine's step |
| `Weaving.Monitor.Witness` | internal/jobs/mongodb/mongo_writer.go:172-322 | exactly the documents the others left are logged, whatever they are |
| `Weaving.AnyRunIsLawful` | internal/jobs/mongodb/mongo_writer.go:172-322 | whatever run the others make of a job's machine, leaving the watched threads in place, is lawful |
| `Weaving.AnyBirthIsLawful` | internal/jobs/service/metadata_service.go:30-66 | so is a job the others create under a new id |
| `Weaving.DocumentsMoveByRuns` | internal/jobs/executor/service.go:28-100 | for every explanation, between any two moments a job's document has moved by a run of the machine |
| `Weaving.JobsKeepTheirBudgets` | internal/jobs/service/metadata_service.go:86-401 | for every explanation, the bounds proved of all runs hold of the documents at every moment of every method |
| `Counting.HandlerRunsBounded` | internal/jobs/executor/service.go:59-73 | in every run, handler invocations never exceed 1 + retryCount |
| `Counting.OneTerminalWritePerAttempt` | internal/jobs/mongodb/mongo_writer.go:266-322 | in every run, matched completions and failures never exceed 1 + retryCount, and less while the job is open |
| `Counting.TerminalChangesOnlyBy` | internal/jobs/service/metadata_service.go:277-376 | a terminal execution status changes only under a cancel that read an earlier state, or a retry's reset |
| `Counting.ErrorHistoryBounded` | internal/jobs/mongodb/mongo_writer.go:212-322 | in every run, at most 2 * (1 + retryCount) entries, none filed under a later attempt |
| `Counting.ErrorHistoryOnlyGrows` | internal/jobs/mongodb/mongo_writer.go:212-322 | along every run the earlier history is a prefix of the later one |
| `Counting.DispatchAttemptsBounded` | internal/jobs/dispatch/handler.go:38-44 | in every run, 0 <= dispatchAttempts <= MaxAttempts, however stale the projections |
| `Counting.DispatchedOnlyAfterPublish` | internal/jobs/dispatch/handler.go:33-36 | in every run, a dispatched job has had a message reach the broker |
| `Counting.CallPays` | internal/jobs/mongodb/mongo_writer.go:172-322 | every claim, terminal write, dispatch failure and reset is paid for by the state it consumes or by a retry's increment |
| `Counting.CallAppends` | internal/jobs/mongodb/mongo_writer.go:212-322 | a call appends to the errors exactly the entry of a matched failure write |
| `Counting.DocStaysSane` | internal/jobs/mongodb/mongo_writer.go:34-322 | no call makes a status invalid, loses the topic, lowers the retry count or misfiles an error |
| `Counting.StepKeepsInv` | internal/jobs/service/metadata_service.go:86-401 | the counting invariant is inductive over every step |
| `Care.NoOrphanedJob` | internal/jobs/dispatch/handler.go:28-46 | whatever else crashes, fails or interferes, as long as no step leaves the job alone: pending is eligible or being given up on, dispatched has an unspent message, running has its claimant |
| `Care.CaredExactly` | internal/jobs/dispatch/handler.go:28-46 | in any run at all, all three hold at every moment if and only if no step leaves the job alone |
| `Care.CareLostExactly` | internal/jobs/dispatch/handler.go:28-46 | step by step: which steps leave a job alone, and that no other does |
| `Care.DispatchedStrandedExactly` | internal/jobs/pulsar/consumer.go:156-167 | a dispatched job loses its last message by exactly two: a confirm when all are spent, and giving up unheard on the last |
| `Care.ReliableRunsCare` | internal/jobs/dispatch/handler.go:28-46 | without crashes, failing collection calls and resets during a confirm every job is cared for throughout |
| `Care.KeepingOnIsCaring` | internal/jobs/dispatch/handler.go:28-46 | keeping to the bookkeeping is enough |
| `Ownership.RunStrandedExactly` | internal/jobs/executor/service.go:59-99 | a running job loses its last owner by exactly the steps named, and by no other |
| `Ownership.ExhaustedStrandedExactly` | internal/jobs/dispatch/handler.go:38-44 | a job out of attempts loses the thread that will give up on it by exactly the steps named |
| `Ownership.MessagesLostExactly` | internal/jobs/pulsar/consumer.go:156-167 | the bookkeeping of which messages are of the current attempt is broken by exactly the steps named, which need not leave the job without a message |
| `Ownership.OwnedExactly` | internal/jobs/dispatch/handler.go:28-46 | along any run the bookkeeping holds throughout if and only if no step breaks it |
| `Care.RunningIsOwned` | internal/jobs/executor/service.go:59-99 | a running job has its owner, whatever happens to dispatches, polls, operators and retries |
| `Ownership.ReliableNeverLetsGo` | internal/jobs/dispatch/handler.go:28-46 | without crashes, failing collection calls and resets during a confirm no step breaks the bookkeeping |
| `Ownership.PassingTheGate` | internal/jobs/executor/service.go:59-73 | whoever gets past the claim leaves the job started, or is giving up on a message unheard |
| `Ownership.OwnersPersist` | internal/jobs/executor/service.go:72-99 | under any loss: a run begins with an owner, who lets go only by ending it or by the calls named |
| `Ownership.LettingGo` | internal/jobs/executor/service.go:72-99 | after each of those calls the job is running and its thread no owner |
| `Ownership.ExhaustionLeadsOn` | internal/jobs/dispatch/handler.go:38-44 | recording the last attempt leads straight to giving up, unless its answer is lost |
| `Ownership.StepKeepsGate` | internal/jobs/pulsar/consumer.go:156-167 | no message of the current attempt is used up while the job has not started, except by a rejection that is not recorded |
| `Ownership.StepKeepsConfirms` | internal/jobs/dispatch/handler.go:33-36 | a confirm under way belongs to a message of the current attempt, unless a reset lands during it |
| `AtomicRetry.RetryIsLegal` | internal/jobs/service/metadata_service.go:346-401 | the six steps of a retry can follow each other on a failed job, and their joint effect |
| `AtomicRetry.MacroRunsAreRuns` | internal/jobs/service/metadata_service.go:346-401 | runs with atomic retries are runs of the machine |
| `ErrorLaw.ExactErrorHistory` | internal/jobs/service/metadata_service.go:229-275 | one execution entry per retry plus one while failed, filed under 0, 1, 2, ...; off, by one, exactly when a cancel overwrote a failure |
| `ErrorLaw.RetryKeepsLaw` | internal/jobs/service/metadata_service.go:346-381 | a retry with no failure in flight keeps the count and the numbering |
| `Rules.ValidatesExactly` | internal/jobs/metadata/model.go:122-201 | validation names the first rule broken, each rule said on its own, and passes a document that breaks none |
| `Rules.DisplayedExactly` | internal/jobs/metadata/interface.go:237-259 | which displayed status goes with which pair |
| `Rules.JobTableExactly` | internal/jobs/metadata/interface.go:185-221 | the table of the displayed status, as a set of pairs |
| `Rules.DispatchTableExactly` | internal/jobs/metadata/interface.go:73-87 | the dispatcher's table, as a set of pairs |
| `Rules.ExecutionTableExactly` | internal/jobs/metadata/interface.go:114-134 | the executor's table, as a set of pairs |
| `Rules.TerminalExactly` | internal/jobs/metadata/interface.go:170-172 | terminal statuses are those with no way out but a retry |
| `Validity.StoredJobsStayValid` | internal/jobs/metadata/model.go:122-201 | the stored document passes validation after every step of every interleaving with atomic retries |
| `Validity.ValidExactly` | internal/jobs/metadata/model.go:122-201 | in any run at all: valid throughout if and only if no reset finds a timestamp and no clear finds the job started again |
| `Validity.ValidWhenClearedExactly` | internal/jobs/service/metadata_service.go:363-381 | in any run at all: valid whenever no reset is waiting for its clear, if and only if no clear lands on a job that has started again |
| `Validity.ValidExactlyByTimes` | internal/jobs/metadata/model.go:122-201 | in any run at all the document is valid exactly when its timestamps fit its execution status |
| `Validity.ValidityLostExactly` | internal/jobs/service/metadata_service.go:363-381 | call by call: which calls of a retry break a valid document with a topic, and that no other call does |
| `Validity.CallKeepsStrong` | internal/jobs/metadata/model.go:122-201 | every call of a thread outside a retry keeps a valid document with a topic valid |
| `Validity.RetryIsInvalidMidway` | internal/jobs/service/metadata_service.go:363-381 | between reset and clear exactly the timestamp rule is broken, and the clear repairs it |
| `Validity.RetryNeedsTopic` | internal/jobs/metadata/model.go:170-172 | a valid failed job is valid after a retry exactly when it has a topic |
| `Acks.NacksBoundedByFaults` | internal/jobs/executor/service.go:59-99 | without retries, deliveries that end in an error never outnumber failing collection calls |
| `Acks.CallTeaches` | internal/jobs/service/metadata_service.go:209-226 | without retries a missed completion finds the job terminal, so only a lost answer leads to a nack |
| `Acks.ThreadsProgress` | internal/jobs/executor/service.go:28-100 | every step leaves its thread fewer steps to take |
| `Acks.ThreadsNeverStuck` | internal/jobs/executor/service.go:28-100 | a thread has a next step exactly until it is done |
| `Acks.DeliveryStaysOnTrack` | internal/jobs/pulsar/consumer.go:156-167 | a delivery whose calls are answered keeps heading for the acknowledgement of its own message |
| `Acks.DeliverySettlesOnce` | internal/jobs/pulsar/consumer.go:156-167 | any execution of a delivery's program ends with one acknowledgement or one handing back of its own message, and has none before |
| `Acks.HandedBackExactly` | internal/jobs/executor/service.go:59-99 | a delivery ends in an error exactly when its claim or its completion was not answered, or a missed completion's reread did not find a terminal job |
| `Acks.HandlerOnlyAfterClaim` | internal/jobs/executor/service.go:59-73 | a handler runs only right after a claim that matched |
| `Settling.DeliveriesBalance` | internal/jobs/pulsar/consumer.go:128-168 | every delivery of a message is in flight, acknowledged, handed back or cut off by a crash |
| `Settling.ErrorReturnsAreNacks` | internal/jobs/pulsar/consumer.go:156-167 | the deliveries that ended in an error are those handed back, about to be, or cut off |
| `Settling.AnsweredNackExactly` | internal/jobs/service/metadata_service.go:209-226 | an answered call ends a delivery in an error exactly when a missed completion rereads a job that is not terminal |
| `Settling.HandBacksBounded` | internal/jobs/executor/service.go:59-99 | in any run, messages are handed back at most once for each failing call and each such reread |
| `Settling.HandBacksBoundedByFaults` | internal/jobs/executor/service.go:59-99 | without retries, no more often than collection calls fail |
| `Settling.DeliveriesAreAcked` | internal/jobs/pulsar/consumer.go:156-167 | in any run, all deliveries of a message are acknowledged but those in flight, those cut off, and one for each failing call and each such reread |
| `Settling.EnoughDeliveriesMeanAnAck` | internal/jobs/pulsar/consumer.go:156-167 | without retries, one more finished delivery than failing calls means an acknowledgement of that message |
| `Display.StepTakesEdgeExactly` | internal/jobs/metadata/interface.go:184-221 | every visible change is an edge of the table or one of five overtakings, if and only if it is neither a late cancel nor a second reset |
| `Display.StepClimbsExactly` | internal/jobs/metadata/interface.go:235-259 | every visible change goes up in rank, if and only if it is neither a late cancel nor a reset |
| `Display.VisibleChangesBounded` | internal/jobs/metadata/interface.go:235-259 | in any run at most three visible changes, less the rank of the start, plus four a reset and one a late cancel |
| `Display.AtMostThreeVisibleChanges` | internal/jobs/metadata/interface.go:235-259 | between resets, without late cancels, at most three visible changes, fewer from a later state |
| `Display.EveryEdgeIsTaken` | internal/jobs/mongodb/mongo_writer.go:172-322 | each of those edges is taken by some write from every document there |
| `Display.FirstConfirmStands` | internal/jobs/mongodb/mongo_writer.go:172-191 | within an attempt no later dispatch changes what the first confirm recorded |
| `Shuffle.SidesDoNotInterfere` | internal/jobs/mongodb/mongo_writer.go:172-322 | for every shuffle, each side's fields, errors and flags are those of its own sequence alone |
| `Shuffle.DispatchersUndisturbed` | internal/jobs/mongodb/mongo_writer.go:172-242 | the dispatcher's half, from any two documents that agree on its fields |
| `Shuffle.ExecutorsUndisturbed` | internal/jobs/mongodb/mongo_writer.go:244-322 | the executor's half, cancellations with their earlier reads included |
| `Shuffle.StoredStatusIsContested` | internal/jobs/mongodb/mongo_writer.go:180-184 | the stored status depends on the order of confirm and start; the displayed one does not |
| `Counterexamples.RetryInTheWindowOrphans` | internal/jobs/dispatch/handler.go:33-36 | for every job a run with a retry between publish and confirm that orphans it |
| `Counterexamples.CrashStrandsPending` | internal/jobs/dispatch/handler.go:38-44 | for every job and every maximum a run of failing dispatches with a crash after the last record that leaves it pending and out of every poll's reach |
| `Counterexamples.LostStartStrandsRunning` | internal/jobs/executor/service.go:59-70 | for every job a run with one lost answer that leaves it running with no handler run, no owner and no message |
| `Counterexamples.LostFailJobStrandsRunning` | internal/jobs/executor/service.go:75-85 | for every job a run in which a handler error is acknowledged with the job left running |
| `Counterexamples.LostCompletionStrandsRunning` | internal/jobs/executor/service.go:88-96 | for every job a run in which one lost completion request leaves it running and without a message |
| `Counterexamples.LostRejectionOrphans` | internal/jobs/executor/service.go:31-56 | for every job a run in which the failure of an unrunnable message is lost and it is left dispatched without a message |
| `Counterexamples.RetryCausesNack` | internal/jobs/service/metadata_service.go:209-226 | for every job a run with a retry in which a delivery is handed back although no call failed |
| `Counterexamples.OverlappingRetriesMiscount` | internal/jobs/service/metadata_service.go:346-367 | for every job a run in which two retries of one failure raise the retry count twice |
| `Counterexamples.StartInsideRetryInvalidates` | internal/jobs/service/metadata_service.go:363-381 | for every job a run that leaves it running without a start time with every retry finished |
| `Counterexamples.LostClearInvalidates` | internal/jobs/service/metadata_service.go:376-381 | for every job a run that leaves it pending and invalid with every retry finished |
| `Counterexamples.ResetInTheWindowIsCaredFor` | internal/jobs/dispatch/handler.go:33-36 | for every job a run to a reset between publish and confirm that breaks the bookkeeping and leaves the job cared for |
| `Counterexamples.LateCancelIsNoEdge` | internal/jobs/metadata/interface.go:184-221 | for every job a run to a state in which a late cancel makes a visible change outside all edges |
| `Counterexamples.ResetStartsOver` | internal/jobs/service/metadata_service.go:363-376 | for every job a run to a state in which a reset lowers the rank and undoes the first confirm |
| `Counterexamples.RetryDuringFailureMisfiles` | internal/jobs/service/metadata_service.go:240-250 | for every job a run in which the second failure is filed under the first attempt |
| `Counterexamples.LateCancelOverwritesFailure` | internal/jobs/service/metadata_service.go:279-327 | for every job a run in which a cancel overwrites a failure |
| `System.EveryJobKeepsItsBudgets` | internal/jobs/service/metadata_service.go:30-66 | the bounds hold for every job in every state the whole system reaches |
| `System.EachJobRuns` | internal/jobs/mongodb/mongo_writer.go:34-55 | whatever happens to the other jobs, a job has done a run of its own machine |
| `Polling.StarvationFree` | internal/jobs/dispatch/worker.go:70-81 | with one order among the jobs, a job with r eligible jobs ahead has left pending after (r / BatchSize + 1) * MaxAttempts polls |
| `PollingTies.StarvationFreeWithTies` | internal/jobs/mongodb/pending.go:33-37 | in any order of jobs of one instant, changing from poll to poll: a job with r eligible jobs created no later has left pending after MaxAttempts + r * MaxAttempts / BatchSize polls |
| `PollingTies.RoundSpends` | internal/jobs/mongodb/pending.go:33-37 | a poll has the job in its batch, or spends an attempt of a whole batch of its rivals |
| `PollingTies.TiesCanCostAPoll` | internal/jobs/mongodb/pending.go:33-37 | four jobs of one instant, one of which is still pending after the polls a fixed order needs |
| `Polling.BatchSize` | internal/jobs/mongodb/pending.go:34-37 | a batch is as large as the eligible jobs and the limit allow |
| `Polling.BatchMember` | internal/jobs/mongodb/pending.go:28-37 | the k-th member of the batch is the job with k eligible jobs ahead of it |
| `Polling.RoundEffect` | internal/jobs/dispatch/handler.go:33-45 | a poll never makes a job eligible, and costs a batch member an attempt or its eligibility |
| `Polling.WindowClears` | internal/jobs/mongodb/pending.go:28-37 | a job within the batch limit stays there and is through when its attempts are used up |
| `Polling.BatchGone` | internal/jobs/dispatch/worker.go:70-81 | after MaxAttempts polls a whole batch is gone from in front of every job |
| `PollingTight.BoundIsReached` | internal/jobs/dispatch/worker.go:70-81 | for any sequence of newly created jobs with ids of their own, as a collection shows them: with the broker down, one poll less than the bound leaves the last one pending |
| `StreamProtocol.NoInsertSkipped` | internal/jobs/mongodb/stream.go:58-92 | once a token is saved, every readable insert of a pending job with a topic up to it, and up to the cursor of an open stream, has been handed over |
| `StreamProtocol.InsertBeforeFirstTokenSkipped` | internal/jobs/mongodb/stream.go:60-66 | without a saved token an insert between two streams is skipped |
| `StreamProtocol.HandlerCallsBounded` | internal/jobs/mongodb/stream.go:43-92 | handler calls are for readable inserts of pending jobs with a topic only, and never exceed those plus reopenings plus failed saves |
| `StreamProtocol.TickPays` | internal/jobs/mongodb/stream.go:78-87 | each hand-over is paid for by a change, a reopening or a failed save |
| `Stream.FileResumeTokenStore.Save` | internal/jobs/mongodb/resume_token.go:47-67 | the new token or, on any failure, the old one |
| `Stream.FileResumeTokenStore.Load` | internal/jobs/mongodb/resume_token.go:28-45 | the saved token, none, or a failure |
| `Stream.StreamWatcher.HandlePendingDispatchInsert` | internal/jobs/mongodb/stream.go:104-109 | refuses a change without a topic, dispatches any other |
| `Stream.StreamWatcher.HandleEvent` | internal/jobs/mongodb/stream.go:78-87 | dispatches the very document of the change the stream yields, or passes over one that does not decode or has no topic; then tries to save the token behind it |
| `Stream.StreamWatcher.constructor` | internal/jobs/mongodb/stream.go:31-41 | a watcher may start over any log and any saved token that earlier processes have left |
| `Stream.StreamWatcher.RunOnce` | internal/jobs/mongodb/stream.go:58-92 | one stream is a piece of a history of the protocol; one that opens and lasts hands over everything dispatchable that was there behind the token |
| `Stream.StreamWatcher.Run` | internal/jobs/mongodb/stream.go:43-56 | over any number of streams, of this process and earlier ones, nothing behind the token was skipped and calls are bounded |
| `Queries.DisplayInvertsLookup` | internal/jobs/mongodb/mongo_queries.go:8-28 | displaying the pair a status is looked up by gives the status back |
| `Queries.StatusFilterExact` | internal/jobs/mongodb/mongo_queries.go:70-91 | a job is found exactly when its display status is listed and its pair is the canonical one |
| `Queries.Pairs` | internal/jobs/mongodb/mongo_queries.go:70-91 | no pair twice, and exactly the pairs of the valid statuses |
| `Queries.PairsInFirstOccurrenceOrder` | internal/jobs/mongodb/mongo_queries.go:70-91 | of two pairs the earlier one has a status before every status of the later one |
| `Queries.BuildStatusOrQuery` | internal/jobs/mongodb/mongo_queries.go:70-91 | the loop with its seen-set yields those pairs, in that order |
| `Queries.BuildListQuery` | internal/jobs/mongodb/mongo_queries.go:30-68 | the query selects exactly the jobs the filter asks for |
| `Queries.CountJobs` | internal/jobs/mongodb/mongo_reader.go:95-103 | counts the jobs the filter asks for |
| `Queries.TalliesPartition` | internal/jobs/service/metadata_service.go:417-460 | the seven counts are of disjoint jobs and add up to the canonical ones |
| `Queries.GetJobStats` | internal/jobs/service/metadata_service.go:416-460 | every counter, and a total equal to the number of canonical jobs |
| `Queries.NonCanonicalIsUncounted` | internal/jobs/mongodb/mongo_queries.go:8-28 | a job whose execution overtook its dispatch is in none of the seven counts |
| `Topics.NewFileTopicResolver` | internal/jobs/pulsar/topic_resolver.go:34-64 | accepted exactly when no key, topic or domain is blank, and otherwise why; the map is what some order of reading makes of the manifest |
| `Topics.FileTopicResolver.Resolve` | internal/jobs/pulsar/topic_resolver.go:66-77 | the topic of the name that is left when white space around it is taken away, if there is one |
| `Topics.WrittenIsLoaded` | internal/jobs/pulsar/topic_resolver.go:48-62 | a name written without outer white space, and once, stands for the topic written beside it |
| `Topics.ObjectionExactly` | internal/jobs/pulsar/topic_resolver.go:48-60 | what is wrong with an entry, in order |
| `Text.TrimmingExactly` | internal/jobs/pulsar/topic_resolver.go:49-50 | trimming leaves exactly the text without outer white space that was padded with it |
| `Text.BlankIsOnlySpace` | internal/jobs/pulsar/message.go:37-45 | blank is nothing but white space |
| `Topics.FileTopicResolver.UniqueTopics` | internal/jobs/pulsar/topic_resolver.go:79-93 | each topic once, and exactly the topics of the map |
| `Topics.ReadDraws` | internal/jobs/pulsar/topic_resolver.go:48-62 | the names are the trimmed keys, and each stands for the topic of one of its entries |
| `Topics.LoadsAgree` | internal/jobs/pulsar/topic_resolver.go:48-62 | all processes resolve every name alike if and only if no name is bound to two topics |
| `Topics.HeardExactlyWhenCovering` | internal/jobs/pulsar/topic_resolver.go:79-93 | the executor subscribes to every topic jobs are published to, for all orders of reading, if and only if every topic has a settled entry |
| `Topics.UnambiguousCovers` | internal/jobs/pulsar/topic_resolver.go:48-62 | unambiguous names are enough for that |
| `Topics.CollidingManifestLosesJobs` | internal/jobs/pulsar/topic_resolver.go:48-62 | an accepted manifest and two loads of it under which a topic is published to and not subscribed to |
| `Topics.AmbiguousYetCovering` | internal/jobs/pulsar/topic_resolver.go:48-62 | a manifest with an ambiguous name whose topics are all subscribed to regardless |
| `Enqueue.EnqueueService.Enqueue` | internal/jobs/service/enqueue_service.go:26-38 | an unknown name leaves no trace; an accepted job is stored with its resolved topic and, field by field, what was asked for |
| `Enqueue.TopicForGood` | internal/jobs/dispatch/types.go:47-60 | in every later state the job and every projection of it have the id, name, topic and payload it was accepted with |
| `Enqueue.MessagesAreHeard` | internal/jobs/pulsar/topic_resolver.go:79-93 | two processes, two loads of one manifest with settled topics: in every later state whatever waits to be published is the job's own and goes to a topic the executor subscribes to |
| `Enqueue.StoredMessageIsHeard` | internal/jobs/pulsar/dispatch_publisher.go:22-29 | the message a publish stores goes to a subscribed topic and carries the id, name and payload of the job as it was created |
| `Enqueue.PublishIsOwn` | internal/jobs/dispatch/types.go:47-60 | whatever explains a publish, it is of the job as it was created |
| `Enqueue.MessagesAreLost` | internal/jobs/pulsar/topic_resolver.go:48-62 | otherwise two loads under which nothing published for some accepted name is ever heard |
| `Enqueue.SubscribedIsReachable` | internal/jobs/pulsar/topic_resolver.go:79-93 | the executor subscribes to no topic that no name resolves to |

## Left out

- Job logs: a failure to write one is ignored by the code and no status depends on them; reads whose only use is a log line are no steps of the programs.
- MongoDB driver, BSON encoding, index checks and connection handling: each collection call is one atomic step, and the collection's creation-time index breaks ties by insertion (ties in any order are the subject of PollingTies).
- Pulsar client, producer cache, per-topic consumers and shutdown: the broker is a set of unacknowledged messages, any of which may be delivered at any time.
- Deleting jobs, bulk inserts and seeding: nothing in the running services calls them.
- In-memory status setters, tags, durations and JSON output of the model: off the running protocol.
- HTTP handlers, command line, environment loading and migrations: from the configuration only BatchSize and MaxAttempts of at least 1 are kept.
- Handler bodies and typed payload decoding: a handler run succeeds or fails arbitrarily, panics included; a payload is known to be absent, malformed or a JSON object.
- Sorting and paging of listings, beyond what FetchPending needs.
- Wall-clock order: startedAt may lie after completedAt when a start slips between FailJob's clock reading and its write, so nothing is stated about it.
- The resume token that discards everything: it never saves, so the guarantees that start with a first saved token do not concern it.
- Executor.ExecutorService.ExecuteJob: the text filed for a payload that does not decode ends before the decoder's own words.
- Queries.BuildListQuery: a list of unknown statuses only gives an empty alternative, which here selects nothing; the server would reject the query.
- Weaving.Monitor.Witness: the change log of the stream and the broker's store are not tied to the collection by the model; a stream insert or a delivery that no life of the job accounts for makes the log inexplicable.
- Executor.JobConsumer.ConsumeLoop: the loop ends after a given sequence of receipts, because the original runs until its context is cancelled.
- Dispatcher.DispatchWorker.RunPoll: the loop ends after a given number of ticks, because the original runs until its context is cancelled.
- Stream.StreamWatcher.Run: the loop ends after a given number of streams, and each stream after a given number of changes, because the original runs until its context is cancelled.
- Queries.GetJobStats: the seven counts are taken over one unchanging collection; in the original, jobs may move between them.
- The in-memory document that CancelJob and CompleteJob edit is a local value here; it is a private copy in the original.
