/** Accepting a job under a resolved topic, and the topic's way to the executor. */
module Enqueue {
  import opened Options
  import opened Text
  import opened Status
  import opened JobModel
  import opened Writes
  import opened Protocol
  import opened Collection
  import opened Service
  import opened Topics
  import opened Broker
  import opened Machine
  import opened Weaving
  import opened Counting

  datatype EnqueueResult = Enqueued(job: Job) | UnknownJobType | Rejected(why: CreateResult)

  class EnqueueService {
    const metadata: MetadataService
    const topics: FileTopicResolver

    constructor (metadata: MetadataService, topics: FileTopicResolver)
      ensures this.metadata == metadata && this.topics == topics
    {
      this.metadata, this.topics := metadata, topics;
    }

    /** A name the manifest does not know leaves no trace; any other job is stored with its topic in one write. */
    method Enqueue(jobId: string, name: string, payload: Option<Fields>, options: CreateJobOptions, now: Time)
      returns (res: EnqueueResult)
      requires metadata.jobs.InStep()
      modifies metadata.jobs`docs, metadata.jobs`index, metadata.jobs.monitor
      ensures metadata.jobs.InStep()
      ensures old(metadata.jobs.monitor.record).log <= metadata.jobs.monitor.record.log
      ensures res.Enqueued? ==>
                forall lives :: Explains(metadata.jobs.monitor.maxAttempts, metadata.jobs.monitor.record.log, lives) ==>
                  jobId in lives && lives[jobId] == Life(res.job, [])
      ensures res.UnknownJobType? <==> Resolved(topics.byName, name).None?
      ensures res.UnknownJobType? ==> metadata.jobs.docs == old(metadata.jobs.docs)
      ensures res.Enqueued? ==>
                && Some(res.job.topic) == Resolved(topics.byName, name)
                && res.job == NewJob(jobId, name, payload, options.(topic := res.job.topic), now)
                && jobId in metadata.jobs.docs && metadata.jobs.docs[jobId] == res.job && res.job.IsValid()
      ensures res.Enqueued? ==> Creatable(res.job)
      ensures res.Enqueued? ==>
                res.job == Job(
                  jobId, name,
                  JobStatus.PendingDispatch, DispatchStatus.Pending, ExecutionStatus.NotStarted,
                  if options.priority.Some? then options.priority.value else 5,
                  now, None, None,
                  Some(if payload.Some? then payload.value else map[]),
                  options.metadata, [], 0, options.tags, res.job.topic, 0, "", None)
      ensures forall key :: Neat(key) && Padded(name, key) ==>
                if key != "" && key in topics.byName then
                  && !res.UnknownJobType?
                  && (res.Enqueued? ==> res.job.topic == topics.byName[key])
                else res.UnknownJobType?
      ensures metadata.jobs.quiet && jobId !in old(metadata.jobs.docs) && Resolved(topics.byName, name).Some?
              && Resolved(topics.byName, name).value != ""
              && jobId != "" && ByteLength(jobId) == 36 && name != "" && ByteLength(name) <= 100 && now != 0
              && (options.priority.Some? ==> 0 <= options.priority.value <= 10) ==>
                res.Enqueued? && metadata.jobs.docs == old(metadata.jobs.docs)[jobId := res.job]
    {
      var topic := topics.Resolve(name);
      if topic.None? {
        return UnknownJobType;
      }
      var opts := options.(topic := topic.value);
      var created := metadata.CreateJob(jobId, name, payload, opts, now);
      if !created.JobCreated? {
        return Rejected(created);
      }
      res := Enqueued(created.job);
    }
  }

  /** A topic is subscribed to only if some name resolves to it: no consumer waits for a job that cannot come. */
  lemma SubscribedIsReachable(byName: Names, file: map<string, TopicEntry>, topics: seq<string>, topic: string)
    requires Acceptable(file) && Loads(byName, Trimmed(file)) && Subscribes(topics, byName) && topic in topics
    ensures exists name :: Resolved(byName, name) == Some(topic)
  {
    var name :| name in byName && byName[name] == topic;
    LoadedResolves(byName, file, name);
  }

  /** The projection is the job's own: its id, name, topic and payload. */
  predicate IsOwn(p: Projection, j: Job) {
    && p.jobId == j.jobId && p.name == j.name && p.topic == j.topic
    && p.payload == (if j.payload.Some? then j.payload.value else map[])
  }

  /** Every projection waiting to be published is the job's own, and so will be every later one. */
  ghost predicate OwnTopic(s: World, j: Job) {
    && s.doc.jobId == j.jobId && s.doc.name == j.name && s.doc.topic == j.topic && s.doc.payload == j.payload
    && s.inserted == j
    && forall t :: t in s.threads && t.Publish? ==> IsOwn(t.job, j)
  }

  lemma CallKeepsTopic(max: int, sent: nat, t: Pc, op: Op, j: Job)
    requires Issues(t, op) && ThreadOk(max, j.retryCount, sent, t)
    ensures After(op, j).topic == j.topic && After(op, j).jobId == j.jobId
    ensures After(op, j).name == j.name && After(op, j).payload == j.payload
  {
  }

  lemma NoCallPublishes(max: int, t: Pc, op: Op, reply: Reply)
    requires Issues(t, op)
    ensures !Resume(max, t, reply).Publish?
  {
  }

  lemma CallStepKeepsTopic(max: int, s: World, t: Pc, op: Op, net: Net, j: Job)
    requires Sane(max, s) && OwnTopic(s, j) && t in s.threads && Issues(t, op)
    ensures OwnTopic(CallStep(max, s, t, op, net), j)
  {
    assert ThreadOk(max, s.doc.retryCount, |s.sent|, t);
    CallKeepsTopic(max, |s.sent|, t, op, s.doc);
    NoCallPublishes(max, t, op, ReplyOver(op, s.doc, net));
  }

  lemma OtherStepKeepsTopic(max: int, s: World, a: Action, s': World, j: Job)
    requires OwnTopic(s, j) && Enabled(max, s, a) && !a.Call? && s' == Step(max, s, a)
    ensures OwnTopic(s', j)
  {
    OtherSteps(max, s, a);
    OtherThreads(max, s, a, s');
  }

  lemma StepKeepsTopic(max: int, s: World, a: Action, j: Job)
    requires Sane(max, s) && OwnTopic(s, j) && Enabled(max, s, a)
    ensures OwnTopic(Step(max, s, a), j)
  {
    if a.Call? {
      CallStepKeepsTopic(max, s, a.t, a.op, a.net, j);
    } else {
      OtherStepKeepsTopic(max, s, a, Step(max, s, a), j);
    }
  }

  /** In every later state of the job, whatever is published for it goes to the topic it was accepted under. */
  lemma {:induction false} TopicForGood(max: int, s: World, run: seq<Action>, regime: Regime, j: Job)
    requires max >= 1 && Sane(max, s) && OwnTopic(s, j) && Legal(max, s, run, regime)
    ensures OwnTopic(Exec(max, s, run, regime), j)
    decreases |run|
  {
    if run != [] {
      StepKeepsTopic(max, s, run[0], j);
      StepKeepsSane(max, s, run[0]);
      TopicForGood(max, Step(max, s, run[0]), run[1..], regime, j);
    }
  }

  /**
   From enqueue to executor: where every topic has a settled entry, all of a
   job's messages go to a topic the executor listens on, however each of the
   two processes has read the manifest.
   */
  lemma MessagesAreHeard(max: int, j: Job, run: seq<Action>, regime: Regime, file: map<string, TopicEntry>,
                         enqueuer: Names, executor: Names, topics: seq<string>, name: string)
    requires max >= 1 && Creatable(j) && Legal(max, Initial(j), run, regime)
    requires Loads(enqueuer, Trimmed(file)) && Loads(executor, Trimmed(file)) && Covering(Trimmed(file))
    requires Resolved(enqueuer, name) == Some(j.topic) && Subscribes(topics, executor)
    ensures var s := Exec(max, Initial(j), run, regime);
            && s.doc.topic in topics
            && forall t :: t in s.threads && t.Publish? ==> IsOwn(t.job, j) && t.job.topic in topics
  {
    SaneStart(max, j);
    TopicForGood(max, Initial(j), run, regime, j);
    CoveredTopicIsLoaded(Trimmed(file), enqueuer, executor, TrimSpace(name));
  }

  /**
   The message that a publish stores, whatever explains how the publish came
   about: it is about the job as it was created, with its name and payload, and
   goes to a topic the executor subscribes to.
   */
  lemma StoredMessageIsHeard(max: int, r: Chronicle, lives: Lives, p: Projection, m: Message,
                             file: map<string, TopicEntry>, enqueuer: Names, executor: Names, topics: seq<string>,
                             name: string)
    requires max >= 1 && Told(max, r) && Explains(max, r.log, lives)
    requires (p.jobId, Publish(p)) in r.mine && p.jobId in lives && Creatable(lives[p.jobId].born)
    requires Carries(m, p.topic, p.jobId, p.name, p.payload)
    requires Loads(enqueuer, Trimmed(file)) && Loads(executor, Trimmed(file)) && Covering(Trimmed(file))
    requires Resolved(enqueuer, name) == Some(lives[p.jobId].born.topic) && Subscribes(topics, executor)
    ensures var j := lives[p.jobId].born;
            && m.topic == j.topic && m.topic in topics
            && m.body == Envelope(j.jobId, j.name, Object(if j.payload.Some? then j.payload.value else map[]))
  {
    PublishIsOwn(max, r, lives, p);
    CoveredTopicIsLoaded(Trimmed(file), enqueuer, executor, TrimSpace(name));
  }

  /** Whatever explains a watched publish: it is of the job as it was created. */
  lemma PublishIsOwn(max: int, r: Chronicle, lives: Lives, p: Projection)
    requires max >= 1 && Told(max, r) && Explains(max, r.log, lives)
    requires (p.jobId, Publish(p)) in r.mine && p.jobId in lives && Creatable(lives[p.jobId].born)
    ensures IsOwn(p, lives[p.jobId].born)
  {
    var l := lives[p.jobId];
    assert Fitting(max, lives, r.docs, r.mine);
    assert Sound(max, l, p.jobId, r.docs[p.jobId], r.mine);
    assert r.mine[(p.jobId, Publish(p))] <= WorldOf(max, l).threads[Publish(p)];
    SaneStart(max, l.born);
    TopicForGood(max, Initial(l.born), l.story, ANY_STEP, l.born);
  }

  /** Otherwise there are two ways of reading it under which some accepted job has all its messages unheard. */
  lemma MessagesAreLost(max: int, file: map<string, TopicEntry>)
    returns (enqueuer: Names, executor: Names, name: string)
    requires max >= 1 && Acceptable(file) && !Covering(Trimmed(file))
    ensures Loads(enqueuer, Trimmed(file)) && Loads(executor, Trimmed(file)) && Resolved(enqueuer, name).Some?
    ensures forall j, run, regime, topics ::
              Creatable(j) && Resolved(enqueuer, name) == Some(j.topic) && Subscribes(topics, executor)
              && Legal(max, Initial(j), run, regime) ==>
                var s := Exec(max, Initial(j), run, regime);
                s.doc.topic !in topics && forall t :: t in s.threads && t.Publish? ==> t.job.topic !in topics
  {
    enqueuer, executor, name := UncoveredTopicIsLost(Trimmed(file));
    LoadedResolves(enqueuer, file, name);
    forall j, run, regime, topics | Creatable(j) && Resolved(enqueuer, name) == Some(j.topic)
                                    && Subscribes(topics, executor) && Legal(max, Initial(j), run, regime)
      ensures var s := Exec(max, Initial(j), run, regime);
              s.doc.topic !in topics && forall t :: t in s.threads && t.Publish? ==> t.job.topic !in topics
    {
      SaneStart(max, j);
      TopicForGood(max, Initial(j), run, regime, j);
    }
  }
}
