/**
 The bridge between the classes and the machine.  A monitor keeps, as ghost
 state beside the real one, a log of what the watched threads have done and of
 the documents the others have left in between.  A log is explained by lives of
 the jobs: runs of the machine in which the watched threads take exactly the
 logged steps and the others any steps at all.  Whatever explains the log, the
 documents the methods work on are those its runs have led to.
 */
module Weaving {
  import opened Options
  import opened Status
  import opened JobModel
  import opened Writes
  import opened Protocol
  import opened Machine
  import opened Counting
  import opened AtomicRetry

  // ---- One event, one step ----

  /** Whether the event is what the state and the fate of the request produce. */
  predicate Consistent(s: World, e: Event, net: Net) {
    match e
    case Called(op, reply) => reply == ReplyOver(op, s.doc, net)
    case Published(sent, _) => sent == if net.Fine? then Some(|s.sent|) else None
    case _ => true
  }

  /** The machine's step for the event. */
  function ActionFor(t: Pc, e: Event, net: Net): Action {
    match e
    case Called(op, _) => Call(t, op, net)
    case Published(_, error) => Send(t, net, error)
    case HandlerReturned(ok, error) => Run(t, ok, error)
    case Acked(_) => Ack(t, net.Fine?)
    case Nacked(_) => Nack(t)
  }

  lemma AcceptedCallIsAStep(max: int, s: World, t: Pc, op: Op, net: Net)
    requires t in s.threads && Issues(t, op)
    ensures Step(max, s, Call(t, op, net)).threads
            == s.threads - multiset{t} + multiset{Resume(max, t, ReplyOver(op, s.doc, net))}
    ensures Step(max, s, Call(t, op, net)).doc == Landed(op, s.doc, net)
  {
  }

  lemma AcceptedPublishIsAStep(max: int, s: World, t: Pc, e: Event, net: Net)
    requires t in s.threads && e.Published? && Observe(max, t, e).Some? && Consistent(s, e, net)
    ensures Enabled(max, s, ActionFor(t, e, net))
    ensures var s' := Step(max, s, ActionFor(t, e, net));
            s'.threads == s.threads - multiset{t} + multiset{Observe(max, t, e).value} && s'.doc == s.doc
  {
  }

  lemma AcceptedOtherIsAStep(max: int, s: World, t: Pc, e: Event, net: Net)
    requires t in s.threads && !e.Called? && !e.Published? && Observe(max, t, e).Some?
    ensures Enabled(max, s, ActionFor(t, e, net))
    ensures var s' := Step(max, s, ActionFor(t, e, net));
            s'.threads == s.threads - multiset{t} + multiset{Observe(max, t, e).value} && s'.doc == s.doc
  {
  }

  /** What a monitor accepts, the machine does, moving the thread to the same position. */
  lemma AcceptedEventIsAStep(max: int, s: World, t: Pc, e: Event, net: Net)
    requires t in s.threads && Observe(max, t, e).Some? && Consistent(s, e, net)
    ensures Enabled(max, s, ActionFor(t, e, net))
    ensures var s' := Step(max, s, ActionFor(t, e, net));
            && s'.threads == s.threads - multiset{t} + multiset{Observe(max, t, e).value}
            && s'.doc == if e.Called? then Landed(e.op, s.doc, net) else s.doc
  {
    if e.Called? {
      AcceptedCallIsAStep(max, s, t, e.op, net);
    } else if e.Published? {
      AcceptedPublishIsAStep(max, s, t, e, net);
    } else {
      AcceptedOtherIsAStep(max, s, t, e, net);
    }
  }

  // ---- Lives ----

  datatype Life = Life(born: Job, story: seq<Action>)

  type Lives = map<string, Life>

  predicate Lived(max: int, l: Life) {
    Legal(max, Initial(l.born), l.story, ANY_STEP)
  }

  function WorldOf(max: int, l: Life): World {
    if Lived(max, l) then Exec(max, Initial(l.born), l.story, ANY_STEP) else Initial(l.born)
  }

  /** Every life goes on. */
  ghost predicate Continued(before: Lives, after: Lives) {
    forall id :: id in before ==>
      id in after && after[id].born == before[id].born && before[id].story <= after[id].story
  }

  /** The life is a run that has led to this document, with the watched threads among the others. */
  ghost predicate Sound(max: int, l: Life, id: string, doc: Job, mine: multiset<(string, Pc)>) {
    && Lived(max, l)
    && WorldOf(max, l).doc == doc && doc.jobId == id
    && forall t :: mine[(id, t)] <= WorldOf(max, l).threads[t]
  }

  /** The lives have led to these documents. */
  ghost predicate Fitting(max: int, lives: Lives, docs: map<string, Job>, mine: multiset<(string, Pc)>) {
    && docs.Keys == lives.Keys
    && forall id {:trigger Sound(max, lives[id], id, docs[id], mine)} :: id in lives ==>
         Sound(max, lives[id], id, docs[id], mine)
  }

  /** A life with one more step. */
  lemma StoryGrows(max: int, l: Life, a: Action, l': Life)
    requires Lived(max, l) && Enabled(max, WorldOf(max, l), a) && l' == l.(story := l.story + [a])
    ensures Lived(max, l') && WorldOf(max, l') == Step(max, WorldOf(max, l), a)
  {
    var s := WorldOf(max, l);
    StepThenRun(max, s, a, Step(max, s, a), []);
    assert [a] + [] == [a];
    RunThenRun(max, Initial(l.born), l.story, [a]);
  }

  /** The life that goes on is a run from where it was. */
  lemma ContinuedIsRun(max: int, before: Life, after: Life) returns (run: seq<Action>)
    requires Lived(max, before) && Lived(max, after) && after.born == before.born && before.story <= after.story
    ensures Legal(max, WorldOf(max, before), run, ANY_STEP)
    ensures Exec(max, WorldOf(max, before), run, ANY_STEP) == WorldOf(max, after)
  {
    run := after.story[|before.story|..];
    assert after.story == before.story + run;
    RunSplit(max, Initial(before.born), before.story, run);
  }

  lemma {:induction false} RunSplit(max: int, s: World, first: seq<Action>, rest: seq<Action>)
    requires Legal(max, s, first + rest, ANY_STEP)
    ensures Legal(max, s, first, ANY_STEP) && Legal(max, Exec(max, s, first, ANY_STEP), rest, ANY_STEP)
    ensures Exec(max, s, first + rest, ANY_STEP) == Exec(max, Exec(max, s, first, ANY_STEP), rest, ANY_STEP)
    decreases |first|
  {
    if first == [] {
      assert first + rest == rest;
    } else {
      assert (first + rest)[1..] == first[1..] + rest;
      RunSplit(max, Step(max, s, first[0]), first[1..], rest);
    }
  }

  // ---- The log ----

  datatype Entry =
    | Did(job: string, t: Pc, e: Event, net: Net)                      // an event of a watched thread
    | Began(job: string, a: Action, u: Pc)                             // a watched thread starts
    | Bore(doc: Job, mine: multiset<(string, Pc)>)                  // a watched thread creates a job
    | Left(docs: map<string, Job>, mine: multiset<(string, Pc)>)       // the others have left these documents

  function Advanced(lives: Lives, id: string, a: Action): Lives {
    if id in lives then lives[id := lives[id].(story := lives[id].story + [a])] else lives
  }

  /** The step starts a thread at `u`. */
  predicate Starts(max: int, s: World, a: Action, u: Pc) {
    && (a.StreamInsert? || a.PollFetch? || a.Deliver? || a.RequestFail? || a.RequestCancel? || a.RequestRetry?)
    && Enabled(max, s, a) && Arrives(s, a) == u
  }

  /** Nobody watched is at work on the id. */
  ghost predicate Untouched(mine: multiset<(string, Pc)>, id: string) {
    forall t :: (id, t) !in mine
  }

  /** From these lives to those by what the entry says; the others may take any steps of the machine. */
  ghost predicate Leads(max: int, lives: Lives, entry: Entry, lives': Lives) {
    match entry
    case Did(job, t, e, net) =>
      && (job in lives ==> Consistent(WorldOf(max, lives[job]), e, net))
      && lives' == Advanced(lives, job, ActionFor(t, e, net))
    case Began(job, a, u) =>
      && (job in lives ==> Starts(max, WorldOf(max, lives[job]), a, u))
      && lives' == Advanced(lives, job, a)
    case Bore(job, mine) =>
      job.jobId !in lives && Untouched(mine, job.jobId) && lives' == lives[job.jobId := Life(job, [])]
    case Left(docs, mine) =>
      Continued(lives, lives') && Fitting(max, lives', docs, mine)
  }

  /** The lives are a way in which everything logged can have come about. */
  ghost predicate Explains(max: int, log: seq<Entry>, lives: Lives) {
    if log == [] then lives == map[]
    else
      exists before {:trigger Leads(max, before, log[|log| - 1], lives)} ::
        Explains(max, log[..|log| - 1], before) && Leads(max, before, log[|log| - 1], lives)
  }

  /** The others have kept to their programs, and the broker to its messages. */
  ghost predicate Lawful(max: int, log: seq<Entry>) {
    exists lives :: Explains(max, log, lives)
  }

  lemma ExplainNext(max: int, log: seq<Entry>, lives: Lives, entry: Entry, lives': Lives)
    requires Explains(max, log, lives) && Leads(max, lives, entry, lives')
    ensures Explains(max, log + [entry], lives')
  {
    var more := log + [entry];
    assert more[..|more| - 1] == log && Leads(max, lives, more[|more| - 1], lives');
  }

  lemma ExplainedBefore(max: int, log: seq<Entry>, entry: Entry, lives': Lives) returns (lives: Lives)
    requires Explains(max, log + [entry], lives')
    ensures Explains(max, log, lives) && Leads(max, lives, entry, lives')
  {
    assert (log + [entry])[..|log|] == log;
    lives :| Explains(max, log, lives) && Leads(max, lives, entry, lives');
  }

  lemma LawfulBefore(max: int, log: seq<Entry>, entry: Entry)
    requires Lawful(max, log + [entry])
    ensures Lawful(max, log)
  {
    var lives' :| Explains(max, log + [entry], lives');
    var lives := ExplainedBefore(max, log, entry, lives');
  }

  lemma LeadsOn(max: int, lives: Lives, entry: Entry, lives': Lives)
    requires Leads(max, lives, entry, lives')
    ensures Continued(lives, lives')
  {
  }

  /** Whatever explains a log continues something that explains its beginning. */
  lemma {:induction false} ExplainedEarlier(max: int, before: seq<Entry>, after: seq<Entry>, lives': Lives)
    returns (lives: Lives)
    requires before <= after && Explains(max, after, lives')
    ensures Explains(max, before, lives) && Continued(lives, lives')
    decreases |after|
  {
    if |before| == |after| {
      assert before == after;
      lives := lives';
    } else {
      var n := |after| - 1;
      assert after == after[..n] + [after[n]];
      var middle := ExplainedBefore(max, after[..n], after[n], lives');
      LeadsOn(max, middle, after[n], lives');
      lives := ExplainedEarlier(max, before, after[..n], middle);
      ContinuedOn(lives, middle, lives');
    }
  }

  lemma ContinuedOn(a: Lives, b: Lives, c: Lives)
    requires Continued(a, b) && Continued(b, c)
    ensures Continued(a, c)
  {
  }

  /** What is recorded of the whole system. */
  datatype Chronicle = Chronicle(
    log: seq<Entry>,
    trace: seq<Seen>,               // the events of the watched threads
    docs: map<string, Job>,         // the documents as they are now
    mine: multiset<(string, Pc)>)   // where the watched threads are, and on which jobs

  /** Whatever explains the log has led to the documents. */
  ghost predicate Told(max: int, r: Chronicle) {
    forall lives {:trigger Explains(max, r.log, lives)} :: Explains(max, r.log, lives) ==>
      Fitting(max, lives, r.docs, r.mine)
  }

  // ---- What the watched threads and the others do to the record ----

  /** A watched thread has started at `u`, and nothing else has happened. */
  ghost predicate Joined(before: Chronicle, after: Chronicle, job: string, a: Action, u: Pc) {
    && after.log == before.log + [Began(job, a, u)]
    && after.trace == before.trace
    && after.mine == before.mine + multiset{(job, u)}
    && after.docs == before.docs
  }

  /** A watched thread at `t` has caused the event. */
  ghost predicate Took(max: int, before: Chronicle, after: Chronicle, job: string, t: Pc, e: Event) {
    && Observe(max, t, e).Some?
    && (exists net :: after.log == before.log + [Did(job, t, e, net)])
    && after.trace == before.trace + [Seen(job, e)]
    && after.mine == before.mine - multiset{(job, t)} + multiset{(job, Observe(max, t, e).value)}
  }

  /** The watched threads have done nothing, and the others have been seen at most once. */
  ghost predicate Others(before: Chronicle, after: Chronicle) {
    && after.trace == before.trace && after.mine == before.mine
    && (after == before || after.log == before.log + [Left(after.docs, before.mine)])
  }

  /** One watched thread has gone from `from` to `to` on the job, and the others may have gone anywhere. */
  ghost predicate Moved(max: int, before: Chronicle, after: Chronicle, job: string, from: Pc, to: Pc) {
    && before.log <= after.log
    && Walk(max, before.trace, after.trace, job, from, to)
    && after.mine == before.mine - multiset{(job, from)} + multiset{(job, to)}
  }

  lemma MovedStart(max: int, r: Chronicle, job: string, from: Pc)
    requires (job, from) in r.mine
    ensures Moved(max, r, r, job, from, from)
  {
    WalkStart(max, r.trace, job, from);
  }

  /** On from `at`: others first, then an event of the thread. */
  lemma MovedNext(max: int, r: Chronicle, a: Chronicle, b: Chronicle, c: Chronicle, job: string, from: Pc, at: Pc,
                  e: Event)
    requires Moved(max, r, a, job, from, at) && Others(a, b) && Took(max, b, c, job, at, e)
    ensures Moved(max, r, c, job, from, Observe(max, at, e).value)
  {
    WalkNext(max, r.trace, b.trace, job, from, at, e, Observe(max, at, e).value);
  }

  /** The first event of a thread. */
  lemma MovedFirst(max: int, a: Chronicle, b: Chronicle, c: Chronicle, job: string, from: Pc, e: Event)
    requires (job, from) in a.mine && Others(a, b) && Took(max, b, c, job, from, e)
    ensures Moved(max, a, c, job, from, Observe(max, from, e).value)
  {
    MovedStart(max, a, job, from);
    MovedNext(max, a, a, b, c, job, from, from, e);
  }

  lemma MovedOn(max: int, a: Chronicle, b: Chronicle, c: Chronicle, job: string, from: Pc, at: Pc, to: Pc)
    requires Moved(max, a, b, job, from, at) && Moved(max, b, c, job, at, to)
    ensures Moved(max, a, c, job, from, to)
  {
    WalkOn(max, a.trace, b.trace, c.trace, job, from, at, to);
  }

  /** Moving a thread that is among the others moves it among them. */
  lemma MovedMine(mine: multiset<(string, Pc)>, threads: multiset<Pc>, id: string, t: Pc, u: Pc)
    requires (id, t) in mine && forall x :: mine[(id, x)] <= threads[x]
    ensures t in threads
    ensures forall x ::
              (mine - multiset{(id, t)} + multiset{(id, u)})[(id, x)] <= (threads - multiset{t} + multiset{u})[x]
  {
    assert mine[(id, t)] <= threads[t];
    forall x
      ensures (mine - multiset{(id, t)} + multiset{(id, u)})[(id, x)] <= (threads - multiset{t} + multiset{u})[x]
    {
      assert mine[(id, x)] <= threads[x];
    }
  }

  lemma StepStaysSound(max: int, l: Life, id: string, doc: Job, mine: multiset<(string, Pc)>, t: Pc, e: Event, net: Net,
                       l': Life, mine': multiset<(string, Pc)>)
    requires Sound(max, l, id, doc, mine) && (id, t) in mine
    requires Observe(max, t, e).Some? && Consistent(WorldOf(max, l), e, net)
    requires l' == l.(story := l.story + [ActionFor(t, e, net)])
    requires mine' == mine - multiset{(id, t)} + multiset{(id, Observe(max, t, e).value)}
    ensures Sound(max, l', id, if e.Called? then Landed(e.op, doc, net) else doc, mine')
  {
    var s, u := WorldOf(max, l), Observe(max, t, e).value;
    MovedMine(mine, s.threads, id, t, u);
    AcceptedEventIsAStep(max, s, t, e, net);
    StoryGrows(max, l, ActionFor(t, e, net), l');
    if e.Called? {
      LandedKeepsId(e.op, s.doc, net);
    }
  }

  lemma LandedKeepsId(op: Op, j: Job, net: Net)
    ensures Landed(op, j, net).jobId == j.jobId
  {
  }

  /** A step on one job leaves the others as they are. */
  lemma OthersStaySound(max: int, l: Life, id: string, doc: Job, mine: multiset<(string, Pc)>,
                        mine': multiset<(string, Pc)>)
    requires Sound(max, l, id, doc, mine) && forall x :: mine'[(id, x)] <= mine[(id, x)]
    ensures Sound(max, l, id, doc, mine')
  {
    forall x ensures mine'[(id, x)] <= WorldOf(max, l).threads[x] {
      assert mine[(id, x)] <= WorldOf(max, l).threads[x];
    }
  }

  function DocsThen(docs: map<string, Job>, job: string, e: Event, net: Net): map<string, Job> {
    if job in docs && e.Called? then docs[job := Landed(e.op, docs[job], net)] else docs
  }

  /** The record after an event of a watched thread. */
  function Taken(max: int, r: Chronicle, job: string, t: Pc, e: Event, net: Net): Chronicle
    requires Observe(max, t, e).Some?
  {
    r.(log := r.log + [Did(job, t, e, net)],
       trace := r.trace + [Seen(job, e)],
       mine := r.mine - multiset{(job, t)} + multiset{(job, Observe(max, t, e).value)},
       docs := DocsThen(r.docs, job, e, net))
  }

  lemma OwnJobStaysSound(max: int, lives: Lives, r: Chronicle, job: string, t: Pc, e: Event, net: Net, lives': Lives,
                         r': Chronicle)
    requires Fitting(max, lives, r.docs, r.mine) && Leads(max, lives, Did(job, t, e, net), lives') && job in lives
    requires (job, t) in r.mine && Observe(max, t, e).Some? && r' == Taken(max, r, job, t, e, net)
    ensures Sound(max, lives'[job], job, r'.docs[job], r'.mine)
  {
    assert Sound(max, lives[job], job, r.docs[job], r.mine);
    StepStaysSound(max, lives[job], job, r.docs[job], r.mine, t, e, net, lives'[job], r'.mine);
  }

  lemma OtherJobsStaySound(max: int, lives: Lives, r: Chronicle, job: string, t: Pc, u: Pc, id: string)
    requires Fitting(max, lives, r.docs, r.mine) && id in lives && id != job
    ensures Sound(max, lives[id], id, r.docs[id], r.mine - multiset{(job, t)} + multiset{(job, u)})
  {
    var mine' := r.mine - multiset{(job, t)} + multiset{(job, u)};
    assert Sound(max, lives[id], id, r.docs[id], r.mine);
    OthersStaySound(max, lives[id], id, r.docs[id], r.mine, mine');
  }

  lemma TakenStaysFitting(max: int, lives: Lives, r: Chronicle, job: string, t: Pc, e: Event, net: Net, lives': Lives,
                          r': Chronicle)
    requires Fitting(max, lives, r.docs, r.mine) && Leads(max, lives, Did(job, t, e, net), lives')
    requires (job, t) in r.mine && Observe(max, t, e).Some? && r' == Taken(max, r, job, t, e, net)
    ensures Fitting(max, lives', r'.docs, r'.mine)
  {
    if job in lives {
      OwnJobStaysSound(max, lives, r, job, t, e, net, lives', r');
    }
    forall id | id in lives' && id != job ensures Sound(max, lives'[id], id, r'.docs[id], r'.mine) {
      OtherJobsStaySound(max, lives, r, job, t, Observe(max, t, e).value, id);
    }
  }

  /** After any event of a watched thread, whatever explains it has led to the documents the event has left. */
  lemma TakenStaysTold(max: int, r: Chronicle, job: string, t: Pc, e: Event, net: Net, r': Chronicle)
    requires Told(max, r) && (job, t) in r.mine && Observe(max, t, e).Some? && r' == Taken(max, r, job, t, e, net)
    ensures Told(max, r')
  {
    forall lives' | Explains(max, r'.log, lives') ensures Fitting(max, lives', r'.docs, r'.mine) {
      var lives := ExplainedBefore(max, r.log, Did(job, t, e, net), lives');
      TakenStaysFitting(max, lives, r, job, t, e, net, lives', r');
    }
  }

  /** The answer is the one the documents call for; what is published depends on the broker. */
  predicate Answered(docs: map<string, Job>, job: string, e: Event, net: Net) {
    !e.Published? && (e.Called? && job in docs ==> e.reply == ReplyOver(e.op, docs[job], net))
  }

  /** An event that the documents account for is unlawful only if something before it was. */
  lemma TakenStaysLawful(max: int, r: Chronicle, job: string, t: Pc, e: Event, net: Net)
    requires Told(max, r) && (job, t) in r.mine && Observe(max, t, e).Some? && Answered(r.docs, job, e, net)
    ensures Lawful(max, r.log + [Did(job, t, e, net)]) <==> Lawful(max, r.log)
  {
    if Lawful(max, r.log) {
      var lives :| Explains(max, r.log, lives);
      assert Fitting(max, lives, r.docs, r.mine);
      if job in lives {
        assert Sound(max, lives[job], job, r.docs[job], r.mine);
      }
      ExplainNext(max, r.log, lives, Did(job, t, e, net), Advanced(lives, job, ActionFor(t, e, net)));
    }
    if Lawful(max, r.log + [Did(job, t, e, net)]) {
      LawfulBefore(max, r.log, Did(job, t, e, net));
    }
  }

  /** Something explains the log in which a message confirmed now has the job's next number. */
  ghost predicate NextNumber(max: int, log: seq<Entry>, job: string, sent: Option<MsgId>) {
    exists lives ::
      Explains(max, log, lives) && (sent.Some? && job in lives ==> |WorldOf(max, lives[job]).sent| == sent.value)
  }

  /** A confirmed publish is lawful exactly when the broker has given the message the job's next number. */
  lemma PublishedLawfulExactly(max: int, r: Chronicle, job: string, t: Pc, sent: Option<MsgId>, error: string, net: Net)
    requires Told(max, r) && (job, t) in r.mine && t.Publish? && (sent.Some? <==> net.Fine?)
    ensures Lawful(max, r.log + [Did(job, t, Published(sent, error), net)]) <==> NextNumber(max, r.log, job, sent)
  {
    var e := Published(sent, error);
    if Lawful(max, r.log + [Did(job, t, e, net)]) {
      var lives' :| Explains(max, r.log + [Did(job, t, e, net)], lives');
      var lives := ExplainedBefore(max, r.log, Did(job, t, e, net), lives');
    }
    if NextNumber(max, r.log, job, sent) {
      var lives :| Explains(max, r.log, lives)
                   && (sent.Some? && job in lives ==> |WorldOf(max, lives[job]).sent| == sent.value);
      ExplainNext(max, r.log, lives, Did(job, t, e, net), Advanced(lives, job, ActionFor(t, e, net)));
    }
  }

  // ---- New threads, new jobs ----

  lemma StartStaysSound(max: int, l: Life, id: string, doc: Job, mine: multiset<(string, Pc)>, a: Action, u: Pc,
                        l': Life, mine': multiset<(string, Pc)>)
    requires Sound(max, l, id, doc, mine) && Starts(max, WorldOf(max, l), a, u) && l' == l.(story := l.story + [a])
    requires mine' == mine + multiset{(id, u)}
    ensures Sound(max, l', id, doc, mine')
  {
    var s := WorldOf(max, l);
    OtherSteps(max, s, a);
    OtherThreadsExactly(max, s, a);
    StoryGrows(max, l, a, l');
    forall x ensures mine'[(id, x)] <= WorldOf(max, l').threads[x] {
      assert mine[(id, x)] <= s.threads[x];
      assert mine'[(id, x)] == mine[(id, x)] + Bit(x == u);
    }
  }

  function Begun(r: Chronicle, job: string, a: Action, u: Pc): Chronicle {
    r.(log := r.log + [Began(job, a, u)], mine := r.mine + multiset{(job, u)})
  }

  lemma JoinedMine(mine: multiset<(string, Pc)>, job: string, u: Pc, id: string)
    requires id != job
    ensures forall x :: (mine + multiset{(job, u)})[(id, x)] <= mine[(id, x)]
  {
  }

  lemma BegunStaysFitting(max: int, lives: Lives, r: Chronicle, job: string, a: Action, u: Pc, lives': Lives,
                          r': Chronicle)
    requires Fitting(max, lives, r.docs, r.mine) && Leads(max, lives, Began(job, a, u), lives')
    requires r' == Begun(r, job, a, u)
    ensures Fitting(max, lives', r'.docs, r'.mine)
  {
    if job in lives {
      assert Sound(max, lives[job], job, r.docs[job], r.mine);
      StartStaysSound(max, lives[job], job, r.docs[job], r.mine, a, u, lives'[job], r'.mine);
    }
    forall id | id in lives' && id != job ensures Sound(max, lives'[id], id, r'.docs[id], r'.mine) {
      assert Sound(max, lives[id], id, r.docs[id], r.mine);
      JoinedMine(r.mine, job, u, id);
      OthersStaySound(max, lives[id], id, r.docs[id], r.mine, r'.mine);
    }
  }

  lemma BegunStaysTold(max: int, r: Chronicle, job: string, a: Action, u: Pc, r': Chronicle)
    requires Told(max, r) && r' == Begun(r, job, a, u)
    ensures Told(max, r')
  {
    forall lives' | Explains(max, r'.log, lives') ensures Fitting(max, lives', r'.docs, r'.mine) {
      var lives := ExplainedBefore(max, r.log, Began(job, a, u), lives');
      BegunStaysFitting(max, lives, r, job, a, u, lives', r');
    }
  }

  /** A start that is possible in every life is unlawful only if something before it was. */
  lemma BegunStaysLawful(max: int, r: Chronicle, job: string, a: Action, u: Pc)
    requires Told(max, r)
    requires forall lives :: Explains(max, r.log, lives) && job in lives ==> Starts(max, WorldOf(max, lives[job]), a, u)
    ensures Lawful(max, r.log + [Began(job, a, u)]) <==> Lawful(max, r.log)
  {
    if Lawful(max, r.log) {
      var lives :| Explains(max, r.log, lives);
      ExplainNext(max, r.log, lives, Began(job, a, u), Advanced(lives, job, a));
    }
    if Lawful(max, r.log + [Began(job, a, u)]) {
      LawfulBefore(max, r.log, Began(job, a, u));
    }
  }

  function Bred(r: Chronicle, job: Job): Chronicle {
    r.(log := r.log + [Bore(job, r.mine)], docs := r.docs[job.jobId := job])
  }

  lemma BirthIsSound(max: int, job: Job, mine: multiset<(string, Pc)>)
    requires Untouched(mine, job.jobId)
    ensures Sound(max, Life(job, []), job.jobId, job, mine)
  {
    assert WorldOf(max, Life(job, [])) == Initial(job);
    forall t ensures mine[(job.jobId, t)] <= Initial(job).threads[t] {
      assert (job.jobId, t) !in mine;
    }
  }

  lemma BredStaysTold(max: int, r: Chronicle, job: Job, r': Chronicle)
    requires Told(max, r) && r' == Bred(r, job)
    ensures Told(max, r')
  {
    forall lives' | Explains(max, r'.log, lives') ensures Fitting(max, lives', r'.docs, r'.mine) {
      var lives := ExplainedBefore(max, r.log, Bore(job, r.mine), lives');
      BirthIsSound(max, job, r.mine);
      forall id | id in lives' && id != job.jobId ensures Sound(max, lives'[id], id, r'.docs[id], r'.mine) {
        assert Sound(max, lives[id], id, r.docs[id], r.mine);
      }
    }
  }

  lemma BirthExplained(max: int, log: seq<Entry>, lives: Lives, job: Job, mine: multiset<(string, Pc)>)
    requires Explains(max, log, lives) && job.jobId !in lives && Untouched(mine, job.jobId)
    ensures Lawful(max, log + [Bore(job, mine)])
  {
    BirthLeads(max, lives, job, mine);
    ExplainNext(max, log, lives, Bore(job, mine), lives[job.jobId := Life(job, [])]);
  }

  /** Creating a job under an id of its own is unlawful only if something before it was. */
  lemma BredStaysLawful(max: int, r: Chronicle, job: Job)
    requires Told(max, r) && job.jobId !in r.docs && Untouched(r.mine, job.jobId)
    ensures Lawful(max, r.log + [Bore(job, r.mine)]) <==> Lawful(max, r.log)
  {
    if Lawful(max, r.log) {
      var lives :| Explains(max, r.log, lives);
      FittingKeys(max, lives, r.docs, r.mine);
      BirthExplained(max, r.log, lives, job, r.mine);
    } else if Lawful(max, r.log + [Bore(job, r.mine)]) {
      LawfulBefore(max, r.log, Bore(job, r.mine));
    }
  }

  lemma BirthLeads(max: int, lives: Lives, job: Job, mine: multiset<(string, Pc)>)
    requires job.jobId !in lives && Untouched(mine, job.jobId)
    ensures Leads(max, lives, Bore(job, mine), lives[job.jobId := Life(job, [])])
  {
  }

  lemma FittingKeys(max: int, lives: Lives, docs: map<string, Job>, mine: multiset<(string, Pc)>)
    requires Fitting(max, lives, docs, mine)
    ensures forall id :: id in lives <==> id in docs
  {
  }

  /** Whatever explains a creation has the job at the beginning of its life. */
  lemma BredIsBorn(max: int, r: Chronicle, job: Job, lives': Lives)
    requires Explains(max, Bred(r, job).log, lives')
    ensures job.jobId in lives' && lives'[job.jobId] == Life(job, [])
  {
    var lives := ExplainedBefore(max, r.log, Bore(job, r.mine), lives');
  }

  lemma LeftStaysTold(max: int, r: Chronicle, docs: map<string, Job>, r': Chronicle)
    requires r' == r.(log := r.log + [Left(docs, r.mine)], docs := docs)
    ensures Told(max, r')
  {
    forall lives' | Explains(max, r'.log, lives') ensures Fitting(max, lives', r'.docs, r'.mine) {
      var lives := ExplainedBefore(max, r.log, Left(docs, r.mine), lives');
    }
  }

  // ---- The monitor ----

  class Monitor {
    const maxAttempts: int
    ghost var record: Chronicle

    constructor (maxAttempts: int)
      ensures this.maxAttempts == maxAttempts && record == Chronicle([], [], map[], multiset{}) && Keeps()
    {
      this.maxAttempts := maxAttempts;
      record := Chronicle([], [], map[], multiset{});
    }

    /** The record holds together. */
    ghost predicate Keeps()
      reads this
    {
      Told(maxAttempts, record)
    }

    /** The watched thread at `t` causes the event, `net` being what became of its request. */
    ghost method Take(job: string, t: Pc, e: Event, net: Net)
      requires Keeps() && (job, t) in record.mine && Observe(maxAttempts, t, e).Some?
      modifies this
      ensures Keeps() && Took(maxAttempts, old(record), record, job, t, e)
      ensures record == Taken(maxAttempts, old(record), job, t, e, net)
      ensures Answered(old(record).docs, job, e, net) ==>
                (Lawful(maxAttempts, record.log) <==> Lawful(maxAttempts, old(record).log))
    {
      if Answered(record.docs, job, e, net) {
        TakenStaysLawful(maxAttempts, record, job, t, e, net);
      }
      var r := Taken(maxAttempts, record, job, t, e, net);
      TakenStaysTold(maxAttempts, record, job, t, e, net, r);
      record := r;
    }

    /** An event of no thread of the machine. */
    ghost method Note(job: string, e: Event)
      requires Keeps()
      modifies this
      ensures Keeps() && record == old(record).(trace := old(record).trace + [Seen(job, e)])
    {
      record := record.(trace := record.trace + [Seen(job, e)]);
    }

    /** A watched thread starts. */
    ghost method Begin(job: string, a: Action, u: Pc)
      requires Keeps()
      modifies this
      ensures Keeps() && Joined(old(record), record, job, a, u)
    {
      var r := Begun(record, job, a, u);
      BegunStaysTold(maxAttempts, record, job, a, u, r);
      record := r;
    }

    /** A watched thread creates a job. */
    ghost method Breed(job: Job)
      requires Keeps()
      modifies this
      ensures Keeps() && record == Bred(old(record), job)
    {
      var r := Bred(record, job);
      BredStaysTold(maxAttempts, record, job, r);
      record := r;
    }

    /** The others have left these documents behind. */
    ghost method Witness(docs: map<string, Job>)
      requires Keeps()
      modifies this
      ensures Keeps() && record == old(record).(log := old(record).log + [Left(docs, old(record).mine)], docs := docs)
    {
      var r := record.(log := record.log + [Left(docs, record.mine)], docs := docs);
      LeftStaysTold(maxAttempts, record, docs, r);
      record := r;
    }
  }

  // ---- What holds of all runs holds of the methods ----

  /** However far a method has got, and whatever explains how it got there: every job keeps to its budgets. */
  lemma JobsKeepTheirBudgets(max: int, r: Chronicle, lives: Lives, id: string)
    requires max >= 1 && Told(max, r) && Explains(max, r.log, lives) && id in r.docs
    requires Creatable(lives[id].born)
    ensures var j, s := r.docs[id], WorldOf(max, lives[id]);
            && |s.h.runs| <= 1 + j.retryCount
            && s.h.terminalWrites <= 1 + j.retryCount
            && |j.errors| <= 2 * (1 + j.retryCount)
            && 0 <= j.dispatchAttempts <= max
            && (j.dispatchStatus.Dispatched? ==> s.sent != [])
  {
    var l := lives[id];
    assert Sound(max, l, id, r.docs[id], r.mine);
    HandlerRunsBounded(max, l.born, l.story, ANY_STEP);
    OneTerminalWritePerAttempt(max, l.born, l.story, ANY_STEP);
    ErrorHistoryBounded(max, l.born, l.story, ANY_STEP);
    DispatchAttemptsBounded(max, l.born, l.story, ANY_STEP);
    DispatchedOnlyAfterPublish(max, l.born, l.story, ANY_STEP);
  }

  /**
   Between any two moments, whatever explains the later one: it continues an
   explanation of the earlier one, and each document has moved by a run.
   */
  lemma DocumentsMoveByRuns(max: int, before: Chronicle, after: Chronicle, lives': Lives, id: string)
    returns (lives: Lives, run: seq<Action>)
    requires Told(max, before) && Told(max, after) && before.log <= after.log
    requires Explains(max, after.log, lives') && id in before.docs
    ensures Explains(max, before.log, lives) && id in lives && before.docs[id] == WorldOf(max, lives[id]).doc
    ensures Legal(max, WorldOf(max, lives[id]), run, ANY_STEP)
    ensures id in after.docs && after.docs[id] == Exec(max, WorldOf(max, lives[id]), run, ANY_STEP).doc
  {
    lives := ExplainedEarlier(max, before.log, after.log, lives');
    assert Fitting(max, lives, before.docs, before.mine) && Fitting(max, lives', after.docs, after.mine);
    assert id in lives && id in lives';
    assert Sound(max, lives[id], id, before.docs[id], before.mine);
    assert Sound(max, lives'[id], id, after.docs[id], after.mine);
    run := ContinuedIsRun(max, lives[id], lives'[id]);
  }

  // ---- Nothing the machine can do is unlawful ----

  lemma {:induction false} RunKeepsId(max: int, s: World, run: seq<Action>)
    requires Legal(max, s, run, ANY_STEP)
    ensures Exec(max, s, run, ANY_STEP).doc.jobId == s.doc.jobId
    decreases |run|
  {
    if run != [] {
      if run[0].Call? {
        LandedKeepsId(run[0].op, s.doc, run[0].net);
      } else {
        OtherSteps(max, s, run[0]);
      }
      RunKeepsId(max, Step(max, s, run[0]), run[1..]);
    }
  }

  lemma RunStaysSound(max: int, l: Life, id: string, doc: Job, mine: multiset<(string, Pc)>, run: seq<Action>, l': Life)
    requires Sound(max, l, id, doc, mine) && Legal(max, WorldOf(max, l), run, ANY_STEP)
    requires forall t :: mine[(id, t)] <= Exec(max, WorldOf(max, l), run, ANY_STEP).threads[t]
    requires l' == l.(story := l.story + run)
    ensures Sound(max, l', id, Exec(max, WorldOf(max, l), run, ANY_STEP).doc, mine)
  {
    RunThenRun(max, Initial(l.born), l.story, run);
    RunKeepsId(max, WorldOf(max, l), run);
  }

  /** Whatever run the others make of a job's machine, leaving the watched threads where they are: it is lawful. */
  lemma AnyRunIsLawful(max: int, r: Chronicle, lives: Lives, id: string, run: seq<Action>)
    requires Told(max, r) && Explains(max, r.log, lives) && id in r.docs
    requires Legal(max, WorldOf(max, lives[id]), run, ANY_STEP)
    requires forall t :: r.mine[(id, t)] <= Exec(max, WorldOf(max, lives[id]), run, ANY_STEP).threads[t]
    ensures Lawful(max, r.log + [Left(r.docs[id := Exec(max, WorldOf(max, lives[id]), run, ANY_STEP).doc], r.mine)])
  {
    assert Fitting(max, lives, r.docs, r.mine) && Sound(max, lives[id], id, r.docs[id], r.mine);
    var docs := r.docs[id := Exec(max, WorldOf(max, lives[id]), run, ANY_STEP).doc];
    var l' := lives[id].(story := lives[id].story + run);
    RunStaysSound(max, lives[id], id, r.docs[id], r.mine, run, l');
    OneLifeGoesOn(max, r, lives, id, docs, l');
  }

  lemma OneLifeGoesOn(max: int, r: Chronicle, lives: Lives, id: string, docs: map<string, Job>, l': Life)
    requires Fitting(max, lives, r.docs, r.mine) && Explains(max, r.log, lives) && id in lives
    requires l'.born == lives[id].born && lives[id].story <= l'.story
    requires id in docs && docs == r.docs[id := docs[id]] && Sound(max, l', id, docs[id], r.mine)
    ensures Lawful(max, r.log + [Left(docs, r.mine)])
  {
    var lives' := lives[id := l'];
    forall x | x in lives' ensures Sound(max, lives'[x], x, docs[x], r.mine) {
      if x != id {
        assert Sound(max, lives[x], x, r.docs[x], r.mine);
      }
    }
    ExplainNext(max, r.log, lives, Left(docs, r.mine), lives');
  }

  /** So is a job they create under an id of its own. */
  lemma AnyBirthIsLawful(max: int, r: Chronicle, lives: Lives, job: Job)
    requires Told(max, r) && Explains(max, r.log, lives) && job.jobId !in r.docs && Untouched(r.mine, job.jobId)
    ensures Lawful(max, r.log + [Left(r.docs[job.jobId := job], r.mine)])
  {
    assert Fitting(max, lives, r.docs, r.mine);
    var docs := r.docs[job.jobId := job];
    BirthIsSound(max, job, r.mine);
    forall x | x in lives ensures Sound(max, lives[x], x, docs[x], r.mine) {
      assert Sound(max, lives[x], x, r.docs[x], r.mine);
    }
    ExplainNext(max, r.log, lives, Left(docs, r.mine), lives[job.jobId := Life(job, [])]);
  }
}
