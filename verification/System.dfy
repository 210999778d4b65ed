/** Many jobs at once: the system is the jobs side by side, and what holds of each job's machine holds of all. */
module System {
  import opened Options
  import opened Status
  import opened JobModel
  import opened Writes
  import opened Protocol
  import opened Machine
  import opened Counting
  import opened AtomicRetry

  type Jobs = map<string, World>

  datatype Move = CreateJob(job: Job) | OnJob(id: string, a: Action)

  predicate CanMove(max: int, jobs: Jobs, m: Move) {
    match m
    case CreateJob(job) => Creatable(job) && job.jobId !in jobs
    case OnJob(id, a) => id in jobs && Enabled(max, jobs[id], a)
  }

  function Moved(max: int, jobs: Jobs, m: Move): Jobs
    requires CanMove(max, jobs, m)
  {
    match m
    case CreateJob(job) => jobs[job.jobId := Initial(job)]
    case OnJob(id, a) => jobs[id := Step(max, jobs[id], a)]
  }

  predicate Possible(max: int, jobs: Jobs, moves: seq<Move>)
    decreases |moves|
  {
    moves != [] ==> CanMove(max, jobs, moves[0]) && Possible(max, Moved(max, jobs, moves[0]), moves[1..])
  }

  function Play(max: int, jobs: Jobs, moves: seq<Move>): Jobs
    requires Possible(max, jobs, moves)
    decreases |moves|
  {
    if moves == [] then jobs else Play(max, Moved(max, jobs, moves[0]), moves[1..])
  }

  /** A job that is there has, by the end, done a run of its own machine. */
  lemma {:induction false} EachJobRuns(max: int, jobs: Jobs, moves: seq<Move>, id: string) returns (run: seq<Action>)
    requires Possible(max, jobs, moves) && id in jobs
    ensures id in Play(max, jobs, moves)
    ensures Legal(max, jobs[id], run, ANY_STEP) && Exec(max, jobs[id], run, ANY_STEP) == Play(max, jobs, moves)[id]
    decreases |moves|
  {
    if moves == [] {
      run := [];
    } else {
      run := EachJobRuns(max, Moved(max, jobs, moves[0]), moves[1..], id);
      if moves[0].OnJob? && moves[0].id == id {
        StepThenRun(max, jobs[id], moves[0].a, Step(max, jobs[id], moves[0].a), run);
        run := [moves[0].a] + run;
      }
    }
  }

  /** A job that is not there at first is created on the way. */
  lemma {:induction false} EachJobCreated(max: int, jobs: Jobs, moves: seq<Move>, id: string)
    returns (j: Job, run: seq<Action>)
    requires Possible(max, jobs, moves) && id !in jobs && id in Play(max, jobs, moves)
    ensures Creatable(j) && j.jobId == id
    ensures Legal(max, Initial(j), run, ANY_STEP) && Exec(max, Initial(j), run, ANY_STEP) == Play(max, jobs, moves)[id]
    decreases |moves|
  {
    var next := Moved(max, jobs, moves[0]);
    if id in next {
      j := moves[0].job;
      run := EachJobRuns(max, next, moves[1..], id);
    } else {
      j, run := EachJobCreated(max, next, moves[1..], id);
    }
  }

  /** In every state the whole system can reach, every job keeps to its budgets. */
  lemma EveryJobKeepsItsBudgets(max: int, moves: seq<Move>, id: string)
    requires max >= 1 && Possible(max, map[], moves) && id in Play(max, map[], moves)
    ensures var s := Play(max, map[], moves)[id];
            && |s.h.runs| <= 1 + s.doc.retryCount
            && s.h.terminalWrites <= 1 + s.doc.retryCount
            && |s.doc.errors| <= 2 * (1 + s.doc.retryCount)
            && 0 <= s.doc.dispatchAttempts <= max
            && (s.doc.dispatchStatus.Dispatched? ==> s.sent != [])
  {
    var j, run := EachJobCreated(max, map[], moves, id);
    HandlerRunsBounded(max, j, run, ANY_STEP);
    OneTerminalWritePerAttempt(max, j, run, ANY_STEP);
    ErrorHistoryBounded(max, j, run, ANY_STEP);
    DispatchAttemptsBounded(max, j, run, ANY_STEP);
    DispatchedOnlyAfterPublish(max, j, run, ANY_STEP);
  }
}
