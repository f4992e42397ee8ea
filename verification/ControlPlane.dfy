/**
 The job control plane as an event system.

 One event is one atomic step of the running system: a committed transaction, one Redis
 command, one queue operation, or an internal step of a leg (one execution of the agent graph).
 Events of dispatcher, sweeper, operator, workers and queue interleave freely. The queue may
 duplicate messages and deliver one again as long as it has not been acknowledged.
 Only one dispatch pass exists at a time.
 */
module ControlPlane {
  import opened Prelude
  import opened Jobs

  datatype Config = Config(maxRuns: nat, dispatchLease: nat, processingLease: nat)

  datatype JobSession = JobSession(job: JobId, primary: bool)

  /** Where a leg is. Every place from `InGraph` to `Escaping` is still executing. */
  datatype Pc =
    | InGraph     // the graph runs, or is about to
    | Pausing     // the graph stopped at an interrupt; the job is about to await a human
    | Finalizing  // the graph finished; the job is about to be completed
    | Indexing    // the job was completed; the index task is about to be queued
    | Failing     // an exception was caught; the job is about to be failed
    | Returning   // the graph call returned; the slot is about to be released
    | Escaping    // an exception was not caught; the slot is about to be released
    | Ended
    | Crashed     // the worker died, or an exception escaped

  /** `first` legs come from `run_pipeline`; the others resume or replay a pipeline run. */
  datatype Leg = Leg(job: JobId, first: bool, pc: Pc)

  /** The dispatch pass in progress, if any. */
  datatype Pass =
    | Idle
    | Budgeted(room: nat)
    | Acquiring(todo: seq<JobId>)
    | Enqueuing(job: JobId, rest: seq<JobId>)

  datatype State = State(
    jobs: Rows, sessions: seq<JobSession>, inFlight: set<JobId>, queue: multiset<JobId>,
    pass: Pass, legs: seq<Leg>, clock: Time, lastSweep: Time)

  datatype Action =
    | GraphPaused | GraphFinished | Raised | MoveJob(error: string) | IndexQueued
    | Escape | Release(reached: bool) | Die

  datatype Event =
    | Create(id: JobId, item: nat, owner: string, priority: int)
    | Promote(id: JobId)
    | ReadBudget
    | CommitPass(picked: seq<JobId>)
    | AcquireNext
    | EnqueueNext
    | CrashPass
    | Duplicate(id: JobId)
    | Deliver(id: JobId)
    | Acknowledge(id: JobId)
    | Replay(id: JobId)
    | Resume(id: JobId)
    | LegStep(leg: nat, action: Action)
    | Sweep
    | Tick(seconds: nat)
    | Cancel(id: JobId, reason: string)
    | Retry(id: JobId)
    | Archive(id: JobId)

  function Init(now: Time): State {
    State(map[], [], {}, multiset{}, Idle, [], now, now)
  }

  predicate Executing(pc: Pc) {
    pc != Ended && pc != Crashed
  }

  /** Slots still free; never negative. */
  function Room(c: Config, s: State): nat {
    if c.maxRuns > |s.inFlight| then c.maxRuns - |s.inFlight| else 0
  }

  predicate ActionEnabled(pc: Pc, a: Action) {
    match a
    case GraphPaused => pc == InGraph
    case GraphFinished => pc == InGraph
    case Raised => pc in {InGraph, Pausing, Finalizing, Indexing}
    case MoveJob(_) => pc in {Pausing, Finalizing, Failing}
    case IndexQueued => pc == Indexing
    case Escape => pc in {InGraph, Pausing, Finalizing, Indexing, Failing}
    case Release(_) => pc in {Returning, Escaping}
    case Die => Executing(pc)
  }

  predicate Enabled(c: Config, s: State, e: Event) {
    match e
    case Create(id, item, _, _) => id !in s.jobs && forall j :: j in s.jobs ==> s.jobs[j].item != item
    case ReadBudget => s.pass == Idle
    case CommitPass(picked) =>
      && s.pass.Budgeted?
      && |picked| <= s.pass.room
      && NoDuplicates(picked)
      && forall i :: 0 <= i < |picked| ==> picked[i] in ReadySet(s.jobs)
    case AcquireNext => s.pass.Acquiring? && s.pass.todo != []
    case EnqueueNext => s.pass.Enqueuing?
    case Duplicate(id) => id in s.queue
    case Deliver(id) => id in s.queue
    case Acknowledge(id) => id in s.queue
    case Replay(id) => id in s.jobs
    case Resume(id) => id in s.jobs
    case LegStep(i, a) => i < |s.legs| && ActionEnabled(s.legs[i].pc, a)
    case Cancel(id, _) => id in s.jobs
    case Retry(id) => id in s.jobs
    case Archive(id) => id in s.jobs
    case _ => true
  }

  function Remaining(todo: seq<JobId>): Pass {
    if todo == [] then Idle else Acquiring(todo)
  }

  /** A delivered message: the guarded transition, the primary session and the run are one transaction. */
  function Delivered(s: State, id: JobId): State {
    var r := Moved(s.jobs, id, Dispatched, Processing, s.clock, NO_EXTRA);
    if r.Err? then s
    else
      var rows := r.value;
      s.(jobs := rows[id := rows[id].(session := Some(|s.sessions|))],
         sessions := s.sessions + [JobSession(id, true)],
         legs := s.legs + [Leg(id, true, InGraph)])
  }

  /** The graph call's handling of its job, from one of the three places that move it. */
  function JobMoved(s: State, i: nat, error: string): State
    requires i < |s.legs| && s.legs[i].pc in {Pausing, Finalizing, Failing}
  {
    var leg := s.legs[i];
    match leg.pc
    case Pausing =>
      s.(jobs := Attempt(s.jobs, leg.job, Processing, AwaitingHuman, s.clock, NO_EXTRA),
         legs := s.legs[i := leg.(pc := Returning)])
    case Finalizing =>
      var r := Moved(s.jobs, leg.job, Processing, Completed, s.clock, NO_EXTRA);
      if r.Ok? then s.(jobs := r.value, legs := s.legs[i := leg.(pc := Indexing)])
      else s.(legs := s.legs[i := leg.(pc := Failing)])
    case _ =>
      s.(jobs := Attempt(s.jobs, leg.job, Processing, Failed, s.clock, Extra(None, Some(Some(error)), None)),
         legs := s.legs[i := leg.(pc := Returning)])
  }

  function Acted(s: State, i: nat, a: Action): State
    requires i < |s.legs| && ActionEnabled(s.legs[i].pc, a)
  {
    var leg := s.legs[i];
    match a
    case GraphPaused => s.(legs := s.legs[i := leg.(pc := Pausing)])
    case GraphFinished => s.(legs := s.legs[i := leg.(pc := Finalizing)])
    case Raised => s.(legs := s.legs[i := leg.(pc := Failing)])
    case MoveJob(error) => JobMoved(s, i, error)
    case IndexQueued => s.(legs := s.legs[i := leg.(pc := Returning)])
    case Escape => s.(legs := s.legs[i := leg.(pc := Escaping)])
    case Release(reached) =>
      s.(inFlight := if leg.first && reached then s.inFlight - {leg.job} else s.inFlight,
         legs := s.legs[i := leg.(pc := if leg.pc == Returning then Ended else Crashed)])
    case Die => s.(legs := s.legs[i := leg.(pc := Crashed)])
  }

  function Next(c: Config, s: State, e: Event): State
    requires Enabled(c, s, e)
  {
    match e
    case Create(id, item, owner, priority) =>
      s.(jobs := s.jobs[id := Job(item, owner, Intake, priority, 0, s.clock, None, None, None, None, None, None)])
    case Promote(id) => s.(jobs := Attempt(s.jobs, id, Intake, Ready, s.clock, NO_EXTRA))
    case ReadBudget => s.(pass := if Room(c, s) == 0 then Idle else Budgeted(Room(c, s)))
    case CommitPass(picked) =>
      var (rows, done) := DispatchAll(s.jobs, picked, s.clock);
      s.(jobs := rows, pass := Remaining(done))
    case AcquireNext =>
      s.(inFlight := s.inFlight + {s.pass.todo[0]}, pass := Enqueuing(s.pass.todo[0], s.pass.todo[1..]))
    case EnqueueNext => s.(queue := s.queue + multiset{s.pass.job}, pass := Remaining(s.pass.rest))
    case CrashPass => s.(pass := Idle)
    case Duplicate(id) => s.(queue := s.queue + multiset{id})
    case Deliver(id) => Delivered(s, id)
    case Acknowledge(id) => s.(queue := s.queue - multiset{id})
    case Replay(id) => s.(sessions := s.sessions + [JobSession(id, false)])
    case Resume(id) =>
      s.(jobs := Attempt(s.jobs, id, AwaitingHuman, Processing, s.clock, NO_EXTRA),
         legs := s.legs + [Leg(id, false, InGraph)])
    case LegStep(i, a) => Acted(s, i, a)
    case Sweep =>
      s.(jobs := Reaped(s.jobs, s.clock, c.dispatchLease, c.processingLease), lastSweep := s.clock)
    case Tick(seconds) => s.(clock := s.clock + seconds)
    case Cancel(id, reason) =>
      s.(jobs := Attempt(s.jobs, id, s.jobs[id].state, Failed, s.clock, CancelExtra(reason)))
    case Retry(id) => s.(jobs := Attempt(s.jobs, id, Failed, Ready, s.clock, RetryExtra(s.jobs[id])))
    case Archive(id) => s.(jobs := Attempt(s.jobs, id, s.jobs[id].state, Archived, s.clock, NO_EXTRA))
  }

  /** `es` can happen from `s`, one event after another. */
  predicate Runs(c: Config, s: State, es: seq<Event>)
    decreases |es|
  {
    es == [] || (Enabled(c, s, es[0]) && Runs(c, Next(c, s, es[0]), es[1..]))
  }

  function After(c: Config, s: State, es: seq<Event>): State
    requires Runs(c, s, es)
    decreases |es|
  {
    if es == [] then s else After(c, Next(c, s, es[0]), es[1..])
  }

  lemma {:induction false} RunsAppend(c: Config, s: State, es: seq<Event>, fs: seq<Event>)
    requires Runs(c, s, es) && Runs(c, After(c, s, es), fs)
    ensures Runs(c, s, es + fs) && After(c, s, es + fs) == After(c, After(c, s, es), fs)
    decreases |es|
  {
    if es == [] {
      assert es + fs == fs;
    } else {
      RunsAppend(c, Next(c, s, es[0]), es[1..], fs);
      assert (es + fs)[1..] == es[1..] + fs;
    }
  }

  lemma {:induction false} RunsSplit(c: Config, s: State, es: seq<Event>, fs: seq<Event>)
    requires Runs(c, s, es + fs)
    ensures Runs(c, s, es) && Runs(c, After(c, s, es), fs)
    ensures After(c, s, es + fs) == After(c, After(c, s, es), fs)
    decreases |es|
  {
    if es == [] {
      assert es + fs == fs;
    } else {
      assert (es + fs)[1..] == es[1..] + fs;
      RunsSplit(c, Next(c, s, es[0]), es[1..], fs);
    }
  }
}
