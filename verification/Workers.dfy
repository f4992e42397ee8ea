/**
 The dispatcher and the worker tasks as programs.

 Each method runs one task from start to end without interruption, and returns, as a ghost, the
 events of the control plane it performed: the new state is the old one after those events.
 */
module Workers {
  import opened Prelude
  import opened Jobs
  import opened ControlPlane

  /** The Redis set of jobs in flight. */
  class ConcurrencyBudget {
    const maxRuns: nat
    var inFlight: set<JobId>

    constructor (maxRuns: nat)
      ensures this.maxRuns == maxRuns && inFlight == {}
    {
      this.maxRuns := maxRuns;
      inFlight := {};
    }

    method Current() returns (room: nat)
      ensures room + |inFlight| == maxRuns || (room == 0 && |inFlight| > maxRuns)
    {
      var free: int := maxRuns - |inFlight|;
      room := if free > 0 then free else 0;
    }

    method Acquire(id: JobId)
      modifies this
      ensures inFlight == old(inFlight) + {id}
    {
      inFlight := inFlight + {id};
    }

    method Release(id: JobId)
      modifies this
      ensures inFlight == old(inFlight) - {id}
    {
      inFlight := inFlight - {id};
    }
  }

  /** What the agent graph did, as seen by the code that called it. */
  datatype GraphOutcome =
    | Interrupted
    | Finished(indexingFails: bool)
    | GraphError(error: string)
    | Uncaught

  /** How the graph call itself came back. */
  datatype CallResult = Returned(ok: bool) | Propagated

  datatype TaskResult = Done(ok: bool) | Refused | Escaped

  predicate CanComplete(rows: Rows, id: JobId) {
    id in rows && rows[id].state == JobState.Processing
  }

  /** The table after a graph call with this outcome. */
  function Handled(rows: Rows, id: JobId, outcome: GraphOutcome, now: Time): Rows {
    match outcome
    case Uncaught => rows
    case Interrupted => Attempt(rows, id, JobState.Processing, JobState.AwaitingHuman, now, NO_EXTRA)
    case Finished(_) => Attempt(rows, id, JobState.Processing, JobState.Completed, now, NO_EXTRA)
    case GraphError(error) =>
      Attempt(rows, id, JobState.Processing, JobState.Failed, now, Extra(None, Some(Some(error)), None))
  }

  function EndState(outcome: GraphOutcome): JobState {
    match outcome
    case Uncaught => JobState.Processing
    case Interrupted => JobState.AwaitingHuman
    case Finished(_) => JobState.Completed
    case GraphError(_) => JobState.Failed
  }

  /** How a processing job and the task that drives it end up, by what the graph did. */
  predicate EndsAs(outcome: GraphOutcome, before: Job, after: Job, now: Time) {
    match outcome
    case Uncaught => after == before
    case Interrupted => after == before.(state := JobState.AwaitingHuman)
    case Finished(_) => after == before.(state := JobState.Completed, finishedAt := Some(now))
    case GraphError(error) => after == before.(state := JobState.Failed, finishedAt := Some(now), lastError := Some(error))
  }

  lemma {:induction false} HandledState(rows: Rows, id: JobId, outcome: GraphOutcome, now: Time)
    requires CanComplete(rows, id)
    ensures var after := Handled(rows, id, outcome, now);
            && id in after && after[id].state == EndState(outcome) && after[id].session == rows[id].session
            && EndsAs(outcome, rows[id], after[id], now)
            && forall other :: other in rows && other != id ==> other in after && after[other] == rows[other]
  {
  }

  function Elements(ids: seq<JobId>): set<JobId> {
    set i | 0 <= i < |ids| :: ids[i]
  }

  // ---------------------------------------------------------------- the events of a task

  function PassEvents(n: nat): seq<Event> {
    if n == 0 then [] else [AcquireNext, EnqueueNext] + PassEvents(n - 1)
  }

  function DispatchEvents(room: nat, picked: seq<JobId>): seq<Event> {
    if room == 0 then [ReadBudget] else [ReadBudget, CommitPass(picked)] + PassEvents(|picked|)
  }

  /** Leg `i`, from the start of the graph to its return. */
  function GraphEvents(rows: Rows, id: JobId, i: nat, outcome: GraphOutcome): seq<Event> {
    match outcome
    case Uncaught => [LegStep(i, Escape)]
    case Interrupted => [LegStep(i, GraphPaused), LegStep(i, MoveJob(""))]
    case Finished(indexingFails) =>
      [LegStep(i, GraphFinished), LegStep(i, MoveJob(""))] + FinishEvents(CanComplete(rows, id), indexingFails, i)
    case GraphError(error) => [LegStep(i, Raised), LegStep(i, MoveJob(error))]
  }

  lemma {:induction false} RunOne(c: Config, s: State, e: Event, t: State)
    requires Enabled(c, s, e) && Next(c, s, e) == t
    ensures Runs(c, s, [e]) && After(c, s, [e]) == t
  {
    assert [e][1..] == [];
  }

  lemma {:induction false} RunTwo(c: Config, s: State, e: Event, t: State, f: Event, u: State)
    requires Enabled(c, s, e) && Next(c, s, e) == t && Enabled(c, t, f) && Next(c, t, f) == u
    ensures Runs(c, s, [e, f]) && After(c, s, [e, f]) == u
  {
    RunOne(c, s, e, t);
    RunOne(c, t, f, u);
    RunsAppend(c, s, [e], [f]);
    assert [e] + [f] == [e, f];
  }

  lemma {:induction false} ElementsCons(id: JobId, ids: seq<JobId>)
    ensures Elements([id] + ids) == {id} + Elements(ids)
  {
    var more := [id] + ids;
    assert more[0] == id;
    forall x | x in Elements(ids) ensures x in Elements(more) {
      var i :| 0 <= i < |ids| && ids[i] == x;
      assert more[i + 1] == x;
    }
    forall x | x in Elements(more) ensures x in {id} + Elements(ids) {
      var i :| 0 <= i < |more| && more[i] == x;
      if i > 0 { assert ids[i - 1] == x; }
    }
  }

  lemma {:induction false} ElementsSnoc(ids: seq<JobId>, id: JobId)
    ensures Elements(ids + [id]) == Elements(ids) + {id}
  {
    var more := ids + [id];
    forall x | x in Elements(ids) ensures x in Elements(more) {
      var i :| 0 <= i < |ids| && ids[i] == x;
      assert more[i] == x;
    }
    assert more[|ids|] == id;
  }

  lemma {:induction false} PassPair(c: Config, s: State, id: JobId, rest: seq<JobId>, u: State)
    requires s.pass == Acquiring([id] + rest)
    requires u == s.(pass := Remaining(rest), inFlight := s.inFlight + {id}, queue := s.queue + multiset{id})
    ensures Runs(c, s, [AcquireNext, EnqueueNext]) && After(c, s, [AcquireNext, EnqueueNext]) == u
  {
    assert ([id] + rest)[1..] == rest;
    var t := s.(pass := Enqueuing(id, rest), inFlight := s.inFlight + {id});
    RunTwo(c, s, AcquireNext, t, EnqueueNext, u);
  }

  function Enqueued(s: State, todo: seq<JobId>, pass: Pass): State {
    s.(pass := pass, inFlight := s.inFlight + Elements(todo), queue := s.queue + multiset(todo))
  }

  lemma {:induction false} EnqueuedNothing(s: State)
    requires s.pass == Idle
    ensures Enqueued(s, [], Idle) == s
  {
    assert s.inFlight + Elements([]) == s.inFlight;
    assert s.queue + multiset([]) == s.queue;
  }

  lemma {:induction false} EnqueuedCons(s: State, id: JobId, rest: seq<JobId>, u: State)
    requires u == s.(pass := Remaining(rest), inFlight := s.inFlight + {id}, queue := s.queue + multiset{id})
    ensures Enqueued(u, rest, Idle) == Enqueued(s, [id] + rest, Idle)
  {
    ElementsCons(id, rest);
    assert s.inFlight + {id} + Elements(rest) == s.inFlight + Elements([id] + rest);
    assert s.queue + multiset{id} + multiset(rest) == s.queue + multiset([id] + rest);
  }

  /** The acquire-and-enqueue loop of a pass. */
  lemma {:induction false} PassRuns(c: Config, s: State, todo: seq<JobId>)
    requires s.pass == Remaining(todo)
    ensures Runs(c, s, PassEvents(|todo|))
    ensures After(c, s, PassEvents(|todo|)) == Enqueued(s, todo, Idle)
    decreases |todo|
  {
    if todo == [] {
      EnqueuedNothing(s);
    } else {
      var id, rest := todo[0], todo[1..];
      assert todo == [id] + rest;
      var u := s.(pass := Remaining(rest), inFlight := s.inFlight + {id}, queue := s.queue + multiset{id});
      PassPair(c, s, id, rest, u);
      PassRuns(c, u, rest);
      EnqueuedCons(s, id, rest, u);
      RunsAppend(c, s, [AcquireNext, EnqueueNext], PassEvents(|rest|));
    }
  }

  /** A whole dispatch pass. */
  lemma {:induction false} DispatchRuns(c: Config, s: State, picked: seq<JobId>)
    requires s.pass == Idle && IsPick(s.jobs, Room(c, s), picked)
    ensures Runs(c, s, DispatchEvents(Room(c, s), picked))
    ensures After(c, s, DispatchEvents(Room(c, s), picked)) ==
              s.(jobs := DispatchAll(s.jobs, picked, s.clock).0,
                 inFlight := s.inFlight + Elements(picked), queue := s.queue + multiset(picked))
  {
    if Room(c, s) == 0 {
      RunOne(c, s, ReadBudget, s);
      assert picked == [];
      assert s.inFlight + Elements(picked) == s.inFlight;
      assert s.queue + multiset(picked) == s.queue;
    } else {
      DispatchAllMovesPick(s.jobs, picked, s.clock);
      var t := s.(pass := Budgeted(Room(c, s)));
      var u := s.(jobs := DispatchAll(s.jobs, picked, s.clock).0, pass := Remaining(picked));
      RunTwo(c, s, ReadBudget, t, CommitPass(picked), u);
      PassRuns(c, u, picked);
      RunsAppend(c, s, [ReadBudget, CommitPass(picked)], PassEvents(|picked|));
      assert Enqueued(u, picked, Idle) == Enqueued(s, picked, Idle).(jobs := u.jobs);
    }
  }

  function At(s: State, i: nat, pc: Pc): State
    requires i < |s.legs|
  {
    s.(legs := s.legs[i := s.legs[i].(pc := pc)])
  }

  /** What a finished graph's leg does after its attempt to complete the job. */
  function FinishEvents(completes: bool, fails: bool, i: nat): seq<Event> {
    if !completes then [LegStep(i, MoveJob(""))]
    else if fails then [LegStep(i, Raised), LegStep(i, MoveJob(""))]
    else [LegStep(i, IndexQueued)]
  }

  lemma {:induction false} FailingStep(c: Config, s: State, i: nat, error: string)
    requires i < |s.legs| && s.legs[i].pc == Failing
    ensures Enabled(c, s, LegStep(i, MoveJob(error)))
    ensures Next(c, s, LegStep(i, MoveJob(error)))
         == At(s, i, Returning).(jobs := Handled(s.jobs, s.legs[i].job, GraphError(error), s.clock))
  {
  }

  lemma {:induction false} AtAt(s: State, i: nat, pc: Pc, pc': Pc)
    requires i < |s.legs|
    ensures At(At(s, i, pc), i, pc') == At(s, i, pc')
  {
  }

  /** A job that is not processing is not failed again. */
  lemma {:induction false} FinishRuns(c: Config, u: State, i: nat, completes: bool, fails: bool)
    requires i < |u.legs| && u.legs[i].pc == if completes then Indexing else Failing
    requires !CanComplete(u.jobs, u.legs[i].job)
    ensures Runs(c, u, FinishEvents(completes, fails, i))
    ensures After(c, u, FinishEvents(completes, fails, i)) == At(u, i, Returning)
  {
    var end := At(u, i, Returning);
    if !completes {
      FailingStep(c, u, i, "");
      RunOne(c, u, LegStep(i, MoveJob("")), end);
    } else if fails {
      FailingStep(c, At(u, i, Failing), i, "");
      AtAt(u, i, Failing, Returning);
      RunTwo(c, u, LegStep(i, Raised), At(u, i, Failing), LegStep(i, MoveJob("")), end);
    } else {
      RunOne(c, u, LegStep(i, IndexQueued), end);
    }
  }

  /** The attempt to complete the job of a finished graph. */
  lemma {:induction false} CompletingStep(c: Config, s: State, i: nat, fails: bool)
    requires i < |s.legs| && s.legs[i].pc == Finalizing
    ensures Enabled(c, s, LegStep(i, MoveJob("")))
    ensures Next(c, s, LegStep(i, MoveJob("")))
         == At(s, i, if CanComplete(s.jobs, s.legs[i].job) then Indexing else Failing)
              .(jobs := Handled(s.jobs, s.legs[i].job, Finished(fails), s.clock))
    ensures !CanComplete(Handled(s.jobs, s.legs[i].job, Finished(fails), s.clock), s.legs[i].job)
  {
  }

  /** A finished graph: the job is completed, or the refusal is handled as a failure. */
  lemma {:induction false} FinishedRuns(c: Config, s: State, i: nat, fails: bool)
    requires i < |s.legs| && s.legs[i].pc == InGraph
    ensures var es := GraphEvents(s.jobs, s.legs[i].job, i, Finished(fails));
            && Runs(c, s, es)
            && After(c, s, es) == At(s, i, Returning).(jobs := Handled(s.jobs, s.legs[i].job, Finished(fails), s.clock))
  {
    hide Runs, After, Handled, FinishEvents;
    var id := s.legs[i].job;
    var completes := CanComplete(s.jobs, id);
    var u := At(s, i, if completes then Indexing else Failing).(jobs := Handled(s.jobs, id, Finished(fails), s.clock));
    CompletingStep(c, At(s, i, Finalizing), i, fails);
    RunTwo(c, s, LegStep(i, GraphFinished), At(s, i, Finalizing), LegStep(i, MoveJob("")), u);
    FinishRuns(c, u, i, completes, fails);
    RunsAppend(c, s, [LegStep(i, GraphFinished), LegStep(i, MoveJob(""))], FinishEvents(completes, fails, i));
  }

  lemma {:induction false} PausedRuns(c: Config, s: State, i: nat, end: State)
    requires i < |s.legs| && s.legs[i].pc == InGraph
    requires end == At(s, i, Returning).(jobs := Handled(s.jobs, s.legs[i].job, Interrupted, s.clock))
    ensures Runs(c, s, GraphEvents(s.jobs, s.legs[i].job, i, Interrupted))
    ensures After(c, s, GraphEvents(s.jobs, s.legs[i].job, i, Interrupted)) == end
  {
    RunTwo(c, s, LegStep(i, GraphPaused), At(s, i, Pausing), LegStep(i, MoveJob("")), end);
  }

  lemma {:induction false} ErrorRuns(c: Config, s: State, i: nat, error: string, end: State)
    requires i < |s.legs| && s.legs[i].pc == InGraph
    requires end == At(s, i, Returning).(jobs := Handled(s.jobs, s.legs[i].job, GraphError(error), s.clock))
    ensures Runs(c, s, GraphEvents(s.jobs, s.legs[i].job, i, GraphError(error)))
    ensures After(c, s, GraphEvents(s.jobs, s.legs[i].job, i, GraphError(error))) == end
  {
    FailingStep(c, At(s, i, Failing), i, error);
    AtAt(s, i, Failing, Returning);
    RunTwo(c, s, LegStep(i, Raised), At(s, i, Failing), LegStep(i, MoveJob(error)), end);
  }

  /** The graph call, whatever its outcome. */
  lemma {:induction false} GraphRuns(c: Config, s: State, i: nat, outcome: GraphOutcome)
    requires i < |s.legs| && s.legs[i].pc == InGraph
    ensures var es := GraphEvents(s.jobs, s.legs[i].job, i, outcome);
            && Runs(c, s, es)
            && After(c, s, es) == At(s, i, if outcome.Uncaught? then Escaping else Returning)
                                    .(jobs := Handled(s.jobs, s.legs[i].job, outcome, s.clock))
  {
    var end := At(s, i, Returning).(jobs := Handled(s.jobs, s.legs[i].job, outcome, s.clock));
    match outcome
    case Uncaught => RunOne(c, s, LegStep(i, Escape), At(s, i, Escaping));
    case Interrupted => PausedRuns(c, s, i, end);
    case Finished(fails) => FinishedRuns(c, s, i, fails);
    case GraphError(error) => ErrorRuns(c, s, i, error, end);
  }

  /** A leg from the event that starts it to its end. */
  lemma {:induction false} LegRuns(c: Config, s: State, start: Event, t: State, i: nat, outcome: GraphOutcome, reached: bool)
    requires Enabled(c, s, start) && Next(c, s, start) == t && i < |t.legs| && t.legs[i].pc == InGraph
    ensures var leg := t.legs[i];
            var es := [start] + GraphEvents(t.jobs, leg.job, i, outcome) + [LegStep(i, Action.Release(reached))];
            && Runs(c, s, es)
            && After(c, s, es) == At(t, i, if outcome.Uncaught? then Crashed else Ended)
                                    .(jobs := Handled(t.jobs, leg.job, outcome, t.clock),
                                      inFlight := if leg.first && reached then t.inFlight - {leg.job} else t.inFlight)
  {
    var leg := t.legs[i];
    var events := GraphEvents(t.jobs, leg.job, i, outcome);
    RunOne(c, s, start, t);
    GraphRuns(c, t, i, outcome);
    var u := After(c, t, events);
    RunsAppend(c, s, [start], events);
    RunOne(c, u, LegStep(i, Action.Release(reached)), Next(c, u, LegStep(i, Action.Release(reached))));
    RunsAppend(c, s, [start] + events, [LegStep(i, Action.Release(reached))]);
  }

  class Runtime {
    const cfg: Config
    const jobs: JobService
    const budget: ConcurrencyBudget
    var sessions: seq<JobSession>
    var queue: multiset<JobId>
    var legs: seq<Leg>
    var clock: Time
    var lastSweep: Time

    constructor (cfg: Config, now: Time)
      ensures Snapshot() == Init(now) && Valid() && this.cfg == cfg
      ensures fresh(jobs) && fresh(budget)
    {
      this.cfg := cfg;
      jobs := new JobService();
      budget := new ConcurrencyBudget(cfg.maxRuns);
      sessions, queue, legs, clock, lastSweep := [], multiset{}, [], now, now;
    }

    ghost predicate Valid() {
      budget.maxRuns == cfg.maxRuns
    }

    /** The state between tasks, when no pass is in progress. */
    ghost function Snapshot(): State
      reads this, jobs, budget
    {
      State(jobs.rows, sessions, budget.inFlight, queue, Idle, legs, clock, lastSweep)
    }

    /** One dispatch pass: the best ready jobs that fit, each dispatched, given a slot and queued. */
    method DispatchOnce() returns (dispatched: seq<JobId>)
      requires Valid()
      modifies `queue, jobs, budget
      ensures IsPick(old(jobs.rows), Room(cfg, old(Snapshot())), dispatched)
      ensures TakesBest(old(jobs.rows), dispatched)
      ensures FillsRoom(old(jobs.rows), cfg.maxRuns - |old(budget.inFlight)|, dispatched)
      ensures |old(budget.inFlight)| < cfg.maxRuns ==>
                forall id :: id in old(jobs.rows) && TopsReady(old(jobs.rows), id) ==> id in dispatched
      ensures budget.inFlight == old(budget.inFlight) + Elements(dispatched)
      ensures queue == old(queue) + multiset(dispatched)
      ensures forall id :: id in old(jobs.rows) ==>
                id in jobs.rows &&
                jobs.rows[id] == if id in dispatched
                                 then Stamp(old(jobs.rows)[id], JobState.Dispatched, clock, NO_EXTRA)
                                 else old(jobs.rows)[id]
      ensures var es := DispatchEvents(Room(cfg, old(Snapshot())), dispatched);
              Runs(cfg, old(Snapshot()), es) && After(cfg, old(Snapshot()), es) == Snapshot()
    {
      hide IsPick, TakesBest, FillsRoom, TopsReady, DispatchAll;
      ghost var start := Snapshot();
      var room := budget.Current();
      dispatched := [];
      if room <= 0 {
        NothingPicked(start.jobs, room);
        PickTakesBest(start.jobs, room, dispatched);
        NoRoomToFill(start.jobs, cfg.maxRuns - |budget.inFlight|);
        DispatchRuns(cfg, start, dispatched);
        assert start.inFlight + Elements([]) == start.inFlight;
        assert start.queue + multiset([]) == start.queue;
        return;
      }
      var picked := jobs.PickReadyJobs(room);
      dispatched := MarkDispatched(picked);
      PickIsDispatched(start.jobs, room, picked, clock);
      DispatchRuns(cfg, start, picked);
      PickTakesBest(start.jobs, room, picked);
      PickFillsRoom(start.jobs, room, picked);
      forall id | id in start.jobs && TopsReady(start.jobs, id) ensures id in picked {
        HighestIsPicked(start.jobs, room, picked, id);
      }
      EnqueueAll(dispatched);
    }

    /** The transition loop of a pass; a refused row is skipped. */
    method MarkDispatched(picked: seq<JobId>) returns (dispatched: seq<JobId>)
      modifies jobs
      ensures (jobs.rows, dispatched) == DispatchAll(old(jobs.rows), picked, clock)
    {
      dispatched := [];
      var n := 0;
      while n < |picked|
        invariant n <= |picked|
        invariant (jobs.rows, dispatched) == DispatchAll(old(jobs.rows), picked[..n], clock)
      {
        var r := jobs.Transition(picked[n], Ready, JobState.Dispatched, clock, NO_EXTRA);
        assert picked[..n + 1][..n] == picked[..n];
        n := n + 1;
        if r.Err? {
          continue;
        }
        dispatched := dispatched + [picked[n - 1]];
      }
      assert picked[..n] == picked;
    }

    /** The slot and the message of every dispatched job. */
    method EnqueueAll(dispatched: seq<JobId>)
      modifies `queue, budget
      ensures queue == old(queue) + multiset(dispatched)
      ensures budget.inFlight == old(budget.inFlight) + Elements(dispatched)
    {
      var n := 0;
      while n < |dispatched|
        invariant n <= |dispatched|
        invariant queue == old(queue) + multiset(dispatched[..n])
        invariant budget.inFlight == old(budget.inFlight) + Elements(dispatched[..n])
      {
        var id := dispatched[n];
        assert dispatched[..n + 1] == dispatched[..n] + [id];
        ElementsSnoc(dispatched[..n], id);
        budget.Acquire(id);
        queue := queue + multiset{id};
        n := n + 1;
      }
      assert dispatched[..n] == dispatched;
    }

    /** The periodic sweep. */
    method Sweep() returns (reverted: nat, failed: nat)
      modifies `lastSweep, jobs
      ensures Snapshot() == Next(cfg, old(Snapshot()), Event.Sweep)
    {
      reverted, failed := jobs.ReapStuck(clock, cfg.dispatchLease, cfg.processingLease);
      lastSweep := clock;
    }

    /** The graph call for leg `i` and what it does to the leg's job. */
    method InvokeGraph(i: nat, outcome: GraphOutcome) returns (r: CallResult)
      requires i < |legs| && legs[i].pc == InGraph
      modifies `legs, jobs
      ensures jobs.rows == Handled(old(jobs.rows), old(legs[i]).job, outcome, clock)
      ensures legs == old(legs)[i := old(legs[i]).(pc := if r.Propagated? then Escaping else Returning)]
      ensures r.Propagated? <==> outcome.Uncaught?
      ensures r.Returned? ==>
                (r.ok <==> outcome.Interrupted?
                           || (outcome == Finished(false) && CanComplete(old(jobs.rows), old(legs[i]).job)))
    {
      var leg := legs[i];
      match outcome {
        case Uncaught =>
          legs := legs[i := leg.(pc := Escaping)];
          return Propagated;
        case Interrupted =>
          legs := legs[i := leg.(pc := Pausing)];
          var _ := jobs.Transition(leg.job, JobState.Processing, JobState.AwaitingHuman, clock, NO_EXTRA);
          legs := legs[i := leg.(pc := Returning)];
          return Returned(true);
        case Finished(indexingFails) =>
          legs := legs[i := leg.(pc := Finalizing)];
          var moved := jobs.Transition(leg.job, JobState.Processing, JobState.Completed, clock, NO_EXTRA);
          if moved.Ok? && !indexingFails {
            legs := legs[i := leg.(pc := Returning)];
            return Returned(true);
          }
          FailJob(i, "");
          return Returned(false);
        case GraphError(error) =>
          FailJob(i, error);
          return Returned(false);
      }
    }

    /** The exception handler; a refused transition is only logged. */
    method FailJob(i: nat, error: string)
      requires i < |legs|
      modifies `legs, jobs
      ensures jobs.rows ==
                Attempt(old(jobs.rows), old(legs[i]).job, JobState.Processing, JobState.Failed, clock,
                        Extra(None, Some(Some(error)), None))
      ensures legs == old(legs)[i := old(legs[i]).(pc := Returning)]
    {
      legs := legs[i := legs[i].(pc := Failing)];
      var _ := jobs.Transition(legs[i].job, JobState.Processing, JobState.Failed, clock,
                               Extra(None, Some(Some(error)), None));
      legs := legs[i := legs[i].(pc := Returning)];
    }

    /** The start of `run_pipeline`: the guarded transition, the primary session and the new leg. */
    method StartPrimary(id: JobId) returns (started: bool)
      requires id in jobs.rows
      modifies `sessions, `legs, jobs
      ensures started <==> old(jobs.rows)[id].state == JobState.Dispatched
      ensures Snapshot() == Delivered(old(Snapshot()), id)
      ensures started ==> |legs| == old(|legs|) + 1 && legs[|legs| - 1] == Leg(id, true, InGraph)
      ensures started ==> id in jobs.rows && jobs.rows[id].state == JobState.Processing
                          && jobs.rows[id].session == Some(old(|sessions|))
    {
      var moved := jobs.Transition(id, JobState.Dispatched, JobState.Processing, clock, NO_EXTRA);
      if moved.Err? {
        return false;
      }
      sessions := sessions + [JobSession(id, true)];
      jobs.SetCurrentSession(id, Some(|sessions| - 1));
      legs := legs + [Leg(id, true, InGraph)];
      started := true;
    }

    /** `run_pipeline` on one message. A refused message changes nothing and returns no slot. */
    method RunPipeline(id: JobId, outcome: GraphOutcome) returns (r: TaskResult)
      requires id in queue && id in jobs.rows
      modifies `sessions, `legs, jobs, budget
      ensures r == Refused <==> old(jobs.rows)[id].state != JobState.Dispatched
      ensures r == Escaped <==> r != Refused && outcome.Uncaught?
      ensures r == Refused ==> Snapshot() == old(Snapshot())
      ensures r != Refused ==>
                var s, t := old(Snapshot()), Delivered(old(Snapshot()), id);
                var i := |s.legs|;
                var es := [Deliver(id)] + GraphEvents(t.jobs, id, i, outcome) + [LegStep(i, Action.Release(true))];
                && Runs(cfg, s, es) && After(cfg, s, es) == Snapshot()
                && id !in budget.inFlight
                && id in jobs.rows && jobs.rows[id].session == Some(|s.sessions|)
                && jobs.rows[id].state == EndState(outcome)
                && EndsAs(outcome, s.jobs[id].(state := JobState.Processing, startedAt := Some(clock), session := Some(|s.sessions|)),
                          jobs.rows[id], clock)
                && r == match outcome
                        case Uncaught => Escaped
                        case Interrupted => Done(true)
                        case Finished(indexingFails) => Done(!indexingFails)
                        case GraphError(_) => Done(false)
    {
      ghost var start := Snapshot();
      var started := StartPrimary(id);
      if !started {
        return Refused;
      }
      ghost var middle := Snapshot();
      var i := |legs| - 1;
      LegRuns(cfg, start, Deliver(id), middle, i, outcome, true);
      HandledState(middle.jobs, id, outcome, clock);
      var called := InvokeGraph(i, outcome);
      budget.Release(id);
      legs := legs[i := legs[i].(pc := if called.Propagated? then Crashed else Ended)];
      r := match called case Propagated => Escaped case Returned(ok) => Done(ok);
    }

    /** `resume_run` on a pipeline run of job `id`; the job moves only if it awaits a human. */
    method ResumeRun(id: JobId, outcome: GraphOutcome) returns (r: TaskResult)
      requires id in jobs.rows
      modifies `legs, jobs
      ensures var s := old(Snapshot());
              var rows := Attempt(s.jobs, id, JobState.AwaitingHuman, JobState.Processing, clock, NO_EXTRA);
              var i := |s.legs|;
              var es := [Resume(id)] + GraphEvents(rows, id, i, outcome) + [LegStep(i, Action.Release(false))];
              && Runs(cfg, s, es) && After(cfg, s, es) == Snapshot()
              && jobs.rows == Handled(rows, id, outcome, clock)
      ensures old(jobs.rows)[id].state == JobState.AwaitingHuman ==>
                && id in jobs.rows
                && EndsAs(outcome, old(jobs.rows)[id].(state := JobState.Processing, startedAt := Some(clock)), jobs.rows[id], clock)
    {
      ghost var start := Snapshot();
      var _ := jobs.Transition(id, JobState.AwaitingHuman, JobState.Processing, clock, NO_EXTRA);
      var i := |legs|;
      legs := legs + [Leg(id, false, InGraph)];
      assert Snapshot() == Next(cfg, start, Resume(id));
      if start.jobs[id].state == JobState.AwaitingHuman {
        HandledState(jobs.rows, id, outcome, clock);
      }
      LegRuns(cfg, start, Resume(id), Snapshot(), i, outcome, false);
      var called := InvokeGraph(i, outcome);
      legs := legs[i := legs[i].(pc := if called.Propagated? then Crashed else Ended)];
      r := match called case Propagated => Escaped case Returned(ok) => Done(ok);
    }
  }
}
