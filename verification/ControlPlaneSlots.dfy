/**
 Which legs hold a slot.

 The claim needs care around operator retries: a retry puts a job back while an old leg or an
 old message of it may still exist, and either can cost the next leg its slot. `Safe` says which
 retries keep every claim on a slot good, and is exact.
 */
module ControlPlaneSlots {
  import opened Prelude
  import opened Jobs
  import opened ControlPlane
  import opened ControlPlaneSafety

  /** Leg `i` is a `run_pipeline` leg that is still executing. */
  predicate Running(s: State, i: int) {
    0 <= i < |s.legs| && s.legs[i].first && Executing(s.legs[i].pc)
  }

  function RunningLegs(s: State): set<int> {
    set i | 0 <= i < |s.legs| && Running(s, i)
  }

  predicate Holds(s: State, id: JobId) {
    id in s.jobs && (NotStarted(s.jobs[id].state) ==> id in s.inFlight)
  }

  /** Every message of the job, and a pass about to queue one, has the job's slot, and no leg of it executes. */
  predicate Safe(s: State, id: JobId) {
    && (id in s.queue ==> id in s.inFlight)
    && (s.pass.Enqueuing? && s.pass.job == id ==> id in s.inFlight)
    && forall i :: 0 <= i < |s.legs| && s.legs[i].job == id ==> !Running(s, i)
  }

  /** `e` does not retry a failed job, or does so safely. */
  predicate SafeEvent(s: State, e: Event) {
    e.Retry? && e.id in s.jobs && s.jobs[e.id].state == Failed ==> Safe(s, e.id)
  }

  predicate SafeRun(c: Config, s: State, es: seq<Event>)
    requires Runs(c, s, es)
    decreases |es|
  {
    es == [] || (SafeEvent(s, es[0]) && SafeRun(c, Next(c, s, es[0]), es[1..]))
  }

  predicate PassHolds(s: State) {
    match s.pass
    case Acquiring(todo) => forall i :: 0 <= i < |todo| ==> todo[i] in s.jobs
    case Enqueuing(id, rest) => Holds(s, id) && forall i :: 0 <= i < |rest| ==> rest[i] in s.jobs
    case _ => true
  }

  ghost predicate SlotsHeld(s: State) {
    && (forall id :: id in s.queue ==> Holds(s, id))
    && PassHolds(s)
    && (forall i :: Running(s, i) ==>
          && s.legs[i].job in s.jobs
          && !NotStarted(s.jobs[s.legs[i].job].state)
          && s.legs[i].job in s.inFlight)
    && (forall i, k :: Running(s, i) && Running(s, k) && s.legs[i].job == s.legs[k].job ==> i == k)
  }

  /** A job goes back to not started only through a retry. */
  lemma {:induction false} StartedStays(c: Config, s: State, e: Event, id: JobId)
    requires Enabled(c, s, e) && id in s.jobs && !NotStarted(s.jobs[id].state)
    requires !(e.Retry? && e.id == id && s.jobs[id].state == Failed)
    ensures id in Next(c, s, e).jobs && !NotStarted(Next(c, s, e).jobs[id].state)
  {
    if e.CommitPass? {
      DispatchAllMovesPick(s.jobs, e.picked, s.clock);
    }
  }

  lemma {:induction false} RowStays(c: Config, s: State, e: Event, id: JobId)
    requires Enabled(c, s, e) && id in s.jobs
    ensures id in Next(c, s, e).jobs
  {
    RowsAdvanceStep(c, s, e);
  }

  /** Only a release takes a job out of the in-flight set, and only a job whose leg was running. */
  lemma {:induction false} SlotStays(c: Config, s: State, e: Event, id: JobId)
    requires Enabled(c, s, e) && id in s.inFlight && id !in Next(c, s, e).inFlight
    ensures e.LegStep? && e.action.Release? && Running(s, e.leg) && s.legs[e.leg].job == id
  {
  }

  lemma {:induction false} HoldsStays(c: Config, s: State, e: Event, id: JobId)
    requires SlotsHeld(s) && Enabled(c, s, e) && Holds(s, id)
    requires !(e.Retry? && e.id == id && s.jobs[id].state == Failed)
    ensures Holds(Next(c, s, e), id)
  {
    RowStays(c, s, e, id);
    if !NotStarted(s.jobs[id].state) {
      StartedStays(c, s, e, id);
    } else if id !in Next(c, s, e).inFlight {
      SlotStays(c, s, e, id);
    }
  }

  lemma {:induction false} QueueStep(c: Config, s: State, e: Event, id: JobId)
    requires SlotsHeld(s) && Enabled(c, s, e) && SafeEvent(s, e)
    requires id in Next(c, s, e).queue
    ensures Holds(Next(c, s, e), id)
  {
    if id in s.queue {
      if e.Retry? && e.id == id && s.jobs[id].state == Failed {
        assert id in s.inFlight;
      } else {
        HoldsStays(c, s, e, id);
      }
    } else {
      assert e.EnqueueNext? && s.pass.job == id;
    }
  }

  /** Only its own events change the pass in progress. */
  lemma {:induction false} PassUntouched(c: Config, s: State, e: Event)
    requires Enabled(c, s, e) && !e.ReadBudget? && !e.CommitPass? && !e.AcquireNext? && !e.EnqueueNext? && !e.CrashPass?
    ensures Next(c, s, e).pass == s.pass
  {
  }

  lemma {:induction false} PassMoved(c: Config, s: State, e: Event)
    requires PassHolds(s) && Enabled(c, s, e)
    requires e.ReadBudget? || e.CommitPass? || e.AcquireNext? || e.EnqueueNext? || e.CrashPass?
    ensures PassHolds(Next(c, s, e))
  {
    if e.CommitPass? {
      DispatchAllMovesPick(s.jobs, e.picked, s.clock);
    }
  }

  lemma {:induction false} PassStep(c: Config, s: State, e: Event)
    requires SlotsHeld(s) && Enabled(c, s, e) && SafeEvent(s, e)
    ensures PassHolds(Next(c, s, e))
  {
    if e.ReadBudget? || e.CommitPass? || e.AcquireNext? || e.EnqueueNext? || e.CrashPass? {
      PassMoved(c, s, e);
    } else {
      PassUntouched(c, s, e);
      RowsAdvanceStep(c, s, e);
      if s.pass.Enqueuing? && !(e.Retry? && e.id == s.pass.job && s.jobs[e.id].state == Failed) {
        HoldsStays(c, s, e, s.pass.job);
      }
    }
  }

  /** A leg running after an event was running before it, or the event has just started it. */
  lemma {:induction false} RunningBefore(c: Config, s: State, e: Event, i: int)
    requires Enabled(c, s, e) && Running(Next(c, s, e), i)
    ensures i < |s.legs| ==> Running(s, i) && Next(c, s, e).legs[i].job == s.legs[i].job
    ensures i >= |s.legs| ==>
              && i == |s.legs| && e.Deliver? && e.id in s.jobs && s.jobs[e.id].state == Dispatched
              && Next(c, s, e).legs[i].job == e.id
              && Next(c, s, e).jobs[e.id].state == Processing
  {
  }

  lemma {:induction false} LegStepHeld(c: Config, s: State, e: Event, i: int)
    requires SlotsHeld(s) && Enabled(c, s, e) && SafeEvent(s, e)
    requires Running(Next(c, s, e), i)
    ensures var t := Next(c, s, e);
            && t.legs[i].job in t.jobs && !NotStarted(t.jobs[t.legs[i].job].state)
            && t.legs[i].job in t.inFlight
  {
    RunningBefore(c, s, e, i);
    if i < |s.legs| {
      var id := s.legs[i].job;
      StartedStays(c, s, e, id);
      if id !in Next(c, s, e).inFlight {
        SlotStays(c, s, e, id);
      }
    } else {
      assert Holds(s, e.id);
    }
  }

  lemma {:induction false} OneLegStep(c: Config, s: State, e: Event, i: int, k: int)
    requires SlotsHeld(s) && Enabled(c, s, e)
    requires Running(Next(c, s, e), i) && Running(Next(c, s, e), k)
    requires Next(c, s, e).legs[i].job == Next(c, s, e).legs[k].job
    ensures i == k
  {
    RunningBefore(c, s, e, i);
    RunningBefore(c, s, e, k);
  }

  lemma {:induction false} SlotsHeldStep(c: Config, s: State, e: Event)
    requires SlotsHeld(s) && Enabled(c, s, e) && SafeEvent(s, e)
    ensures SlotsHeld(Next(c, s, e))
  {
    var t := Next(c, s, e);
    forall id | id in t.queue ensures Holds(t, id) { QueueStep(c, s, e, id); }
    PassStep(c, s, e);
    forall i | Running(t, i)
      ensures t.legs[i].job in t.jobs && !NotStarted(t.jobs[t.legs[i].job].state) && t.legs[i].job in t.inFlight
    {
      LegStepHeld(c, s, e, i);
    }
    forall i, k | Running(t, i) && Running(t, k) && t.legs[i].job == t.legs[k].job ensures i == k {
      OneLegStep(c, s, e, i, k);
    }
  }

  lemma {:induction false} SlotsHeldHolds(c: Config, s: State, es: seq<Event>)
    requires SlotsHeld(s) && Runs(c, s, es) && SafeRun(c, s, es)
    ensures SlotsHeld(After(c, s, es))
    decreases |es|
  {
    if es != [] {
      SlotsHeldStep(c, s, es[0]);
      SlotsHeldHolds(c, Next(c, s, es[0]), es[1..]);
    }
  }

  /** A retry of a failed job keeps all claims on slots good exactly when it is safe. */
  lemma {:induction false} RetryKeepsSlotsIff(c: Config, s: State, id: JobId)
    requires SlotsHeld(s) && id in s.jobs && s.jobs[id].state == Failed
    ensures SlotsHeld(Next(c, s, Retry(id))) <==> Safe(s, id)
  {
    var t := Next(c, s, Retry(id));
    assert t == s.(jobs := t.jobs) && t.jobs[id].state == Ready;
    if Safe(s, id) {
      SlotsHeldStep(c, s, Retry(id));
    }
    if SlotsHeld(t) {
      forall i | 0 <= i < |s.legs| && s.legs[i].job == id ensures !Running(s, i) {
        assert Running(t, i) <==> Running(s, i);
      }
      assert id in s.queue ==> Holds(t, id);
    }
  }

  lemma {:induction false} Member<T>(some: set<T>) returns (x: T)
    requires some != {}
    ensures x in some
  {
    x :| x in some;
  }

  /** Legs of distinct jobs inject into the set of those jobs. */
  lemma {:induction false} InjectionBound(legs: seq<Leg>, some: set<int>, ids: set<JobId>)
    requires forall i :: i in some ==> 0 <= i < |legs| && legs[i].job in ids
    requires forall i, k :: i in some && k in some && legs[i].job == legs[k].job ==> i == k
    ensures |some| <= |ids|
  {
    if some != {} {
      var i := Member(some);
      InjectionBound(legs, some - {i}, ids - {legs[i].job});
    }
  }

  /**
   With safe retries, executing `run_pipeline` legs belong to distinct jobs, each job is in the
   in-flight set for as long as its leg executes, and no more than the limit execute at once.
   */
  lemma {:induction false} RunningLegsHoldSlots(c: Config, now: Time, es: seq<Event>)
    requires Runs(c, Init(now), es) && SafeRun(c, Init(now), es)
    ensures var s := After(c, Init(now), es);
            && (forall i :: Running(s, i) ==> s.legs[i].job in s.inFlight)
            && (forall i, k :: Running(s, i) && Running(s, k) && s.legs[i].job == s.legs[k].job ==> i == k)
            && |RunningLegs(s)| <= c.maxRuns
  {
    SlotsHeldHolds(c, Init(now), es);
    InFlightBounded(c, now, es);
    var s := After(c, Init(now), es);
    InjectionBound(s.legs, RunningLegs(s), s.inFlight);
  }

  // ---------------------------------------------------------------- runs without retries

  predicate HasRetry(es: seq<Event>) {
    exists i :: 0 <= i < |es| && es[i].Retry?
  }

  lemma {:induction false} NoRetryIsSafe(c: Config, s: State, es: seq<Event>)
    requires Runs(c, s, es) && !HasRetry(es)
    requires forall id :: id in s.jobs ==> s.jobs[id].attempts == 0
    ensures SafeRun(c, s, es)
    ensures forall id :: id in After(c, s, es).jobs ==> After(c, s, es).jobs[id].attempts == 0
    decreases |es|
  {
    if es != [] {
      if es[0].CommitPass? {
        DispatchAllMovesPick(s.jobs, es[0].picked, s.clock);
      }
      NoRetryIsSafe(c, Next(c, s, es[0]), es[1..]);
    }
  }

  /** Without retries a job starts at most one `run_pipeline` leg in the whole run. */
  lemma {:induction false} AtMostOneLegWithoutRetry(c: Config, now: Time, es: seq<Event>, id: JobId)
    requires Runs(c, Init(now), es) && !HasRetry(es)
    ensures FirstLegs(After(c, Init(now), es).legs, id) <= 1
    ensures |RunningLegs(After(c, Init(now), es))| <= c.maxRuns
  {
    InvHolds(c, Init(now), es);
    NoRetryIsSafe(c, Init(now), es);
    RunningLegsHoldSlots(c, now, es);
  }
}
