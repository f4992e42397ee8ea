/** What every run of the control plane keeps. */
module ControlPlaneSafety {
  import opened Prelude
  import opened Jobs
  import opened ControlPlane

  // ---------------------------------------------------------------- state changes

  predicate NotStarted(state: JobState) {
    state in {Intake, Ready, Dispatched}
  }

  /**
   What one event may do to one row: nothing, or a move along an allowed pair that stamps the time where a
   lease starts and that goes back to not started only with a new attempt.
   */
  predicate RowMoves(before: Job, after: Job, now: Time) {
    || after == before
    || (&& Allowed(before.state, after.state)
        && after.attempts >= before.attempts
        && (after.state == Dispatched ==> after.dispatchedAt == Some(now))
        && (after.state == Processing ==> after.startedAt == Some(now))
        && (NotStarted(after.state) ==> NotStarted(before.state) || after.attempts > before.attempts))
  }

  lemma {:induction false} AttemptMoves(rows: Rows, id: JobId, from: JobState, to: JobState, now: Time, extra: Extra, j: JobId)
    requires j in rows
    requires id in rows && extra.attempts.Some? ==> extra.attempts.value > rows[id].attempts
    requires NotStarted(to) ==> NotStarted(from) || extra.attempts.Some?
    ensures j in Attempt(rows, id, from, to, now, extra) && RowMoves(rows[j], Attempt(rows, id, from, to, now, extra)[j], now)
  {
  }

  lemma {:induction false} DeliveredMoves(s: State, id: JobId, j: JobId)
    requires j in s.jobs
    ensures j in Delivered(s, id).jobs && RowMoves(s.jobs[j], Delivered(s, id).jobs[j], s.clock)
  {
  }

  lemma {:induction false} ActedMoves(s: State, i: nat, a: Action, j: JobId)
    requires i < |s.legs| && ActionEnabled(s.legs[i].pc, a) && j in s.jobs
    ensures j in Acted(s, i, a).jobs && RowMoves(s.jobs[j], Acted(s, i, a).jobs[j], s.clock)
  {
  }

  lemma {:induction false} ReapedMoves(job: Job, now: Time, dispatchLease: nat, processingLease: nat)
    ensures RowMoves(job, ReapedRow(job, now, dispatchLease, processingLease), now)
  {
  }

  /** The events that move a row by an attempted transition. */
  lemma {:induction false} TransitionMoves(c: Config, s: State, e: Event, id: JobId)
    requires Enabled(c, s, e) && id in s.jobs && (e.Promote? || e.Resume? || e.Cancel? || e.Retry? || e.Archive?)
    ensures id in Next(c, s, e).jobs && RowMoves(s.jobs[id], Next(c, s, e).jobs[id], s.clock)
  {
    match e
    case Promote(j) => AttemptMoves(s.jobs, j, Intake, Ready, s.clock, NO_EXTRA, id);
    case Resume(j) => AttemptMoves(s.jobs, j, AwaitingHuman, Processing, s.clock, NO_EXTRA, id);
    case Cancel(j, reason) => AttemptMoves(s.jobs, j, s.jobs[j].state, Failed, s.clock, CancelExtra(reason), id);
    case Retry(j) => AttemptMoves(s.jobs, j, Failed, Ready, s.clock, RetryExtra(s.jobs[j]), id);
    case Archive(j) => AttemptMoves(s.jobs, j, s.jobs[j].state, Archived, s.clock, NO_EXTRA, id);
  }

  /** Every event moves every row in one of these ways. */
  lemma {:induction false} RowStep(c: Config, s: State, e: Event, id: JobId)
    requires Enabled(c, s, e) && id in s.jobs
    ensures id in Next(c, s, e).jobs && RowMoves(s.jobs[id], Next(c, s, e).jobs[id], s.clock)
  {
    match e
    case Promote(_) => TransitionMoves(c, s, e, id);
    case Resume(_) => TransitionMoves(c, s, e, id);
    case Cancel(_, _) => TransitionMoves(c, s, e, id);
    case Retry(_) => TransitionMoves(c, s, e, id);
    case Archive(_) => TransitionMoves(c, s, e, id);
    case CommitPass(picked) => DispatchAllMovesPick(s.jobs, picked, s.clock);
    case Deliver(j) => DeliveredMoves(s, j, id);
    case LegStep(i, a) => ActedMoves(s, i, a, id);
    case Sweep => ReapedMoves(s.jobs[id], s.clock, c.dispatchLease, c.processingLease);
    case _ =>
  }

  /** Rows appear in intake only. */
  lemma {:induction false} NewRow(c: Config, s: State, e: Event, id: JobId)
    requires Enabled(c, s, e) && id !in s.jobs && id in Next(c, s, e).jobs
    ensures Next(c, s, e).jobs[id].state == Intake
  {
    if e.CommitPass? {
      DispatchAllMovesPick(s.jobs, e.picked, s.clock);
    }
  }

  /** Every event changes every job's state along an allowed pair, or not at all. */
  lemma {:induction false} StepIsAllowed(c: Config, s: State, e: Event, id: JobId)
    requires Enabled(c, s, e) && id in s.jobs
    ensures var t := Next(c, s, e);
            id in t.jobs
            && (t.jobs[id].state == s.jobs[id].state || Allowed(s.jobs[id].state, t.jobs[id].state))
  {
    RowStep(c, s, e, id);
  }

  /** The same along a whole run, for any two consecutive moments of it. */
  lemma {:induction false} RunIsAllowed(c: Config, now: Time, es: seq<Event>, k: nat, id: JobId)
    requires Runs(c, Init(now), es) && k < |es|
    requires Runs(c, Init(now), es[..k]) && id in After(c, Init(now), es[..k]).jobs
    ensures Runs(c, Init(now), es[..k + 1])
    ensures var a, b := After(c, Init(now), es[..k]).jobs, After(c, Init(now), es[..k + 1]).jobs;
            id in b && (b[id].state == a[id].state || Allowed(a[id].state, b[id].state))
  {
    assert es == es[..k] + es[k..];
    RunsSplit(c, Init(now), es[..k], es[k..]);
    var s := After(c, Init(now), es[..k]);
    var one := [es[k]];
    assert es[k..][0] == es[k];
    assert Runs(c, s, one);
    assert After(c, s, one) == Next(c, s, es[k]);
    RunsAppend(c, Init(now), es[..k], one);
    assert es[..k] + one == es[..k + 1];
    StepIsAllowed(c, s, es[k], id);
  }

  // ---------------------------------------------------------------- slots

  /** Slots a pass in progress may still take. */
  function Promised(pass: Pass): nat {
    match pass
    case Idle => 0
    case Budgeted(room) => room
    case Acquiring(todo) => |todo|
    case Enqueuing(_, rest) => |rest|
  }

  predicate SlotsBounded(c: Config, s: State) {
    |s.inFlight| + Promised(s.pass) <= c.maxRuns
  }

  /** Only two kinds of event touch the in-flight set or hand out slots. */
  lemma {:induction false} SlotsUntouched(c: Config, s: State, e: Event)
    requires Enabled(c, s, e) && !e.CommitPass? && !e.AcquireNext? && !e.LegStep?
    ensures Next(c, s, e).inFlight == s.inFlight
    ensures e.ReadBudget? || Promised(Next(c, s, e).pass) <= Promised(s.pass)
  {
  }

  lemma {:induction false} ActedSlots(s: State, i: nat, a: Action)
    requires i < |s.legs| && ActionEnabled(s.legs[i].pc, a)
    ensures Acted(s, i, a).pass == s.pass && |Acted(s, i, a).inFlight| <= |s.inFlight|
  {
    var id := s.legs[i].job;
    if id !in s.inFlight {
      assert s.inFlight - {id} == s.inFlight;
    }
  }

  lemma {:induction false} SlotsStep(c: Config, s: State, e: Event)
    requires SlotsBounded(c, s) && Enabled(c, s, e)
    ensures SlotsBounded(c, Next(c, s, e))
  {
    match e
    case CommitPass(picked) =>
      DispatchAllMovesPick(s.jobs, picked, s.clock);
    case AcquireNext =>
      var id := s.pass.todo[0];
      if id in s.inFlight { assert s.inFlight + {id} == s.inFlight; }
    case LegStep(i, a) => ActedSlots(s, i, a);
    case ReadBudget =>
    case _ => SlotsUntouched(c, s, e);
  }

  // ---------------------------------------------------------------- primary sessions and legs

  function FirstLegs(legs: seq<Leg>, id: JobId): nat
    decreases |legs|
  {
    if legs == [] then 0
    else
      var last := legs[|legs| - 1];
      FirstLegs(legs[..|legs| - 1], id) + if last.first && last.job == id then 1 else 0
  }

  function Primaries(sessions: seq<JobSession>, id: JobId): nat
    decreases |sessions|
  {
    if sessions == [] then 0
    else
      var last := sessions[|sessions| - 1];
      Primaries(sessions[..|sessions| - 1], id) + if last.primary && last.job == id then 1 else 0
  }

  /** Moving a leg along does not change whose leg it is. */
  lemma {:induction false} FirstLegsKept(legs: seq<Leg>, i: nat, pc: Pc, id: JobId)
    requires i < |legs|
    ensures FirstLegs(legs[i := legs[i].(pc := pc)], id) == FirstLegs(legs, id)
    decreases |legs|
  {
    var moved := legs[i := legs[i].(pc := pc)];
    var n := |legs| - 1;
    if i == n {
      assert moved[..n] == legs[..n];
    } else {
      assert moved[..n] == legs[..n][i := legs[i].(pc := pc)];
      FirstLegsKept(legs[..n], i, pc, id);
    }
  }

  ghost predicate AttemptsCount(s: State) {
    && (forall id :: Primaries(s.sessions, id) == FirstLegs(s.legs, id))
    && (forall id :: id !in s.jobs ==> FirstLegs(s.legs, id) == 0)
    && (forall id :: id in s.jobs ==> FirstLegs(s.legs, id) <= s.jobs[id].attempts + 1)
    && (forall id :: id in s.jobs && NotStarted(s.jobs[id].state) ==>
          FirstLegs(s.legs, id) <= s.jobs[id].attempts)
  }

  lemma {:induction false} AttemptsDelivered(s: State, id: JobId)
    requires AttemptsCount(s)
    ensures AttemptsCount(Delivered(s, id))
  {
    var t := Delivered(s, id);
    if t != s {
      assert t.legs[..|s.legs|] == s.legs;
      assert t.sessions[..|s.sessions|] == s.sessions;
      assert FirstLegs(s.legs, id) <= s.jobs[id].attempts;
      forall j
        ensures Primaries(t.sessions, j) == FirstLegs(t.legs, j)
        ensures FirstLegs(t.legs, j) == FirstLegs(s.legs, j) + if j == id then 1 else 0
      {}
    }
  }

  /** Attempts only grow, and a job goes back to not started only with a new attempt. */
  predicate RowsAdvance(s: State, t: State) {
    && (forall id :: id in s.jobs ==> id in t.jobs)
    && (forall id :: id in s.jobs ==>
          && t.jobs[id].attempts >= s.jobs[id].attempts
          && (NotStarted(t.jobs[id].state) ==>
                NotStarted(s.jobs[id].state) || t.jobs[id].attempts > s.jobs[id].attempts))
  }

  lemma {:induction false} RowsAdvanceStep(c: Config, s: State, e: Event)
    requires Enabled(c, s, e)
    ensures RowsAdvance(s, Next(c, s, e))
  {
    forall id | id in s.jobs ensures id in Next(c, s, e).jobs && RowMoves(s.jobs[id], Next(c, s, e).jobs[id], s.clock) {
      RowStep(c, s, e, id);
    }
  }

  lemma {:induction false} CountsKept(c: Config, s: State, e: Event, id: JobId)
    requires Enabled(c, s, e) && !e.Deliver?
    ensures FirstLegs(Next(c, s, e).legs, id) == FirstLegs(s.legs, id)
    ensures Primaries(Next(c, s, e).sessions, id) == Primaries(s.sessions, id)
  {
    var t := Next(c, s, e);
    match e
    case Resume(_) =>
      assert t.legs[..|s.legs|] == s.legs;
    case Replay(_) =>
      assert t.sessions[..|s.sessions|] == s.sessions;
    case LegStep(i, _) =>
      FirstLegsKept(s.legs, i, t.legs[i].pc, id);
      assert t.legs == s.legs[i := s.legs[i].(pc := t.legs[i].pc)];
    case _ =>
  }

  lemma {:induction false} AttemptsStep(c: Config, s: State, e: Event)
    requires AttemptsCount(s) && Enabled(c, s, e)
    ensures AttemptsCount(Next(c, s, e))
  {
    if e.Deliver? {
      AttemptsDelivered(s, e.id);
    } else {
      RowsAdvanceStep(c, s, e);
      forall id {
        CountsKept(c, s, e, id);
      }
    }
  }

  // ---------------------------------------------------------------- leases

  predicate Within(at: Option<Time>, s: State, lease: nat) {
    && at.Some?
    && at.value <= s.clock
    && s.lastSweep - at.value <= lease
  }

  /** The timestamp a lease is measured from is set, and the last sweep did not find it expired. */
  predicate LeasesHeld(c: Config, s: State) {
    && s.lastSweep <= s.clock
    && (forall id :: id in s.jobs && s.jobs[id].state == Dispatched ==>
          Within(s.jobs[id].dispatchedAt, s, c.dispatchLease))
    && (forall id :: id in s.jobs && s.jobs[id].state == Processing ==>
          Within(s.jobs[id].startedAt, s, c.processingLease))
  }

  lemma {:induction false} ClockStep(c: Config, s: State, e: Event)
    requires Enabled(c, s, e)
    ensures Next(c, s, e).clock >= s.clock
    ensures !e.Sweep? ==> Next(c, s, e).lastSweep == s.lastSweep
  {
  }

  /** A sweep leaves no lease expired at its own time. */
  lemma {:induction false} LeasesSwept(c: Config, s: State)
    requires LeasesHeld(c, s)
    ensures LeasesHeld(c, Next(c, s, Sweep))
  {
  }

  lemma {:induction false} LeasesStep(c: Config, s: State, e: Event)
    requires LeasesHeld(c, s) && Enabled(c, s, e)
    ensures LeasesHeld(c, Next(c, s, e))
  {
    if e.Sweep? {
      LeasesSwept(c, s);
    } else {
      var t := Next(c, s, e);
      ClockStep(c, s, e);
      forall id | id in t.jobs
        ensures t.jobs[id].state == Dispatched ==> Within(t.jobs[id].dispatchedAt, t, c.dispatchLease)
        ensures t.jobs[id].state == Processing ==> Within(t.jobs[id].startedAt, t, c.processingLease)
      {
        if id in s.jobs {
          RowStep(c, s, e, id);
        } else {
          NewRow(c, s, e, id);
        }
      }
    }
  }

  // ---------------------------------------------------------------- processing means a leg

  /** Leg `i` accounts for its job being in `processing`. */
  predicate Answers(s: State, id: JobId, i: nat) {
    && i < |s.legs|
    && s.legs[i].job == id
    && s.legs[i].pc in {InGraph, Pausing, Finalizing, Failing, Escaping, Crashed}
  }

  ghost predicate ProcessingAnswered(s: State) {
    forall id :: id in s.jobs && s.jobs[id].state == Processing ==> exists i :: Answers(s, id, i)
  }

  /** A leg stops answering for its job only by moving it, or by failing to. */
  lemma {:induction false} AnswersActed(s: State, k: nat, a: Action, id: JobId, i: nat)
    requires k < |s.legs| && ActionEnabled(s.legs[k].pc, a) && Answers(s, id, i)
    requires id in s.jobs && s.jobs[id].state == Processing
    requires id in Acted(s, k, a).jobs && Acted(s, k, a).jobs[id].state == Processing
    ensures Answers(Acted(s, k, a), id, i)
  {
  }

  lemma {:induction false} LegsStay(c: Config, s: State, e: Event)
    requires Enabled(c, s, e) && !e.LegStep?
    ensures s.legs <= Next(c, s, e).legs
  {
  }

  /** A job enters processing only with a new leg. */
  lemma {:induction false} EntersWithLeg(c: Config, s: State, e: Event, id: JobId)
    requires Enabled(c, s, e) && id in Next(c, s, e).jobs && Next(c, s, e).jobs[id].state == Processing
    requires id in s.jobs ==> s.jobs[id].state != Processing
    ensures Answers(Next(c, s, e), id, |s.legs|)
  {
    if e.CommitPass? {
      DispatchAllMovesPick(s.jobs, e.picked, s.clock);
    }
  }

  lemma {:induction false} ProcessingStep(c: Config, s: State, e: Event)
    requires ProcessingAnswered(s) && Enabled(c, s, e)
    ensures ProcessingAnswered(Next(c, s, e))
  {
    var t := Next(c, s, e);
    forall id | id in t.jobs && t.jobs[id].state == Processing
      ensures exists i :: Answers(t, id, i)
    {
      if id in s.jobs && s.jobs[id].state == Processing {
        var i :| Answers(s, id, i);
        if e.LegStep? {
          AnswersActed(s, e.leg, e.action, id, i);
        } else {
          LegsStay(c, s, e);
        }
        assert Answers(t, id, i);
      } else {
        EntersWithLeg(c, s, e, id);
      }
    }
  }

  // ---------------------------------------------------------------- which leg answers

  predicate IsProcessing(s: State, id: JobId) {
    id in s.jobs && s.jobs[id].state == Processing
  }

  /** The job is in `processing` at every moment of the run. */
  predicate StaysProcessing(c: Config, s: State, es: seq<Event>, id: JobId)
    requires Runs(c, s, es)
    decreases |es|
  {
    IsProcessing(s, id) && (es == [] || StaysProcessing(c, Next(c, s, es[0]), es[1..], id))
  }

  lemma {:induction false} KeepsAnswering(c: Config, s: State, es: seq<Event>, id: JobId, i: nat)
    requires Runs(c, s, es) && StaysProcessing(c, s, es, id) && Answers(s, id, i)
    ensures Answers(After(c, s, es), id, i)
    decreases |es|
  {
    if es != [] {
      if es[0].LegStep? {
        AnswersActed(s, es[0].leg, es[0].action, id, i);
      } else {
        LegsStay(c, s, es[0]);
      }
      KeepsAnswering(c, Next(c, s, es[0]), es[1..], id, i);
    }
  }

  /** The leg that the entering event starts answers for its job for as long as the job stays in `processing`. */
  lemma {:induction false} EnteringLegAnswers(c: Config, s: State, e: Event, es: seq<Event>, id: JobId)
    requires Enabled(c, s, e) && Runs(c, Next(c, s, e), es)
    requires !IsProcessing(s, id) && StaysProcessing(c, Next(c, s, e), es, id)
    ensures Answers(After(c, Next(c, s, e), es), id, |s.legs|)
  {
    EntersWithLeg(c, s, e, id);
    KeepsAnswering(c, Next(c, s, e), es, id, |s.legs|);
  }

  /** `es[k]` is the event by which the job entered `processing` for the last time. */
  ghost predicate EntersLast(c: Config, s: State, es: seq<Event>, id: JobId, k: nat) {
    && k < |es| && Runs(c, s, es[..k]) && Runs(c, s, es[..k + 1])
    && !IsProcessing(After(c, s, es[..k]), id)
    && Runs(c, After(c, s, es[..k + 1]), es[k + 1..])
    && StaysProcessing(c, After(c, s, es[..k + 1]), es[k + 1..], id)
  }

  lemma {:induction false} LastEntry(c: Config, s: State, es: seq<Event>, id: JobId) returns (k: nat)
    requires Runs(c, s, es) && IsProcessing(After(c, s, es), id) && !StaysProcessing(c, s, es, id)
    ensures EntersLast(c, s, es, id, k)
    decreases |es|
  {
    var t := Next(c, s, es[0]);
    if StaysProcessing(c, t, es[1..], id) {
      k := 0;
      assert es[..1][1..] == [];
    } else {
      var j := LastEntry(c, t, es[1..], id);
      k := j + 1;
      assert es[..k][1..] == es[1..][..j] && es[..k + 1][1..] == es[1..][..j + 1];
      assert es[k + 1..] == es[1..][j + 1..];
    }
  }

  lemma {:induction false} LastEntryAnswers(c: Config, s: State, es: seq<Event>, id: JobId, k: nat)
    requires Runs(c, s, es) && EntersLast(c, s, es, id, k)
    ensures Answers(After(c, s, es), id, |After(c, s, es[..k]).legs|)
  {
    var a := After(c, s, es[..k]);
    assert es[..k + 1] == es[..k] + [es[k]];
    RunsSplit(c, s, es[..k], [es[k]]);
    assert [es[k]][1..] == [];
    assert After(c, s, es[..k + 1]) == Next(c, a, es[k]);
    EnteringLegAnswers(c, a, es[k], es[k + 1..], id);
    assert es == es[..k + 1] + es[k + 1..];
    RunsSplit(c, s, es[..k + 1], es[k + 1..]);
  }

  // ---------------------------------------------------------------- all runs

  ghost predicate Inv(c: Config, s: State) {
    SlotsBounded(c, s) && AttemptsCount(s) && LeasesHeld(c, s) && ProcessingAnswered(s)
  }

  lemma {:induction false} InvHolds(c: Config, s: State, es: seq<Event>)
    requires Inv(c, s) && Runs(c, s, es)
    ensures Inv(c, After(c, s, es))
    decreases |es|
  {
    if es != [] {
      SlotsStep(c, s, es[0]);
      AttemptsStep(c, s, es[0]);
      LeasesStep(c, s, es[0]);
      ProcessingStep(c, s, es[0]);
      InvHolds(c, Next(c, s, es[0]), es[1..]);
    }
  }

  /** The in-flight set never outgrows the limit, whatever retries, crashes and redeliveries happen. */
  lemma {:induction false} InFlightBounded(c: Config, now: Time, es: seq<Event>)
    requires Runs(c, Init(now), es)
    ensures |After(c, Init(now), es).inFlight| <= c.maxRuns
  {
    InvHolds(c, Init(now), es);
  }

  /** A job has at most one primary session per attempt, and none yet for the attempt not started. */
  lemma {:induction false} PrimarySessionsBounded(c: Config, now: Time, es: seq<Event>, id: JobId)
    requires Runs(c, Init(now), es) && id in After(c, Init(now), es).jobs
    ensures var s := After(c, Init(now), es);
            && Primaries(s.sessions, id) <= s.jobs[id].attempts + 1
            && (s.jobs[id].state in {Intake, Ready, Dispatched} ==>
                  Primaries(s.sessions, id) <= s.jobs[id].attempts)
  {
    InvHolds(c, Init(now), es);
  }

  /** With sweeps at most `period` seconds apart no lease is overrun by more than `period`. */
  lemma {:induction false} LeaseBound(c: Config, now: Time, es: seq<Event>, period: nat, id: JobId)
    requires Runs(c, Init(now), es) && id in After(c, Init(now), es).jobs
    requires After(c, Init(now), es).clock - After(c, Init(now), es).lastSweep <= period
    ensures var s := After(c, Init(now), es);
            && (s.jobs[id].state == Dispatched ==>
                  s.jobs[id].dispatchedAt.Some?
                  && 0 <= s.clock - s.jobs[id].dispatchedAt.value <= c.dispatchLease + period)
            && (s.jobs[id].state == Processing ==>
                  s.jobs[id].startedAt.Some?
                  && 0 <= s.clock - s.jobs[id].startedAt.value <= c.processingLease + period)
  {
    InvHolds(c, Init(now), es);
  }

  /**
   A job in `processing` entered it with a leg of its own, and that leg still has to move it, or crashed, or is
   about to crash. Legs of earlier attempts do not count.
   */
  lemma {:induction false} ProcessingHasLeg(c: Config, now: Time, es: seq<Event>, id: JobId) returns (k: nat)
    requires Runs(c, Init(now), es) && IsProcessing(After(c, Init(now), es), id)
    ensures EntersLast(c, Init(now), es, id, k)
    ensures Answers(After(c, Init(now), es), id, |After(c, Init(now), es[..k]).legs|)
  {
    k := LastEntry(c, Init(now), es, id);
    LastEntryAnswers(c, Init(now), es, id, k);
  }
}
