/**
 What the control plane does not keep: reachable states that break the claims it makes elsewhere, and
 exactly when those claims hold.
 */
module ControlPlaneLimits {
  import opened Prelude
  import opened Jobs
  import opened ControlPlane
  import opened ControlPlaneSafety
  import opened ControlPlaneSlots

  // ---------------------------------------------------------------- reaching states

  ghost predicate Reachable(c: Config, s: State) {
    exists now, es :: Runs(c, Init(now), es) && After(c, Init(now), es) == s
  }

  lemma {:induction false} StartIsReachable(c: Config, now: Time)
    ensures Reachable(c, Init(now))
  {
    var none: seq<Event> := [];
    assert Runs(c, Init(now), none) && After(c, Init(now), none) == Init(now);
  }

  lemma {:induction false} Reaches(c: Config, s: State, e: Event, t: State)
    requires Reachable(c, s) && Enabled(c, s, e) && Next(c, s, e) == t
    ensures Reachable(c, t)
  {
    var now, es :| Runs(c, Init(now), es) && After(c, Init(now), es) == s;
    assert [e][1..] == [];
    assert Runs(c, t, [e][1..]) && After(c, t, [e][1..]) == t;
    assert Runs(c, s, [e]) && After(c, s, [e]) == t;
    RunsAppend(c, Init(now), es, [e]);
  }

  /** Only row `id` may differ, and of it only its state, attempts, error, session and timestamps. */
  predicate OnlyMoves(s: State, t: State, id: JobId) {
    && t.jobs.Keys == s.jobs.Keys
    && (forall j :: j in s.jobs && j != id ==> t.jobs[j] == s.jobs[j])
    && (id in s.jobs ==> t.jobs[id].item == s.jobs[id].item)
  }

  /** A new job, ready to be dispatched. */
  lemma {:induction false} Submits(c: Config, s: State, id: JobId) returns (t: State)
    requires Reachable(c, s) && id !in s.jobs && forall j :: j in s.jobs ==> s.jobs[j].item != id
    ensures Reachable(c, t) && t == s.(jobs := t.jobs) && t.jobs.Keys == s.jobs.Keys + {id}
    ensures t.jobs[id].state == Ready && t.jobs[id].item == id && t.jobs[id].attempts == 0
    ensures forall j :: j in s.jobs ==> t.jobs[j] == s.jobs[j]
  {
    var s1 := Next(c, s, Create(id, id, "a", 0));
    Reaches(c, s, Create(id, id, "a", 0), s1);
    t := Next(c, s1, Promote(id));
    Reaches(c, s1, Promote(id), t);
  }

  /** A pass that commits one ready job and has not taken its slot yet. */
  lemma {:induction false} CommitsOne(c: Config, s: State, id: JobId) returns (t: State)
    requires Reachable(c, s) && id in s.jobs && s.jobs[id].state == Ready && s.pass == Idle && Room(c, s) > 0
    ensures Reachable(c, t) && t == s.(jobs := t.jobs, pass := Acquiring([id])) && OnlyMoves(s, t, id)
    ensures t.jobs[id].state == Dispatched && t.jobs[id].attempts == s.jobs[id].attempts
  {
    var s1 := s.(pass := Budgeted(Room(c, s)));
    Reaches(c, s, ReadBudget, s1);
    DispatchAllMovesPick(s.jobs, [id], s.clock);
    t := s.(jobs := DispatchAll(s.jobs, [id], s.clock).0, pass := Acquiring([id]));
    Reaches(c, s1, CommitPass([id]), t);
  }

  /** A whole pass for one ready job: the job has a slot and a message. */
  lemma {:induction false} QueuesOne(c: Config, s: State, id: JobId) returns (t: State)
    requires Reachable(c, s) && id in s.jobs && s.jobs[id].state == Ready && s.pass == Idle && Room(c, s) > 0
    ensures Reachable(c, t) && OnlyMoves(s, t, id)
    ensures t == s.(jobs := t.jobs, inFlight := s.inFlight + {id}, queue := s.queue + multiset{id})
    ensures t.jobs[id].state == Dispatched && t.jobs[id].attempts == s.jobs[id].attempts
  {
    var s1 := CommitsOne(c, s, id);
    assert [id][1..] == [];
    var s2 := s1.(inFlight := s.inFlight + {id}, pass := Enqueuing(id, []));
    Reaches(c, s1, AcquireNext, s2);
    t := s2.(queue := s.queue + multiset{id}, pass := Idle);
    Reaches(c, s2, EnqueueNext, t);
  }

  /** A message of a dispatched job starts its leg. */
  lemma {:induction false} Starts(c: Config, s: State, id: JobId) returns (t: State)
    requires Reachable(c, s) && id in s.queue && id in s.jobs && s.jobs[id].state == Dispatched
    ensures Reachable(c, t) && OnlyMoves(s, t, id)
    ensures t == s.(jobs := t.jobs, sessions := s.sessions + [JobSession(id, true)], legs := s.legs + [Leg(id, true, InGraph)])
    ensures t.jobs[id].state == Processing && t.jobs[id].attempts == s.jobs[id].attempts
  {
    t := Delivered(s, id);
    Reaches(c, s, Deliver(id), t);
  }

  /** A job is cancelled. */
  lemma {:induction false} Cancels(c: Config, s: State, id: JobId) returns (t: State)
    requires Reachable(c, s) && id in s.jobs && s.jobs[id].state in {Dispatched, Processing}
    ensures Reachable(c, t) && t == s.(jobs := t.jobs) && OnlyMoves(s, t, id)
    ensures t.jobs[id].state == Failed && t.jobs[id].attempts == s.jobs[id].attempts
  {
    t := Next(c, s, Cancel(id, ""));
    Reaches(c, s, Cancel(id, ""), t);
  }

  /** A job is cancelled and retried at once, whatever is left of its attempt. */
  lemma {:induction false} RetriesHastily(c: Config, s: State, id: JobId) returns (t: State)
    requires Reachable(c, s) && id in s.jobs && s.jobs[id].state == Processing
    ensures Reachable(c, t) && t == s.(jobs := t.jobs) && OnlyMoves(s, t, id)
    ensures t.jobs[id].state == Ready && t.jobs[id].attempts == s.jobs[id].attempts + 1
  {
    var s1 := Cancels(c, s, id);
    t := Next(c, s1, Retry(id));
    Reaches(c, s1, Retry(id), t);
  }

  /** A leg of `run_pipeline` hits an error outside the guarded part and returns the slot. */
  lemma {:induction false} EndsLeg(c: Config, s: State, i: nat) returns (t: State)
    requires Reachable(c, s) && i < |s.legs| && s.legs[i].first && s.legs[i].pc == InGraph
    ensures Reachable(c, t) && t == s.(legs := t.legs, inFlight := s.inFlight - {s.legs[i].job})
    ensures t.legs == s.legs[i := s.legs[i].(pc := Crashed)]
  {
    var s1 := s.(legs := s.legs[i := s.legs[i].(pc := Escaping)]);
    Reaches(c, s, LegStep(i, Escape), s1);
    t := s.(legs := s1.legs[i := s.legs[i].(pc := Crashed)], inFlight := s.inFlight - {s.legs[i].job});
    Reaches(c, s1, LegStep(i, Release(true)), t);
  }

  // ---------------------------------------------------------------- counting legs

  function LegsWhere(legs: seq<Leg>, p: Leg -> bool): set<int> {
    set i | 0 <= i < |legs| && p(legs[i])
  }

  function CountLegs(legs: seq<Leg>, p: Leg -> bool): nat
    decreases |legs|
  {
    if legs == [] then 0 else CountLegs(legs[..|legs| - 1], p) + if p(legs[|legs| - 1]) then 1 else 0
  }

  lemma {:induction false} CountIsSize(legs: seq<Leg>, p: Leg -> bool)
    ensures |LegsWhere(legs, p)| == CountLegs(legs, p)
    decreases |legs|
  {
    if legs != [] {
      var n := |legs| - 1;
      CountIsSize(legs[..n], p);
      assert LegsWhere(legs, p) == LegsWhere(legs[..n], p) + if p(legs[n]) then {n} else {};
    }
  }

  lemma {:induction false} CountSnoc(legs: seq<Leg>, leg: Leg, p: Leg -> bool)
    ensures CountLegs(legs + [leg], p) == CountLegs(legs, p) + if p(leg) then 1 else 0
  {
    assert (legs + [leg])[..|legs|] == legs;
  }

  const IS_RUNNING := (leg: Leg) => leg.first && Executing(leg.pc)

  const IS_EXECUTING := (leg: Leg) => Executing(leg.pc)

  lemma {:induction false} RunningIsCounted(s: State)
    ensures |RunningLegs(s)| == CountLegs(s.legs, IS_RUNNING)
  {
    CountIsSize(s.legs, IS_RUNNING);
    assert RunningLegs(s) == LegsWhere(s.legs, IS_RUNNING);
  }

  lemma {:induction false} PrimariesSnoc(sessions: seq<JobSession>, row: JobSession, id: JobId)
    ensures Primaries(sessions + [row], id) == Primaries(sessions, id) + if row.primary && row.job == id then 1 else 0
  {
    assert (sessions + [row])[..|sessions|] == sessions;
  }

  // ---------------------------------------------------------------- retries under a running leg

  /** One job in its first attempt, with a leg and a message. */
  lemma {:induction false} StartsFirst(c: Config) returns (s: State)
    requires c.maxRuns >= 1
    ensures Reachable(c, s) && s.pass == Idle && s.inFlight == {0} && 0 in s.queue
    ensures s.jobs.Keys == {0} && s.jobs[0].state == Processing && s.jobs[0].attempts == 0
    ensures s.legs == [Leg(0, true, InGraph)] && s.sessions == [JobSession(0, true)]
  {
    StartIsReachable(c, 0);
    var s1 := Submits(c, Init(0), 0);
    var s2 := QueuesOne(c, s1, 0);
    s := Starts(c, s2, 0);
  }

  /**
   Retries that are not safe: job 0 is cancelled and retried under its running leg, again and again. With a
   limit of two or more each retry adds an executing leg, while only one slot is ever taken.
   */
  lemma {:induction false} HastyRetriesPileUp(c: Config, n: nat) returns (s: State)
    requires c.maxRuns >= 2 && n >= 1
    ensures Reachable(c, s) && |RunningLegs(s)| == n && s.inFlight == {0}
    ensures s.pass == Idle && s.jobs.Keys == {0} && s.jobs[0].state == Processing
  {
    if n == 1 {
      s := StartsFirst(c);
      CountSnoc([], Leg(0, true, InGraph), IS_RUNNING);
      assert s.legs == [] + [Leg(0, true, InGraph)];
    } else {
      var before := HastyRetriesPileUp(c, n - 1);
      var s1 := RetriesHastily(c, before, 0);
      var s2 := QueuesOne(c, s1, 0);
      s := Starts(c, s2, 0);
      RunningIsCounted(before);
      CountSnoc(before.legs, Leg(0, true, InGraph), IS_RUNNING);
      assert s.inFlight == {0};
    }
    RunningIsCounted(s);
  }

  // ---------------------------------------------------------------- messages of an earlier attempt

  /** `n` legs of job 0 execute without a slot after `n` retries, and a message of it is still around. */
  ghost predicate Piled(c: Config, s: State, n: nat) {
    && Reachable(c, s) && s.pass == Idle && s.inFlight == {} && 0 in s.queue
    && s.jobs.Keys == {0} && s.jobs[0].state == Processing && s.jobs[0].attempts == n
    && CountLegs(s.legs, IS_RUNNING) == n && Primaries(s.sessions, 0) == n + 1
  }

  lemma {:induction false} PilesNone(c: Config) returns (s: State)
    requires c.maxRuns >= 1
    ensures Piled(c, s, 0)
  {
    var s1 := StartsFirst(c);
    s := EndsLeg(c, s1, 0);
    PrimariesSnoc([], JobSession(0, true), 0);
    CountSnoc([], Leg(0, true, Crashed), IS_RUNNING);
    assert s.legs == [] + [Leg(0, true, Crashed)];
    assert s.inFlight == {};
  }

  /** An old message arrives between the commit of a pass and its first slot, and the pass crashes. */
  lemma {:induction false} PilesOneMore(c: Config, s: State, n: nat) returns (t: State)
    requires c.maxRuns >= 1 && Piled(c, s, n)
    ensures Piled(c, t, n + 1)
  {
    var s1 := RetriesHastily(c, s, 0);
    var s2 := CommitsOne(c, s1, 0);
    var s3 := Starts(c, s2, 0);
    t := s3.(pass := Idle);
    Reaches(c, s3, CrashPass, t);
    CountSnoc(s.legs, Leg(0, true, InGraph), IS_RUNNING);
    PrimariesSnoc(s.sessions, JobSession(0, true), 0);
  }

  /** With any positive limit, messages of earlier attempts start any number of legs without any slot. */
  lemma {:induction false} StaleMessagesPileUp(c: Config, n: nat) returns (s: State)
    requires c.maxRuns >= 1
    ensures Piled(c, s, n) && |RunningLegs(s)| == n
  {
    if n == 0 {
      s := PilesNone(c);
    } else {
      var before := StaleMessagesPileUp(c, n - 1);
      s := PilesOneMore(c, before, n - 1);
    }
    RunningIsCounted(s);
  }

  // ---------------------------------------------------------------- slots nobody returns

  /** All slots are taken, and nothing is left that could return one. */
  ghost predicate Exhausted(c: Config, s: State) {
    && |s.inFlight| >= c.maxRuns && s.pass == Idle && s.queue == multiset{}
    && forall i :: !Running(s, i)
  }

  lemma {:induction false} ExhaustedStep(c: Config, s: State, e: Event)
    requires Exhausted(c, s) && Enabled(c, s, e)
    ensures Exhausted(c, Next(c, s, e)) && Next(c, s, e).inFlight == s.inFlight
    ensures forall id :: FirstLegs(Next(c, s, e).legs, id) == FirstLegs(s.legs, id)
  {
    var t := Next(c, s, e);
    forall id {
      CountsKept(c, s, e, id);
    }
    forall i ensures !Running(t, i) {
      if Running(t, i) {
        RunningBefore(c, s, e, i);
      }
    }
    forall id | id in s.inFlight ensures id in t.inFlight {
      if id !in t.inFlight {
        SlotStays(c, s, e, id);
      }
    }
  }

  /** From then on no event, an operator's retry included, returns a slot or starts a leg of `run_pipeline`. */
  lemma {:induction false} ExhaustedForever(c: Config, s: State, es: seq<Event>)
    requires Exhausted(c, s) && Runs(c, s, es)
    ensures Exhausted(c, After(c, s, es)) && After(c, s, es).inFlight == s.inFlight
    ensures forall id :: FirstLegs(After(c, s, es).legs, id) == FirstLegs(s.legs, id)
    decreases |es|
  {
    if es != [] {
      ExhaustedStep(c, s, es[0]);
      ExhaustedForever(c, Next(c, s, es[0]), es[1..]);
    }
  }

  /** The jobs are `0..n`, each for the item of its own number. */
  predicate Numbered(s: State, n: nat) {
    s.jobs.Keys == Below(n) && forall j :: j in s.jobs ==> s.jobs[j].item == j
  }

  lemma {:induction false} StaysNumbered(s: State, t: State, id: JobId, n: nat)
    requires Numbered(s, n) && OnlyMoves(s, t, id)
    ensures Numbered(t, n)
  {
  }

  /** One more job arrives and is dispatched: it has a slot and a message. */
  lemma {:induction false} QueuesNew(c: Config, s: State, n: nat) returns (t: State)
    requires Reachable(c, s) && Numbered(s, n) && s.pass == Idle && Room(c, s) > 0
    ensures Reachable(c, t) && Numbered(t, n + 1) && n !in s.jobs && t.jobs[n].state == Dispatched
    ensures t == s.(jobs := t.jobs, inFlight := s.inFlight + {n}, queue := s.queue + multiset{n})
  {
    BelowIs(n);
    var s1 := Submits(c, s, n);
    t := QueuesOne(c, s1, n);
    StaysNumbered(s1, t, n, n + 1);
  }

  /** One more job arrives and its leg starts. */
  lemma {:induction false} StartsNew(c: Config, s: State, n: nat) returns (t: State)
    requires Reachable(c, s) && Numbered(s, n) && s.pass == Idle && Room(c, s) > 0
    ensures Reachable(c, t) && Numbered(t, n + 1) && n !in s.jobs && t.jobs[n].state == Processing
    ensures t.pass == Idle && t.inFlight == s.inFlight + {n} && t.legs == s.legs + [Leg(n, true, InGraph)]
  {
    var s1 := QueuesNew(c, s, n);
    t := Starts(c, s1, n);
    StaysNumbered(s1, t, n, n + 1);
  }

  /** Jobs `0..n` were dispatched and cancelled, and their messages were refused. */
  ghost predicate Leaked(c: Config, s: State, n: nat) {
    Reachable(c, s) && Numbered(s, n) && s.pass == Idle && s.queue == multiset{} && s.legs == [] && s.inFlight == Below(n)
  }

  /** A message of a job that is not dispatched is delivered, refused and acknowledged. */
  lemma {:induction false} Refuses(c: Config, s: State, id: JobId) returns (t: State)
    requires Reachable(c, s) && id in s.queue && id in s.jobs && s.jobs[id].state == Failed
    ensures Reachable(c, t) && t == s.(queue := s.queue - multiset{id})
  {
    Reaches(c, s, Deliver(id), s);
    t := s.(queue := s.queue - multiset{id});
    Reaches(c, s, Acknowledge(id), t);
  }

  /** A dispatched job is cancelled before its message arrives. */
  lemma {:induction false} LeaksOneMore(c: Config, s: State, n: nat) returns (t: State)
    requires Leaked(c, s, n) && n < c.maxRuns
    ensures Leaked(c, t, n + 1)
  {
    BelowIs(n);
    var s1 := QueuesNew(c, s, n);
    var s2 := Cancels(c, s1, n);
    StaysNumbered(s1, s2, n, n + 1);
    t := Refuses(c, s2, n);
  }

  lemma {:induction false} Leaks(c: Config, n: nat) returns (s: State)
    requires n <= c.maxRuns
    ensures Leaked(c, s, n)
  {
    if n == 0 {
      StartIsReachable(c, 0);
      s := Init(0);
    } else {
      var before := Leaks(c, n - 1);
      s := LeaksOneMore(c, before, n - 1);
    }
  }

  /** For every limit there is a reachable state after which no run ever starts a leg of `run_pipeline`. */
  lemma {:induction false} DispatchCanStopForGood(c: Config) returns (s: State)
    ensures Reachable(c, s) && |s.inFlight| == c.maxRuns && s.legs == []
    ensures forall es :: Runs(c, s, es) ==>
              After(c, s, es).inFlight == s.inFlight && RunningLegs(After(c, s, es)) == {}
  {
    s := Leaks(c, c.maxRuns);
    BelowIs(c.maxRuns);
    assert Exhausted(c, s);
    forall es | Runs(c, s, es)
      ensures After(c, s, es).inFlight == s.inFlight && RunningLegs(After(c, s, es)) == {}
    {
      ExhaustedForever(c, s, es);
    }
  }

  /** The limit on executing legs can be exceeded exactly when it is positive. */
  lemma {:induction false} LimitBreaksIff(c: Config)
    ensures (exists s :: Reachable(c, s) && |RunningLegs(s)| > c.maxRuns) <==> c.maxRuns > 0
  {
    if c.maxRuns > 0 {
      var s := StaleMessagesPileUp(c, c.maxRuns + 1);
      assert Reachable(c, s) && |RunningLegs(s)| > c.maxRuns;
    } else {
      forall s | Reachable(c, s) ensures |RunningLegs(s)| <= c.maxRuns {
        var now, es :| Runs(c, Init(now), es) && After(c, Init(now), es) == s;
        ExhaustedForever(c, Init(now), es);
        assert RunningLegs(s) == {};
      }
    }
  }

  /** Something will still return the slot of job `id`. */
  predicate Backed(s: State, id: JobId) {
    || id in s.queue
    || (s.pass.Enqueuing? && s.pass.job == id)
    || exists i :: 0 <= i < |s.legs| && Running(s, i) && s.legs[i].job == id
  }

  /** The last message of a job keeps its slot backed exactly when it is not refused. */
  lemma {:induction false} SlotAfterLastMessage(c: Config, s: State, id: JobId)
    requires id in s.jobs && s.queue[id] == 1 && s.pass == Idle
    requires forall i :: 0 <= i < |s.legs| && s.legs[i].job == id ==> !Running(s, i)
    ensures var t := Next(c, s, Deliver(id));
            && Enabled(c, t, Acknowledge(id))
            && Next(c, t, Acknowledge(id)).inFlight == s.inFlight
            && (Backed(Next(c, t, Acknowledge(id)), id) <==> s.jobs[id].state == Dispatched)
  {
    var t := Next(c, s, Deliver(id));
    var u := Next(c, t, Acknowledge(id));
    assert id !in u.queue;
    if s.jobs[id].state == Dispatched {
      assert Running(u, |s.legs|) && u.legs[|s.legs|].job == id;
    } else {
      assert forall i :: Running(u, i) <==> Running(s, i);
    }
  }

  // ---------------------------------------------------------------- primary sessions

  /** A job's session column is set exactly when it has had a primary session. */
  ghost predicate SessionsNamed(s: State) {
    forall id :: Primaries(s.sessions, id) == 0 <==> id !in s.jobs || s.jobs[id].session.None?
  }

  /** No event but a delivery sets a session column, and none clears one. */
  lemma {:induction false} SessionColumnStays(c: Config, s: State, e: Event, id: JobId)
    requires Enabled(c, s, e) && !e.Deliver? && id in s.jobs
    ensures id in Next(c, s, e).jobs && Next(c, s, e).jobs[id].session == s.jobs[id].session
  {
    if e.CommitPass? {
      DispatchAllMovesPick(s.jobs, e.picked, s.clock);
    }
  }

  lemma {:induction false} NewSessionColumn(c: Config, s: State, e: Event, id: JobId)
    requires Enabled(c, s, e) && id !in s.jobs && id in Next(c, s, e).jobs
    ensures Next(c, s, e).jobs[id].session.None?
  {
    if e.CommitPass? {
      DispatchAllMovesPick(s.jobs, e.picked, s.clock);
    }
  }

  lemma {:induction false} DeliveryNames(s: State, id: JobId)
    requires SessionsNamed(s)
    ensures SessionsNamed(Delivered(s, id))
  {
    var t := Delivered(s, id);
    if t != s {
      forall j ensures Primaries(t.sessions, j) == 0 <==> j !in t.jobs || t.jobs[j].session.None? {
        PrimariesSnoc(s.sessions, JobSession(id, true), j);
      }
    }
  }

  lemma {:induction false} SessionsNamedStep(c: Config, s: State, e: Event)
    requires SessionsNamed(s) && Enabled(c, s, e)
    ensures SessionsNamed(Next(c, s, e))
  {
    var t := Next(c, s, e);
    if e.Deliver? {
      DeliveryNames(s, e.id);
    } else {
      forall id ensures Primaries(t.sessions, id) == 0 <==> id !in t.jobs || t.jobs[id].session.None? {
        CountsKept(c, s, e, id);
        if id in s.jobs {
          SessionColumnStays(c, s, e, id);
        } else if id in t.jobs {
          NewSessionColumn(c, s, e, id);
        }
      }
    }
  }

  /** A delivery keeps a job at one primary session exactly when its session column is empty. */
  lemma {:induction false} DeliveryKeepsOneIff(c: Config, s: State, id: JobId)
    requires SessionsNamed(s) && Enabled(c, s, Deliver(id)) && id in s.jobs && s.jobs[id].state == Dispatched
    requires Primaries(s.sessions, id) <= 1
    ensures Primaries(Next(c, s, Deliver(id)).sessions, id) <= 1 <==> s.jobs[id].session.None?
  {
    PrimariesSnoc(s.sessions, JobSession(id, true), id);
  }

  /** Every message that starts a leg finds the session column of its job empty. */
  predicate FreshDeliveries(c: Config, s: State, es: seq<Event>)
    requires Runs(c, s, es)
    decreases |es|
  {
    es == [] ||
    (&& (es[0].Deliver? && es[0].id in s.jobs && s.jobs[es[0].id].state == Dispatched ==> s.jobs[es[0].id].session.None?)
     && FreshDeliveries(c, Next(c, s, es[0]), es[1..]))
  }

  lemma {:induction false} PrimariesGrow(c: Config, s: State, es: seq<Event>, id: JobId)
    requires Runs(c, s, es)
    ensures Primaries(After(c, s, es).sessions, id) >= Primaries(s.sessions, id)
    decreases |es|
  {
    if es != [] {
      if es[0].Deliver? {
        if Delivered(s, es[0].id) != s {
          PrimariesSnoc(s.sessions, JobSession(es[0].id, true), id);
        }
      } else {
        CountsKept(c, s, es[0], id);
      }
      PrimariesGrow(c, Next(c, s, es[0]), es[1..], id);
    }
  }

  ghost predicate OnePrimaryEach(s: State) {
    forall id :: Primaries(s.sessions, id) <= 1
  }

  lemma {:induction false} OnePrimaryStepIff(c: Config, s: State, e: Event)
    requires SessionsNamed(s) && OnePrimaryEach(s) && Enabled(c, s, e)
    ensures OnePrimaryEach(Next(c, s, e))
       <==> (e.Deliver? && e.id in s.jobs && s.jobs[e.id].state == Dispatched ==> s.jobs[e.id].session.None?)
  {
    var t := Next(c, s, e);
    if e.Deliver? && e.id in s.jobs && s.jobs[e.id].state == Dispatched {
      DeliveryKeepsOneIff(c, s, e.id);
      forall id ensures id != e.id ==> Primaries(t.sessions, id) <= 1 {
        PrimariesSnoc(s.sessions, JobSession(e.id, true), id);
      }
    } else if !e.Deliver? {
      forall id {
        CountsKept(c, s, e, id);
      }
    }
  }

  lemma {:induction false} OnePrimaryRunIff(c: Config, s: State, es: seq<Event>)
    requires SessionsNamed(s) && OnePrimaryEach(s) && Runs(c, s, es)
    ensures OnePrimaryEach(After(c, s, es)) <==> FreshDeliveries(c, s, es)
    decreases |es|
  {
    if es != [] {
      var t := Next(c, s, es[0]);
      SessionsNamedStep(c, s, es[0]);
      OnePrimaryStepIff(c, s, es[0]);
      if OnePrimaryEach(t) {
        OnePrimaryRunIff(c, t, es[1..]);
      } else {
        var id :| Primaries(t.sessions, id) > 1;
        PrimariesGrow(c, t, es[1..], id);
      }
    }
  }

  /** In a whole run no job gets a second primary session exactly when every leg started on an empty session column. */
  lemma {:induction false} OnePrimarySessionIff(c: Config, now: Time, es: seq<Event>)
    requires Runs(c, Init(now), es)
    ensures OnePrimaryEach(After(c, Init(now), es)) <==> FreshDeliveries(c, Init(now), es)
  {
    OnePrimaryRunIff(c, Init(now), es);
  }

  /** The bound of one primary session per attempt is attained for every number of attempts. */
  lemma {:induction false} PrimariesAttained(c: Config, attempts: nat) returns (s: State)
    requires c.maxRuns >= 1
    ensures Reachable(c, s) && 0 in s.jobs
    ensures s.jobs[0].attempts == attempts && Primaries(s.sessions, 0) == attempts + 1
  {
    s := StaleMessagesPileUp(c, attempts);
  }

  // ---------------------------------------------------------------- resumed legs

  function ExecutingLegs(s: State): set<int> {
    set i | 0 <= i < |s.legs| && Executing(s.legs[i].pc)
  }

  lemma {:induction false} ExecutingIsCounted(s: State)
    ensures |ExecutingLegs(s)| == CountLegs(s.legs, IS_EXECUTING)
  {
    CountIsSize(s.legs, IS_EXECUTING);
    assert ExecutingLegs(s) == LegsWhere(s.legs, IS_EXECUTING);
  }

  /** Resuming takes no slot, so it respects a limit on all legs exactly when there was room before. */
  lemma {:induction false} ResumeRespectsLimitIff(c: Config, s: State, id: JobId)
    requires id in s.jobs
    ensures Next(c, s, Resume(id)).inFlight == s.inFlight
    ensures |ExecutingLegs(Next(c, s, Resume(id)))| == |ExecutingLegs(s)| + 1
    ensures |ExecutingLegs(Next(c, s, Resume(id)))| <= c.maxRuns <==> |ExecutingLegs(s)| < c.maxRuns
  {
    var t := Next(c, s, Resume(id));
    assert t.legs == s.legs + [Leg(id, false, InGraph)];
    ExecutingIsCounted(s);
    ExecutingIsCounted(t);
    CountSnoc(s.legs, Leg(id, false, InGraph), IS_EXECUTING);
  }

  /** The last leg stops at an interrupt: its job awaits a human and its slot is returned. */
  lemma {:induction false} Pauses(c: Config, s: State, id: JobId, before: seq<Leg>) returns (t: State)
    requires Reachable(c, s) && s.legs == before + [Leg(id, true, InGraph)] && id in s.jobs && s.jobs[id].state == Processing
    ensures Reachable(c, t) && OnlyMoves(s, t, id) && t.jobs[id].state == AwaitingHuman
    ensures t == s.(jobs := t.jobs, inFlight := s.inFlight - {id}, legs := before + [Leg(id, true, Ended)])
  {
    var i := |before|;
    var s1 := s.(legs := before + [Leg(id, true, Pausing)]);
    Reaches(c, s, LegStep(i, GraphPaused), s1);
    var s2 := s1.(jobs := Attempt(s.jobs, id, Processing, AwaitingHuman, s.clock, NO_EXTRA), legs := before + [Leg(id, true, Returning)]);
    Reaches(c, s1, LegStep(i, MoveJob("")), s2);
    t := s2.(inFlight := s.inFlight - {id}, legs := before + [Leg(id, true, Ended)]);
    Reaches(c, s2, LegStep(i, Release(true)), t);
  }

  lemma {:induction false} ResumesLeg(c: Config, s: State, id: JobId) returns (t: State)
    requires Reachable(c, s) && id in s.jobs && s.jobs[id].state == AwaitingHuman
    ensures Reachable(c, t) && OnlyMoves(s, t, id) && t.jobs[id].state == Processing
    ensures t == s.(jobs := t.jobs, legs := s.legs + [Leg(id, false, InGraph)])
  {
    t := Next(c, s, Resume(id));
    Reaches(c, s, Resume(id), t);
  }

  /** Jobs `0..n` awaited a human and were resumed; their legs execute and hold no slot. */
  ghost predicate Resumed(c: Config, s: State, n: nat) {
    Reachable(c, s) && Numbered(s, n) && s.pass == Idle && s.inFlight == {} && CountLegs(s.legs, IS_EXECUTING) == n
  }

  /** A job with a leg pauses and is resumed, once its slot is returned. */
  lemma {:induction false} PausesAndResumes(c: Config, s: State, id: JobId, before: seq<Leg>) returns (t: State)
    requires Reachable(c, s) && s.legs == before + [Leg(id, true, InGraph)] && id in s.jobs && s.jobs[id].state == Processing
    ensures Reachable(c, t) && OnlyMoves(s, t, id) && t.inFlight == s.inFlight - {id} && t.pass == s.pass
    ensures t.legs == before + [Leg(id, true, Ended)] + [Leg(id, false, InGraph)]
  {
    var s1 := Pauses(c, s, id, before);
    t := ResumesLeg(c, s1, id);
  }

  lemma {:induction false} ResumesOneMore(c: Config, s: State, n: nat) returns (t: State)
    requires Resumed(c, s, n) && c.maxRuns >= 1
    ensures Resumed(c, t, n + 1)
  {
    var s1 := StartsNew(c, s, n);
    t := PausesAndResumes(c, s1, n, s.legs);
    StaysNumbered(s1, t, n, n + 1);
    CountSnoc(s.legs, Leg(n, true, Ended), IS_EXECUTING);
    CountSnoc(s.legs + [Leg(n, true, Ended)], Leg(n, false, InGraph), IS_EXECUTING);
    assert t.inFlight == {};
  }

  lemma {:induction false} Resumes(c: Config, n: nat) returns (s: State)
    requires c.maxRuns >= 1
    ensures Resumed(c, s, n)
  {
    if n == 0 {
      StartIsReachable(c, 0);
      s := Init(0);
    } else {
      var before := Resumes(c, n - 1);
      s := ResumesOneMore(c, before, n - 1);
    }
  }

  /** On top of `n` resumed legs, `k` jobs with slots execute. */
  ghost predicate Filled(c: Config, s: State, n: nat, k: nat) {
    && Reachable(c, s) && Numbered(s, n + k) && s.pass == Idle && |s.inFlight| == k && s.inFlight <= s.jobs.Keys
    && CountLegs(s.legs, IS_EXECUTING) == n + k
  }

  lemma {:induction false} FillsOneMore(c: Config, s: State, n: nat, k: nat) returns (t: State)
    requires Filled(c, s, n, k) && k < c.maxRuns
    ensures Filled(c, t, n, k + 1)
  {
    t := StartsNew(c, s, n + k);
    CountSnoc(s.legs, Leg(n + k, true, InGraph), IS_EXECUTING);
    assert n + k !in s.inFlight;
  }

  lemma {:induction false} Fills(c: Config, n: nat, k: nat) returns (s: State)
    requires c.maxRuns >= 1 && k <= c.maxRuns
    ensures Filled(c, s, n, k)
  {
    if k == 0 {
      s := Resumes(c, n);
    } else {
      var before := Fills(c, n, k - 1);
      s := FillsOneMore(c, before, n, k - 1);
    }
  }

  /** Without any retry or crash, any number of resumed legs execute beside as many legs as there are slots. */
  lemma {:induction false} ResumedLegsComeOnTop(c: Config, n: nat) returns (s: State)
    requires c.maxRuns >= 1
    ensures Reachable(c, s) && |s.inFlight| == c.maxRuns && |ExecutingLegs(s)| == n + c.maxRuns
  {
    s := Fills(c, n, c.maxRuns);
    ExecutingIsCounted(s);
  }
}
