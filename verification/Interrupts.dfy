/**
 Human-in-the-loop requests: at most one is pending per session, and the session row names it.

 The check for a pending request and the opening of a new one are one step here, as they are one
 transaction in the code that persists interrupts.
 */
module Interrupts {
  import opened Prelude

  type SessionId = nat
  type RequestId = nat
  type Time = int

  datatype Kind = ToolApproval | InformationRequest | ReviewDraft
  datatype Status = Pending | Resolved | Expired
  datatype SessionStatus = SessionIdle | SessionRunning | SessionAwaiting | SessionFailed | SessionArchived

  datatype Request = Request(session: SessionId, kind: Kind, status: Status, created: Time, expires: Option<Time>)
  datatype SessionRow = SessionRow(status: SessionStatus, kind: Option<Kind>, active: Option<RequestId>)
  datatype Intervention = Intervention(request: RequestId, decision: string)

  datatype State = State(
    requests: map<RequestId, Request>, sessions: map<SessionId, SessionRow>,
    interventions: seq<Intervention>, nextId: RequestId, clock: Time)

  datatype Event =
    | CreateSession(session: SessionId)
    | SetStatus(session: SessionId, status: SessionStatus)
    | Persist(session: SessionId, kind: Kind, ttl: nat)
    | Resolve(session: SessionId, kind: Kind, decision: string, valid: bool)
    | ExpireStalled
    | Tick(seconds: nat)

  datatype ResolveError = NoPendingInterrupt | KindMismatch | InvalidAnswer

  function Init(now: Time): State {
    State(map[], map[], [], 0, now)
  }

  predicate IsPending(s: State, id: RequestId, session: SessionId) {
    id in s.requests && s.requests[id].session == session && s.requests[id].status == Pending
  }

  /** The pending request of a session, the latest if there were several. */
  ghost predicate IsCurrent(s: State, id: RequestId, session: SessionId) {
    IsPending(s, id, session) && forall other :: IsPending(s, other, session) ==> s.requests[other].created <= s.requests[id].created
  }

  predicate Stalled(r: Request, now: Time) {
    r.status == Pending && r.expires.Some? && r.expires.value < now
  }

  predicate SessionStalled(s: State, session: SessionId) {
    exists id :: id in s.requests && s.requests[id].session == session && Stalled(s.requests[id], s.clock)
  }

  predicate Enabled(s: State, e: Event) {
    match e
    case CreateSession(session) => session !in s.sessions
    case SetStatus(session, _) => session in s.sessions
    case Persist(session, _, _) => session in s.sessions
    case _ => true
  }

  function Opened(s: State, session: SessionId, kind: Kind, ttl: nat): State {
    var expires := if ttl == 0 then None else Some(s.clock + ttl);
    s.(requests := s.requests[s.nextId := Request(session, kind, Pending, s.clock, expires)],
       sessions := s.sessions[session := SessionRow(SessionAwaiting, Some(kind), Some(s.nextId))],
       nextId := s.nextId + 1)
  }

  function Closed(s: State, id: RequestId, decision: string): State
    requires id in s.requests
  {
    var r := s.requests[id];
    s.(requests := s.requests[id := r.(status := Resolved)],
       interventions := s.interventions + [Intervention(id, decision)],
       sessions := if r.session in s.sessions then s.sessions[r.session := SessionRow(SessionRunning, None, None)]
                   else s.sessions)
  }

  function Swept(s: State): State {
    s.(requests := map id | id in s.requests ::
         if Stalled(s.requests[id], s.clock) then s.requests[id].(status := Expired) else s.requests[id],
       sessions := map session | session in s.sessions ::
         if SessionStalled(s, session) then SessionRow(SessionFailed, None, None) else s.sessions[session])
  }

  /** The outcome of a resolution, given the current request. */
  function ResolveOutcome(s: State, current: Option<RequestId>, kind: Kind, valid: bool): Option<ResolveError>
    requires current.Some? ==> current.value in s.requests
  {
    if current.None? then Some(NoPendingInterrupt)
    else if s.requests[current.value].kind != kind then Some(KindMismatch)
    else if kind == InformationRequest && !valid then Some(InvalidAnswer)
    else None
  }

  /** `t` is a state `e` may lead to from `s`. */
  ghost predicate Step(s: State, e: Event, t: State) {
    && Enabled(s, e)
    && match e
       case CreateSession(session) => t == s.(sessions := s.sessions[session := SessionRow(SessionIdle, None, None)])
       case SetStatus(session, status) => t == s.(sessions := s.sessions[session := s.sessions[session].(status := status)])
       case Persist(session, kind, ttl) =>
         if exists id :: IsPending(s, id, session) then t == s else t == Opened(s, session, kind, ttl)
       case Resolve(session, kind, decision, valid) =>
         if exists id :: IsCurrent(s, id, session) then
           exists id :: IsCurrent(s, id, session)
             && t == if ResolveOutcome(s, Some(id), kind, valid).None? then Closed(s, id, decision) else s
         else t == s
       case ExpireStalled => t == Swept(s)
       case Tick(seconds) => t == s.(clock := s.clock + seconds)
  }

  // ---------------------------------------------------------------- the invariant

  /** Pending requests and active marks name each other. */
  predicate Exclusive(s: State) {
    && (forall id :: id in s.requests ==> id < s.nextId)
    && (forall id :: id in s.requests && s.requests[id].status == Pending ==>
          s.requests[id].session in s.sessions && s.sessions[s.requests[id].session].active == Some(id))
    && (forall session :: session in s.sessions && s.sessions[session].active.Some? ==>
          var id := s.sessions[session].active.value;
          IsPending(s, id, session) && s.sessions[session].kind == Some(s.requests[id].kind))
  }

  /** Interventions are of distinct requests, and these are the resolved ones. */
  ghost predicate Audited(s: State) {
    && (forall i, j :: 0 <= i < j < |s.interventions| ==> s.interventions[i].request != s.interventions[j].request)
    && (forall i :: 0 <= i < |s.interventions| ==>
          s.interventions[i].request in s.requests && s.requests[s.interventions[i].request].status == Resolved)
    && (forall id :: id in s.requests && s.requests[id].status == Resolved ==>
          exists i :: 0 <= i < |s.interventions| && s.interventions[i].request == id)
  }

  /** A sweep fails exactly the sessions whose marked request it expires. */
  lemma {:induction false} ExclusiveSwept(s: State)
    requires Exclusive(s)
    ensures Exclusive(Swept(s))
  {
    var t := Swept(s);
    forall session | session in t.sessions && t.sessions[session].active.Some?
      ensures IsPending(t, t.sessions[session].active.value, session)
      ensures t.sessions[session].kind == Some(t.requests[t.sessions[session].active.value].kind)
    {
      assert !SessionStalled(s, session);
    }
    forall id | id in t.requests && t.requests[id].status == Pending
      ensures t.requests[id].session in t.sessions && t.sessions[t.requests[id].session].active == Some(id)
    {
      assert !SessionStalled(s, s.requests[id].session);
    }
  }

  lemma {:induction false} ExclusiveOpened(s: State, session: SessionId, kind: Kind, ttl: nat)
    requires Exclusive(s) && session in s.sessions && forall id :: !IsPending(s, id, session)
    ensures Exclusive(Opened(s, session, kind, ttl))
  {
  }

  lemma {:induction false} ExclusiveClosed(s: State, id: RequestId, decision: string)
    requires Exclusive(s) && id in s.requests && s.requests[id].status == Pending
    ensures Exclusive(Closed(s, id, decision))
  {
  }

  lemma {:induction false} ExclusiveStep(s: State, e: Event, t: State)
    requires Exclusive(s) && Step(s, e, t)
    ensures Exclusive(t)
  {
    match e
    case ExpireStalled => ExclusiveSwept(s);
    case Persist(session, kind, ttl) =>
      if t != s {
        ExclusiveOpened(s, session, kind, ttl);
      }
    case Resolve(session, kind, decision, valid) =>
      if t != s {
        var id :| IsCurrent(s, id, session) && t == Closed(s, id, decision);
        ExclusiveClosed(s, id, decision);
      }
    case _ =>
  }

  lemma {:induction false} AuditedStep(s: State, e: Event, t: State)
    requires Exclusive(s) && Audited(s) && Step(s, e, t)
    ensures Audited(t)
  {
    if t.interventions != s.interventions {
      var id :| IsCurrent(s, id, e.session) && t == Closed(s, id, e.decision);
      var n := |s.interventions|;
      assert t.interventions[n].request == id;
      forall other | other in t.requests && t.requests[other].status == Resolved
        ensures exists i :: 0 <= i < |t.interventions| && t.interventions[i].request == other
      {
        if other == id {
          assert t.interventions[n].request == other;
        } else {
          var i :| 0 <= i < n && s.interventions[i].request == other;
          assert t.interventions[i].request == other;
        }
      }
    }
  }

  /** A request keeps its session and kind, and once it is no longer pending it never changes again. */
  lemma {:induction false} SettledStays(s: State, e: Event, t: State, id: RequestId)
    requires Exclusive(s) && Step(s, e, t) && id in s.requests
    ensures id in t.requests && t.requests[id].session == s.requests[id].session && t.requests[id].kind == s.requests[id].kind
    ensures s.requests[id].status != Pending ==> t.requests[id] == s.requests[id]
  {
  }

  // ---------------------------------------------------------------- all runs

  /** States `ss` follow one another by events `es`. */
  ghost predicate IsRun(ss: seq<State>, es: seq<Event>) {
    |ss| == |es| + 1 && forall i :: 0 <= i < |es| ==> Step(ss[i], es[i], ss[i + 1])
  }

  lemma {:induction false} RunKeeps(now: Time, ss: seq<State>, es: seq<Event>, k: nat)
    requires IsRun(ss, es) && ss[0] == Init(now) && k < |ss|
    ensures Exclusive(ss[k]) && Audited(ss[k])
    decreases k
  {
    if k > 0 {
      RunKeeps(now, ss, es, k - 1);
      ExclusiveStep(ss[k - 1], es[k - 1], ss[k]);
      AuditedStep(ss[k - 1], es[k - 1], ss[k]);
    }
  }

  /** In every reachable state a session has at most one pending request, and its row names exactly that one. */
  lemma {:induction false} OnePendingPerSession(now: Time, ss: seq<State>, es: seq<Event>, k: nat, session: SessionId)
    requires IsRun(ss, es) && ss[0] == Init(now) && k < |ss| && session in ss[k].sessions
    ensures forall id: RequestId :: IsPending(ss[k], id, session) <==> ss[k].sessions[session].active == Some(id)
    ensures forall a, b :: IsPending(ss[k], a, session) && IsPending(ss[k], b, session) ==> a == b
  {
    RunKeeps(now, ss, es, k);
  }

  /** A request leaves `pending` at most once: it is pending up to some moment and settled for good after it. */
  lemma {:induction false} LeavesPendingOnce(now: Time, ss: seq<State>, es: seq<Event>, j: nat, k: nat, id: RequestId)
    requires IsRun(ss, es) && ss[0] == Init(now) && j <= k < |ss| && id in ss[j].requests
    ensures id in ss[k].requests
    ensures ss[j].requests[id].status != Pending ==> ss[k].requests[id] == ss[j].requests[id]
    decreases k
  {
    if j < k {
      LeavesPendingOnce(now, ss, es, j, k - 1, id);
      RunKeeps(now, ss, es, k - 1);
      SettledStays(ss[k - 1], es[k - 1], ss[k], id);
    }
  }

  /** Resolved requests and interventions correspond one for one. */
  lemma {:induction false} InterventionsMatch(now: Time, ss: seq<State>, es: seq<Event>, k: nat, id: RequestId)
    requires IsRun(ss, es) && ss[0] == Init(now) && k < |ss|
    ensures id in ss[k].requests && ss[k].requests[id].status == Resolved <==>
              exists i :: 0 <= i < |ss[k].interventions| && ss[k].interventions[i].request == id
    ensures forall i, j :: 0 <= i < j < |ss[k].interventions| ==>
              ss[k].interventions[i].request != ss[k].interventions[j].request
  {
    RunKeeps(now, ss, es, k);
  }

  /** Opening without the check is what the invariant does not survive: exactly then two are pending. */
  lemma {:induction false} UncheckedOpenBreaks(s: State, session: SessionId, kind: Kind, ttl: nat)
    requires Exclusive(s) && session in s.sessions
    ensures Exclusive(Opened(s, session, kind, ttl)) <==> s.sessions[session].active == None
  {
    var t := Opened(s, session, kind, ttl);
    if s.sessions[session].active.Some? {
      var id := s.sessions[session].active.value;
      assert IsPending(s, id, session);
      assert t.requests[id].status == Pending && t.sessions[session].active == Some(s.nextId);
    }
  }

  /** Some pending request of the session has passed its deadline. */
  predicate Overdue(s: State, session: SessionId) {
    exists id :: id in s.requests && s.requests[id].session == session && s.requests[id].status == Pending
                 && s.requests[id].expires.Some? && s.requests[id].expires.value < s.clock
  }

  /** Exactly the overdue requests are expired and exactly their sessions fail; nothing else changes. */
  ghost predicate OverdueExpired(s: State, t: State) {
    && t == s.(requests := t.requests, sessions := t.sessions)
    && t.requests.Keys == s.requests.Keys && t.sessions.Keys == s.sessions.Keys
    && (forall id :: id in s.requests ==>
          var was := s.requests[id];
          t.requests[id] ==
            if was.status == Pending && was.expires.Some? && was.expires.value < s.clock then was.(status := Expired) else was)
    && (forall session :: session in s.sessions ==>
          t.sessions[session] == if Overdue(s, session) then SessionRow(SessionFailed, None, None) else s.sessions[session])
  }

  lemma {:induction false} SweptIs(s: State)
    ensures OverdueExpired(s, Swept(s))
  {
    forall session ensures SessionStalled(s, session) <==> Overdue(s, session) {
      if SessionStalled(s, session) {
        var id :| id in s.requests && s.requests[id].session == session && Stalled(s.requests[id], s.clock);
        assert s.requests[id].status == Pending;
      }
      if Overdue(s, session) {
        var id :| id in s.requests && s.requests[id].session == session && s.requests[id].status == Pending
                  && s.requests[id].expires.Some? && s.requests[id].expires.value < s.clock;
        assert Stalled(s.requests[id], s.clock);
      }
    }
  }

  // ---------------------------------------------------------------- the service

  class InterruptService {
    var requests: map<RequestId, Request>
    var sessions: map<SessionId, SessionRow>
    var interventions: seq<Intervention>
    var nextId: RequestId
    var clock: Time

    constructor (now: Time)
      ensures Snapshot() == Init(now)
    {
      requests, sessions, interventions, nextId, clock := map[], map[], [], 0, now;
    }

    ghost function Snapshot(): State
      reads this
    {
      State(requests, sessions, interventions, nextId, clock)
    }

    method Open(session: SessionId, kind: Kind, ttl: nat) returns (id: RequestId)
      modifies this
      ensures id == old(nextId) && Snapshot() == Opened(old(Snapshot()), session, kind, ttl)
      ensures id in requests
              && requests[id] == Request(session, kind, Pending, clock, if ttl == 0 then None else Some(clock + ttl))
      ensures session in sessions && sessions[session].status == SessionAwaiting
              && sessions[session].kind == Some(kind) && sessions[session].active == Some(id)
      ensures clock == old(clock) && interventions == old(interventions)
      ensures forall other :: other in old(requests) && other != id ==> other in requests && requests[other] == old(requests)[other]
      ensures forall other :: other in old(sessions) && other != session ==> other in sessions && sessions[other] == old(sessions)[other]
    {
      id := nextId;
      nextId := nextId + 1;
      requests := requests[id := Request(session, kind, Pending, clock, if ttl == 0 then None else Some(clock + ttl))];
      sessions := sessions[session := SessionRow(SessionAwaiting, Some(kind), Some(id))];
    }

    /** `ORDER BY created_at DESC LIMIT 1` over the pending requests of a session. */
    method CurrentForSession(session: SessionId) returns (current: Option<RequestId>)
      ensures current.Some? ==> IsCurrent(Snapshot(), current.value, session)
      ensures current.None? ==> forall id :: !IsPending(Snapshot(), id, session)
    {
      var rest := set id | id in requests && requests[id].session == session && requests[id].status == Pending;
      current := None;
      while rest != {}
        invariant forall id :: id in rest ==> IsPending(Snapshot(), id, session)
        invariant current.Some? ==> IsPending(Snapshot(), current.value, session)
        invariant forall id :: IsPending(Snapshot(), id, session) && id !in rest ==>
                    current.Some? && requests[id].created <= requests[current.value].created
      {
        var id :| id in rest;
        if current.None? || requests[id].created > requests[current.value].created {
          current := Some(id);
        }
        rest := rest - {id};
      }
    }

    /**
     What a paused leg does with the interrupts in its checkpoint, if that could be read: it opens a request for
     the first, if that has an envelope, unless the session has a request.
     */
    method PersistInterrupt(session: SessionId, interrupts: Option<seq<Option<Kind>>>, ttl: nat)
      requires session in sessions
      modifies this
      ensures if interrupts.None? || interrupts.value == [] || interrupts.value[0].None? then Snapshot() == old(Snapshot())
              else Step(old(Snapshot()), Persist(session, interrupts.value[0].value, ttl), Snapshot())
    {
      if interrupts.None? || interrupts.value == [] {
        return;
      }
      var existing := CurrentForSession(session);
      if existing.Some? {
        assert IsPending(Snapshot(), existing.value, session);
        return;
      }
      var envelope := interrupts.value[0];
      if envelope.None? {
        return;
      }
      var _ := Open(session, envelope.value, ttl);
    }

    method ResolveRequest(session: SessionId, kind: Kind, decision: string, valid: bool)
      returns (r: Result<RequestId, ResolveError>)
      modifies this
      ensures Step(old(Snapshot()), Resolve(session, kind, decision, valid), Snapshot())
      ensures r.Err? ==> Snapshot() == old(Snapshot())
      ensures r.Ok? ==> IsCurrent(old(Snapshot()), r.value, session) && Snapshot() == Closed(old(Snapshot()), r.value, decision)
      ensures r == Err(NoPendingInterrupt) <==> forall id :: !IsPending(old(Snapshot()), id, session)
      ensures r == Err(KindMismatch) ==>
                exists id :: IsCurrent(old(Snapshot()), id, session) && old(requests)[id].kind != kind
      ensures r == Err(InvalidAnswer) ==> kind == InformationRequest && !valid
      ensures r.Ok? ==>
                && old(requests)[r.value].kind == kind && (kind == InformationRequest ==> valid)
                && requests == old(requests)[r.value := old(requests)[r.value].(status := Resolved)]
                && interventions == old(interventions) + [Intervention(r.value, decision)]
                && (session in old(sessions) ==>
                      sessions == old(sessions)[session := SessionRow(SessionRunning, None, None)])
                && (session !in old(sessions) ==> sessions == old(sessions))
    {
      var current := CurrentForSession(session);
      if current.None? {
        return Err(NoPendingInterrupt);
      }
      var id := current.value;
      assert IsCurrent(Snapshot(), id, session);
      var request := requests[id];
      if request.kind != kind {
        return Err(KindMismatch);
      }
      if kind == InformationRequest && !valid {
        return Err(InvalidAnswer);
      }
      requests := requests[id := request.(status := Resolved)];
      interventions := interventions + [Intervention(id, decision)];
      if session in sessions {
        sessions := sessions[session := SessionRow(SessionRunning, None, None)];
      }
      return Ok(id);
    }

    /** The janitor: one bulk update of the requests, then one update per expired row's session. */
    method Expire() returns (count: nat)
      modifies this
      ensures Snapshot() == Swept(old(Snapshot()))
      ensures OverdueExpired(old(Snapshot()), Snapshot())
    {
      hide OverdueExpired, SessionsFailed, SessionStalled;
      ghost var s := Snapshot();
      SweptIs(s);
      var expired := set id | id in requests && Stalled(requests[id], clock);
      FailsNone(s);
      requests := map id | id in requests ::
        if id in expired then requests[id].(status := Expired) else requests[id];
      assert requests == Swept(s).requests;
      var rest := expired;
      assert expired - rest == {};
      while rest != {}
        invariant rest <= expired
        invariant SessionsFailed(s, expired - rest, sessions)
        invariant requests == Swept(s).requests && interventions == s.interventions && nextId == s.nextId && clock == s.clock
      {
        var id :| id in rest;
        FailsOneMore(s, expired - rest, id, sessions);
        if requests[id].session in sessions {
          sessions := sessions[requests[id].session := SessionRow(SessionFailed, None, None)];
        }
        assert expired - (rest - {id}) == (expired - rest) + {id};
        rest := rest - {id};
      }
      assert expired - rest == expired;
      FailsAll(s, expired, sessions);
      count := |expired|;
    }
  }

  predicate FailedBy(s: State, ids: set<RequestId>, session: SessionId) {
    exists id :: id in ids && id in s.requests && s.requests[id].session == session
  }

  /** The sessions after those of some expired requests were failed. */
  ghost predicate SessionsFailed(s: State, ids: set<RequestId>, sessions: map<SessionId, SessionRow>) {
    && sessions.Keys == s.sessions.Keys
    && forall session :: session in sessions ==>
         sessions[session] == if FailedBy(s, ids, session) then SessionRow(SessionFailed, None, None) else s.sessions[session]
  }

  lemma {:induction false} FailsNone(s: State)
    ensures SessionsFailed(s, {}, s.sessions)
  {
  }

  lemma {:induction false} FailsOneMore(s: State, ids: set<RequestId>, id: RequestId, sessions: map<SessionId, SessionRow>)
    requires SessionsFailed(s, ids, sessions) && id in s.requests
    ensures var failed := s.requests[id].session;
            SessionsFailed(s, ids + {id}, if failed in sessions then sessions[failed := SessionRow(SessionFailed, None, None)] else sessions)
  {
    forall session ensures FailedBy(s, ids + {id}, session) <==> FailedBy(s, ids, session) || s.requests[id].session == session {
      if FailedBy(s, ids, session) {
        var other :| other in ids && other in s.requests && s.requests[other].session == session;
        assert other in ids + {id};
      }
    }
  }

  lemma {:induction false} FailsAll(s: State, expired: set<RequestId>, sessions: map<SessionId, SessionRow>)
    requires SessionsFailed(s, expired, sessions)
    requires forall id :: id in expired <==> id in s.requests && Stalled(s.requests[id], s.clock)
    ensures sessions == Swept(s).sessions
  {
    forall session ensures FailedBy(s, expired, session) <==> SessionStalled(s, session) {
      if FailedBy(s, expired, session) {
        var id :| id in expired && id in s.requests && s.requests[id].session == session;
        assert Stalled(s.requests[id], s.clock);
      }
    }
  }
}
