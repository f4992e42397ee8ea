/**
 The `processing_job` table and the service that changes it.

 A row changes in two ways only: through a guarded transition
 (`UPDATE ... WHERE state = :from`) and through the sweeper's bulk updates.
 Both are given as functions on the table, and the methods of `JobService`
 are proved against them.
 */
module Jobs {
  import opened Prelude

  type JobId = nat
  type Time = int

  datatype JobState =
    | Intake | Ready | Dispatched | Processing | AwaitingHuman | Completed | Failed | Archived

  datatype Job = Job(
    item: nat, owner: string, state: JobState, priority: int, attempts: nat,
    createdAt: Time, dispatchedAt: Option<Time>, startedAt: Option<Time>, finishedAt: Option<Time>,
    lastError: Option<string>, errorKind: Option<string>, session: Option<nat>)

  type Rows = map<JobId, Job>

  predicate Allowed(from: JobState, to: JobState) {
    match (from, to)
    case (Intake, Ready) => true
    case (Intake, Failed) => true
    case (Ready, Dispatched) => true
    case (Ready, Archived) => true
    case (Dispatched, Processing) => true
    case (Dispatched, Ready) => true
    case (Dispatched, Failed) => true
    case (Processing, AwaitingHuman) => true
    case (Processing, Completed) => true
    case (Processing, Failed) => true
    case (AwaitingHuman, Processing) => true
    case (AwaitingHuman, Failed) => true
    case (AwaitingHuman, Completed) => true
    case (Failed, Ready) => true
    case (Failed, Archived) => true
    case (Completed, Archived) => true
    case _ => false
  }

  /** Where a job can go from each state: only an archived one is stuck. */
  lemma {:induction false} SuccessorsAre(from: JobState)
    ensures forall to :: Allowed(from, to) <==> to in Successors(from)
  {
  }

  function Successors(from: JobState): set<JobState> {
    match from
    case Intake => {Ready, Failed}
    case Ready => {Dispatched, Archived}
    case Dispatched => {Processing, Ready, Failed}
    case Processing => {AwaitingHuman, Completed, Failed}
    case AwaitingHuman => {Processing, Failed, Completed}
    case Completed => {Archived}
    case Failed => {Ready, Archived}
    case Archived => {}
  }

  predicate IsTerminal(state: JobState) {
    state in {Completed, Failed, Archived}
  }

  /** The `extra` columns of a transition: `Some(v)` sets a column to `v`. */
  datatype Extra = Extra(
    attempts: Option<nat>, lastError: Option<Option<string>>, errorKind: Option<Option<string>>)

  const NO_EXTRA := Extra(None, None, None)

  datatype TransitionError = IllegalPair(from: JobState, to: JobState) | StaleView(expected: JobState)

  /** The row after an update to state `to` at time `now`. */
  function Stamp(job: Job, to: JobState, now: Time, extra: Extra): Job {
    job.(state := to,
         dispatchedAt := if to == Dispatched then Some(now) else job.dispatchedAt,
         startedAt := if to == Processing then Some(now) else job.startedAt,
         finishedAt := if IsTerminal(to) then Some(now) else job.finishedAt,
         attempts := if extra.attempts.Some? then extra.attempts.value else job.attempts,
         lastError := if extra.lastError.Some? then extra.lastError.value else job.lastError,
         errorKind := if extra.errorKind.Some? then extra.errorKind.value else job.errorKind)
  }

  /** A guarded transition of row `id`. */
  function Moved(rows: Rows, id: JobId, from: JobState, to: JobState, now: Time, extra: Extra)
    : Result<Rows, TransitionError>
  {
    if !Allowed(from, to) then Err(IllegalPair(from, to))
    else if id !in rows || rows[id].state != from then Err(StaleView(from))
    else Ok(rows[id := Stamp(rows[id], to, now, extra)])
  }

  /** The table after an attempted transition; a refused one changes nothing. */
  function Attempt(rows: Rows, id: JobId, from: JobState, to: JobState, now: Time, extra: Extra): Rows {
    var r := Moved(rows, id, from, to, now, extra);
    if r.Ok? then r.value else rows
  }

  predicate StaleDispatch(job: Job, now: Time, lease: nat) {
    job.state == Dispatched && job.dispatchedAt.Some? && job.dispatchedAt.value < now - lease
  }

  predicate StaleProcessing(job: Job, now: Time, lease: nat) {
    job.state == Processing && job.startedAt.Some? && job.startedAt.value < now - lease
  }

  const REAP_ERROR := "processing lease expired without progress"

  /** One row under the sweeper. */
  function ReapedRow(job: Job, now: Time, dispatchLease: nat, processingLease: nat): Job {
    if StaleDispatch(job, now, dispatchLease) then
      job.(state := Ready, dispatchedAt := None)
    else if StaleProcessing(job, now, processingLease) then
      job.(state := Failed, lastError := Some(REAP_ERROR), errorKind := Some("stuck"), finishedAt := Some(now))
    else job
  }

  function Reaped(rows: Rows, now: Time, dispatchLease: nat, processingLease: nat): Rows {
    map id | id in rows :: ReapedRow(rows[id], now, dispatchLease, processingLease)
  }

  /** An overdue dispatch is undone, an overdue run fails as stuck, and all other rows stay. */
  lemma {:induction false} ReapedIs(rows: Rows, now: Time, dispatchLease: nat, processingLease: nat, id: JobId)
    requires id in rows
    ensures var was := rows[id];
            Reaped(rows, now, dispatchLease, processingLease)[id]
            == if was.state == Dispatched && was.dispatchedAt.Some? && was.dispatchedAt.value + dispatchLease < now
               then was.(state := Ready, dispatchedAt := None)
               else if was.state == Processing && was.startedAt.Some? && was.startedAt.value + processingLease < now
               then was.(state := Failed, finishedAt := Some(now), errorKind := Some("stuck"),
                         lastError := Some("processing lease expired without progress"))
               else was
  {
  }

  /** The order of the dispatcher's query: high priority first, then oldest first. */
  predicate Before(a: Job, b: Job) {
    a.priority > b.priority || (a.priority == b.priority && a.createdAt <= b.createdAt)
  }

  function ReadySet(rows: Rows): set<JobId> {
    set id | id in rows && rows[id].state == Ready
  }

  /** `picked` is what the dispatcher's query may return under `LIMIT limit`. */
  ghost predicate IsPick(rows: Rows, limit: int, picked: seq<JobId>) {
    && NoDuplicates(picked)
    && (forall i :: 0 <= i < |picked| ==> picked[i] in ReadySet(rows))
    && |picked| == (if limit <= 0 then 0 else if limit <= |ReadySet(rows)| then limit else |ReadySet(rows)|)
    && (forall i, k :: 0 <= i < k < |picked| ==> Before(rows[picked[i]], rows[picked[k]]))
    && (forall i, id :: 0 <= i < |picked| && id in ReadySet(rows) && id !in picked ==>
          Before(rows[picked[i]], rows[id]))
  }

  /**
   Ready rows only, a higher priority before a lower one and, at equal priority, an older row before a newer one; and
   no ready row left out has a higher priority than one taken or, at equal priority, is older.
   */
  ghost predicate TakesBest(rows: Rows, picked: seq<JobId>) {
    && (forall i :: 0 <= i < |picked| ==> picked[i] in rows && rows[picked[i]].state == Ready)
    && (forall i, k :: 0 <= i < k < |picked| ==> rows[picked[i]].priority >= rows[picked[k]].priority)
    && (forall i, k :: 0 <= i < k < |picked| && rows[picked[i]].priority == rows[picked[k]].priority ==>
          rows[picked[i]].createdAt <= rows[picked[k]].createdAt)
    && (forall i, id :: 0 <= i < |picked| && id in rows && rows[id].state == Ready && id !in picked ==>
          && rows[id].priority <= rows[picked[i]].priority
          && (rows[id].priority == rows[picked[i]].priority ==> rows[picked[i]].createdAt <= rows[id].createdAt))
  }

  lemma {:induction false} PickTakesBest(rows: Rows, limit: int, picked: seq<JobId>)
    requires IsPick(rows, limit, picked)
    ensures TakesBest(rows, picked)
  {
    forall i | 0 <= i < |picked| ensures picked[i] in rows && rows[picked[i]].state == Ready {
      assert picked[i] in ReadySet(rows);
    }
    forall i, k | 0 <= i < k < |picked|
      ensures rows[picked[i]].priority >= rows[picked[k]].priority
      ensures rows[picked[i]].priority == rows[picked[k]].priority ==> rows[picked[i]].createdAt <= rows[picked[k]].createdAt
    {
      assert Before(rows[picked[i]], rows[picked[k]]);
    }
    forall i, id | 0 <= i < |picked| && id in rows && rows[id].state == Ready && id !in picked
      ensures rows[id].priority <= rows[picked[i]].priority
      ensures rows[id].priority == rows[picked[i]].priority ==> rows[picked[i]].createdAt <= rows[id].createdAt
    {
      assert id in ReadySet(rows);
      assert Before(rows[picked[i]], rows[id]);
    }
  }

  /** No row twice, no more than fit, and all ready rows if more would fit. */
  ghost predicate FillsRoom(rows: Rows, limit: int, picked: seq<JobId>) {
    && (forall i, k :: 0 <= i < k < |picked| ==> picked[i] != picked[k])
    && (picked != [] ==> |picked| <= limit)
    && (|picked| < limit ==> forall id :: id in rows && rows[id].state == Ready ==> id in picked)
  }

  lemma {:induction false} PickFillsRoom(rows: Rows, limit: int, picked: seq<JobId>)
    requires IsPick(rows, limit, picked)
    ensures FillsRoom(rows, limit, picked)
  {
    if |picked| < limit {
      hide Before;
      AllAreListed(picked, ReadySet(rows));
      assert forall id :: id in rows && rows[id].state == Ready ==> id in ReadySet(rows);
    }
  }

  lemma {:induction false} NoRoomToFill(rows: Rows, limit: int)
    requires limit <= 0
    ensures FillsRoom(rows, limit, [])
  {
  }

  /** A list of distinct members as long as the set lists them all. */
  lemma {:induction false} AllAreListed(ids: seq<JobId>, members: set<JobId>)
    requires NoDuplicates(ids) && |ids| >= |members| && forall i :: 0 <= i < |ids| ==> ids[i] in members
    ensures forall id :: id in members ==> id in ids
    decreases |ids|
  {
    if ids == [] {
      assert members == {};
    } else {
      var n := |ids| - 1;
      var rest := members - {ids[n]};
      AllAreListed(ids[..n], rest);
      assert forall id :: id in members ==> id in rest || id == ids[n];
      assert ids[n] in ids && forall id :: id in ids[..n] ==> id in ids;
    }
  }

  /** The row is ready and every other ready row has a lower priority. */
  predicate TopsReady(rows: Rows, id: JobId)
    requires id in rows
  {
    rows[id].state == Ready
    && forall other :: other in rows && rows[other].state == Ready && other != id ==> rows[other].priority < rows[id].priority
  }

  /** With room, the one ready row of highest priority is picked. */
  lemma {:induction false} HighestIsPicked(rows: Rows, limit: int, picked: seq<JobId>, id: JobId)
    requires IsPick(rows, limit, picked) && limit > 0
    requires id in rows && TopsReady(rows, id)
    ensures id in picked
  {
    assert id in ReadySet(rows);
    PickTakesBest(rows, limit, picked);
    assert |picked| > 0 && picked[0] in rows && rows[picked[0]].state == Ready;
  }

  lemma {:induction false} NothingPicked(rows: Rows, limit: int)
    requires limit <= 0
    ensures IsPick(rows, limit, [])
  {
  }

  /** The dispatcher's loop over the picked rows: refused rows are skipped. */
  function DispatchAll(rows: Rows, picked: seq<JobId>, now: Time): (Rows, seq<JobId>)
    decreases |picked|
  {
    if picked == [] then (rows, [])
    else
      var (before, done) := DispatchAll(rows, picked[..|picked| - 1], now);
      var id := picked[|picked| - 1];
      var r := Moved(before, id, Ready, Dispatched, now, NO_EXTRA);
      if r.Ok? then (r.value, done + [id]) else (before, done)
  }

  /** When every picked row is ready, the whole pick is dispatched and no other row changes. */
  lemma {:induction false} DispatchAllMovesPick(rows: Rows, picked: seq<JobId>, now: Time)
    requires NoDuplicates(picked)
    requires forall i :: 0 <= i < |picked| ==> picked[i] in ReadySet(rows)
    ensures var (after, done) := DispatchAll(rows, picked, now);
            && done == picked
            && after.Keys == rows.Keys
            && forall id :: id in rows ==>
                 after[id] == if id in picked then Stamp(rows[id], Dispatched, now, NO_EXTRA) else rows[id]
    decreases |picked|
  {
    if picked != [] {
      var init := picked[..|picked| - 1];
      DispatchAllMovesPick(rows, init, now);
      var id := picked[|picked| - 1];
      assert picked == init + [id];
      assert id in ReadySet(rows);
      assert id !in init;
    }
  }

  lemma {:induction false} PickIsDispatched(rows: Rows, limit: int, picked: seq<JobId>, now: Time)
    requires IsPick(rows, limit, picked)
    ensures var (after, done) := DispatchAll(rows, picked, now);
            && done == picked
            && forall id :: id in rows ==>
                 id in after && after[id] == if id in picked then Stamp(rows[id], Dispatched, now, NO_EXTRA) else rows[id]
  {
    DispatchAllMovesPick(rows, picked, now);
  }

  /** A finite non-empty set of rows has one that no other precedes. */
  lemma {:induction false} FirstExists(rows: Rows, ids: set<JobId>) returns (first: JobId)
    requires ids != {} && ids <= rows.Keys
    ensures first in ids && forall id :: id in ids ==> Before(rows[first], rows[id])
  {
    var some :| some in ids;
    var rest := ids - {some};
    if rest == {} {
      first := some;
      assert ids == {some};
    } else {
      var f := FirstExists(rows, rest);
      first := if Before(rows[some], rows[f]) then some else f;
    }
  }

  /** A listing in progress: `picked` so far, in order, with `rest` of the ready rows still to come. */
  ghost predicate Drawn(rows: Rows, picked: seq<JobId>, rest: set<JobId>) {
    && rest <= ReadySet(rows)
    && |rest| + |picked| == |ReadySet(rows)|
    && NoDuplicates(picked)
    && (forall i :: 0 <= i < |picked| ==> picked[i] in ReadySet(rows) && picked[i] !in rest)
    && (forall id :: id in ReadySet(rows) ==> id in rest || id in picked)
    && (forall i, k :: 0 <= i < k < |picked| ==> Before(rows[picked[i]], rows[picked[k]]))
    && (forall i, id :: 0 <= i < |picked| && id in rest ==> Before(rows[picked[i]], rows[id]))
  }

  lemma {:induction false} DrawnNothing(rows: Rows)
    ensures Drawn(rows, [], ReadySet(rows)) && ReadySet(rows) <= rows.Keys
  {
  }

  lemma {:induction false} DrawnNext(rows: Rows, picked: seq<JobId>, rest: set<JobId>, next: JobId)
    requires Drawn(rows, picked, rest) && next in rest && forall id :: id in rest ==> id in rows && Before(rows[next], rows[id])
    ensures Drawn(rows, picked + [next], rest - {next})
  {
  }

  lemma {:induction false} DrawnIsPick(rows: Rows, limit: int, picked: seq<JobId>, rest: set<JobId>)
    requires Drawn(rows, picked, rest) && 0 < limit && |picked| <= limit && (|picked| == limit || rest == {})
    ensures IsPick(rows, limit, picked)
  {
  }

  /** `JobService` over the table it owns. */
  class JobService {
    var rows: Rows

    constructor ()
      ensures rows == map[]
    {
      rows := map[];
    }

    /** Insert a row for an item unless one exists; either way return the item's job. */
    method CreateForItem(item: nat, owner: string, initial: JobState, priority: int, now: Time, newId: JobId)
      returns (id: JobId)
      requires newId !in rows
      modifies this
      ensures id in rows && rows[id].item == item
      ensures (exists j :: j in old(rows) && old(rows)[j].item == item) ==> rows == old(rows)
      ensures !(exists j :: j in old(rows) && old(rows)[j].item == item) ==>
                id == newId &&
                rows == old(rows)[newId := Job(item, owner, initial, priority, 0, now, None, None, None, None, None, None)]
    {
      if j :| j in rows && rows[j].item == item {
        id := j;
      } else {
        rows := rows[newId := Job(item, owner, initial, priority, 0, now, None, None, None, None, None, None)];
        id := newId;
      }
    }

    method Transition(id: JobId, from: JobState, to: JobState, now: Time, extra: Extra)
      returns (r: Result<Job, TransitionError>)
      modifies this
      ensures rows == Attempt(old(rows), id, from, to, now, extra)
      ensures r.Ok? <==> Moved(old(rows), id, from, to, now, extra).Ok?
      ensures r.Ok? ==> id in rows && r.value == rows[id]
      ensures r.Err? ==> r.error == Moved(old(rows), id, from, to, now, extra).error && rows == old(rows)
      ensures r.Ok? ==> id in old(rows) && old(rows)[id].state == from && rows == old(rows)[id := rows[id]]
      ensures r.Ok? ==>
                var was, row := old(rows)[id], rows[id];
                && row.state == to
                && row.dispatchedAt == (if to == Dispatched then Some(now) else was.dispatchedAt)
                && row.startedAt == (if to == Processing then Some(now) else was.startedAt)
                && row.finishedAt == (if to in {Completed, Failed, Archived} then Some(now) else was.finishedAt)
                && (row.item, row.owner, row.priority, row.createdAt, row.session)
                   == (was.item, was.owner, was.priority, was.createdAt, was.session)
                && (extra == NO_EXTRA ==>
                      (row.attempts, row.lastError, row.errorKind) == (was.attempts, was.lastError, was.errorKind))
    {
      if !Allowed(from, to) {
        return Err(IllegalPair(from, to));
      }
      var job: Option<Job> := if id in rows && rows[id].state == from then Some(rows[id]) else None;
      if job.None? {
        return Err(StaleView(from));
      }
      var row := job.value.(state := to);
      if to == Dispatched { row := row.(dispatchedAt := Some(now)); }
      if to == Processing { row := row.(startedAt := Some(now)); }
      if to == Completed || to == Failed || to == Archived { row := row.(finishedAt := Some(now)); }
      if extra.attempts.Some? { row := row.(attempts := extra.attempts.value); }
      if extra.lastError.Some? { row := row.(lastError := extra.lastError.value); }
      if extra.errorKind.Some? { row := row.(errorKind := extra.errorKind.value); }
      rows := rows[id := row];
      return Ok(row);
    }

    method SetCurrentSession(id: JobId, session: Option<nat>)
      modifies this
      ensures rows == if id in old(rows) then old(rows)[id := old(rows)[id].(session := session)] else old(rows)
    {
      if id in rows {
        rows := rows[id := rows[id].(session := session)];
      }
    }

    method Retry(id: JobId, now: Time) returns (r: Result<Job, TransitionError>)
      requires id in rows
      modifies this
      ensures rows == Attempt(old(rows), id, Failed, Ready, now, RetryExtra(old(rows)[id]))
      ensures r.Ok? <==> old(rows)[id].state == Failed
      ensures r.Ok? ==> rows == old(rows)[id := old(rows)[id].(
                state := Ready, attempts := old(rows)[id].attempts + 1, lastError := None, errorKind := None)]
      ensures r.Err? ==> rows == old(rows)
    {
      var job := rows[id];
      r := Transition(id, Failed, Ready, now, Extra(Some(job.attempts + 1), Some(None), Some(None)));
    }

    method Cancel(id: JobId, reason: string, now: Time) returns (r: Result<Job, TransitionError>)
      requires id in rows
      modifies this
      ensures rows == Attempt(old(rows), id, old(rows)[id].state, Failed, now, CancelExtra(reason))
      ensures r.Ok? <==> old(rows)[id].state in {Intake, Dispatched, Processing, AwaitingHuman}
      ensures r.Ok? ==> rows == old(rows)[id := old(rows)[id].(
                state := Failed, finishedAt := Some(now), lastError := Some(reason), errorKind := Some("cancelled_by_user"))]
      ensures r.Err? ==> rows == old(rows)
    {
      var job := rows[id];
      r := Transition(id, job.state, Failed, now, Extra(None, Some(Some(reason)), Some(Some("cancelled_by_user"))));
    }

    method Archive(id: JobId, now: Time) returns (r: Result<Job, TransitionError>)
      requires id in rows
      modifies this
      ensures rows == Attempt(old(rows), id, old(rows)[id].state, Archived, now, NO_EXTRA)
      ensures r.Ok? <==> old(rows)[id].state in {Ready, Failed, Completed}
      ensures r.Ok? ==> rows == old(rows)[id := old(rows)[id].(state := Archived, finishedAt := Some(now))]
      ensures r.Err? ==> rows == old(rows)
    {
      var job := rows[id];
      r := Transition(id, job.state, Archived, now, NO_EXTRA);
    }

    /** The sweeper: revert stale dispatches, then fail stale processing rows. */
    method ReapStuck(now: Time, dispatchLease: nat, processingLease: nat) returns (reverted: nat, failed: nat)
      modifies this
      ensures rows == Reaped(old(rows), now, dispatchLease, processingLease)
      ensures reverted == |set id | id in old(rows) && StaleDispatch(old(rows)[id], now, dispatchLease)|
      ensures failed == |set id | id in old(rows) && StaleProcessing(old(rows)[id], now, processingLease)|
    {
      var stale := set id | id in rows && StaleDispatch(rows[id], now, dispatchLease);
      rows := map id | id in rows ::
        if id in stale then rows[id].(state := Ready, dispatchedAt := None) else rows[id];
      var hung := set id | id in rows && StaleProcessing(rows[id], now, processingLease);
      assert hung == set id | id in old(rows) && StaleProcessing(old(rows)[id], now, processingLease);
      rows := map id | id in rows ::
        if id in hung
        then rows[id].(state := Failed, lastError := Some(REAP_ERROR), errorKind := Some("stuck"),
                       finishedAt := Some(now))
        else rows[id];
      reverted, failed := |stale|, |hung|;
    }

    /** `SELECT ... WHERE state = 'ready' ORDER BY priority DESC, created_at LIMIT limit`. */
    method PickReadyJobs(limit: int) returns (picked: seq<JobId>)
      ensures IsPick(rows, limit, picked)
      ensures TakesBest(rows, picked) && FillsRoom(rows, limit, picked)
    {
      hide TakesBest, FillsRoom, Drawn, IsPick;
      picked := [];
      if limit <= 0 {
        NothingPicked(rows, limit);
        PickTakesBest(rows, limit, picked);
        PickFillsRoom(rows, limit, picked);
        return;
      }
      var rest := ReadySet(rows);
      DrawnNothing(rows);
      while |picked| < limit && rest != {}
        invariant |picked| <= limit && rest <= rows.Keys && Drawn(rows, picked, rest)
      {
        ghost var first := FirstExists(rows, rest);
        var next :| next in rest && forall id :: id in rest ==> Before(rows[next], rows[id]);
        DrawnNext(rows, picked, rest, next);
        picked := picked + [next];
        rest := rest - {next};
      }
      DrawnIsPick(rows, limit, picked, rest);
      PickTakesBest(rows, limit, picked);
      PickFillsRoom(rows, limit, picked);
    }
  }

  function RetryExtra(job: Job): Extra {
    Extra(Some(job.attempts + 1), Some(None), Some(None))
  }

  function CancelExtra(reason: string): Extra {
    Extra(None, Some(Some(reason)), Some(Some("cancelled_by_user")))
  }
}
