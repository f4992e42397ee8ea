/**
 The message log of a session and the endpoint that streams it.

 Message indexes are computed as the largest index so far plus one; the stream asks for pages of
 messages after the last index it has sent, while other requests keep appending.
 */
module SessionLog {
  import opened Prelude

  type SessionId = nat

  datatype Row = Row(session: SessionId, index: int, role: string, content: string, run: Option<nat>)

  /** The unique key of the message table. */
  datatype Key = Key(session: SessionId, index: int)

  datatype LogError = NoSuchSession

  /** `WHERE index > after ORDER BY index LIMIT limit` on a log whose indexes are its positions. */
  function Page(log: seq<Row>, after: Option<int>, limit: nat): seq<Row> {
    var from := if after.None? || after.value < 0 then 0 else if after.value < |log| then after.value + 1 else |log|;
    if |log| - from <= limit then log[from..] else log[from..from + limit]
  }

  /** Rows after an index, in order, at most `limit`; any other such row comes later and was cut off by the limit. */
  ghost predicate IsPage(log: seq<Row>, after: Option<int>, limit: nat, page: seq<Row>) {
    && |page| <= limit
    && (forall i :: 0 <= i < |page| ==> page[i] in log && (after.Some? ==> after.value < page[i].index))
    && (forall i, j :: 0 <= i < j < |page| ==> page[i].index < page[j].index)
    && (forall row :: row in log && row !in page && (after.Some? ==> after.value < row.index) ==>
          |page| == limit && forall i :: 0 <= i < |page| ==> page[i].index < row.index)
  }

  /** A row after `after` is in the page, or behind a page that is full. */
  lemma {:induction false} InPageOrCut(log: seq<Row>, after: Option<int>, limit: nat, k: nat)
    requires k < |log| && (after.Some? ==> after.value < k)
    ensures var page := Page(log, after, limit);
            var from := if after.None? || after.value < 0 then 0 else after.value + 1;
            && from <= k && |page| <= limit
            && (forall i :: 0 <= i < |page| ==> from + i < |log| && page[i] == log[from + i])
            && (log[k] in page || (|page| == limit && from + |page| <= k))
  {
    var page := Page(log, after, limit);
    var from := if after.None? || after.value < 0 then 0 else after.value + 1;
    if k < from + |page| {
      assert page[k - from] == log[k];
    }
  }

  lemma {:induction false} PageIs(log: seq<Row>, after: Option<int>, limit: nat)
    requires forall i :: 0 <= i < |log| ==> log[i].index == i
    ensures IsPage(log, after, limit, Page(log, after, limit))
  {
    var page := Page(log, after, limit);
    forall row | row in log && row !in page && (after.Some? ==> after.value < row.index)
      ensures |page| == limit && forall i :: 0 <= i < |page| ==> page[i].index < row.index
    {
      InPageOrCut(log, after, limit, row.index);
    }
  }

  class SessionService {
    /** The message table, by its unique key (session, index). */
    var rows: map<Key, Row>
    /** The `message_count` column of every session. */
    var counts: map<SessionId, nat>

    constructor ()
      ensures Valid() && counts == map[]
    {
      rows, counts := map[], map[];
    }

    /** The indexes of a session are exactly 0..count-1. */
    ghost predicate Valid()
      reads this
    {
      && (forall s, i :: s in counts && 0 <= i < counts[s] ==> Key(s, i) in rows)
      && (forall k :: k in rows ==>
            && k.session in counts && 0 <= k.index < counts[k.session]
            && rows[k].session == k.session && rows[k].index == k.index)
    }

    /** The messages of a session, in order. */
    ghost function Log(session: SessionId): (log: seq<Row>)
      requires Valid() && session in counts
      reads this
      ensures |log| == counts[session]
      ensures forall i :: 0 <= i < |log| ==> log[i] == rows[Key(session, i)] && log[i].index == i
    {
      var n, table := counts[session], rows;
      seq(n, i requires 0 <= i < n && Key(session, i) in table => table[Key(session, i)])
    }

    method CreateSession(session: SessionId)
      requires Valid() && session !in counts
      modifies this
      ensures Valid() && counts == old(counts)[session := 0] && rows == old(rows)
    {
      counts := counts[session := 0];
    }

    method NextMessageIndex(session: SessionId) returns (index: int)
      requires Valid()
      ensures index == if session in counts then counts[session] else 0
    {
      var top := -1;
      var rest := set k | k in rows && k.session == session;
      while rest != {}
        invariant rest <= rows.Keys && forall k :: k in rest ==> k.session == session
        invariant -1 <= top && (top >= 0 ==> Key(session, top) in rows)
        invariant forall i :: Key(session, i) in rows && Key(session, i) !in rest ==> i <= top
      {
        var k :| k in rest;
        if k.index > top {
          top := k.index;
        }
        rest := rest - {k};
      }
      index := top + 1;
      if session in counts && counts[session] > 0 {
        assert Key(session, counts[session] - 1) in rows;
      }
    }

    /** Append one message; other sessions keep theirs. */
    method AppendMessage(session: SessionId, role: string, content: string, run: Option<nat>)
      returns (r: Result<Row, LogError>)
      requires Valid()
      modifies this
      ensures Valid()
      ensures r.Ok? <==> session in old(counts)
      ensures r.Err? ==> rows == old(rows) && counts == old(counts)
      ensures r.Ok? ==> session in counts && counts.Keys == old(counts.Keys)
                        && r.value == Row(session, old(counts)[session], role, content, run)
                        && Log(session) == old(Log(session)) + [r.value]
      ensures forall s :: s in old(counts) && s != session ==> s in counts && Log(s) == old(Log(s))
    {
      var index := NextMessageIndex(session);
      if session !in counts {
        return Err(NoSuchSession);
      }
      var row := Row(session, index, role, content, run);
      rows := rows[Key(session, index) := row];
      counts := counts[session := counts[session] + 1];
      return Ok(row);
    }

    method PostSystemMessage(session: SessionId, content: string) returns (r: Result<Row, LogError>)
      requires Valid()
      modifies this
      ensures Valid()
      ensures r.Ok? <==> session in old(counts)
      ensures r.Err? ==> rows == old(rows) && counts == old(counts)
      ensures r.Ok? ==> session in counts && counts.Keys == old(counts.Keys)
                        && Log(session) == old(Log(session)) + [Row(session, old(counts)[session], "system", content, None)]
      ensures forall s :: s in old(counts) && s != session ==> s in counts && Log(s) == old(Log(s))
    {
      r := AppendMessage(session, "system", content, None);
    }

    ghost predicate IsLogPage(session: SessionId, after: Option<int>, limit: nat, page: seq<Row>)
      requires Valid() && session in counts
      reads this
    {
      IsPage(Log(session), after, limit, page)
    }

    lemma {:induction false} LogPage(session: SessionId, after: Option<int>, limit: nat)
      requires Valid() && session in counts
      ensures IsLogPage(session, after, limit, Page(Log(session), after, limit))
    {
      PageIs(Log(session), after, limit);
    }

    /** One page of messages. */
    method ListMessages(session: SessionId, after: Option<int>, limit: nat) returns (page: seq<Row>)
      requires Valid()
      ensures page == if session in counts then Page(Log(session), after, limit) else []
      ensures session in counts ==> IsLogPage(session, after, limit, page)
    {
      page := Query(session, after, limit);
      if session in counts {
        LogPage(session, after, limit);
      }
    }

    /** The query: least indexes first, until the limit is reached or no row is left. */
    method Query(session: SessionId, after: Option<int>, limit: nat) returns (page: seq<Row>)
      requires Valid()
      ensures page == if session in counts then Page(Log(session), after, limit) else []
    {
      page := [];
      var rest := set k | k in rows && k.session == session && (after.Some? ==> k.index > after.value);
      ghost var from := if after.None? || after.value < 0 then 0 else after.value + 1;
      while |page| < limit && rest != {}
        invariant |page| <= limit
        invariant page != [] ==> session in counts && from + |page| <= counts[session]
        invariant forall i :: 0 <= i < |page| ==> page[i] == rows[Key(session, from + i)]
        invariant forall k :: k in rest <==> k in rows && k.session == session && k.index >= from + |page|
        decreases limit - |page|
      {
        assert Key(session, from + |page|) in rest by {
          var some :| some in rest;
          assert some == Key(session, some.index);
        }
        var least :| least in rest && forall k :: k in rest ==> least.index <= k.index;
        assert least == Key(session, least.index);
        page := page + [rows[least]];
        rest := rest - {least};
      }
      if session in counts && from + |page| < counts[session] {
        assert Key(session, from + |page|) in rows;
      }
    }
  }

  // ---------------------------------------------------------------- the stream

  const PAGE_SIZE: nat := 100

  /** One turn of the generator's loop: a page, sent row by row, moving `after` along. */
  method StreamTurn(svc: SessionService, session: SessionId, start: int) returns (sent: seq<Row>, after: int)
    requires svc.Valid() && session in svc.counts && -1 <= start
    ensures sent == Page(svc.Log(session), Some(start), PAGE_SIZE)
    ensures after == start + |sent|
  {
    hide IsPage;
    var rows := svc.ListMessages(session, Some(start), PAGE_SIZE);
    after, sent := start, [];
    var n := 0;
    while n < |rows|
      invariant n <= |rows|
      invariant sent == rows[..n]
      invariant after == start + n
    {
      sent := sent + [rows[n]];
      after := rows[n].index;
      n := n + 1;
    }
  }

  /** The stream between any two of its steps, and the log it reads. */
  datatype Stream = Stream(log: seq<Row>, emitted: seq<Row>, page: seq<Row>, after: int)

  datatype Event =
    | Append(row: Row)   // some request appended a message
    | Fetch              // the loop asked for the next page
    | Emit               // the loop sent one row

  predicate Enabled(s: Stream, e: Event) {
    match e
    case Append(row) => row.index == |s.log|
    case Fetch => s.page == []
    case Emit => s.page != []
  }

  function Next(s: Stream, e: Event): Stream
    requires Enabled(s, e)
  {
    match e
    case Append(row) => s.(log := s.log + [row])
    case Fetch => s.(page := Page(s.log, Some(s.after), PAGE_SIZE))
    case Emit => s.(emitted := s.emitted + [s.page[0]], page := s.page[1..], after := s.page[0].index)
  }

  predicate Runs(s: Stream, es: seq<Event>)
    decreases |es|
  {
    es == [] || (Enabled(s, es[0]) && Runs(Next(s, es[0]), es[1..]))
  }

  function After(s: Stream, es: seq<Event>): Stream
    requires Runs(s, es)
    decreases |es|
  {
    if es == [] then s else After(Next(s, es[0]), es[1..])
  }

  predicate Indexed(log: seq<Row>) {
    forall i :: 0 <= i < |log| ==> log[i].index == i
  }

  /** What was sent is a prefix of the log, the page is what follows, and `after` is its last index. */
  predicate InStep(s: Stream) {
    && Indexed(s.log)
    && |s.emitted| + |s.page| <= |s.log|
    && s.emitted == s.log[..|s.emitted|]
    && s.page == s.log[|s.emitted|..|s.emitted| + |s.page|]
    && s.after == |s.emitted| - 1
  }

  lemma {:induction false} InStepKept(s: Stream, e: Event)
    requires InStep(s) && Enabled(s, e)
    ensures InStep(Next(s, e))
  {
    var t := Next(s, e);
    match e
    case Append(row) =>
      assert t.log[..|s.emitted|] == s.log[..|s.emitted|];
      assert t.log[|s.emitted|..|s.emitted| + |s.page|] == s.log[|s.emitted|..|s.emitted| + |s.page|];
    case Fetch =>
    case Emit =>
      assert s.page[0] == s.log[|s.emitted|];
      assert t.emitted == s.log[..|s.emitted| + 1];
      assert t.page == s.log[|t.emitted|..|t.emitted| + |t.page|];
  }

  lemma {:induction false} InStepAlways(s: Stream, es: seq<Event>)
    requires InStep(s) && Runs(s, es)
    ensures InStep(After(s, es))
    decreases |es|
  {
    if es != [] {
      InStepKept(s, es[0]);
      InStepAlways(Next(s, es[0]), es[1..]);
    }
  }

  /**
   Whatever is appended in between, the stream of a log has at every moment sent exactly a prefix
   of the log as it then is: each message once, in order, none skipped.
   */
  lemma {:induction false} EmittedIsPrefix(log: seq<Row>, es: seq<Event>)
    requires Indexed(log) && Runs(Stream(log, [], [], -1), es)
    ensures var s := After(Stream(log, [], [], -1), es);
            s.emitted <= s.log && log <= s.log
  {
    InStepAlways(Stream(log, [], [], -1), es);
    LogGrows(Stream(log, [], [], -1), es);
  }

  lemma {:induction false} LogGrows(s: Stream, es: seq<Event>)
    requires Runs(s, es)
    ensures s.log <= After(s, es).log
    decreases |es|
  {
    if es != [] {
      LogGrows(Next(s, es[0]), es[1..]);
    }
  }

  /** The loop's own steps when nothing is appended: send the page, fetch the next, and so on. */
  function Drain(s: Stream): seq<Event>
    requires InStep(s)
    decreases |s.log| - |s.emitted|, if s.page == [] then 1 else 0
  {
    if |s.emitted| == |s.log| then []
    else if s.page != [] then
      InStepKept(s, Emit);
      [Emit] + Drain(Next(s, Emit))
    else
      InStepKept(s, Fetch);
      [Fetch] + Drain(Next(s, Fetch))
  }

  /** Left alone, the stream sends everything. */
  lemma {:induction false} DrainCatchesUp(s: Stream)
    requires InStep(s)
    ensures Runs(s, Drain(s)) && After(s, Drain(s)).emitted == s.log
    decreases |s.log| - |s.emitted|, if s.page == [] then 1 else 0
  {
    if |s.emitted| == |s.log| {
    } else if s.page != [] {
      InStepKept(s, Emit);
      DrainCatchesUp(Next(s, Emit));
      assert Drain(s)[1..] == Drain(Next(s, Emit));
    } else {
      InStepKept(s, Fetch);
      DrainCatchesUp(Next(s, Fetch));
      assert Drain(s)[1..] == Drain(Next(s, Fetch));
    }
  }
}
