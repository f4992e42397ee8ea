/**
 The versioned artifact table.

 Rows of one (session, key) are numbered versions, stored inline or as a blob. The table is shown
 to refine a simple thing: a map from (session, key) to a list that only ever grows at its end.
 */
module ArtifactStore {
  import opened Prelude
  import opened MergePatch

  type SessionId = nat
  type ArtifactId = nat
  type Bytes = seq<bv8>

  const JSON_MIME := "application/json"

  /** The JSON text codec and `str().encode()`. Only the round trip of JSON is relied on. */
  datatype Codec = Codec(encode: Json -> Bytes, decode: Bytes -> Option<Json>, text: Json -> Bytes) {
    ghost predicate RoundTrips() {
      forall j :: decode(encode(j)) == Some(j)
    }
  }

  /** What a caller hands in: a JSON-like value, or bytes. */
  datatype Content = JsonContent(j: Json) | RawContent(data: Bytes)

  /** What a reader gets back. */
  datatype Payload = JsonValue(j: Json) | Data(data: Bytes)

  datatype BlobRef = BlobRef(session: SessionId, artifact: ArtifactId)

  datatype Storage = Inline(content: Json) | Blob(ref: BlobRef)

  datatype Row = Row(
    id: ArtifactId, session: SessionId, key: string, version: nat, kind: string, mime: string,
    storage: Storage, size: nat, supersedes: Option<ArtifactId>, isLatest: bool)

  datatype StoreError = VersionCapExceeded | NotSerializable | NotFound | BadMime | PatchFailed

  // ---------------------------------------------------------------- the abstract log

  datatype Entry = Entry(id: ArtifactId, payload: Payload, kind: string, mime: string)

  type Log = map<(SessionId, string), seq<Entry>>

  function Versions(log: Log, session: SessionId, key: string): seq<Entry> {
    if (session, key) in log then log[(session, key)] else []
  }

  /** A write: one more entry, unless the cap is reached. */
  function Appended(log: Log, cap: nat, session: SessionId, key: string, e: Entry): Log {
    var entries := Versions(log, session, key);
    if |entries| >= cap then log else log[(session, key) := entries + [e]]
  }

  /** A read by key, of one version or of the last. */
  function Lookup(log: Log, session: SessionId, key: string, version: Option<int>): Option<Entry> {
    var entries := Versions(log, session, key);
    match version
    case None => if entries == [] then None else Some(entries[|entries| - 1])
    case Some(v) => if 1 <= v <= |entries| then Some(entries[v - 1]) else None
  }

  datatype WriteOp = WriteOp(session: SessionId, key: string, entry: Entry)

  function History(log: Log, cap: nat, ops: seq<WriteOp>): Log
    decreases |ops|
  {
    if ops == [] then log
    else
      var last := ops[|ops| - 1];
      Appended(History(log, cap, ops[..|ops| - 1]), cap, last.session, last.key, last.entry)
  }

  /** A version, once it can be read, reads the same after any further writes. */
  lemma {:induction false} VersionsNeverChange(log: Log, cap: nat, ops: seq<WriteOp>, session: SessionId, key: string, v: int)
    requires Lookup(log, session, key, Some(v)).Some?
    ensures Lookup(History(log, cap, ops), session, key, Some(v)) == Lookup(log, session, key, Some(v))
    decreases |ops|
  {
    if ops != [] {
      VersionsNeverChange(log, cap, ops[..|ops| - 1], session, key, v);
    }
  }

  /** The entries of (session, key) among `ops`, in order. */
  function Entries(ops: seq<WriteOp>, session: SessionId, key: string): seq<Entry>
    decreases |ops|
  {
    if ops == [] then []
    else
      var last := ops[|ops| - 1];
      Entries(ops[..|ops| - 1], session, key)
      + (if last.session == session && last.key == key then [last.entry] else [])
  }

  /** From nothing, a key holds exactly the first `cap` entries written to it. */
  lemma {:induction false} HoldsWhatWasWritten(cap: nat, ops: seq<WriteOp>, session: SessionId, key: string)
    ensures var all := Entries(ops, session, key);
            Versions(History(map[], cap, ops), session, key) == all[..if |all| < cap then |all| else cap]
    decreases |ops|
  {
    if ops != [] {
      HoldsWhatWasWritten(cap, ops[..|ops| - 1], session, key);
    }
  }

  // ---------------------------------------------------------------- the service

  /** What a reader will get for this content, if it can be stored under this mime type at all. */
  function Stored(codec: Codec, content: Content, mime: string): Option<Payload> {
    match content
    case JsonContent(j) => if mime == JSON_MIME then Some(JsonValue(j)) else Some(Data(codec.text(j)))
    case RawContent(data) => if mime == JSON_MIME then None else Some(Data(data))
  }

  function Resolve(codec: Codec, row: Row, blobs: map<BlobRef, Bytes>): Option<Payload> {
    match row.storage
    case Inline(content) => Some(JsonValue(content))
    case Blob(ref) =>
      if ref !in blobs then None
      else if row.mime != JSON_MIME then Some(Data(blobs[ref]))
      else
        var j := codec.decode(blobs[ref]);
        if j.Some? then Some(JsonValue(j.value)) else None
  }

  /** How an update combines with the current content; applying a JSON patch is a library's, and may fail. */
  datatype MergeMode = Replace | MergePatchMode | JsonPatchMode(apply: Payload -> Option<Json>)

  function KindOr(kind: Option<string>, fallback: string): string {
    if kind.Some? && kind.value != "" then kind.value else fallback
  }

  /** The document a merge patch is applied to: an object without members if the key holds nothing. */
  function Previous(current: Option<Payload>): Json {
    match current
    case None => Obj(map[])
    case Some(JsonValue(j)) => j
    case Some(Data(_)) => Null
  }

  /** What `update` hands to `write`, given what the key holds now. */
  function Updated(current: Option<Payload>, content: Content, mode: MergeMode, mime: string): Result<Content, StoreError> {
    match mode
    case Replace => Ok(content)
    case MergePatchMode =>
      if mime != JSON_MIME then Err(BadMime)
      else if content.RawContent? then Ok(content)
      else Ok(JsonContent(Merge(Previous(current), content.j)))
    case JsonPatchMode(apply) =>
      if current.None? then Err(NotFound)
      else
        var patched := apply(current.value);
        if patched.None? then Err(PatchFailed) else Ok(JsonContent(patched.value))
  }

  /** How an update ends: why it fails, or the payload it appends. */
  function UpdateOutcome(codec: Codec, cap: nat, entries: seq<Entry>, content: Content, mode: MergeMode, mime: string):
    Result<Payload, StoreError>
  {
    var next := Updated(if entries == [] then None else Some(entries[|entries| - 1].payload), content, mode, mime);
    if next.Err? then Err(next.error)
    else if |entries| >= cap then Err(VersionCapExceeded)
    else
      var stored := Stored(codec, next.value, mime);
      if stored.None? then Err(NotSerializable) else Ok(stored.value)
  }

  /** JSON is kept as JSON, bytes as bytes, and other values under another mime type as their text. */
  predicate IsStored(codec: Codec, content: Content, mime: string, payload: Payload) {
    if mime == JSON_MIME then content.JsonContent? && payload == JsonValue(content.j)
    else payload == Data(if content.JsonContent? then codec.text(content.j) else content.data)
  }

  lemma {:induction false} StoredIs(codec: Codec, content: Content, mime: string)
    ensures forall payload :: Stored(codec, content, mime) == Some(payload) <==> IsStored(codec, content, mime, payload)
    ensures Stored(codec, content, mime).None? <==> content.RawContent? && mime == JSON_MIME
  {
  }

  /** What an update appends: the content as given, the current document patched with it, or a patch applied to it. */
  ghost predicate Lands(codec: Codec, entries: seq<Entry>, content: Content, mode: MergeMode, mime: string, payload: Payload) {
    var current := if entries == [] then None else Some(entries[|entries| - 1].payload);
    match mode
    case Replace => IsStored(codec, content, mime, payload)
    case MergePatchMode =>
      && content.JsonContent? && payload.JsonValue?
      && if content.j.Obj?
         then Patched(if current.Some? && current.value.JsonValue? then current.value.j else Null, content.j, payload.j)
         else payload.j == content.j
    case JsonPatchMode(apply) =>
      && current.Some? && apply(current.value).Some?
      && IsStored(codec, JsonContent(apply(current.value).value), mime, payload)
  }

  /** Why an update fails, the first reason first. */
  predicate Fails(cap: nat, entries: seq<Entry>, content: Content, mode: MergeMode, mime: string, error: StoreError) {
    if mode.MergePatchMode? && mime != JSON_MIME then error == BadMime
    else if mode.JsonPatchMode? && entries == [] then error == NotFound
    else if mode.JsonPatchMode? && mode.apply(entries[|entries| - 1].payload).None? then error == PatchFailed
    else if |entries| >= cap then error == VersionCapExceeded
    else !mode.JsonPatchMode? && content.RawContent? && mime == JSON_MIME && error == NotSerializable
  }

  lemma {:induction false} OutcomeSays(codec: Codec, cap: nat, entries: seq<Entry>, content: Content, mode: MergeMode, mime: string)
    ensures var outcome := UpdateOutcome(codec, cap, entries, content, mode, mime);
            && (outcome.Ok? ==> Lands(codec, entries, content, mode, mime, outcome.value))
            && (forall error :: Fails(cap, entries, content, mode, mime, error) <==> outcome == Err(error))
  {
    var current := if entries == [] then None else Some(entries[|entries| - 1].payload);
    if mode.MergePatchMode? && content.JsonContent? && content.j.Obj? {
      MergePatches(Previous(current), content.j);
      SameMembers(Previous(current), if current.Some? && current.value.JsonValue? then current.value.j else Null, content.j,
                  Merge(Previous(current), content.j));
    }
  }

  lemma {:induction false} SameMembers(a: Json, b: Json, patch: Json, after: Json)
    requires patch.Obj? && Patched(a, patch, after) && forall k :: MemberAt(a, k) == MemberAt(b, k)
    ensures Patched(b, patch, after)
  {
  }

  type Rows = map<ArtifactId, Row>
  type Blobs = map<BlobRef, Bytes>

  /** `row` is version `v` of (session, key), which holds `entries`. */
  ghost predicate IsVersion(codec: Codec, row: Row, blobs: Blobs, session: SessionId, key: string, entries: seq<Entry>, v: int) {
    && 1 <= v <= |entries|
    && row.id == entries[v - 1].id
    && row.session == session && row.key == key && row.version == v
    && row.kind == entries[v - 1].kind && row.mime == entries[v - 1].mime
    && row.isLatest == (v == |entries|)
    && row.supersedes == (if v == 1 then None else Some(entries[v - 2].id))
    && Resolve(codec, row, blobs) == Some(entries[v - 1].payload)
  }

  /** The row is a version of its key. */
  ghost predicate RowInLog(codec: Codec, row: Row, blobs: Blobs, log: Log) {
    IsVersion(codec, row, blobs, row.session, row.key, Versions(log, row.session, row.key), row.version)
  }

  /** The version has a row. */
  ghost predicate EntryInRows(rows: Rows, log: Log, session: SessionId, key: string, i: nat) {
    var entries := Versions(log, session, key);
    i < |entries| ==>
      && entries[i].id in rows
      && rows[entries[i].id].session == session && rows[entries[i].id].key == key
      && rows[entries[i].id].version == i + 1
  }

  /** The table holds exactly the log: versions 1..n of every key, each once, n within the cap. */
  ghost predicate Refines(codec: Codec, cap: nat, rows: Rows, blobs: Blobs, nextId: ArtifactId, log: Log) {
    && (forall id :: id in rows ==> id < nextId && rows[id].id == id && RowInLog(codec, rows[id], blobs, log))
    && (forall session, key, i :: EntryInRows(rows, log, session, key, i))
    && (forall session, key :: |Versions(log, session, key)| <= cap)
    && (forall ref :: ref in blobs ==> ref.artifact < nextId)
  }

  lemma {:induction false} AppendedVersions(log: Log, cap: nat, session: SessionId, key: string, e: Entry)
    requires |Versions(log, session, key)| < cap
    ensures var log' := Appended(log, cap, session, key, e);
            && Versions(log', session, key) == Versions(log, session, key) + [e]
            && forall s: SessionId, k: string :: (s, k) != (session, key) ==> Versions(log', s, k) == Versions(log, s, k)
  {
  }

  /** An older row stays a version of its key, and is the latest no more if the key grew. */
  lemma {:induction false} RowStaysInLog(codec: Codec, row: Row, row': Row, blobs: Blobs, blobs': Blobs, log: Log, log': Log,
                      session: SessionId, key: string, e: Entry)
    requires RowInLog(codec, row, blobs, log)
    requires forall ref :: ref in blobs ==> ref in blobs' && blobs'[ref] == blobs[ref]
    requires Versions(log', session, key) == Versions(log, session, key) + [e]
    requires forall s: SessionId, k: string :: (s, k) != (session, key) ==> Versions(log', s, k) == Versions(log, s, k)
    requires row' == if row.session == session && row.key == key && row.isLatest then row.(isLatest := false) else row
    ensures RowInLog(codec, row', blobs', log')
  {
    assert Resolve(codec, row', blobs') == Resolve(codec, row, blobs);
  }

  predicate IsRowOf(rows: Rows, id: ArtifactId, session: SessionId, key: string) {
    id in rows && rows[id].session == session && rows[id].key == key
  }

  predicate HasVersion(rows: Rows, session: SessionId, key: string, v: int) {
    exists id :: id in rows && IsRowOf(rows, id, session, key) && rows[id].version == v
  }

  /**
   What a table that refines a log looks like: the versions of a key are 1..n, each in one row,
   n is within the cap, only row n is latest, and each row supersedes the one before it.
   */
  lemma {:induction false} TableShape(codec: Codec, cap: nat, rows: Rows, blobs: Blobs, nextId: ArtifactId, log: Log, session: SessionId, key: string)
    requires Refines(codec, cap, rows, blobs, nextId, log)
    ensures |Versions(log, session, key)| <= cap
    ensures forall v :: HasVersion(rows, session, key, v) <==> 1 <= v <= |Versions(log, session, key)|
    ensures forall a, b :: IsRowOf(rows, a, session, key) && IsRowOf(rows, b, session, key) ==>
              && (rows[a].version == rows[b].version ==> a == b)
              && (rows[a].isLatest <==> rows[a].version == |Versions(log, session, key)|)
              && (rows[a].version == 1 ==> rows[a].supersedes == None)
              && (rows[a].version == rows[b].version + 1 ==> rows[a].supersedes == Some(b))
  {
    var entries := Versions(log, session, key);
    forall v ensures HasVersion(rows, session, key, v) <==> 1 <= v <= |entries| {
      if 1 <= v <= |entries| {
        assert EntryInRows(rows, log, session, key, v - 1);
        assert IsRowOf(rows, entries[v - 1].id, session, key);
      }
    }
    assert forall id :: id in rows ==> RowInLog(codec, rows[id], blobs, log);
  }

  /** The row of the last version, and only that row, has the flag. */
  lemma {:induction false} LatestRow(codec: Codec, cap: nat, rows: Rows, blobs: Blobs, nextId: ArtifactId, log: Log, session: SessionId, key: string)
    requires Refines(codec, cap, rows, blobs, nextId, log)
    ensures var entries := Versions(log, session, key);
            && (forall id :: IsRowOf(rows, id, session, key) && rows[id].isLatest ==>
                  entries != [] && id == entries[|entries| - 1].id)
            && (entries != [] ==>
                  var id := entries[|entries| - 1].id; IsRowOf(rows, id, session, key) && rows[id].isLatest)
  {
    var entries := Versions(log, session, key);
    if entries != [] {
      assert EntryInRows(rows, log, session, key, |entries| - 1);
      assert RowInLog(codec, rows[entries[|entries| - 1].id], blobs, log);
    }
    forall id | IsRowOf(rows, id, session, key) && rows[id].isLatest
      ensures entries != [] && id == entries[|entries| - 1].id
    {
      assert RowInLog(codec, rows[id], blobs, log);
    }
  }

  /** An id names one version of one key. */
  lemma {:induction false} IdsNameVersions(codec: Codec, cap: nat, rows: Rows, blobs: Blobs, nextId: ArtifactId, log: Log,
                        session: SessionId, key: string, i: nat, session': SessionId, key': string, j: nat)
    requires Refines(codec, cap, rows, blobs, nextId, log)
    requires i < |Versions(log, session, key)| && j < |Versions(log, session', key')|
    requires Versions(log, session, key)[i].id == Versions(log, session', key')[j].id
    ensures session == session' && key == key' && i == j
  {
    assert EntryInRows(rows, log, session, key, i);
    assert EntryInRows(rows, log, session', key', j);
  }

  /** No row of the key is the latest any more. */
  function Demoted(rows: Rows, session: SessionId, key: string): Rows {
    map id | id in rows ::
      if rows[id].session == session && rows[id].key == key && rows[id].isLatest
      then rows[id].(isLatest := false) else rows[id]
  }

  /** The rows and blobs of one write: the new row, and its predecessor no longer the latest. */
  ghost predicate Written(rows: Rows, blobs: Blobs, log: Log, nextId: ArtifactId,
                          rows': Rows, blobs': Blobs, row: Row) {
    && row.id == nextId && row.isLatest
    && row.version == |Versions(log, row.session, row.key)| + 1
    && (forall ref :: ref in blobs ==> ref in blobs' && blobs'[ref] == blobs[ref])
    && (forall ref :: ref in blobs' ==> ref.artifact <= nextId)
    && rows'.Keys == rows.Keys + {row.id} && rows'[row.id] == row
    && (forall id :: id in rows && id != row.id ==>
          rows'[id] == if rows[id].session == row.session && rows[id].key == row.key && rows[id].isLatest
                       then rows[id].(isLatest := false) else rows[id])
  }

  lemma {:induction false} WriteKeepsRows(
    codec: Codec, cap: nat, rows: Rows, blobs: Blobs, nextId: ArtifactId, log: Log,
    rows': Rows, blobs': Blobs, row: Row, e: Entry)
    requires Refines(codec, cap, rows, blobs, nextId, log) && Written(rows, blobs, log, nextId, rows', blobs', row)
    requires |Versions(log, row.session, row.key)| < cap
    requires IsVersion(codec, row, blobs', row.session, row.key, Versions(log, row.session, row.key) + [e], row.version)
    ensures forall id :: id in rows' ==>
              id < nextId + 1 && rows'[id].id == id
              && RowInLog(codec, rows'[id], blobs', Appended(log, cap, row.session, row.key, e))
  {
    var log' := Appended(log, cap, row.session, row.key, e);
    AppendedVersions(log, cap, row.session, row.key, e);
    forall id | id in rows'
      ensures id < nextId + 1 && rows'[id].id == id && RowInLog(codec, rows'[id], blobs', log')
    {
      if id != row.id {
        RowStaysInLog(codec, rows[id], rows'[id], blobs, blobs', log, log', row.session, row.key, e);
      }
    }
  }

  lemma {:induction false} WriteKeepsEntries(
    codec: Codec, cap: nat, rows: Rows, blobs: Blobs, nextId: ArtifactId, log: Log,
    rows': Rows, blobs': Blobs, row: Row, e: Entry)
    requires Refines(codec, cap, rows, blobs, nextId, log) && Written(rows, blobs, log, nextId, rows', blobs', row)
    requires |Versions(log, row.session, row.key)| < cap && e.id == row.id
    ensures forall session: SessionId, key: string, i: nat ::
              EntryInRows(rows', Appended(log, cap, row.session, row.key, e), session, key, i)
  {
    var log' := Appended(log, cap, row.session, row.key, e);
    AppendedVersions(log, cap, row.session, row.key, e);
    forall session: SessionId, key: string, i: nat ensures EntryInRows(rows', log', session, key, i) {
      assert EntryInRows(rows, log, session, key, i);
    }
  }

  /** A write appends one entry to the log. */
  lemma {:induction false} WriteRefines(
    codec: Codec, cap: nat, rows: Rows, blobs: Blobs, nextId: ArtifactId, log: Log,
    rows': Rows, blobs': Blobs, row: Row, e: Entry)
    requires Refines(codec, cap, rows, blobs, nextId, log) && Written(rows, blobs, log, nextId, rows', blobs', row)
    requires |Versions(log, row.session, row.key)| < cap && e.id == row.id
    requires IsVersion(codec, row, blobs', row.session, row.key, Versions(log, row.session, row.key) + [e], row.version)
    ensures Refines(codec, cap, rows', blobs', nextId + 1, Appended(log, cap, row.session, row.key, e))
  {
    WriteKeepsRows(codec, cap, rows, blobs, nextId, log, rows', blobs', row, e);
    WriteKeepsEntries(codec, cap, rows, blobs, nextId, log, rows', blobs', row, e);
    AppendedVersions(log, cap, row.session, row.key, e);
  }

  /** Putting `draft` in the table, superseding `prior`, is one write. */
  lemma {:induction false} InsertIsWrite(codec: Codec, cap: nat, rows: Rows, blobs: Blobs, nextId: ArtifactId, log: Log,
                                         draft: Row, prior: Option<ArtifactId>, stored: Blobs, payload: Payload)
    requires Refines(codec, cap, rows, blobs, nextId, log)
    requires draft.id == nextId && draft.isLatest && draft.version == |Versions(log, draft.session, draft.key)| + 1
    requires forall ref :: ref in blobs ==> ref in stored && stored[ref] == blobs[ref]
    requires forall ref :: ref in stored ==> ref.artifact <= nextId
    requires Resolve(codec, draft, stored) == Some(payload)
    requires var entries := Versions(log, draft.session, draft.key);
             prior == if entries == [] then None else Some(entries[|entries| - 1].id)
    ensures var row := draft.(supersedes := prior);
            var e := Entry(row.id, payload, row.kind, row.mime);
            && Written(rows, blobs, log, nextId, Demoted(rows, row.session, row.key)[row.id := row], stored, row)
            && IsVersion(codec, row, stored, row.session, row.key, Versions(log, row.session, row.key) + [e], row.version)
  {
    assert nextId !in rows;
    assert Resolve(codec, draft.(supersedes := prior), stored) == Resolve(codec, draft, stored);
  }

  class ArtifactService {
    const codec: Codec
    const inlineMax: nat
    const cap: nat
    var rows: Rows
    var blobs: Blobs
    var nextId: ArtifactId
    ghost var log: Log

    constructor (codec: Codec, inlineMax: nat, cap: nat)
      requires codec.RoundTrips()
      ensures Valid() && log == map[] && this.codec == codec && this.inlineMax == inlineMax && this.cap == cap
    {
      this.codec, this.inlineMax, this.cap := codec, inlineMax, cap;
      rows, blobs, nextId, log := map[], map[], 0, map[];
    }

    ghost predicate Valid()
      reads this
    {
      codec.RoundTrips() && Refines(codec, cap, rows, blobs, nextId, log)
    }

    function Matching(session: SessionId, key: string): set<ArtifactId>
      reads this
    {
      set id | id in rows && rows[id].session == session && rows[id].key == key
    }

    method NextVersion(session: SessionId, key: string) returns (version: nat)
      requires Valid()
      ensures version == |Versions(log, session, key)| + 1
    {
      var top: nat := 0;
      var rest := Matching(session, key);
      ghost var entries := Versions(log, session, key);
      while rest != {}
        invariant rest <= Matching(session, key)
        invariant top <= |entries|
        invariant forall id :: id in Matching(session, key) - rest ==> rows[id].version <= top
      {
        var id :| id in rest;
        assert RowInLog(codec, rows[id], blobs, log);
        if rows[id].version > top {
          top := rows[id].version;
        }
        rest := rest - {id};
      }
      assert Matching(session, key) - rest == Matching(session, key);
      if entries != [] {
        assert EntryInRows(rows, log, session, key, |entries| - 1);
        assert entries[|entries| - 1].id in Matching(session, key);
      }
      version := top + 1;
    }

    /** Clear the flag of the current latest row, and return its id. */
    method DemoteCurrentLatest(session: SessionId, key: string) returns (prior: Option<ArtifactId>)
      requires Valid()
      modifies `rows
      ensures var entries := Versions(log, session, key);
              prior == if entries == [] then None else Some(entries[|entries| - 1].id)
      ensures rows == Demoted(old(rows), session, key)
    {
      LatestRow(codec, cap, rows, blobs, nextId, log, session, key);
      if id :| id in rows && rows[id].session == session && rows[id].key == key && rows[id].isLatest {
        assert IsRowOf(rows, id, session, key);
        prior := Some(id);
        rows := rows[id := rows[id].(isLatest := false)];
      } else {
        prior := None;
      }
    }

    /** Append a version. A refused write changes nothing. */
    method Write(session: SessionId, key: string, content: Content, kind: string, mime: string)
      returns (r: Result<Row, StoreError>)
      requires Valid()
      modifies this
      ensures Valid()
      ensures r == Err(VersionCapExceeded) <==> |Versions(old(log), session, key)| >= cap
      ensures r == Err(NotSerializable) <==>
                |Versions(old(log), session, key)| < cap && Stored(codec, content, mime).None?
      ensures r.Err? ==> r.error in {VersionCapExceeded, NotSerializable}
                         && rows == old(rows) && blobs == old(blobs) && log == old(log)
      ensures r.Ok? ==>
                && r.value.id !in old(rows) && r.value.id in rows && rows[r.value.id] == r.value
                && r.value.version == |Versions(old(log), session, key)| + 1
                && (r.value.storage.Inline? <==> mime == JSON_MIME && r.value.size <= inlineMax)
                && log == Appended(old(log), cap, session, key,
                                   Entry(r.value.id, Stored(codec, content, mime).value, kind, mime))
      ensures r.Ok? ==> IsStored(codec, content, mime, Stored(codec, content, mime).value)
    {
      StoredIs(codec, content, mime);
      var version := NextVersion(session, key);
      if version > cap {
        return Err(VersionCapExceeded);
      }
      var payload: Bytes;
      match content {
        case JsonContent(j) => payload := if mime == JSON_MIME then codec.encode(j) else codec.text(j);
        case RawContent(data) =>
          if mime == JSON_MIME {
            return Err(NotSerializable);
          }
          payload := data;
      }
      var storage: Storage;
      var stored := blobs;
      if mime == JSON_MIME && |payload| <= inlineMax && content.JsonContent? {
        storage := Inline(content.j);
      } else {
        storage := Blob(BlobRef(session, nextId));
        stored := stored[BlobRef(session, nextId) := payload];
      }
      var row := Insert(Row(nextId, session, key, version, kind, mime, storage, |payload|, None, true), stored,
                        Stored(codec, content, mime).value);
      return Ok(row);
    }

    /** The row of a new version, superseding the latest one. */
    method Insert(draft: Row, stored: Blobs, ghost payload: Payload) returns (row: Row)
      requires Valid()
      requires draft.id == nextId && draft.isLatest && |Versions(log, draft.session, draft.key)| < cap
      requires draft.version == |Versions(log, draft.session, draft.key)| + 1
      requires forall ref :: ref in blobs ==> ref in stored && stored[ref] == blobs[ref]
      requires forall ref :: ref in stored ==> ref.artifact <= nextId
      requires Resolve(codec, draft, stored) == Some(payload)
      modifies this
      ensures Valid()
      ensures row.id !in old(rows) && row.id in rows && rows[row.id] == row
      ensures row == draft.(supersedes := row.supersedes) && blobs == stored
      ensures log == Appended(old(log), cap, draft.session, draft.key, Entry(row.id, payload, row.kind, row.mime))
    {
      ghost var before := rows;
      var prior := DemoteCurrentLatest(draft.session, draft.key);
      InsertIsWrite(codec, cap, before, blobs, nextId, log, draft, prior, stored, payload);
      row := draft.(supersedes := prior);
      ghost var e := Entry(row.id, payload, row.kind, row.mime);
      rows := rows[row.id := row];
      WriteRefines(codec, cap, before, blobs, nextId, log, rows, stored, row, e);
      blobs := stored;
      log := Appended(log, cap, draft.session, draft.key, e);
      nextId := nextId + 1;
    }

    /** The row and what it stores, inline or as a blob. */
    method Load(id: ArtifactId) returns (row: Row, payload: Payload)
      requires Valid() && id in rows
      ensures row == rows[id]
      ensures Lookup(log, row.session, row.key, Some(row.version)) == Some(Entry(id, payload, row.kind, row.mime))
    {
      row := rows[id];
      assert RowInLog(codec, row, blobs, log);
      match row.storage {
        case Inline(content) => payload := JsonValue(content);
        case Blob(ref) =>
          if row.mime == JSON_MIME {
            payload := JsonValue(codec.decode(blobs[ref]).value);
          } else {
            payload := Data(blobs[ref]);
          }
      }
    }

    /** Read by id, whatever the session and key. */
    method ReadById(id: ArtifactId) returns (r: Result<(Row, Payload), StoreError>)
      requires Valid()
      ensures id !in rows ==> r == Err(NotFound)
      ensures id in rows ==>
                && r.Ok? && r.value.0 == rows[id]
                && Lookup(log, rows[id].session, rows[id].key, Some(rows[id].version))
                   == Some(Entry(id, r.value.1, rows[id].kind, rows[id].mime))
    {
      if id !in rows {
        return Err(NotFound);
      }
      var row, payload := Load(id);
      return Ok((row, payload));
    }

    /** Read one version, or the last. */
    method Read(session: SessionId, key: string, version: Option<int>) returns (r: Result<(Row, Payload), StoreError>)
      requires Valid()
      ensures var found := Lookup(log, session, key, version);
              if found.None? then r == Err(NotFound)
              else r.Ok? && r.value.0.id in rows && r.value.0 == rows[r.value.0.id]
                   && found.value == Entry(r.value.0.id, r.value.1, r.value.0.kind, r.value.0.mime)
    {
      ghost var entries := Versions(log, session, key);
      ghost var v := if version.None? then |entries| else version.value;
      if 1 <= v <= |entries| {
        assert EntryInRows(rows, log, session, key, v - 1);
        assert RowInLog(codec, rows[entries[v - 1].id], blobs, log);
      }
      if id :| id in rows && rows[id].session == session && rows[id].key == key
               && (if version.None? then rows[id].isLatest else rows[id].version == version.value)
      {
        assert RowInLog(codec, rows[id], blobs, log);
        var row, payload := Load(id);
        return Ok((row, payload));
      } else {
        return Err(NotFound);
      }
    }

    /** Write a new version from the current one: by replacement, by merge patch or by JSON patch. */
    method Update(session: SessionId, key: string, content: Content, mode: MergeMode, kind: Option<string>, mime: string)
      returns (r: Result<Row, StoreError>)
      requires Valid()
      modifies this
      ensures Valid()
      ensures r.Err? ==> rows == old(rows) && blobs == old(blobs) && log == old(log)
      ensures var entries := Versions(old(log), session, key);
              var outcome := UpdateOutcome(codec, cap, entries, content, mode, mime);
              if outcome.Err? then r == Err(outcome.error)
              else r.Ok? && log == Appended(old(log), cap, session, key,
                     Entry(r.value.id, outcome.value,
                           KindOr(kind, if entries == [] then "custom" else entries[|entries| - 1].kind), mime))
      ensures forall error :: Fails(cap, Versions(old(log), session, key), content, mode, mime, error) <==> r == Err(error)
      ensures r.Ok? ==>
                var before, after := Versions(old(log), session, key), Versions(log, session, key);
                && |after| == |before| + 1 && after[..|before|] == before
                && Lands(codec, before, content, mode, mime, after[|before|].payload)
                && after[|before|].mime == mime
                && after[|before|].kind == if kind.Some? && kind.value != "" then kind.value
                                           else if before == [] then "custom" else before[|before| - 1].kind
    {
      OutcomeSays(codec, cap, Versions(log, session, key), content, mode, mime);
      var existing := Read(session, key, None);
      var next := content;
      match mode {
        case Replace =>
        case MergePatchMode =>
          if mime != JSON_MIME {
            return Err(BadMime);
          }
          if content.JsonContent? {
            var merged := JsonMergePatch(Previous(if existing.Ok? then Some(existing.value.1) else None), content.j);
            next := JsonContent(merged);
          }
        case JsonPatchMode(apply) =>
          if existing.Err? {
            return Err(NotFound);
          }
          var patched := apply(existing.value.1);
          if patched.None? {
            return Err(PatchFailed);
          }
          next := JsonContent(patched.value);
      }
      r := Write(session, key, next, KindOr(kind, if existing.Ok? then existing.value.0.kind else "custom"), mime);
    }
  }
}
