/** The documents that anchor a run's analysis to its email, and the source artifacts they describe. */
module Anchors {
  import opened Prelude
  import opened Strings
  import opened Ontology
  import opened Projection
  import opened RunArtifacts
  import opened ArtifactLinks

  /** The documents of a run: the two analysis documents, and how each source artifact becomes one. */
  datatype Anchors = Anchors(
    extracted: Option<Entity>, report: Option<Entity>,
    doc: string -> Entity, fileOf: string -> Option<string>, attachment: string -> string)

  function Doc(k: Keying, session: string, artifact: string, display: string, kind: string, extra: Attributes): Entity {
    Entity(Ref(Document, k.document(artifact)), Or(display, artifact),
           map["artifact_key" := Text(artifact), "session_id" := Text(session)]
           + (if kind != "" then map["doc_kind" := Text(kind)] else map[]) + extra,
           [], Some(Or(display, artifact)), 100)
  }

  function ExtractedDoc(c: Content, k: Keying, session: string): Option<Entity> {
    if c.Record?
    then Some(Doc(k, session, EXTRACTED, "Email extraction", EXTRACTED,
                  map["subject" := Text(c.subject), "action_requested" := Text(c.actionRequested)]))
    else None
  }

  function ReportDoc(c: Content, k: Keying, session: string): Option<Entity> {
    if c.Record?
    then Some(Doc(k, session, REPORT, "Email analysis report", REPORT,
                  map["action" := Text(c.action), "intention" := Text(c.intention)]))
    else None
  }

  /** Where the first slash is, or the length if there is none. */
  function Slash(s: string): (n: nat)
    ensures n <= |s| && '/' !in s[..n] && (n < |s| ==> s[n] == '/')
  {
    if s == [] || s[0] == '/' then 0 else 1 + Slash(s[1..])
  }

  /** What follows the last slash. */
  function LastSegment(s: string): (r: string)
    ensures '/' !in r && |r| <= |s| && s[|s| - |r|..] == r
    ensures '/' in s ==> |r| < |s| && s[|s| - |r| - 1] == '/'
  {
    if Slash(s) == |s| then s else LastSegment(s[Slash(s) + 1..])
  }

  function SourceFile(artifacts: seq<Artifact>, key: string): Option<string> {
    var content := Lookup(artifacts, key);
    var named := if content.Record? then Strip(content.sourceFile) else "";
    var file := if named == "" && '/' in key then LastSegment(key) else named;
    if file == "" then None else Some(file)
  }

  function SourceDoc(artifacts: seq<Artifact>, k: Keying, session: string): string -> Entity {
    (key: string) =>
      Doc(k, session, key, key, if '/' in key then key[..Slash(key)] else "artifact",
          match SourceFile(artifacts, key) case None => map[] case Some(file) => map["source_file" := Text(file)])
  }

  function AnchorsOf(artifacts: seq<Artifact>, k: Keying, session: string): Anchors {
    Anchors(ExtractedDoc(Lookup(artifacts, EXTRACTED), k, session), ReportDoc(Lookup(artifacts, REPORT), k, session),
            SourceDoc(artifacts, k, session), (key: string) => SourceFile(artifacts, key), k.attachment)
  }

  /** The source artifacts an attachment of the email was turned into. */
  function AttachmentKeys(entry: AttachmentEntry): seq<string> {
    if !entry.processed then []
    else
      (if entry.dataKey != "" then [entry.dataKey] else [])
      + (if entry.textKey != "" then [entry.textKey] else [])
      + (if entry.name != "" then ["extracted_data/" + entry.name] else [])
  }

  predicate IsSource(key: string) {
    StartsWith(key, "extracted_data/") || StartsWith(key, "extracted_text/") || StartsWith(key, "image_analysis/")
  }

  function KeysOfAttachments(entries: seq<AttachmentEntry>): seq<string>
    decreases |entries|
  {
    if entries == [] then []
    else KeysOfAttachments(entries[..|entries| - 1]) + AttachmentKeys(entries[|entries| - 1])
  }

  function KeysOfSources(artifacts: seq<Artifact>): seq<string>
    decreases |artifacts|
  {
    if artifacts == [] then []
    else
      var last := artifacts[|artifacts| - 1];
      KeysOfSources(artifacts[..|artifacts| - 1]) + if IsSource(last.key) then [last.key] else []
  }

  function SourceKeys(artifacts: seq<Artifact>): seq<string> {
    var extracted := Lookup(artifacts, EXTRACTED);
    Sorted((if extracted.Record? then KeysOfAttachments(extracted.attachments) else []) + KeysOfSources(artifacts))
  }

  /** An attachment the email extraction processed stands for an artifact: one of those it names, or the extract named after it. */
  predicate EntryNames(entry: AttachmentEntry, key: string) {
    && entry.processed
    && ((key != "" && (key == entry.dataKey || key == entry.textKey)) || (entry.name != "" && key == "extracted_data/" + entry.name))
  }

  /** A source artifact: one that is kept as such, or one that an attachment of the email extraction stands for. */
  ghost predicate SourceArtifact(artifacts: seq<Artifact>, key: string) {
    || (exists a :: a in artifacts && a.key == key
                    && ("extracted_data/" <= key || "extracted_text/" <= key || "image_analysis/" <= key))
    || (exists c, entry :: IsContent(artifacts, "analysis/extracted", c) && c.Record? && entry in c.attachments && EntryNames(entry, key))
  }

  lemma {:induction false} EntryKeys(entry: AttachmentEntry, key: string)
    ensures key in AttachmentKeys(entry) <==> EntryNames(entry, key)
  {
  }

  lemma {:induction false} AttachmentsKeys(entries: seq<AttachmentEntry>, key: string)
    ensures key in KeysOfAttachments(entries) <==> exists entry :: entry in entries && EntryNames(entry, key)
    decreases |entries|
  {
    if entries != [] {
      var n := |entries| - 1;
      AttachmentsKeys(entries[..n], key);
      EntryKeys(entries[n], key);
      assert entries == entries[..n] + [entries[n]];
      hide AttachmentKeys, EntryNames;
    }
  }

  lemma {:induction false} SourcesKeys(artifacts: seq<Artifact>, key: string)
    ensures key in KeysOfSources(artifacts) <==> exists a :: a in artifacts && a.key == key && IsSource(key)
    decreases |artifacts|
  {
    if artifacts != [] {
      var n := |artifacts| - 1;
      SourcesKeys(artifacts[..n], key);
      assert artifacts == artifacts[..n] + [artifacts[n]];
      hide IsSource;
    }
  }

  lemma {:induction false} SourceKeysAre(artifacts: seq<Artifact>, key: string)
    ensures key in SourceKeys(artifacts) <==> SourceArtifact(artifacts, key)
  {
    var extracted := Lookup(artifacts, EXTRACTED);
    var found := if extracted.Record? then KeysOfAttachments(extracted.attachments) else [];
    SortedSorts(found + KeysOfSources(artifacts));
    assert key in SourceKeys(artifacts) <==> key in found || key in KeysOfSources(artifacts) by {
      assert key in SourceKeys(artifacts) <==> key in Elements(SourceKeys(artifacts));
      assert key in found + KeysOfSources(artifacts) <==> key in Elements(found + KeysOfSources(artifacts));
    }
    SourcesKeys(artifacts, key);
    ContentIs(artifacts, EXTRACTED);
    if extracted.Record? {
      AttachmentsKeys(extracted.attachments, key);
    }
    hide EntryNames, KeysOfAttachments, KeysOfSources, Lookup, IsContent, SourceKeys;
  }

  method CollectSourceKeys(artifacts: seq<Artifact>) returns (keys: seq<string>)
    ensures keys == SourceKeys(artifacts)
    ensures StrictlySorted(keys)
    ensures forall key :: key in keys <==> SourceArtifact(artifacts, key)
  {
    forall key ensures key in SourceKeys(artifacts) <==> SourceArtifact(artifacts, key) {
      SourceKeysAre(artifacts, key);
    }
    hide SourceArtifact;
    var extracted := Lookup(artifacts, EXTRACTED);
    var found: seq<string> := [];
    if extracted.Record? {
      var i := 0;
      while i < |extracted.attachments|
        invariant 0 <= i <= |extracted.attachments|
        invariant found == KeysOfAttachments(extracted.attachments[..i])
      {
        assert extracted.attachments[..i + 1][..i] == extracted.attachments[..i];
        found := found + AttachmentKeys(extracted.attachments[i]);
        i := i + 1;
      }
      assert extracted.attachments[..i] == extracted.attachments;
    }
    ghost var before := found;
    var j := 0;
    while j < |artifacts|
      invariant 0 <= j <= |artifacts| && found == before + KeysOfSources(artifacts[..j])
    {
      assert artifacts[..j + 1][..j] == artifacts[..j];
      if IsSource(artifacts[j].key) {
        found := found + [artifacts[j].key];
      }
      j := j + 1;
    }
    assert artifacts[..j] == artifacts;
    SortedSorts(found);
    keys := Sorted(found);
  }

  // ---------------------------------------------------------------- anchor facts

  function EmailRole(dst: Ref, role: string): Edge {
    Edge(EMAIL_SRC, dst, REFERENCES, map["role" := Text(role)], 100)
  }

  /** The attributes of a link between documents sit one level deeper than those of other links. */
  function DocEdge(src: Ref, dst: Ref, role: string, file: Option<string>): Edge {
    Edge(src, dst, REFERENCES,
         map["attributes" := Pairs([Field("role", role), Field("source_file", match file case None => "" case Some(f) => f)])], 100)
  }

  function DerivedEdge(report: Ref, extracted: Ref): Edge {
    Edge(report, extracted, REFERENCES,
         map["attributes" := Pairs([Field("role", "derived_from"), Field("lineage", "report_from_extraction")])], 100)
  }

  function AttachmentEdge(file: string, key: string, dst: Ref): Edge {
    Edge(Ref(Attachment, file), dst, REFERENCES, map["role" := Text("analyzed_as"), "artifact_key" := Text(key)], 100)
  }

  function ExtractionFacts(a: Anchors): Facts {
    match a.extracted case None => NO_FACTS case Some(e) => Facts([e], [EmailRole(e.ref, "extraction")])
  }

  function ReportEdges(report: Ref, extracted: Option<Entity>): seq<Edge> {
    match extracted
    case None => [EmailRole(report, "report")]
    case Some(e) => [EmailRole(report, "report"), DerivedEdge(report, e.ref)]
  }

  function ReportFacts(a: Anchors): Facts {
    match a.report
    case None => NO_FACTS
    case Some(r) =>
      Facts([r], ReportEdges(r.ref, a.extracted))
  }

  function FromDocument(doc: Option<Entity>, dst: Ref, role: string, file: Option<string>): seq<Edge> {
    match doc case None => [] case Some(d) => [DocEdge(d.ref, dst, role, file)]
  }

  function FromAttachment(a: Anchors, key: string, dst: Ref): seq<Edge> {
    match a.fileOf(key) case None => [] case Some(f) => [AttachmentEdge(a.attachment(f), key, dst)]
  }

  function SourceEdges(a: Anchors, key: string, dst: Ref): seq<Edge> {
    FromDocument(a.extracted, dst, "extraction_source", a.fileOf(key))
    + FromDocument(a.report, dst, "analysis_source", a.fileOf(key))
    + FromAttachment(a, key, dst)
  }

  function SourceFacts(a: Anchors, key: string): Facts {
    Facts([a.doc(key)], SourceEdges(a, key, a.doc(key).ref))
  }

  function AllSourceFacts(a: Anchors, keys: seq<string>): Facts
    decreases |keys|
  {
    if keys == [] then NO_FACTS
    else Plus(AllSourceFacts(a, keys[..|keys| - 1]), SourceFacts(a, keys[|keys| - 1]))
  }

  function AnchorFacts(a: Anchors, keys: seq<string>): Facts {
    Plus(Plus(ExtractionFacts(a), ReportFacts(a)), AllSourceFacts(a, keys))
  }
}
