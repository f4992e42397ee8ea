/**
 The anchor documents of a run and their links, read off its artifacts: the email to the two analysis documents,
 the report to the extraction it is derived from, both to every source, and every source's attachment to it.
 */
module AnchorLinks {
  import opened Prelude
  import opened Strings
  import opened Ontology
  import opened Projection
  import opened RunArtifacts
  import opened ArtifactLinks
  import opened Anchors

  // ---------------------------------------------------------------- read off the artifacts themselves

  ghost predicate HasRecord(artifacts: seq<Artifact>, key: string) {
    exists c :: IsContent(artifacts, key, c) && c.Record?
  }

  /** The file a source artifact came from: what its record says, or else what follows the last slash of its key. */
  ghost predicate CameFrom(artifacts: seq<Artifact>, key: string, file: string) {
    && file != ""
    && (|| (exists c :: IsContent(artifacts, key, c) && c.Record? && Strip(c.sourceFile) == file)
        || ((forall c :: IsContent(artifacts, key, c) && c.Record? ==> Strip(c.sourceFile) == "") && EndsWithSegment(key, file)))
  }

  predicate EndsWithSegment(key: string, file: string) {
    && '/' !in file && |file| < |key|
    && key[|key| - |file|..] == file && key[|key| - |file| - 1] == '/'
  }

  /** The same, with an empty text for no file. */
  ghost predicate FileText(artifacts: seq<Artifact>, key: string, file: string) {
    CameFrom(artifacts, key, file) || (file == "" && forall f :: !CameFrom(artifacts, key, f))
  }

  function DocRef(k: Keying, key: string): Ref {
    Ref(Document, k.document(key))
  }

  function ToSource(k: Keying, analysis: string, key: string, role: string, file: string): Edge {
    Edge(DocRef(k, analysis), DocRef(k, key), REFERENCES,
         map["attributes" := Pairs([Field("role", role), Field("source_file", file)])], 100)
  }

  /** What a source artifact is linked to. */
  ghost predicate SourceLinks(artifacts: seq<Artifact>, k: Keying, key: string, e: Edge) {
    || (exists file :: FileText(artifacts, key, file)
                       && (|| (HasRecord(artifacts, "analysis/extracted") && e == ToSource(k, "analysis/extracted", key, "extraction_source", file))
                           || (HasRecord(artifacts, "analysis/report") && e == ToSource(k, "analysis/report", key, "analysis_source", file))))
    || (exists file :: CameFrom(artifacts, key, file)
                       && e == Edge(Ref(Attachment, k.attachment(file)), DocRef(k, key), REFERENCES,
                                    map["role" := Text("analyzed_as"), "artifact_key" := Text(key)], 100))
  }

  /** How the two analysis documents are linked to the email and to each other. */
  ghost predicate AnalysisLinks(artifacts: seq<Artifact>, k: Keying, e: Edge) {
    || (HasRecord(artifacts, "analysis/extracted")
        && e == Edge(EMAIL_SRC, DocRef(k, "analysis/extracted"), REFERENCES, map["role" := Text("extraction")], 100))
    || (HasRecord(artifacts, "analysis/report")
        && e == Edge(EMAIL_SRC, DocRef(k, "analysis/report"), REFERENCES, map["role" := Text("report")], 100))
    || (HasRecord(artifacts, "analysis/report") && HasRecord(artifacts, "analysis/extracted")
        && e == Edge(DocRef(k, "analysis/report"), DocRef(k, "analysis/extracted"), REFERENCES,
                     map["attributes" := Pairs([Field("role", "derived_from"), Field("lineage", "report_from_extraction")])], 100))
  }

  /** The links of all anchor documents. */
  ghost predicate AnchorsLink(artifacts: seq<Artifact>, k: Keying, e: Edge) {
    AnalysisLinks(artifacts, k, e) || exists key :: SourceArtifact(artifacts, key) && SourceLinks(artifacts, k, key, e)
  }

  /** The kind of a source document: what comes before the first slash of its key. */
  predicate IsKind(key: string, kind: string) {
    || ('/' !in kind && |kind| < |key| && key[..|kind|] == kind && key[|kind|] == '/')
    || ('/' !in key && kind == "artifact")
  }

  function SourceAttributes(key: string, session: string, kind: string, file: string): Attributes {
    map["artifact_key" := Text(key), "session_id" := Text(session)]
    + (if kind != "" then map["doc_kind" := Text(kind)] else map[])
    + (if file != "" then map["source_file" := Text(file)] else map[])
  }

  /** The document of a source artifact. */
  ghost predicate SourceOffers(artifacts: seq<Artifact>, k: Keying, session: string, key: string, x: Entity) {
    exists kind, file ::
      IsKind(key, kind) && FileText(artifacts, key, file)
      && x == Entity(DocRef(k, key), key, SourceAttributes(key, session, kind, file), [], Some(key), 100)
  }

  function ExtractionDoc(c: Content, k: Keying, session: string): Entity
    requires c.Record?
  {
    Entity(DocRef(k, "analysis/extracted"), "Email extraction",
           map["artifact_key" := Text("analysis/extracted"), "session_id" := Text(session), "doc_kind" := Text("analysis/extracted"),
               "subject" := Text(c.subject), "action_requested" := Text(c.actionRequested)],
           [], Some("Email extraction"), 100)
  }

  function AnalysisDoc(c: Content, k: Keying, session: string): Entity
    requires c.Record?
  {
    Entity(DocRef(k, "analysis/report"), "Email analysis report",
           map["artifact_key" := Text("analysis/report"), "session_id" := Text(session), "doc_kind" := Text("analysis/report"),
               "action" := Text(c.action), "intention" := Text(c.intention)],
           [], Some("Email analysis report"), 100)
  }

  ghost predicate AnalysisOffers(artifacts: seq<Artifact>, k: Keying, session: string, x: Entity) {
    || (exists c :: IsContent(artifacts, "analysis/extracted", c) && c.Record? && x == ExtractionDoc(c, k, session))
    || (exists c :: IsContent(artifacts, "analysis/report", c) && c.Record? && x == AnalysisDoc(c, k, session))
  }

  /** All anchor documents. */
  ghost predicate AnchorsOffer(artifacts: seq<Artifact>, k: Keying, session: string, x: Entity) {
    AnalysisOffers(artifacts, k, session, x) || exists key :: SourceArtifact(artifacts, key) && SourceOffers(artifacts, k, session, key, x)
  }

  // ---------------------------------------------------------------- they are the links of the facts

  lemma {:induction false} RecordIs(artifacts: seq<Artifact>, key: string)
    ensures HasRecord(artifacts, key) <==> Lookup(artifacts, key).Record?
  {
    ContentIs(artifacts, key);
    hide Lookup, IsContent;
  }

  lemma {:induction false} SlashInside(key: string, m: nat, n: nat)
    requires m < |key| && n <= |key| && key[|key| - m - 1] == '/'
    ensures m < n ==> '/' in key[|key| - n..]
  {
    if m < n {
      assert key[|key| - n..][n - m - 1] == '/';
    }
  }

  lemma {:induction false} SegmentIs(key: string, file: string)
    ensures EndsWithSegment(key, file) <==> '/' in key && LastSegment(key) == file
  {
    var last := LastSegment(key);
    if EndsWithSegment(key, file) {
      assert key[|key| - |file| - 1] in key;
      hide LastSegment;
      SlashInside(key, |last|, |file|);
      SlashInside(key, |file|, |last|);
    }
  }

  lemma {:induction false} FileIs(artifacts: seq<Artifact>, key: string, file: string)
    ensures CameFrom(artifacts, key, file) <==> SourceFile(artifacts, key) == Some(file)
  {
    ContentIs(artifacts, key);
    SegmentIs(key, file);
    hide Strip, LastSegment, Slash, Lookup, IsContent, EndsWithSegment;
  }

  function Written(file: Option<string>): string {
    match file case None => "" case Some(f) => f
  }

  lemma {:induction false} FileTextIs(artifacts: seq<Artifact>, key: string, file: string)
    ensures FileText(artifacts, key, file) <==> file == Written(SourceFile(artifacts, key))
  {
    forall f ensures CameFrom(artifacts, key, f) <==> SourceFile(artifacts, key) == Some(f) {
      FileIs(artifacts, key, f);
    }
    hide CameFrom, SourceFile;
  }

  lemma {:induction false} DocsAre(artifacts: seq<Artifact>, k: Keying, session: string)
    ensures var a := AnchorsOf(artifacts, k, session);
      && (a.extracted.Some? <==> HasRecord(artifacts, "analysis/extracted"))
      && (a.report.Some? <==> HasRecord(artifacts, "analysis/report"))
      && (a.extracted.Some? ==> a.extracted.value.ref == DocRef(k, "analysis/extracted"))
      && (a.report.Some? ==> a.report.value.ref == DocRef(k, "analysis/report"))
  {
    RecordIs(artifacts, EXTRACTED);
    RecordIs(artifacts, REPORT);
    hide HasRecord, Lookup;
  }

  lemma {:induction false} EdgesOfSource(a: Anchors, key: string, e: Edge)
    ensures var dst, file := a.doc(key).ref, a.fileOf(key);
      e in SourceFacts(a, key).edges <==>
        || (a.extracted.Some? && e == DocEdge(a.extracted.value.ref, dst, "extraction_source", file))
        || (a.report.Some? && e == DocEdge(a.report.value.ref, dst, "analysis_source", file))
        || (file.Some? && e == AttachmentEdge(a.attachment(file.value), key, dst))
  {
    hide DocEdge, AttachmentEdge;
  }

  lemma {:induction false} LinksOfSource(artifacts: seq<Artifact>, k: Keying, key: string, e: Edge)
    ensures var file := SourceFile(artifacts, key);
      SourceLinks(artifacts, k, key, e) <==>
        || (HasRecord(artifacts, "analysis/extracted") && e == ToSource(k, "analysis/extracted", key, "extraction_source", Written(file)))
        || (HasRecord(artifacts, "analysis/report") && e == ToSource(k, "analysis/report", key, "analysis_source", Written(file)))
        || (file.Some? && e == AttachmentEdge(k.attachment(file.value), key, DocRef(k, key)))
  {
    forall f ensures CameFrom(artifacts, key, f) <==> SourceFile(artifacts, key) == Some(f) {
      FileIs(artifacts, key, f);
    }
    forall f ensures FileText(artifacts, key, f) <==> f == Written(SourceFile(artifacts, key)) {
      FileTextIs(artifacts, key, f);
    }
    hide FileText, CameFrom, SourceFile, HasRecord, ToSource, DocRef, Written;
  }

  lemma {:induction false} SourceEdgesAre(artifacts: seq<Artifact>, k: Keying, session: string, key: string, e: Edge)
    ensures var a := AnchorsOf(artifacts, k, session);
      e in SourceFacts(a, key).edges <==> SourceLinks(artifacts, k, key, e)
  {
    DocsAre(artifacts, k, session);
    SourceDocRef(artifacts, k, session, key);
    EdgesOfSource(AnchorsOf(artifacts, k, session), key, e);
    LinksOfSource(artifacts, k, key, e);
    hide SourceFile, HasRecord, AnchorsOf, SourceFacts, SourceLinks, DocRef;
  }

  lemma {:induction false} SourceDocRef(artifacts: seq<Artifact>, k: Keying, session: string, key: string)
    ensures var a := AnchorsOf(artifacts, k, session);
      a.doc(key).ref == DocRef(k, key) && a.fileOf(key) == SourceFile(artifacts, key) && a.attachment == k.attachment
  {
    hide SourceFile;
  }

  lemma {:induction false} AllSourceDocsAre(a: Anchors, keys: seq<string>, x: Entity)
    ensures x in AllSourceFacts(a, keys).entities <==> exists key :: key in keys && x == a.doc(key)
    decreases |keys|
  {
    if keys != [] {
      var n := |keys| - 1;
      AllSourceDocsAre(a, keys[..n], x);
      assert keys == keys[..n] + [keys[n]];
      hide SourceEdges;
    }
  }

  lemma {:induction false} AllSourcesAre(a: Anchors, keys: seq<string>, e: Edge)
    ensures e in AllSourceFacts(a, keys).edges <==> exists key :: key in keys && e in SourceFacts(a, key).edges
    decreases |keys|
  {
    if keys != [] {
      var n := |keys| - 1;
      AllSourcesAre(a, keys[..n], e);
      assert keys == keys[..n] + [keys[n]];
      hide SourceEdges;
    }
  }

  lemma {:induction false} AnalysisAre(artifacts: seq<Artifact>, k: Keying, session: string, e: Edge)
    ensures var a := AnchorsOf(artifacts, k, session);
      e in Plus(ExtractionFacts(a), ReportFacts(a)).edges <==> AnalysisLinks(artifacts, k, e)
  {
    DocsAre(artifacts, k, session);
    hide HasRecord, AnchorsOf;
  }

  /** The links of the anchor facts are exactly those read off the artifacts. */
  lemma {:induction false} AnchorFactsAreLinks(artifacts: seq<Artifact>, k: Keying, session: string, e: Edge)
    ensures e in AnchorFacts(AnchorsOf(artifacts, k, session), SourceKeys(artifacts)).edges <==> AnchorsLink(artifacts, k, e)
  {
    var a := AnchorsOf(artifacts, k, session);
    AllSourcesAre(a, SourceKeys(artifacts), e);
    AnalysisAre(artifacts, k, session, e);
    forall key ensures key in SourceKeys(artifacts) <==> SourceArtifact(artifacts, key) {
      SourceKeysAre(artifacts, key);
    }
    forall key ensures e in SourceFacts(a, key).edges <==> SourceLinks(artifacts, k, key, e) {
      SourceEdgesAre(artifacts, k, session, key, e);
    }
    hide SourceKeys, SourceArtifact, AnchorsOf, SourceFacts, SourceLinks, AnalysisLinks, ExtractionFacts, ReportFacts, AllSourceFacts;
  }

  // ---------------------------------------------------------------- and so are the documents

  lemma {:induction false} KindIs(key: string, kind: string)
    ensures IsKind(key, kind) <==> kind == if '/' in key then key[..Slash(key)] else "artifact"
  {
    var n := Slash(key);
    if '/' !in kind && |kind| < |key| && key[..|kind|] == kind && key[|kind|] == '/' {
      assert key[|kind|] in key;
      SlashBefore(key, |kind|);
    }
    if '/' in key {
      assert n < |key|;
    }
    hide Slash;
  }

  lemma {:induction false} SlashBefore(key: string, n: nat)
    requires n < |key| && key[n] == '/' && '/' !in key[..n]
    ensures Slash(key) == n
  {
    if n > 0 {
      assert key[0] == key[..n][0];
      assert key[1..][..n - 1] == key[..n][1..];
      SlashBefore(key[1..], n - 1);
    }
  }

  lemma {:induction false} SourceDocIs(artifacts: seq<Artifact>, k: Keying, session: string, key: string, x: Entity)
    ensures SourceOffers(artifacts, k, session, key, x) <==> x == SourceDoc(artifacts, k, session)(key)
  {
    var kind, file := if '/' in key then key[..Slash(key)] else "artifact", Written(SourceFile(artifacts, key));
    forall t ensures IsKind(key, t) <==> t == kind {
      KindIs(key, t);
    }
    forall f ensures FileText(artifacts, key, f) <==> f == file {
      FileTextIs(artifacts, key, f);
    }
    SourceDocBuilt(artifacts, k, session, key);
    OffersOf(artifacts, k, session, key, x, kind, file);
    hide IsKind, FileText, SourceFile, Slash, SourceAttributes, SourceDoc, Written, SourceOffers, DocRef;
  }

  lemma {:induction false} OffersOf(artifacts: seq<Artifact>, k: Keying, session: string, key: string, x: Entity, kind: string, file: string)
    requires forall t :: IsKind(key, t) <==> t == kind
    requires forall f :: FileText(artifacts, key, f) <==> f == file
    ensures SourceOffers(artifacts, k, session, key, x)
       <==> x == Entity(DocRef(k, key), key, SourceAttributes(key, session, kind, file), [], Some(key), 100)
  {
    hide IsKind, FileText, SourceAttributes, DocRef;
    if x == Entity(DocRef(k, key), key, SourceAttributes(key, session, kind, file), [], Some(key), 100) {
      assert IsKind(key, kind) && FileText(artifacts, key, file);
    }
  }

  lemma {:induction false} SourceDocBuilt(artifacts: seq<Artifact>, k: Keying, session: string, key: string)
    ensures SourceDoc(artifacts, k, session)(key)
         == Entity(DocRef(k, key), key,
                   SourceAttributes(key, session, if '/' in key then key[..Slash(key)] else "artifact", Written(SourceFile(artifacts, key))),
                   [], Some(key), 100)
  {
    FileNotEmpty(artifacts, key);
    hide SourceFile, Slash;
  }

  lemma {:induction false} FileNotEmpty(artifacts: seq<Artifact>, key: string)
    ensures SourceFile(artifacts, key) != Some("")
  {
    hide Strip, LastSegment, Lookup;
  }

  lemma {:induction false} DocumentsAre(c: Content, k: Keying, session: string)
    requires c.Record?
    ensures ExtractedDoc(c, k, session) == Some(ExtractionDoc(c, k, session))
    ensures ReportDoc(c, k, session) == Some(AnalysisDoc(c, k, session))
  {
    DocIs(k, session, "analysis/extracted", "Email extraction", "analysis/extracted",
          map["subject" := Text(c.subject), "action_requested" := Text(c.actionRequested)], ExtractionDoc(c, k, session).attributes);
    DocIs(k, session, "analysis/report", "Email analysis report", "analysis/report",
          map["action" := Text(c.action), "intention" := Text(c.intention)], AnalysisDoc(c, k, session).attributes);
    hide Doc;
  }

  /** Attributes are what they are at each name, however they were put together. */
  lemma {:induction false} DocIs(k: Keying, session: string, artifact: string, display: string, kind: string, extra: Attributes,
                                 attributes: Attributes)
    requires artifact != "" && display != "" && kind != ""
    requires attributes.Keys == {"artifact_key", "session_id", "doc_kind"} + extra.Keys
    requires forall n :: n in extra ==> attributes[n] == extra[n]
    requires {"artifact_key", "session_id", "doc_kind"} !! extra.Keys
    requires attributes["artifact_key"] == Text(artifact) && attributes["session_id"] == Text(session) && attributes["doc_kind"] == Text(kind)
    ensures Doc(k, session, artifact, display, kind, extra) == Entity(DocRef(k, artifact), display, attributes, [], Some(display), 100)
  {
    var built := Doc(k, session, artifact, display, kind, extra).attributes;
    assert built.Keys == attributes.Keys;
    assert forall n :: n in built ==> built[n] == attributes[n];
  }

  lemma {:induction false} AnalysisDocsAre(artifacts: seq<Artifact>, k: Keying, session: string, x: Entity)
    ensures var a := AnchorsOf(artifacts, k, session);
      x in Plus(ExtractionFacts(a), ReportFacts(a)).entities <==> AnalysisOffers(artifacts, k, session, x)
  {
    ContentIs(artifacts, EXTRACTED);
    ContentIs(artifacts, REPORT);
    forall c: Content | c.Record?
      ensures ExtractedDoc(c, k, session) == Some(ExtractionDoc(c, k, session)) && ReportDoc(c, k, session) == Some(AnalysisDoc(c, k, session))
    {
      DocumentsAre(c, k, session);
    }
    hide Lookup, IsContent, ExtractionDoc, AnalysisDoc;
    assert AnchorsOf(artifacts, k, session).extracted == ExtractedDoc(Lookup(artifacts, EXTRACTED), k, session);
    assert AnchorsOf(artifacts, k, session).report == ReportDoc(Lookup(artifacts, REPORT), k, session);
    OfferedDocs(AnchorsOf(artifacts, k, session), x);
    hide AnchorsOf, ExtractionFacts, ReportFacts, Plus;
  }

  lemma {:induction false} OfferedDocs(a: Anchors, x: Entity)
    ensures x in Plus(ExtractionFacts(a), ReportFacts(a)).entities <==> a.extracted == Some(x) || a.report == Some(x)
  {
  }

  /** The documents of the anchor facts are exactly those read off the artifacts. */
  lemma {:induction false} AnchorFactsAreDocs(artifacts: seq<Artifact>, k: Keying, session: string, x: Entity)
    ensures x in AnchorFacts(AnchorsOf(artifacts, k, session), SourceKeys(artifacts)).entities <==> AnchorsOffer(artifacts, k, session, x)
  {
    var a := AnchorsOf(artifacts, k, session);
    AllSourceDocsAre(a, SourceKeys(artifacts), x);
    AnalysisDocsAre(artifacts, k, session, x);
    forall key ensures key in SourceKeys(artifacts) <==> SourceArtifact(artifacts, key) {
      SourceKeysAre(artifacts, key);
    }
    forall key ensures x == a.doc(key) <==> SourceOffers(artifacts, k, session, key, x) {
      SourceDocIs(artifacts, k, session, key, x);
    }
    hide SourceKeys, SourceArtifact, AnchorsOf, SourceFacts, SourceOffers, AnalysisOffers, ExtractionFacts, ReportFacts, AllSourceFacts;
  }
}
