/**
 The projection of one run: facts from its artifacts, documents that anchor them to the email and its
 attachments, and entities a model extracted, merged into one duplicate-free and closed projection.
 */
module RunProjection {
  import opened Prelude
  import opened Strings
  import opened Ontology
  import opened Projection
  import opened RunArtifacts
  import opened ArtifactLinks
  import opened ArtifactProjection
  import opened Anchors
  import opened AnchorLinks
  import opened CanonicalKeys

  // ---------------------------------------------------------------- building the anchor projection

  method LinkAll(b: ProjectionBuilder, edges: seq<Edge>)
    requires b.Valid()
    modifies b`edges
    ensures b.Valid() && b.edges == old(b.edges) + edges
  {
    ghost var before := b.edges;
    var i := 0;
    while i < |edges|
      invariant 0 <= i <= |edges| && b.Valid() && b.edges == before + edges[..i]
    {
      b.Link(edges[i]);
      i := i + 1;
    }
  }

  method AddExtractedDoc(b: ProjectionBuilder, a: Anchors)
    requires b.Valid()
    modifies b
    ensures b.Valid() && b.Given() == Plus(old(b.Given()), ExtractionFacts(a))
  {
    if a.extracted.Some? {
      var extracted := b.Add(a.extracted.value);
      b.Link(EmailRole(extracted.ref, "extraction"));
    }
  }

  method AddReportDoc(b: ProjectionBuilder, a: Anchors)
    requires b.Valid()
    modifies b
    ensures b.Valid() && b.Given() == Plus(old(b.Given()), ReportFacts(a))
  {
    if a.report.Some? {
      var report := b.Add(a.report.value);
      LinkAll(b, ReportEdges(report.ref, a.extracted));
    }
  }

  method AddSource(b: ProjectionBuilder, a: Anchors, key: string)
    requires b.Valid()
    modifies b
    ensures b.Valid() && b.Given() == Plus(old(b.Given()), SourceFacts(a, key))
  {
    var doc := b.Add(a.doc(key));
    LinkAll(b, SourceEdges(a, key, doc.ref));
  }

  lemma {:induction false} AllSourcesStep(start: Facts, a: Anchors, keys: seq<string>, i: nat)
    requires i < |keys|
    ensures Plus(Plus(start, AllSourceFacts(a, keys[..i])), SourceFacts(a, keys[i])) == Plus(start, AllSourceFacts(a, keys[..i + 1]))
  {
    assert keys[..i + 1][..i] == keys[..i];
    PlusAssociative(start, AllSourceFacts(a, keys[..i]), SourceFacts(a, keys[i]));
  }

  method AddSources(b: ProjectionBuilder, a: Anchors, keys: seq<string>)
    requires b.Valid()
    modifies b
    ensures b.Valid() && b.Given() == Plus(old(b.Given()), AllSourceFacts(a, keys))
  {
    ghost var start := b.Given();
    PlusNothing(start);
    var i := 0;
    while i < |keys|
      invariant 0 <= i <= |keys| && b.Valid()
      invariant b.Given() == Plus(start, AllSourceFacts(a, keys[..i]))
    {
      AllSourcesStep(start, a, keys, i);
      AddSource(b, a, keys[i]);
      i := i + 1;
    }
    assert keys[..i] == keys;
  }

  method AddAnchors(a: Anchors, keys: seq<string>) returns (p: GraphProjection)
    ensures p.entities == KeepFirst(AnchorFacts(a, keys).entities) && p.edges == AnchorFacts(a, keys).edges
  {
    var b := new ProjectionBuilder();
    AddExtractedDoc(b, a);
    assert b.Given() == ExtractionFacts(a);
    AddReportDoc(b, a);
    AddSources(b, a, keys);
    p := GraphProjection(b.entities, b.edges);
  }

  method BuildArtifactAnchorProjection(artifacts: seq<Artifact>, k: Keying, session: string) returns (p: GraphProjection)
    ensures p.entities == KeepFirst(AnchorFacts(AnchorsOf(artifacts, k, session), SourceKeys(artifacts)).entities)
    ensures p.edges == AnchorFacts(AnchorsOf(artifacts, k, session), SourceKeys(artifacts)).edges
    ensures forall e :: e in p.edges <==> AnchorsLink(artifacts, k, e)
  {
    forall e ensures e in AnchorFacts(AnchorsOf(artifacts, k, session), SourceKeys(artifacts)).edges <==> AnchorsLink(artifacts, k, e) {
      AnchorFactsAreLinks(artifacts, k, session, e);
    }
    hide AnchorsLink, AnchorsOf, SourceKeys, SourceArtifact;
    var keys := CollectSourceKeys(artifacts);
    var a := AnchorsOf(artifacts, k, session);
    p := AddAnchors(a, keys);
  }

  // ---------------------------------------------------------------- merging

  function MergedEntities(base: seq<Entity>, extra: seq<Entity>): seq<Entity>
    decreases |extra|
  {
    if extra == [] then base
    else
      var n := |extra| - 1;
      var merged := MergedEntities(base, extra[..n]);
      if Has(merged, extra[n].ref) then merged else merged + [extra[n]]
  }

  /** A projection that others are merged into. */
  class MergedProjection {
    var entities: seq<Entity>
    var edges: seq<Edge>

    constructor (p: GraphProjection)
      ensures entities == p.entities && edges == p.edges
    {
      entities, edges := p.entities, p.edges;
    }

    method Merge(extra: GraphProjection)
      modifies this
      ensures entities == MergedEntities(old(entities), extra.entities)
      ensures edges == old(edges) + extra.edges
    {
      ghost var base := entities;
      var seen := set e | e in entities :: e.ref;
      assert forall r :: r in seen <==> Has(entities, r);
      var i := 0;
      while i < |extra.entities|
        invariant 0 <= i <= |extra.entities| && edges == old(edges)
        invariant entities == MergedEntities(base, extra.entities[..i])
        invariant forall r :: r in seen <==> Has(entities, r)
      {
        var e := extra.entities[i];
        assert extra.entities[..i + 1][..i] == extra.entities[..i];
        if e.ref !in seen {
          forall r {
            HasSnoc(entities, e, r);
          }
          entities := entities + [e];
          seen := seen + {e.ref};
        }
        i := i + 1;
      }
      assert extra.entities[..i] == extra.entities;
      edges := edges + extra.edges;
    }
  }

  /** Merging into a duplicate-free projection keeps the first of each reference over both. */
  lemma {:induction false} MergeKeepsFirst(base: seq<Entity>, extra: seq<Entity>)
    requires DistinctRefs(base)
    ensures MergedEntities(base, extra) == KeepFirst(base + extra)
    decreases |extra|
  {
    if extra == [] {
      assert base + extra == base;
      KeepFirstOfDistinct(base);
    } else {
      var n := |extra| - 1;
      MergeKeepsFirst(base, extra[..n]);
      assert base + extra == (base + extra[..n]) + [extra[n]];
      KeepFirstSnoc(base + extra[..n], extra[n]);
    }
  }

  lemma {:induction false} HasAppend(a: seq<Entity>, b: seq<Entity>, r: Ref)
    ensures Has(a + b, r) <==> Has(a, r) || Has(b, r)
    decreases |b|
  {
    if b == [] {
      assert a + b == a;
    } else {
      var n := |b| - 1;
      HasAppend(a, b[..n], r);
      assert a + b == (a + b[..n]) + [b[n]] && b == b[..n] + [b[n]];
      HasSnoc(a + b[..n], b[n], r);
      HasSnoc(b[..n], b[n], r);
    }
  }

  /** Keeping first on the right beforehand changes nothing. */
  lemma {:induction false} KeepFirstRight(a: seq<Entity>, b: seq<Entity>)
    ensures KeepFirst(a + KeepFirst(b)) == KeepFirst(a + b)
    decreases |b|
  {
    if b != [] {
      var n := |b| - 1;
      var before, last := b[..n], b[n];
      KeepFirstRight(a, before);
      assert a + b == (a + before) + [last];
      KeepFirstSnoc(a + before, last);
      KeepFirstRefs(a + before, last.ref);
      KeepFirstRefs(before, last.ref);
      HasAppend(a, before, last.ref);
      if !Has(KeepFirst(before), last.ref) {
        assert a + KeepFirst(b) == (a + KeepFirst(before)) + [last];
        KeepFirstSnoc(a + KeepFirst(before), last);
      }
    }
  }

  /** Merging two built projections is building over both lists of facts. */
  lemma {:induction false} MergeIsBuildingBoth(a: seq<Entity>, b: seq<Entity>)
    ensures MergedEntities(KeepFirst(a), KeepFirst(b)) == KeepFirst(a + b)
  {
    if a != [] {
      KeepFirstRefs(a, a[0].ref);
    }
    MergeKeepsFirst(KeepFirst(a), KeepFirst(b));
    KeepFirstStages(a, KeepFirst(b));
    KeepFirstRight(a, b);
  }

  // ---------------------------------------------------------------- closed projections

  /** References that stand for an entity outside the projection: the email, or one of its attachments. */
  predicate Sentinel(r: Ref) {
    r == EMAIL_SRC || (r.typ == Attachment && StartsWith(r.key, ATTACHMENT_PREFIX))
  }

  predicate ClosedEdge(entities: seq<Entity>, e: Edge) {
    Has(entities, e.dst) && (Has(entities, e.src) || Sentinel(e.src))
  }

  predicate Closed(f: Facts) {
    forall i :: 0 <= i < |f.edges| ==> ClosedEdge(f.entities, f.edges[i])
  }

  lemma {:induction false} ClosedPlus(a: Facts, b: Facts)
    requires Closed(a) && Closed(b)
    ensures Closed(Plus(a, b))
  {
    var p := Plus(a, b);
    forall i | 0 <= i < |p.edges| ensures ClosedEdge(p.entities, p.edges[i]) {
      var e := p.edges[i];
      HasAppend(a.entities, b.entities, e.dst);
      HasAppend(a.entities, b.entities, e.src);
      assert ClosedEdge(a.entities, e) || ClosedEdge(b.entities, e);
    }
  }

  /** Keeping the first of each reference loses no endpoint. */
  lemma {:induction false} ClosedKept(f: Facts)
    requires Closed(f)
    ensures Closed(Facts(KeepFirst(f.entities), f.edges))
  {
    forall i | 0 <= i < |f.edges| ensures ClosedEdge(KeepFirst(f.entities), f.edges[i]) {
      assert ClosedEdge(f.entities, f.edges[i]);
      KeepFirstRefs(f.entities, f.edges[i].dst);
      KeepFirstRefs(f.entities, f.edges[i].src);
    }
  }

  lemma {:induction false} MentionsClosed(mentions: seq<Entity>)
    ensures Closed(MentionFacts(mentions))
  {
    var f := MentionFacts(mentions);
    forall i | 0 <= i < |f.edges| ensures ClosedEdge(f.entities, f.edges[i]) {
      assert mentions[i].ref == f.edges[i].dst;
    }
  }

  lemma {:induction false} ContractClosed(fields: seq<Field>, make: Field -> Entity, contract: Entity)
    ensures Closed(ContractFacts(fields, make, contract)) && Has(ContractFacts(fields, make, contract).entities, contract.ref)
  {
    var parties := Parties(fields, make);
    var f := ContractFacts(fields, make, contract);
    assert f.entities[|parties|] == contract;
    forall i | 0 <= i < |f.edges| ensures ClosedEdge(f.entities, f.edges[i]) {
      assert f.entities[i].ref == f.edges[i].src;
    }
  }

  lemma {:induction false} RequestClosed(payload: Payload, read: FieldReader, make: Field -> Entity, contractOf: ContractMaker)
    ensures Closed(RequestFacts(payload, read, make, contractOf))
  {
    var fields := PartyFields(payload.fields, read);
    var contract := contractOf(PartyNames(fields));
    ContractClosed(fields, make, contract);
    CloseMore(ContractFacts(fields, make, contract), Facts([], [EmailEdge(contract.ref, REFERENCES)]));
  }

  /** Facts may lean on entities given before them. */
  lemma {:induction false} CloseMore(a: Facts, b: Facts)
    requires Closed(a)
    requires forall i :: 0 <= i < |b.edges| ==>
      && (Has(a.entities, b.edges[i].dst) || Has(b.entities, b.edges[i].dst))
      && (Has(a.entities, b.edges[i].src) || Has(b.entities, b.edges[i].src) || Sentinel(b.edges[i].src))
    ensures Closed(Plus(a, b))
  {
    var p := Plus(a, b);
    forall i | 0 <= i < |p.edges| ensures ClosedEdge(p.entities, p.edges[i]) {
      var e := p.edges[i];
      HasAppend(a.entities, b.entities, e.dst);
      HasAppend(a.entities, b.entities, e.src);
      if i < |a.edges| {
        assert ClosedEdge(a.entities, a.edges[i]);
      } else {
        assert e == b.edges[i - |a.edges|];
      }
    }
  }

  lemma {:induction false} DraftClosed(values: seq<Field>, read: FieldReader, make: Field -> Entity, contractOf: ContractMaker, law: Option<Entity>)
    ensures Closed(DraftFacts(values, read, make, contractOf, law))
  {
    var fields := PartyFields(values, read);
    var contract := contractOf(PartyNames(fields));
    ContractClosed(fields, make, contract);
    var l := LawFacts(contract.ref, law);
    assert law.Some? ==> l.entities[0].ref == l.edges[0].dst;
    CloseMore(ContractFacts(fields, make, contract), l);
  }

  lemma {:induction false} RequestedClosed(report: Content, k: Keying)
    ensures Closed(ReportRequestFacts(report, k))
  {
    match Requested(report)
    case None =>
    case Some(payload) =>
      RequestClosed(payload, PartyReader(k), PartyMaker(true, k), RequestedContract(payload.contractTypeHint, k));
  }

  lemma {:induction false} DraftedClosed(draft: Content, k: Keying)
    ensures Closed(DraftedFacts(draft, k))
  {
    if draft.Record? {
      DraftClosed(draft.fieldValues, PartyReader(k), PartyMaker(false, k), DraftContract(draft, k), GoverningLaw(draft.fieldValues, k));
    }
  }

  lemma {:induction false} IntentionClosed(intention: Option<Entity>)
    ensures Closed(IntentionFacts(intention))
  {
    var f := IntentionFacts(intention);
    assert intention.Some? ==> f.entities[0].ref == f.edges[0].dst;
  }

  /** Every edge the artifacts give rise to ends in an entity they give rise to, or in a stand-in. */
  lemma {:induction false} ArtifactFactsClosed(artifacts: seq<Artifact>, k: Keying)
    ensures Closed(ArtifactFacts(artifacts, k))
  {
    var report, draft := Lookup(artifacts, REPORT), Lookup(artifacts, DRAFT);
    var m, i := MentionFacts(AllMentions(artifacts, k)), IntentionFacts(Intention(report, k));
    MentionsClosed(AllMentions(artifacts, k));
    IntentionClosed(Intention(report, k));
    RequestedClosed(report, k);
    DraftedClosed(draft, k);
    ClosedPlus(m, i);
    ClosedPlus(Plus(m, i), ReportRequestFacts(report, k));
    ClosedPlus(Plus(Plus(m, i), ReportRequestFacts(report, k)), DraftedFacts(draft, k));
  }

  predicate AttachmentKeyed(a: Anchors, keys: seq<string>) {
    forall i :: 0 <= i < |keys| && a.fileOf(keys[i]).Some? ==> StartsWith(a.attachment(a.fileOf(keys[i]).value), ATTACHMENT_PREFIX)
  }

  lemma {:induction false} DocsClosed(a: Anchors)
    ensures Closed(Plus(ExtractionFacts(a), ReportFacts(a)))
    ensures a.extracted.Some? ==> Has(Plus(ExtractionFacts(a), ReportFacts(a)).entities, a.extracted.value.ref)
    ensures a.report.Some? ==> Has(Plus(ExtractionFacts(a), ReportFacts(a)).entities, a.report.value.ref)
  {
    var e, r := ExtractionFacts(a), ReportFacts(a);
    if a.extracted.Some? {
      assert e.entities[0].ref == a.extracted.value.ref;
      HasAppend(e.entities, r.entities, a.extracted.value.ref);
    }
    if a.report.Some? {
      assert r.entities[0].ref == a.report.value.ref;
      HasAppend(e.entities, r.entities, a.report.value.ref);
    }
    CloseMore(e, r);
  }

  lemma {:induction false} SourcesClosed(docs: Facts, a: Anchors, keys: seq<string>)
    requires Closed(docs) && AttachmentKeyed(a, keys)
    requires a.extracted.Some? ==> Has(docs.entities, a.extracted.value.ref)
    requires a.report.Some? ==> Has(docs.entities, a.report.value.ref)
    ensures Closed(Plus(docs, AllSourceFacts(a, keys)))
    ensures forall r :: Has(docs.entities, r) ==> Has(Plus(docs, AllSourceFacts(a, keys)).entities, r)
    decreases |keys|
  {
    if keys == [] {
      PlusNothing(docs);
    } else {
      var n := |keys| - 1;
      var before, s := Plus(docs, AllSourceFacts(a, keys[..n])), SourceFacts(a, keys[n]);
      SourcesClosed(docs, a, keys[..n]);
      PlusAssociative(docs, AllSourceFacts(a, keys[..n]), s);
      assert s.entities[0].ref == a.doc(keys[n]).ref;
      SourceLeans(before.entities, a, keys[n]);
      CloseMore(before, s);
      forall r {
        HasAppend(before.entities, s.entities, r);
      }
    }
  }

  lemma {:induction false} SourceLeans(entities: seq<Entity>, a: Anchors, key: string)
    requires a.extracted.Some? ==> Has(entities, a.extracted.value.ref)
    requires a.report.Some? ==> Has(entities, a.report.value.ref)
    requires a.fileOf(key).Some? ==> StartsWith(a.attachment(a.fileOf(key).value), ATTACHMENT_PREFIX)
    ensures forall i :: 0 <= i < |SourceFacts(a, key).edges| ==>
      && SourceFacts(a, key).edges[i].dst == a.doc(key).ref
      && (Has(entities, SourceFacts(a, key).edges[i].src) || Sentinel(SourceFacts(a, key).edges[i].src))
  {
  }

  lemma {:induction false} AnchorFactsClosed(a: Anchors, keys: seq<string>)
    requires AttachmentKeyed(a, keys)
    ensures Closed(AnchorFacts(a, keys))
  {
    DocsClosed(a);
    SourcesClosed(Plus(ExtractionFacts(a), ReportFacts(a)), a, keys);
  }

  // ---------------------------------------------------------------- the projection of a run

  datatype LlmEntity = LlmEntity(typ: EntityType, name: string, aliases: seq<string>, attributes: Attributes, confidence: nat)

  function LlmEntities(extracted: seq<LlmEntity>, k: Keying): seq<Entity> {
    seq(|extracted|, i requires 0 <= i < |extracted| =>
      var e := extracted[i];
      Entity(Ref(e.typ, k.entity(e.typ, e.name, e.attributes)), Strip(e.name), e.attributes, e.aliases, None, e.confidence))
  }

  /** All facts of a run, in the order they are merged. */
  function RunFacts(artifacts: seq<Artifact>, k: Keying, session: string, extracted: seq<LlmEntity>): Facts {
    Plus(Plus(ArtifactFacts(artifacts, k), AnchorFacts(AnchorsOf(artifacts, k, session), SourceKeys(artifacts))),
         Facts(LlmEntities(extracted, k), []))
  }

  // ---------------------------------------------------------------- read off the artifacts and the model's answer

  predicate Enriches(extracted: seq<LlmEntity>, k: Keying, x: Entity) {
    exists l ::
      l in extracted
      && x == Entity(Ref(l.typ, k.entity(l.typ, l.name, l.attributes)), Strip(l.name), l.attributes, l.aliases, None, l.confidence)
  }

  ghost predicate FromArtifacts(artifacts: seq<Artifact>, k: Keying, r: Ref) {
    exists y :: ArtifactsOffer(artifacts, k, y) && y.ref == r
  }

  ghost predicate FromAnchors(artifacts: seq<Artifact>, k: Keying, session: string, r: Ref) {
    exists y :: AnchorsOffer(artifacts, k, session, y) && y.ref == r
  }

  /** The one entity kept for a reference: what an artifact says before an anchor, and either before the model. */
  ghost predicate RunKeeps(artifacts: seq<Artifact>, k: Keying, session: string, extracted: seq<LlmEntity>, x: Entity) {
    || ArtifactsOffer(artifacts, k, x)
    || (AnchorsOffer(artifacts, k, session, x) && !FromArtifacts(artifacts, k, x.ref))
    || (Enriches(extracted, k, x) && !FromArtifacts(artifacts, k, x.ref) && !FromAnchors(artifacts, k, session, x.ref))
  }

  /** Every reference that is offered is there, once, with exactly the links the artifacts stand for. */
  ghost predicate RunStandsFor(p: GraphProjection, artifacts: seq<Artifact>, k: Keying, session: string, extracted: seq<LlmEntity>) {
    && DistinctRefs(p.entities)
    && (forall x :: x in p.entities ==> RunKeeps(artifacts, k, session, extracted, x))
    && (forall x :: ArtifactsOffer(artifacts, k, x) || AnchorsOffer(artifacts, k, session, x) || Enriches(extracted, k, x)
                    ==> Has(p.entities, x.ref))
    && (forall e :: e in p.edges <==> ArtifactsLink(artifacts, k, e) || AnchorsLink(artifacts, k, e))
  }

  lemma {:induction false} HasIff(entities: seq<Entity>, r: Ref)
    ensures Has(entities, r) <==> exists y :: y in entities && y.ref == r
  {
    if y :| y in entities && y.ref == r {
      var i :| 0 <= i < |entities| && entities[i] == y;
      assert entities[i].ref == r;
    }
  }

  /** What is kept of three lists in a row. */
  lemma {:induction false} KeptOfThree(a: seq<Entity>, b: seq<Entity>, c: seq<Entity>, x: Entity)
    requires x in KeepFirst(a + b + c)
    ensures || x in a
            || (x in b && !Has(a, x.ref))
            || (x in c && !Has(a, x.ref) && !Has(b, x.ref))
  {
    var all := a + b + c;
    KeepFirstIsFirst(all, x);
    var i :| 0 <= i < |all| && IsFirst(all, i) && all[i] == x;
    assert forall j :: 0 <= j < |a| ==> all[j] == a[j];
    assert forall j :: 0 <= j < |b| ==> all[|a| + j] == b[j];
    hide KeepFirst;
  }

  lemma {:induction false} EnrichesIff(extracted: seq<LlmEntity>, k: Keying, x: Entity)
    ensures x in LlmEntities(extracted, k) <==> Enriches(extracted, k, x)
  {
    hide Strip;
    if Enriches(extracted, k, x) {
      var l :| l in extracted
        && x == Entity(Ref(l.typ, k.entity(l.typ, l.name, l.attributes)), Strip(l.name), l.attributes, l.aliases, None, l.confidence);
      var i :| 0 <= i < |extracted| && extracted[i] == l;
      assert LlmEntities(extracted, k)[i] == x;
    }
  }

  lemma {:induction false} OffersAre(artifacts: seq<Artifact>, k: Keying, session: string, x: Entity)
    ensures x in ArtifactFacts(artifacts, k).entities <==> ArtifactsOffer(artifacts, k, x)
    ensures x in AnchorFacts(AnchorsOf(artifacts, k, session), SourceKeys(artifacts)).entities <==> AnchorsOffer(artifacts, k, session, x)
  {
    FactsAreLinks(artifacts, k, x, Edge(EMAIL_SRC, EMAIL_SRC, MENTIONS, map[], 90));
    AnchorFactsAreDocs(artifacts, k, session, x);
  }

  lemma {:induction false} RunKeepsFirst(artifacts: seq<Artifact>, k: Keying, session: string, extracted: seq<LlmEntity>, x: Entity)
    requires x in KeepFirst(RunFacts(artifacts, k, session, extracted).entities)
    ensures RunKeeps(artifacts, k, session, extracted, x)
  {
    hide ArtifactFacts, AnchorFacts, ArtifactsOffer, AnchorsOffer, AnchorsOf, SourceKeys, KeepFirst, Has, LlmEntities, Enriches, IsFirst;
    var a, b := ArtifactFacts(artifacts, k).entities, AnchorFacts(AnchorsOf(artifacts, k, session), SourceKeys(artifacts)).entities;
    KeptOfThree(a, b, LlmEntities(extracted, k), x);
    forall y ensures (y in a <==> ArtifactsOffer(artifacts, k, y)) && (y in b <==> AnchorsOffer(artifacts, k, session, y)) {
      OffersAre(artifacts, k, session, y);
    }
    HasIff(a, x.ref);
    HasIff(b, x.ref);
    EnrichesIff(extracted, k, x);
  }

  lemma {:induction false} RunOffersAll(artifacts: seq<Artifact>, k: Keying, session: string, extracted: seq<LlmEntity>, x: Entity)
    requires ArtifactsOffer(artifacts, k, x) || AnchorsOffer(artifacts, k, session, x) || Enriches(extracted, k, x)
    ensures Has(KeepFirst(RunFacts(artifacts, k, session, extracted).entities), x.ref)
  {
    OffersAre(artifacts, k, session, x);
    EnrichesIff(extracted, k, x);
    hide ArtifactFacts, AnchorFacts, ArtifactsOffer, AnchorsOffer, AnchorsOf, SourceKeys, KeepFirst, Has, LlmEntities, Enriches, IsFirst;
    OfferedIsKept(RunFacts(artifacts, k, session, extracted).entities, x);
  }

  /** The facts of a run, the first of each reference kept, are what its artifacts and the model's answer stand for. */
  lemma {:induction false} RunFactsStandFor(artifacts: seq<Artifact>, k: Keying, session: string, extracted: seq<LlmEntity>)
    ensures var f := RunFacts(artifacts, k, session, extracted);
            RunStandsFor(GraphProjection(KeepFirst(f.entities), f.edges), artifacts, k, session, extracted)
  {
    hide RunFacts, RunKeeps, ArtifactsOffer, AnchorsOffer, Enriches, ArtifactsLink, AnchorsLink, KeepFirst, Has, IsFirst;
    var f := RunFacts(artifacts, k, session, extracted);
    forall x | x in KeepFirst(f.entities) ensures RunKeeps(artifacts, k, session, extracted, x) {
      RunKeepsFirst(artifacts, k, session, extracted, x);
    }
    forall x | ArtifactsOffer(artifacts, k, x) || AnchorsOffer(artifacts, k, session, x) || Enriches(extracted, k, x)
      ensures Has(KeepFirst(f.entities), x.ref)
    {
      RunOffersAll(artifacts, k, session, extracted, x);
    }
    forall e ensures e in f.edges <==> ArtifactsLink(artifacts, k, e) || AnchorsLink(artifacts, k, e) {
      RunLinksAre(artifacts, k, session, extracted, e);
    }
    KeepFirstRefs(f.entities, EMAIL_SRC);
  }

  lemma {:induction false} RunLinksAre(artifacts: seq<Artifact>, k: Keying, session: string, extracted: seq<LlmEntity>, e: Edge)
    ensures e in RunFacts(artifacts, k, session, extracted).edges <==> ArtifactsLink(artifacts, k, e) || AnchorsLink(artifacts, k, e)
  {
    FactsAreLinks(artifacts, k, Entity(EMAIL_SRC, "", map[], [], None, 90), e);
    AnchorFactsAreLinks(artifacts, k, session, e);
    hide ArtifactFacts, AnchorFacts, ArtifactsLink, AnchorsLink, AnchorsOf, SourceKeys, LlmEntities;
  }

  method BuildRunProjection(artifacts: seq<Artifact>, k: Keying, session: string, extracted: seq<LlmEntity>)
    returns (p: GraphProjection)
    ensures p.entities == KeepFirst(RunFacts(artifacts, k, session, extracted).entities)
    ensures p.edges == RunFacts(artifacts, k, session, extracted).edges
    ensures RunStandsFor(p, artifacts, k, session, extracted)
  {
    hide StandsFor, RunStandsFor, AnchorsLink;
    RunFactsStandFor(artifacts, k, session, extracted);
    var base := BuildProjectionFromArtifacts(artifacts, k);
    var anchor := BuildArtifactAnchorProjection(artifacts, k, session);
    ghost var f := ArtifactFacts(artifacts, k);
    ghost var g := AnchorFacts(AnchorsOf(artifacts, k, session), SourceKeys(artifacts));
    var merged := new MergedProjection(base);
    merged.Merge(anchor);
    MergeIsBuildingBoth(f.entities, g.entities);
    var llm := LlmEntities(extracted, k);
    merged.Merge(GraphProjection(llm, []));
    ghost var both := f.entities + g.entities;
    KeepFirstStages(both, llm);
    if both != [] {
      KeepFirstRefs(both, both[0].ref);
    }
    MergeKeepsFirst(KeepFirst(both), llm);
    p := GraphProjection(merged.entities, merged.edges);
  }

  ghost predicate KeysAttachments(k: Keying) {
    forall file :: StartsWith(k.attachment(file), ATTACHMENT_PREFIX)
  }

  /** The projection of every run is free of duplicates and closed. */
  lemma {:induction false} RunProjectionSound(artifacts: seq<Artifact>, k: Keying, session: string, extracted: seq<LlmEntity>)
    requires KeysAttachments(k)
    ensures var f := RunFacts(artifacts, k, session, extracted);
            DistinctRefs(KeepFirst(f.entities)) && Closed(Facts(KeepFirst(f.entities), f.edges))
  {
    var a := AnchorsOf(artifacts, k, session);
    var f := RunFacts(artifacts, k, session, extracted);
    ArtifactFactsClosed(artifacts, k);
    AnchorFactsClosed(a, SourceKeys(artifacts));
    var both := Plus(ArtifactFacts(artifacts, k), AnchorFacts(a, SourceKeys(artifacts)));
    ClosedPlus(ArtifactFacts(artifacts, k), AnchorFacts(a, SourceKeys(artifacts)));
    ClosedPlus(both, Facts(LlmEntities(extracted, k), []));
    ClosedKept(f);
    KeepFirstRefs(f.entities, EMAIL_SRC);
  }

  // ---------------------------------------------------------------- entities and stand-ins

  /** Only stand-ins have keys that start with an underscore. */
  predicate RealKey(key: string) {
    key != [] && key[0] != '_'
  }

  ghost predicate RealKeys(k: Keying) {
    && (forall t, n, a :: RealKey(k.entity(t, n, a)))
    && (forall t, ps :: RealKey(k.contract(t, ps)))
    && (forall s :: RealKey(k.lawArea(s)))
    && (forall s :: RealKey(k.jurisdiction(s)))
    && (forall s :: RealKey(k.document(s)))
  }

  lemma {:induction false} EntityKeyIsReal(typ: EntityType, name: string, attributes: Attributes)
    ensures RealKey(EntityKey(typ, name, attributes))
  {
    var key := EntityKey(typ, name, attributes);
    match typ
    case Organization => assert key[0] == 'd' || key[0] == 'n';
    case Person => assert key[0] == 'e' || key[0] == 'n';
    case Contract => assert key[0] == 'c';
    case _ => assert key[0] == 'n';
  }

  lemma {:induction false} CanonicalIsReal(infer: string -> EntityType, session: string)
    ensures RealKeys(Canonical(infer, session)) && KeysAttachments(Canonical(infer, session))
  {
    var k := Canonical(infer, session);
    forall t, n, a ensures RealKey(k.entity(t, n, a)) {
      EntityKeyIsReal(t, n, a);
    }
    forall t, ps ensures RealKey(k.contract(t, ps)) {
      assert ContractKey(t, ps)[0] == 'c';
    }
    forall s ensures RealKey(k.lawArea(s)) && RealKey(k.jurisdiction(s)) && RealKey(k.document(s)) {
      assert LawAreaKey(s)[0] == 'l' && k.jurisdiction(s)[0] == 'j' && ArtifactKey(session, s)[0] == 'a';
    }
    forall file ensures StartsWith(k.attachment(file), ATTACHMENT_PREFIX) {
      assert AttachmentFilenameKey(file)[..|ATTACHMENT_PREFIX|] == ATTACHMENT_PREFIX;
    }
  }

  /** No entity can be taken for a stand-in. */
  predicate Real(entities: seq<Entity>) {
    forall i :: 0 <= i < |entities| ==> RealKey(entities[i].ref.key)
  }

  lemma {:induction false} RealIsNoSentinel(entities: seq<Entity>, r: Ref)
    requires Real(entities) && Has(entities, r)
    ensures !Sentinel(r)
  {
    assert EMAIL_SRC.key[0] == '_' && ATTACHMENT_PREFIX[0] == '_';
  }

  ghost predicate RealReader(read: Reader) {
    forall raw :: read(raw).Some? ==> RealKey(read(raw).value.ref.key)
  }

  lemma {:induction false} ExtractReaderReal(a: Artifact, k: Keying, raw: RawEntity)
    requires RealKeys(k) && a.content.Record? && ExtractReader(a, k)(raw).Some?
    ensures RealKey(ExtractReader(a, k)(raw).value.ref.key)
  {
  }

  lemma {:induction false} MentionedReal(raws: seq<RawEntity>, read: Reader)
    requires RealReader(read)
    ensures Real(Mentioned(raws, read))
    decreases |raws|
  {
    if raws != [] {
      MentionedReal(raws[..|raws| - 1], read);
    }
  }

  lemma {:induction false} AllMentionsReal(artifacts: seq<Artifact>, k: Keying)
    requires RealKeys(k)
    ensures Real(AllMentions(artifacts, k))
    decreases |artifacts|
  {
    if artifacts != [] {
      var n := |artifacts| - 1;
      AllMentionsReal(artifacts[..n], k);
      if IsExtract(artifacts[n]) {
        forall raw | ExtractReader(artifacts[n], k)(raw).Some? ensures RealKey(ExtractReader(artifacts[n], k)(raw).value.ref.key) {
          ExtractReaderReal(artifacts[n], k, raw);
        }
        MentionedReal(artifacts[n].content.entities, ExtractReader(artifacts[n], k));
      }
    }
  }

  lemma {:induction false} SourcesReal(a: Anchors, keys: seq<string>)
    requires forall key :: RealKey(a.doc(key).ref.key)
    ensures Real(AllSourceFacts(a, keys).entities)
    decreases |keys|
  {
    if keys != [] {
      SourcesReal(a, keys[..|keys| - 1]);
    }
  }

  ghost predicate RealMakers(make: Field -> Entity, contractOf: ContractMaker) {
    (forall f :: RealKey(make(f).ref.key)) && (forall names :: RealKey(contractOf(names).ref.key))
  }

  lemma {:induction false} RequestReal(payload: Payload, read: FieldReader, make: Field -> Entity, contractOf: ContractMaker)
    requires RealMakers(make, contractOf)
    ensures Real(RequestFacts(payload, read, make, contractOf).entities)
  {
  }

  lemma {:induction false} DraftReal(values: seq<Field>, read: FieldReader, make: Field -> Entity, contractOf: ContractMaker, law: Option<Entity>)
    requires RealMakers(make, contractOf) && Real(ListOf(law))
    ensures Real(DraftFacts(values, read, make, contractOf, law).entities)
  {
    var l := LawFacts(EMAIL_SRC, law);
    assert l.entities == ListOf(law);
  }

  lemma {:induction false} PartiesReal(quoted: bool, k: Keying, field: Field)
    requires RealKeys(k)
    ensures RealKey(PartyMaker(quoted, k)(field).ref.key)
  {
    var typ, attributes: Attributes := k.infer(field.value), map["field" := Text(field.name)];
    assert RealKey(k.entity(typ, field.value, attributes));
  }

  lemma {:induction false} RequestedReal(report: Content, k: Keying)
    requires RealKeys(k)
    ensures Real(ReportRequestFacts(report, k).entities)
  {
    match Requested(report)
    case None =>
    case Some(payload) =>
      forall f ensures RealKey(PartyMaker(true, k)(f).ref.key) { PartiesReal(true, k, f); }
      RequestReal(payload, PartyReader(k), PartyMaker(true, k), RequestedContract(payload.contractTypeHint, k));
  }

  lemma {:induction false} DraftedReal(draft: Content, k: Keying)
    requires RealKeys(k)
    ensures Real(DraftedFacts(draft, k).entities)
  {
    if draft.Record? {
      forall f ensures RealKey(PartyMaker(false, k)(f).ref.key) { PartiesReal(false, k, f); }
      DraftReal(draft.fieldValues, PartyReader(k), PartyMaker(false, k), DraftContract(draft, k), GoverningLaw(draft.fieldValues, k));
    }
  }

  lemma {:induction false} PlusReal(a: Facts, b: Facts)
    requires Real(a.entities) && Real(b.entities)
    ensures Real(Plus(a, b).entities)
  {
  }

  lemma {:induction false} ArtifactFactsReal(artifacts: seq<Artifact>, k: Keying)
    requires RealKeys(k)
    ensures Real(ArtifactFacts(artifacts, k).entities)
  {
    hide AllMentions, IntentionFacts, ReportRequestFacts, DraftedFacts, Lookup, RealKeys, Intention, Real, Plus, EmailEdges;
    var report, draft := Lookup(artifacts, REPORT), Lookup(artifacts, DRAFT);
    var mentions, intention := MentionFacts(AllMentions(artifacts, k)), IntentionFacts(Intention(report, k));
    AllMentionsReal(artifacts, k);
    IntentionReal(Intention(report, k), k, report);
    RequestedReal(report, k);
    DraftedReal(draft, k);
    PlusReal(mentions, intention);
    PlusReal(Plus(mentions, intention), ReportRequestFacts(report, k));
    PlusReal(Plus(Plus(mentions, intention), ReportRequestFacts(report, k)), DraftedFacts(draft, k));
  }

  lemma {:induction false} IntentionReal(intention: Option<Entity>, k: Keying, report: Content)
    requires RealKeys(k) && intention == Intention(report, k)
    ensures Real(IntentionFacts(intention).entities)
  {
    hide Strip;
  }

  lemma {:induction false} AnchorsReal(a: Anchors, keys: seq<string>)
    requires Real(ListOf(a.extracted)) && Real(ListOf(a.report)) && forall key :: RealKey(a.doc(key).ref.key)
    ensures Real(AnchorFacts(a, keys).entities)
  {
    SourcesReal(a, keys);
    assert ExtractionFacts(a).entities == ListOf(a.extracted) && ReportFacts(a).entities == ListOf(a.report);
  }

  lemma {:induction false} SourceDocReal(artifacts: seq<Artifact>, k: Keying, session: string, key: string)
    requires RealKeys(k)
    ensures RealKey(SourceDoc(artifacts, k, session)(key).ref.key)
  {
    assert SourceDoc(artifacts, k, session)(key).ref.key == k.document(key);
  }

  lemma {:induction false} AnalysisDocsReal(c: Content, d: Content, k: Keying, session: string)
    requires RealKeys(k)
    ensures Real(ListOf(ExtractedDoc(c, k, session))) && Real(ListOf(ReportDoc(d, k, session)))
  {
    assert RealKey(k.document(EXTRACTED)) && RealKey(k.document(REPORT));
    assert c.Record? ==> ExtractedDoc(c, k, session).value.ref.key == k.document(EXTRACTED);
    assert d.Record? ==> ReportDoc(d, k, session).value.ref.key == k.document(REPORT);
  }

  lemma {:induction false} AnchorFactsReal(artifacts: seq<Artifact>, k: Keying, session: string, keys: seq<string>)
    requires RealKeys(k)
    ensures Real(AnchorFacts(AnchorsOf(artifacts, k, session), keys).entities)
  {
    var a := AnchorsOf(artifacts, k, session);
    AnalysisDocsReal(Lookup(artifacts, EXTRACTED), Lookup(artifacts, REPORT), k, session);
    forall key ensures RealKey(a.doc(key).ref.key) {
      SourceDocReal(artifacts, k, session, key);
    }
    AnchorsReal(a, keys);
  }

  lemma {:induction false} LlmReal(extracted: seq<LlmEntity>, k: Keying)
    requires RealKeys(k)
    ensures Real(LlmEntities(extracted, k))
  {
    forall i | 0 <= i < |extracted| ensures RealKey(LlmEntities(extracted, k)[i].ref.key) {
      assert RealKey(k.entity(extracted[i].typ, extracted[i].name, extracted[i].attributes));
    }
  }

  lemma {:induction false} RealAppend(a: seq<Entity>, b: seq<Entity>)
    requires Real(a) && Real(b)
    ensures Real(a + b)
  {
  }

  lemma {:induction false} KeptReal(offered: seq<Entity>)
    requires Real(offered)
    ensures Real(KeepFirst(offered))
    decreases |offered|
  {
    if offered != [] {
      KeptReal(offered[..|offered| - 1]);
    }
  }

  /** In the projection of every run, stand-ins and entities never share a reference. */
  lemma {:induction false} RunProjectionReal(artifacts: seq<Artifact>, k: Keying, session: string, extracted: seq<LlmEntity>)
    requires RealKeys(k)
    ensures Real(KeepFirst(RunFacts(artifacts, k, session, extracted).entities))
  {
    var keys := SourceKeys(artifacts);
    var f, g := ArtifactFacts(artifacts, k), AnchorFacts(AnchorsOf(artifacts, k, session), keys);
    ArtifactFactsReal(artifacts, k);
    AnchorFactsReal(artifacts, k, session, keys);
    RealAppend(f.entities, g.entities);
    LlmReal(extracted, k);
    RealAppend(f.entities + g.entities, LlmEntities(extracted, k));
    KeptReal(f.entities + g.entities + LlmEntities(extracted, k));
  }
}
