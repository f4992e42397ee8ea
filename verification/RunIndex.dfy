/** Applying the projection of a run to its owner's graph, and indexing a whole run. */
module RunIndex {
  import opened Prelude
  import opened Strings
  import opened Ontology
  import opened Projection
  import opened RunProjection
  import opened CanonicalKeys
  import opened GraphView
  import opened KnowledgeGraph
  import opened Parents
  import opened IngestionIndex
  import opened ItemIndex

  // ---------------------------------------------------------------- the writes of a projection

  /** Where the facts of a projection come from: the run, and the item its email was ingested as. */
  datatype Context = Context(email: Ref, source: Source, item: Option<Source>, files: seq<AttachmentRow>)

  function NoteOps(e: Entity, ref: Ref, c: Context): seq<Op> {
    [Mention(Note(ref, c.source, e.snippet, e.confidence))]
    + match c.item case None => [] case Some(item) => [Mention(Note(ref, item, e.snippet, e.confidence))]
  }

  function EntityOps(e: Entity, c: Context): seq<Op> {
    [Create(e.ref, Card(e.name, e.attributes), e.name)] + NoteOps(e, e.ref, c)
  }

  function AllEntityOps(entities: seq<Entity>, c: Context): seq<Op>
    decreases |entities|
  {
    if entities == [] then []
    else AllEntityOps(entities[..|entities| - 1], c) + EntityOps(entities[|entities| - 1], c)
  }

  /** The attachment of the item whose name a stand-in carries. */
  function NamedFile(files: seq<AttachmentRow>, key: string): Option<Ref> {
    if files == [] then None
    else if AttachmentFilenameKey(files[0].name) == key then Some(FileRef(files[0].id))
    else NamedFile(files[1..], key)
  }

  predicate IsFileStandIn(r: Ref) {
    r.typ == EntityType.Attachment && StartsWith(r.key, ATTACHMENT_PREFIX)
  }

  /** The entity an edge starts at, given the entities the owner has. */
  function SourceOf(entities: seq<Entity>, e: Edge, c: Context, present: set<Ref>): Option<Ref> {
    if e.src == EMAIL_SRC then Some(c.email)
    else if IsFileStandIn(e.src) && c.item.Some? then
      var file := NamedFile(c.files, e.src.key);
      if file.Some? && file.value in present then file else None
    else if Has(entities, e.src) then Some(e.src) else None
  }

  function EdgeOps(entities: seq<Entity>, e: Edge, c: Context, present: set<Ref>): seq<Op> {
    var src := SourceOf(entities, e, c, present);
    if src.Some? && Has(entities, e.dst)
    then [Join(LinkKey(src.value, e.dst, e.relation, c.source), LinkData(e.attributes, e.confidence))] else []
  }

  type EdgeWriter = Edge -> seq<Op>

  function WriterOf(entities: seq<Entity>, c: Context, present: set<Ref>): EdgeWriter {
    (e: Edge) => EdgeOps(entities, e, c, present)
  }

  function AllEdgeOps(edges: seq<Edge>, write: EdgeWriter): seq<Op>
    decreases |edges|
  {
    if edges == [] then [] else AllEdgeOps(edges[..|edges| - 1], write) + write(edges[|edges| - 1])
  }

  function ProjectionOps(v: View, p: GraphProjection, c: Context): seq<Op> {
    var entityOps := AllEntityOps(p.entities, c);
    entityOps + AllEdgeOps(p.edges, WriterOf(p.entities, c, PerformAll(v, entityOps).cards.Keys))
  }

  lemma {:induction false} EdgesNext(edges: seq<Edge>, i: nat, write: EdgeWriter)
    requires i < |edges|
    ensures AllEdgeOps(edges[..i + 1], write) == AllEdgeOps(edges[..i], write) + write(edges[i])
  {
    assert edges[..i + 1][..i] == edges[..i];
  }

  lemma {:induction false} EntityOpsFill(entities: seq<Entity>, c: Context)
    ensures NoPuts(AllEntityOps(entities, c))
    decreases |entities|
  {
    if entities != [] {
      EntityOpsFill(entities[..|entities| - 1], c);
    }
  }

  /** As many writes as wanted, and without fuzzy matching those wanted. */
  predicate Written(ops: seq<Op>, wanted: seq<Op>, fuzzy: bool) {
    |ops| == |wanted| && (!fuzzy ==> ops == wanted)
  }

  lemma {:induction false} WrittenAppend(a: seq<Op>, wantedA: seq<Op>, b: seq<Op>, wantedB: seq<Op>, fuzzy: bool)
    requires Written(a, wantedA, fuzzy) && Written(b, wantedB, fuzzy)
    ensures Written(a + b, wantedA + wantedB, fuzzy)
    ensures OnlyJoins(a) && OnlyJoins(b) ==> OnlyJoins(a + b)
  {
  }

  predicate OnlyJoins(ops: seq<Op>) {
    forall i :: 0 <= i < |ops| ==> ops[i].Join?
  }

  lemma {:induction false} EdgeOpsJoin(edges: seq<Edge>, entities: seq<Entity>, c: Context, present: set<Ref>)
    ensures OnlyJoins(AllEdgeOps(edges, WriterOf(entities, c, present)))
    decreases |edges|
  {
    if edges != [] {
      EdgeOpsJoin(edges[..|edges| - 1], entities, c, present);
    }
  }

  lemma {:induction false} JoinsKeepCards(v: View, ops: seq<Op>)
    requires OnlyJoins(ops)
    ensures PerformAll(v, ops).cards == v.cards
    decreases |ops|
  {
    if ops != [] {
      JoinsKeepCards(v, ops[..|ops| - 1]);
    }
  }

  lemma {:induction false} ProjectionFills(v: View, p: GraphProjection, c: Context)
    ensures NoPuts(ProjectionOps(v, p, c))
  {
    EntityOpsFill(p.entities, c);
    EdgeOpsJoin(p.edges, p.entities, c, PerformAll(v, AllEntityOps(p.entities, c)).cards.Keys);
  }

  // ---------------------------------------------------------------- where edges start

  /** Row `i` is the first attachment whose name normalises to the one the stand-in carries. */
  predicate FirstNamed(files: seq<AttachmentRow>, key: string, i: nat) {
    && i < |files| && key == "__attachment__:" + NormalizeName(files[i].name)
    && forall j: nat :: j < i ==> key != "__attachment__:" + NormalizeName(files[j].name)
  }

  lemma {:induction false} NamedFileIs(files: seq<AttachmentRow>, key: string)
    ensures match NamedFile(files, key)
            case None => forall i: nat :: !FirstNamed(files, key, i)
            case Some(r) => exists i: nat :: FirstNamed(files, key, i) && r == Ref(EntityType.Attachment, "ingestion_attachment:" + files[i].id)
  {
    hide NormalizeName;
    if files != [] {
      if AttachmentFilenameKey(files[0].name) == key {
        assert FirstNamed(files, key, 0);
      } else {
        NamedFileIs(files[1..], key);
        forall i: nat ensures FirstNamed(files, key, i + 1) <==> FirstNamed(files[1..], key, i) {
          FirstNamedTail(files, key, i);
        }
        if NamedFile(files[1..], key).Some? {
          var i: nat :| FirstNamed(files[1..], key, i) && NamedFile(files, key).value == Ref(EntityType.Attachment, "ingestion_attachment:" + files[1..][i].id);
          assert FirstNamed(files, key, i + 1);
        } else {
          forall i: nat ensures !FirstNamed(files, key, i) {
            assert i > 0 ==> !FirstNamed(files[1..], key, i - 1) && FirstNamed(files, key, i - 1 + 1) == FirstNamed(files, key, i);
          }
        }
      }
    }
  }

  lemma {:induction false} FirstNamedTail(files: seq<AttachmentRow>, key: string, i: nat)
    requires files != [] && key != "__attachment__:" + NormalizeName(files[0].name)
    ensures FirstNamed(files, key, i + 1) <==> FirstNamed(files[1..], key, i)
  {
    hide NormalizeName;
    var rest := files[1..];
    assert forall j: nat :: j < |rest| ==> rest[j] == files[j + 1];
    if FirstNamed(rest, key, i) {
      forall j: nat | j < i + 1 ensures key != "__attachment__:" + NormalizeName(files[j].name) {
        assert j > 0 ==> files[j] == rest[j - 1];
      }
    }
    if FirstNamed(files, key, i + 1) {
      forall j: nat | j < i ensures key != "__attachment__:" + NormalizeName(rest[j].name) {
        assert rest[j] == files[j + 1];
      }
    }
  }

  /** The stand-ins of two file names are the same exactly when the names normalise alike. */
  lemma {:induction false} SameStandIn(a: string, b: string)
    ensures AttachmentFilenameKey(a) == AttachmentFilenameKey(b) <==> NormalizeName(a) == NormalizeName(b)
  {
    hide NormalizeName;
    assert AttachmentFilenameKey(a)[|ATTACHMENT_PREFIX|..] == NormalizeName(a);
    assert AttachmentFilenameKey(b)[|ATTACHMENT_PREFIX|..] == NormalizeName(b);
  }

  /** The stand-in matches an attachment of the item, and that is an entity of the owner. */
  ghost predicate MatchesFile(c: Context, key: string, present: set<Ref>, r: Ref) {
    && c.item.Some? && r in present
    && exists i: nat :: FirstNamed(c.files, key, i) && r == Ref(EntityType.Attachment, "ingestion_attachment:" + c.files[i].id)
  }

  /** Where an edge starts: at the email, at a listed entity, or at the attachment its stand-in matches. */
  ghost predicate StartsAt(entities: seq<Entity>, c: Context, present: set<Ref>, e: Edge, src: Ref) {
    || (e.src == EMAIL_SRC && src == c.email)
    || (Has(entities, e.src) && src == e.src)
    || (IsFileStandIn(e.src) && MatchesFile(c, e.src.key, present, src))
  }

  lemma {:induction false} FileIsUnique(files: seq<AttachmentRow>, key: string, i: nat, j: nat)
    requires FirstNamed(files, key, i) && FirstNamed(files, key, j)
    ensures i == j
  {
    hide NormalizeName;
  }

  lemma {:induction false} SourceIs(entities: seq<Entity>, c: Context, present: set<Ref>, e: Edge, src: Ref)
    requires Real(entities)
    ensures SourceOf(entities, e, c, present) == Some(src) <==> StartsAt(entities, c, present, e, src)
  {
    hide NormalizeName, NamedFile, Real;
    if Has(entities, e.src) {
      RealIsNoSentinel(entities, e.src);
    }
    NamedFileIs(c.files, e.src.key);
    if MatchesFile(c, e.src.key, present, src) {
      var i: nat :| i < |c.files| && FirstNamed(c.files, e.src.key, i)
                    && src == Ref(EntityType.Attachment, "ingestion_attachment:" + c.files[i].id);
      forall j: nat | FirstNamed(c.files, e.src.key, j) ensures j == i {
        FileIsUnique(c.files, e.src.key, j, i);
      }
    }
  }

  // ---------------------------------------------------------------- what is skipped

  lemma {:induction false} EdgeIsWritten(entities: seq<Entity>, c: Context, present: set<Ref>, e: Edge, src: Ref)
    requires Real(entities) && Has(entities, e.dst)
    ensures EdgeOps(entities, e, c, present) == [Join(LinkKey(src, e.dst, e.relation, c.source), LinkData(e.attributes, e.confidence))]
       <==> StartsAt(entities, c, present, e, src)
  {
    hide StartsAt, SourceOf, Has, Real;
    SourceIs(entities, c, present, e, src);
  }

  /** A closed projection loses no edge but those whose attachment stand-in matches no attachment of the owner. */
  lemma {:induction false} SkipsOnlyUnmatchedFiles(p: GraphProjection, c: Context, present: set<Ref>, i: nat)
    requires Closed(Facts(p.entities, p.edges)) && Real(p.entities) && i < |p.edges|
    ensures EdgeOps(p.entities, p.edges[i], c, present) == []
       <==> IsFileStandIn(p.edges[i].src) && forall r :: !MatchesFile(c, p.edges[i].src.key, present, r)
  {
    var e := p.edges[i];
    assert ClosedEdge(p.entities, e);
    hide MatchesFile, Real, NamedFile;
    if Has(p.entities, e.src) {
      SourceIs(p.entities, c, present, e, e.src);
      RealIsNoSentinel(p.entities, e.src);
    } else if IsFileStandIn(e.src) {
      forall r ensures SourceOf(p.entities, e, c, present) == Some(r) <==> MatchesFile(c, e.src.key, present, r) {
        SourceIs(p.entities, c, present, e, r);
      }
      var src := SourceOf(p.entities, e, c, present);
      assert src.Some? ==> MatchesFile(c, e.src.key, present, src.value);
    }
  }

  /** An edge between listed entities is written between exactly those. */
  lemma {:induction false} WritesBetweenListed(p: GraphProjection, c: Context, present: set<Ref>, i: nat)
    requires Closed(Facts(p.entities, p.edges)) && Real(p.entities) && i < |p.edges| && Has(p.entities, p.edges[i].src)
    ensures var e := p.edges[i];
            EdgeOps(p.entities, e, c, present)
            == [Join(LinkKey(e.src, e.dst, e.relation, c.source), LinkData(e.attributes, e.confidence))]
  {
    assert ClosedEdge(p.entities, p.edges[i]);
    EdgeIsWritten(p.entities, c, present, p.edges[i], p.edges[i].src);
  }

  /** So of the projection of any run, under the canonical keys, only such edges are ever skipped. */
  lemma {:induction false} RunProjectionApplies(artifacts: seq<Artifact>, infer: string -> EntityType, session: string, extracted: seq<LlmEntity>,
                                                c: Context, present: set<Ref>, i: nat)
    requires i < |RunFacts(artifacts, Canonical(infer, session), session, extracted).edges|
    ensures var f := RunFacts(artifacts, Canonical(infer, session), session, extracted);
            EdgeOps(KeepFirst(f.entities), f.edges[i], c, present) == []
            <==> IsFileStandIn(f.edges[i].src) && forall r :: !MatchesFile(c, f.edges[i].src.key, present, r)
  {
    var k := Canonical(infer, session);
    var f := RunFacts(artifacts, k, session, extracted);
    CanonicalIsReal(infer, session);
    RunProjectionSound(artifacts, k, session, extracted);
    RunProjectionReal(artifacts, k, session, extracted);
    SkipsOnlyUnmatchedFiles(GraphProjection(KeepFirst(f.entities), f.edges), c, present, i);
  }

  // ---------------------------------------------------------------- what is there afterwards

  lemma {:induction false} EntityCard(e: Entity, c: Context, r: Ref)
    ensures FirstCard(EntityOps(e, c), r) == if e.ref == r then Some(Card(e.name, e.attributes)) else None
  {
    var create, notes := [Create(e.ref, Card(e.name, e.attributes), e.name)], NoteOps(e, e.ref, c);
    FirstCardAppend(create, notes, r);
    assert create[..0] == [];
    assert FirstCard(notes, r) == None by {
      assert notes[..1][..0] == [];
      assert FirstCard(notes[..1], r) == None;
    }
  }

  lemma {:induction false} ListedCard(entities: seq<Entity>, c: Context, i: nat)
    requires DistinctRefs(entities) && i < |entities|
    ensures FirstCard(AllEntityOps(entities, c), entities[i].ref) == Some(Card(entities[i].name, entities[i].attributes))
    decreases |entities|
  {
    var n := |entities| - 1;
    var before, last := entities[..n], entities[n];
    FirstCardAppend(AllEntityOps(before, c), EntityOps(last, c), entities[i].ref);
    EntityCard(last, c, entities[i].ref);
    if i < n {
      ListedCard(before, c, i);
    } else {
      UnlistedCard(before, c, last.ref);
    }
  }

  lemma {:induction false} UnlistedCard(entities: seq<Entity>, c: Context, r: Ref)
    requires forall i :: 0 <= i < |entities| ==> entities[i].ref != r
    ensures FirstCard(AllEntityOps(entities, c), r) == None
    decreases |entities|
  {
    if entities != [] {
      var n := |entities| - 1;
      FirstCardAppend(AllEntityOps(entities[..n], c), EntityOps(entities[n], c), r);
      EntityCard(entities[n], c, r);
      UnlistedCard(entities[..n], c, r);
    }
  }

  lemma {:induction false} JoinsOfferNoCard(ops: seq<Op>, r: Ref)
    requires OnlyJoins(ops)
    ensures FirstCard(ops, r) == None
    decreases |ops|
  {
    if ops != [] {
      JoinsOfferNoCard(ops[..|ops| - 1], r);
    }
  }

  /** After a projection is applied, each of its entities has its card, unless the owner had one for it before. */
  lemma {:induction false} AppliedCards(v: View, p: GraphProjection, c: Context, i: nat)
    requires DistinctRefs(p.entities) && i < |p.entities|
    ensures At(PerformAll(v, ProjectionOps(v, p, c)).cards, p.entities[i].ref)
         == Else(At(v.cards, p.entities[i].ref), Some(Card(p.entities[i].name, p.entities[i].attributes)))
  {
    var r := p.entities[i].ref;
    var entityOps := AllEntityOps(p.entities, c);
    var present := PerformAll(v, entityOps).cards.Keys;
    var edgeOps := AllEdgeOps(p.edges, WriterOf(p.entities, c, present));
    ProjectionFills(v, p, c);
    CardCreated(v, entityOps + edgeOps, r);
    FirstCardAppend(entityOps, edgeOps, r);
    ListedCard(p.entities, c, i);
  }

  lemma {:induction false} AllEdgesSay(edges: seq<Edge>, write: EdgeWriter, op: Op)
    ensures op in AllEdgeOps(edges, write) <==> exists i :: 0 <= i < |edges| && op in write(edges[i])
    decreases |edges|
  {
    if edges != [] {
      var n := |edges| - 1;
      AllEdgesSay(edges[..n], write, op);
      assert forall i :: 0 <= i < n ==> edges[..n][i] == edges[i];
    }
  }

  /** The edge is to be written as the link `l`. */
  ghost predicate WrittenAs(entities: seq<Entity>, c: Context, present: set<Ref>, e: Edge, l: LinkKey) {
    && StartsAt(entities, c, present, e, l.src) && Has(entities, e.dst)
    && l.dst == e.dst && l.relation == e.relation && l.source == c.source
  }

  /** Some edge is to be written as this link with this data. */
  ghost predicate EdgesSay(p: GraphProjection, c: Context, present: set<Ref>, l: LinkKey, data: LinkData) {
    exists i :: 0 <= i < |p.edges| && WrittenAs(p.entities, c, present, p.edges[i], l)
                && data == LinkData(p.edges[i].attributes, p.edges[i].confidence)
  }

  lemma {:induction false} EdgeSays(entities: seq<Entity>, c: Context, present: set<Ref>, e: Edge, op: Op)
    requires Real(entities)
    ensures op in WriterOf(entities, c, present)(e)
       <==> op.Join? && WrittenAs(entities, c, present, e, op.link) && op.data == LinkData(e.attributes, e.confidence)
  {
    hide StartsAt, Real, SourceOf;
    if op.Join? {
      SourceIs(entities, c, present, e, op.link.src);
    }
  }

  /** The cards that decide which attachments are known are those of the result. */
  lemma {:induction false} PresentIs(v: View, p: GraphProjection, c: Context)
    ensures PerformAll(v, ProjectionOps(v, p, c)).cards == PerformAll(v, AllEntityOps(p.entities, c)).cards
  {
    var entityOps := AllEntityOps(p.entities, c);
    var u := PerformAll(v, entityOps);
    var edgeOps := AllEdgeOps(p.edges, WriterOf(p.entities, c, u.cards.Keys));
    EdgeOpsJoin(p.edges, p.entities, c, u.cards.Keys);
    PerformAppend(v, entityOps, edgeOps);
    JoinsKeepCards(u, edgeOps);
  }

  lemma {:induction false} EntitiesJoinNothing(entities: seq<Entity>, c: Context, op: Op)
    requires op in AllEntityOps(entities, c)
    ensures !op.Join?
    decreases |entities|
  {
    var n := |entities| - 1;
    if op !in EntityOps(entities[n], c) {
      EntitiesJoinNothing(entities[..n], c, op);
    }
  }

  /** The writes for one entity: it is created where missing, and noted for the run and for the item. */
  predicate EntitySays(e: Entity, c: Context, op: Op) {
    || op == Create(e.ref, Card(e.name, e.attributes), e.name)
    || op == Mention(Note(e.ref, c.source, e.snippet, e.confidence))
    || (c.item.Some? && op == Mention(Note(e.ref, c.item.value, e.snippet, e.confidence)))
  }

  lemma {:induction false} EntitiesSay(entities: seq<Entity>, c: Context, op: Op)
    ensures op in AllEntityOps(entities, c) <==> exists i :: 0 <= i < |entities| && EntitySays(entities[i], c, op)
    decreases |entities|
  {
    if entities != [] {
      var n := |entities| - 1;
      EntitiesSay(entities[..n], c, op);
      OneEntitySays(entities[n], c, op);
      hide EntitySays, EntityOps;
      assert forall i :: 0 <= i < n ==> entities[..n][i] == entities[i];
    }
  }

  lemma {:induction false} OneEntitySays(e: Entity, c: Context, op: Op)
    ensures op in EntityOps(e, c) <==> EntitySays(e, c, op)
  {
  }

  /** What is written for a projection: for each entity, and for each edge that is not skipped, no more and no less. */
  lemma {:induction false} ProjectionWrites(v: View, p: GraphProjection, c: Context, after: View, op: Op)
    requires Real(p.entities) && after == PerformAll(v, ProjectionOps(v, p, c))
    ensures op in ProjectionOps(v, p, c) <==>
              || (exists i :: 0 <= i < |p.entities| && EntitySays(p.entities[i], c, op))
              || (op.Join? && EdgesSay(p, c, after.cards.Keys, op.link, op.data))
  {
    hide PerformAll, AllEntityOps, AllEdgeOps, WriterOf, WrittenAs, Real, EntitySays;
    var write := WriterOf(p.entities, c, after.cards.Keys);
    PresentIs(v, p, c);
    EntitiesSay(p.entities, c, op);
    AllEdgesSay(p.edges, write, op);
    forall i | 0 <= i < |p.edges|
      ensures op in write(p.edges[i])
         <==> op.Join? && WrittenAs(p.entities, c, after.cards.Keys, p.edges[i], op.link)
              && op.data == LinkData(p.edges[i].attributes, p.edges[i].confidence)
    {
      EdgeSays(p.entities, c, after.cards.Keys, p.edges[i], op);
    }
  }

  lemma {:induction false} JoinIsOfEdge(v: View, p: GraphProjection, c: Context, l: LinkKey, data: LinkData)
    requires Real(p.entities) && Join(l, data) in ProjectionOps(v, p, c)
    ensures EdgesSay(p, c, PerformAll(v, AllEntityOps(p.entities, c)).cards.Keys, l, data)
  {
    hide PerformAll, AllEntityOps, AllEdgeOps, WriterOf, WrittenAs, Real;
    var entityOps := AllEntityOps(p.entities, c);
    var present := PerformAll(v, entityOps).cards.Keys;
    var write := WriterOf(p.entities, c, present);
    if Join(l, data) in entityOps {
      EntitiesJoinNothing(p.entities, c, Join(l, data));
    }
    AllEdgesSay(p.edges, write, Join(l, data));
    var i :| 0 <= i < |p.edges| && Join(l, data) in write(p.edges[i]);
    EdgeSays(p.entities, c, present, p.edges[i], Join(l, data));
  }

  /**
   After a projection is applied, the links are the earlier ones and one for each edge that is not skipped, from where
   the edge starts to its end, with the data of such an edge.
   */
  lemma {:induction false} AppliedLinks(v: View, p: GraphProjection, c: Context, after: View, l: LinkKey)
    requires Real(p.entities) && after == PerformAll(v, ProjectionOps(v, p, c))
    ensures l in v.links ==> At(after.links, l) == Some(v.links[l])
    ensures l !in v.links ==>
              (l in after.links <==> exists i :: 0 <= i < |p.edges| && WrittenAs(p.entities, c, after.cards.Keys, p.edges[i], l))
    ensures l in after.links && l !in v.links ==> EdgesSay(p, c, after.cards.Keys, l, after.links[l])
  {
    hide PerformAll, AllEntityOps, AllEdgeOps, WriterOf, WrittenAs, Real, FirstData;
    var entityOps := AllEntityOps(p.entities, c);
    var present := PerformAll(v, entityOps).cards.Keys;
    var write := WriterOf(p.entities, c, present);
    PresentIs(v, p, c);
    LinkAfter(v, ProjectionOps(v, p, c), after, l);
    JoinsAdded(ProjectionOps(v, p, c), l);
    var first := FirstData(ProjectionOps(v, p, c), l);
    if first.Some? {
      JoinIsOfEdge(v, p, c, l, first.value);
    }
    if i :| 0 <= i < |p.edges| && WrittenAs(p.entities, c, present, p.edges[i], l) {
      var data := LinkData(p.edges[i].attributes, p.edges[i].confidence);
      EdgeSays(p.entities, c, present, p.edges[i], Join(l, data));
      AllEdgesSay(p.edges, write, Join(l, data));
      assert Join(l, data) in ProjectionOps(v, p, c);
    }
  }

  // ---------------------------------------------------------------- applying twice

  /** The second application of a projection consists of the same writes as the first. */
  lemma {:induction false} SameOpsAgain(v: View, p: GraphProjection, c: Context, w: View)
    requires PerformAll(v, ProjectionOps(v, p, c)).cards.Keys == w.cards.Keys
    ensures ProjectionOps(w, p, c) == ProjectionOps(v, p, c)
  {
    var entityOps := AllEntityOps(p.entities, c);
    var u := PerformAll(v, entityOps);
    var edgeOps := AllEdgeOps(p.edges, WriterOf(p.entities, c, u.cards.Keys));
    EntityOpsFill(p.entities, c);
    EdgeOpsJoin(p.edges, p.entities, c, u.cards.Keys);
    PerformAppend(v, entityOps, edgeOps);
    JoinsKeepCards(u, edgeOps);
    Fills(v, entityOps);
    KeysOfFilled(w, u, entityOps);
  }

  lemma {:induction false} KeysOfFilled(w: View, u: View, ops: seq<Op>)
    requires NoPuts(ops) && w.cards.Keys == u.cards.Keys
    requires forall i :: 0 <= i < |ops| && ops[i].Create? ==> ops[i].ref in u.cards
    ensures PerformAll(w, ops).cards.Keys == u.cards.Keys
    decreases |ops|
  {
    if ops != [] {
      KeysOfFilled(w, u, ops[..|ops| - 1]);
    }
  }

  /** Applying a projection again changes no card, alias or link. */
  lemma {:induction false} ReapplyingSettles(v: View, p: GraphProjection, c: Context)
    ensures var once := PerformAll(v, ProjectionOps(v, p, c));
            SameGraph(PerformAll(once, ProjectionOps(once, p, c)), once)
  {
    var ops := ProjectionOps(v, p, c);
    var once := PerformAll(v, ops);
    ProjectionFills(v, p, c);
    SameOpsAgain(v, p, c, once);
    CreatesSettle(v, ops);
  }

  /** Indexing a run: the email first, then the projection. */
  function IndexRunView(v: View, s: Snapshot, read: PersonReader, p: GraphProjection, c: Context): View {
    var indexed := PerformAll(v, IndexOps(s, read));
    PerformAll(indexed, ProjectionOps(indexed, p, c))
  }

  lemma {:induction false} PutsKeepKeys(v: View, puts: seq<Op>, w: View)
    requires NoCreates(puts) && Kept(PerformAll(v, puts), w)
    ensures PerformAll(w, puts).cards.Keys == w.cards.Keys
  {
    PutsStay(v, puts, w);
  }

  /** Indexing a run again from unchanged rows and artifacts changes no card, alias or link. */
  lemma {:induction false} ReindexingRunSettles(v: View, s: Snapshot, read: PersonReader, p: GraphProjection, c: Context,
                                                once: View, again: View)
    requires once == IndexRunView(v, s, read, p, c) && again == IndexRunView(once, s, read, p, c)
    ensures SameGraph(again, once)
  {
    var puts := IndexOps(s, read);
    var indexed := PerformAll(v, puts);
    var creates := ProjectionOps(indexed, p, c);
    IndexNoCreates(s, read);
    ProjectionFills(indexed, p, c);
    CreatesKeep(indexed, creates);
    PutsKeepKeys(v, puts, once);
    SameOpsAgain(indexed, p, c, PerformAll(once, puts));
    BothSettle(v, puts, creates);
    PerformAppend(v, puts, creates);
    PerformAppend(once, puts, creates);
  }

  // ---------------------------------------------------------------- which runs are indexed

  datatype RunKind = PipelineRun | UserFollowup | Scheduled

  datatype RunStatus = RunInProgress | RunCompleted | RunAwaitingHuman | RunFailed | RunCancelled

  datatype RunRow = RunRow(kind: RunKind, status: RunStatus, job: string, session: string)

  /** The rows that indexing a run reads; a job is known by its item. */
  datatype Tables = Tables(runs: map<string, RunRow>, jobs: map<string, string>, items: seq<Item>, files: seq<AttachmentRow>)

  datatype RunRefusal = RunNotFound | NotPipelineRun | RunNotCompleted(status: RunStatus) | JobNotFound | ItemNotFound | ParentUnclear(error: LookupError)

  /** The item of the run's job, with its parent and attachments, to be indexed under the run and the item. */
  ghost predicate IsTarget(t: Tables, run: string, s: Snapshot, c: Context) {
    && run in t.runs && t.runs[run].job in t.jobs
    && exists item, parent ::
         && item in t.items && item.id == t.jobs[t.runs[run].job] && IsParent(t.items, item, parent)
         && s == SnapshotOf(item, parent, FilesOf(t.files, item.id))
         && c == Context(Ref(EntityType.Email, "ingestion_item:" + item.id), Source(FromRun, run), Some(Source(FromItem, item.id)),
                         FilesOf(t.files, item.id))
  }

  /** What there is to index for a run, or why it is refused. */
  function RunTarget(t: Tables, run: string): (target: Result<(Snapshot, Context), RunRefusal>)
    ensures target.Ok? ==> run in t.runs && t.runs[run].kind.PipelineRun? && t.runs[run].status.RunCompleted?
    ensures target.Ok? ==> target.value.1.email == target.value.0.email
    ensures target.Ok? ==> IsTarget(t, run, target.value.0, target.value.1)
    ensures target.Err? ==>
              || run !in t.runs || !t.runs[run].kind.PipelineRun? || !t.runs[run].status.RunCompleted?
              || t.runs[run].job !in t.jobs || (forall item :: item in t.items ==> item.id != t.jobs[t.runs[run].job])
              || (exists item :: item in t.items && item.id == t.jobs[t.runs[run].job] && Unclear(t.items, item))
  {
    hide IsParent, Unclear, FilesOf, SnapshotOf, ParentItem;
    if run !in t.runs then Err(RunNotFound)
    else
      var row := t.runs[run];
      if !row.kind.PipelineRun? then Err(NotPipelineRun)
      else if !row.status.RunCompleted? then Err(RunNotCompleted(row.status))
      else if row.job !in t.jobs then Err(JobNotFound)
      else
        NoSuchItem(t.items, t.jobs[row.job]);
        match FirstWhere(t.items, HasId(t.jobs[row.job]))
        case None => Err(ItemNotFound)
        case Some(item) => ItemTarget(t, run, item)
  }

  function ItemTarget(t: Tables, run: string, item: Item): (target: Result<(Snapshot, Context), RunRefusal>)
    ensures target.Ok? ==> target.value.1.email == target.value.0.email
    ensures target.Ok? ==>
              exists parent :: IsParent(t.items, item, parent) && target.value.0 == SnapshotOf(item, parent, FilesOf(t.files, item.id))
    ensures target.Ok? ==>
              target.value.1 == Context(Ref(EntityType.Email, "ingestion_item:" + item.id), Source(FromRun, run),
                                        Some(Source(FromItem, item.id)), FilesOf(t.files, item.id))
    ensures target.Err? ==> Unclear(t.items, item)
  {
    hide IsParent, Unclear;
    ParentIs(t.items, item);
    var own := FilesOf(t.files, item.id);
    match ParentItem(t.items, item)
    case Err(error) => Err(ParentUnclear(error))
    case Ok(parent) =>
      Ok((SnapshotOf(item, parent, own), Context(ItemRef(item.id), Source(FromRun, run), Some(Source(FromItem, item.id)), own)))
  }

  // ---------------------------------------------------------------- resolving entities

  /** What writing, or skipping, one edge does. */
  ghost predicate EdgeApplied(before: Views, after: Views, owner: Owner, ops: seq<Op>, wanted: seq<Op>, fuzzy: bool)
    requires Total(before)
  {
    OnlyJoins(ops) && after == Done(before, owner, ops) && Written(ops, wanted, fuzzy)
  }

  lemma {:induction false} NoEdgeApplied(views: Views, owner: Owner, fuzzy: bool)
    requires Total(views)
    ensures EdgeApplied(views, views, owner, [], [], fuzzy)
  {
    DoneNothing(views, owner);
  }

  lemma {:induction false} EdgeAppliedIs(before: Views, after: Views, owner: Owner, ops: seq<Op>, wanted: seq<Op>, fuzzy: bool)
    requires Total(before) && EdgeApplied(before, after, owner, ops, wanted, fuzzy)
    ensures OnlyJoins(ops) && after == Done(before, owner, ops) && Written(ops, wanted, fuzzy)
  {
  }

  lemma {:induction false} EdgesAppliedNext(before: Views, so: Views, after: Views, owner: Owner, ops: seq<Op>, more: seq<Op>,
                         edges: seq<Edge>, i: nat, write: EdgeWriter, fuzzy: bool)
    requires Total(before) && Total(so) && i < |edges|
    requires EdgeApplied(before, so, owner, ops, AllEdgeOps(edges[..i], write), fuzzy)
    requires EdgeApplied(so, after, owner, more, write(edges[i]), fuzzy)
    ensures EdgeApplied(before, after, owner, ops + more, AllEdgeOps(edges[..i + 1], write), fuzzy)
  {
    EdgesNext(edges, i, write);
    DoneAppend(before, owner, ops, more);
    WrittenAppend(ops, AllEdgeOps(edges[..i], write), more, write(edges[i]), fuzzy);
  }

  /** The names of an entity that are not blank are added, stripped, to its rows. */
  ghost predicate NamesAdded(before: set<AliasRow>, after: set<AliasRow>, id: Id, names: seq<string>) {
    forall a :: a in after <==> a in before || (a.entity == id && exists n :: n in names && !Blank(n) && a.name == Strip(n))
  }

  lemma {:induction false} NoNamesAdded(rows: set<AliasRow>, id: Id)
    ensures NamesAdded(rows, rows, id, [])
  {
  }

  lemma {:induction false} NamesAddedTwice(before: set<AliasRow>, between: set<AliasRow>, after: set<AliasRow>, id: Id, a: seq<string>, b: seq<string>)
    requires NamesAdded(before, between, id, a) && NamesAdded(between, after, id, b)
    ensures NamesAdded(before, after, id, a + b)
  {
    hide Blank, Strip;
  }

  /**
   What an entity resolves to: its own row, if it has one, and then nothing is written; or else a new row for it;
   or, when the search finds exactly one alike, that row, which only gets more names.
   */
  ghost predicate ResolvedTo(before: Rows, after: Rows, names: set<AliasRow>, names': set<AliasRow>, owner: Owner, e: Entity, id: Id, fuzzy: bool) {
    if exists own :: IsRowOf(before, own, owner, e.ref) then
      IsRowOf(before, id, owner, e.ref) && after == before && names' == names
    else
      || (id !in before && after == before[id := Row(owner, e.ref, Card(e.name, e.attributes))] && NamesAdded(names, names', id, [e.name]))
      || (fuzzy && !Blank(e.name) && id in before && after == before && NamesAdded(names, names', id, [e.name] + e.aliases))
  }

  lemma {:induction false} ResolvedToOwn(before: Rows, names: set<AliasRow>, owner: Owner, e: Entity, id: Id, fuzzy: bool)
    requires IsRowOf(before, id, owner, e.ref)
    ensures ResolvedTo(before, before, names, names, owner, e, id, fuzzy)
  {
  }

  lemma {:induction false} ResolvedToNew(before: Rows, after: Rows, names: set<AliasRow>, names': set<AliasRow>, owner: Owner, e: Entity,
                                         id: Id, fuzzy: bool)
    requires forall own :: !IsRowOf(before, own, owner, e.ref)
    requires Grown(before, after) && after == before[id := Row(owner, e.ref, Card(e.name, e.attributes))]
    requires names' == names + if Blank(e.name) then {} else {AliasRow(id, Strip(e.name))}
    ensures ResolvedTo(before, after, names, names', owner, e, id, fuzzy)
  {
    hide Blank, Strip;
    OneNameAdded(names, names', id, e.name);
    hide NamesAdded;
    assert !IsRowOf(before, id, owner, e.ref) && IsRowOf(after, id, owner, e.ref);
  }

  lemma {:induction false} OneNameAdded(names: set<AliasRow>, names': set<AliasRow>, id: Id, name: string)
    requires names' == names + if Blank(name) then {} else {AliasRow(id, Strip(name))}
    ensures NamesAdded(names, names', id, [name])
  {
    hide Blank, Strip;
    assert name in [name];
  }

  lemma {:induction false} ResolvedToAlike(before: Rows, names: set<AliasRow>, names': set<AliasRow>, owner: Owner, e: Entity, id: Id)
    requires forall own :: !IsRowOf(before, own, owner, e.ref)
    requires !Blank(e.name) && id in before && NamesAdded(names, names', id, [e.name] + e.aliases)
    ensures ResolvedTo(before, before, names, names', owner, e, id, true)
  {
    hide NamesAdded, Blank;
  }

  class GraphIndexer {
    const g: KnowledgeGraphService
    /** Whether names are also matched by similarity. */
    const fuzzy: bool

    constructor (g: KnowledgeGraphService, fuzzy: bool)
      ensures this.g == g && this.fuzzy == fuzzy
    {
      this.g, this.fuzzy := g, fuzzy;
    }

    /** Any search for one similar entity, confined to the owner and the type asked for. */
    method SearchSimilar(owner: Owner, typ: EntityType) returns (found: Option<Id>)
      ensures found.Some? ==> fuzzy && Owned(g.entities, found.value, owner) && g.entities[found.value].ref.typ == typ
    {
      found := None;
      var similar: bool := *;
      if fuzzy && similar {
        if id :| id in g.entities && g.entities[id].owner == owner && g.entities[id].ref.typ == typ {
          found := Some(id);
        }
      }
    }

    method AddAlias(owner: Owner, id: Id, name: string, ghost ref: Ref)
      requires g.Valid() && IsRowOf(g.entities, id, owner, ref)
      modifies g`aliases, g`views
      ensures g.Valid() && g.views == Done(old(g.views), owner, [Also(ref, name)])
      ensures NamesAdded(old(g.aliases), g.aliases, id, [name])
    {
      hide Refines;
      assert name in [name];
      if Blank(name) {
        AlsoBlank(g.views, owner, ref, name);
      } else {
        AlsoIs(g.views, owner, ref, name);
        g.UpsertAlias(id, Strip(name));
      }
    }

    method AddAliases(owner: Owner, id: Id, names: seq<string>, ghost ref: Ref) returns (ghost ops: seq<Op>)
      requires g.Valid() && IsRowOf(g.entities, id, owner, ref)
      modifies g`aliases, g`views
      ensures g.Valid() && NoPuts(ops) && g.views == Done(old(g.views), owner, ops)
      ensures NamesAdded(old(g.aliases), g.aliases, id, names)
    {
      hide Refines, NamesAdded, Done, Blank, Strip;
      ghost var before, rows := g.views, g.aliases;
      DoneNothing(before, owner);
      NoNamesAdded(rows, id);
      ops := [];
      var i := 0;
      while i < |names|
        invariant 0 <= i <= |names| && g.Valid() && NoPuts(ops)
        invariant g.views == Done(before, owner, ops) && NamesAdded(rows, g.aliases, id, names[..i])
      {
        DoneAppend(before, owner, ops, [Also(ref, names[i])]);
        ghost var between := g.aliases;
        AddAlias(owner, id, names[i], ref);
        NamesAddedTwice(rows, between, g.aliases, id, names[..i], [names[i]]);
        assert names[..i + 1] == names[..i] + [names[i]];
        ops := ops + [Also(ref, names[i])];
        i := i + 1;
      }
      assert names[..|names|] == names;
    }

    /** The writes of adopting a similar entity are only additional names for it. */
    method Adopt(owner: Owner, id: Id, name: string, aliases: seq<string>, ghost ref: Ref) returns (ghost ops: seq<Op>)
      requires g.Valid() && IsRowOf(g.entities, id, owner, ref)
      modifies g`aliases, g`views
      ensures g.Valid() && NoPuts(ops) && g.views == Done(old(g.views), owner, ops)
      ensures NamesAdded(old(g.aliases), g.aliases, id, [name] + aliases)
    {
      hide Refines, NamesAdded;
      ghost var before, rows := g.views, g.aliases;
      AddAlias(owner, id, name, ref);
      ghost var between := g.aliases;
      ghost var more := AddAliases(owner, id, aliases, ref);
      NamesAddedTwice(rows, between, g.aliases, id, [name], aliases);
      DoneAppend(before, owner, [Also(ref, name)], more);
      ops := [Also(ref, name)] + more;
    }

    /** An entity by exact key, or else by similarity, or else a new one; nothing that exists is rewritten. */
    method ResolveEntity(owner: Owner, e: Entity) returns (id: Id, ghost ops: seq<Op>)
      requires g.Valid()
      modifies g`entities, g`next, g`aliases, g`idOf, g`views
      ensures g.Valid() && Grown(old(g.entities), g.entities)
      ensures Owned(g.entities, id, owner) && g.entities[id].ref.typ == e.ref.typ
      ensures NoPuts(ops) && g.views == Done(old(g.views), owner, ops)
      ensures !fuzzy ==> g.entities[id].ref == e.ref && ops == [Create(e.ref, Card(e.name, e.attributes), e.name)]
      ensures ResolvedTo(old(g.entities), g.entities, old(g.aliases), g.aliases, owner, e, id, fuzzy)
    {
      hide Refines, NamesAdded, ResolvedTo;
      ghost var before, rows, names := g.views, g.entities, g.aliases;
      ops := [Create(e.ref, Card(e.name, e.attributes), e.name)];
      var existing := g.Find(owner, e.ref);
      if existing.Some? {
        CreateThere(before, owner, e.ref, Card(e.name, e.attributes), e.name);
        ResolvedToOwn(rows, names, owner, e, existing.value, fuzzy);
        return existing.value, ops;
      }
      if !Blank(e.name) {
        var similar := SearchSimilar(owner, e.ref.typ);
        if similar.Some? {
          id := similar.value;
          ops := Adopt(owner, id, e.name, e.aliases, g.entities[id].ref);
          ResolvedToAlike(rows, names, g.aliases, owner, e, id);
          return;
        }
      }
      CreateMissing(before, owner, e.ref, Card(e.name, e.attributes), e.name);
      id := g.UpsertEntity(owner, e.ref, Card(e.name, e.attributes), e.name);
      ResolvedToNew(rows, g.entities, names, g.aliases, owner, e, id, fuzzy);
    }

    method AddNotes(owner: Owner, id: Id, e: Entity, c: Context, ghost ref: Ref)
      requires g.Valid() && IsRowOf(g.entities, id, owner, ref)
      modifies g`mentions, g`views
      ensures g.Valid() && g.views == Done(old(g.views), owner, NoteOps(e, ref, c))
    {
      hide Refines;
      ghost var before := g.views;
      g.AddMention(owner, id, c.source, e.snippet, e.confidence);
      if c.item.Some? {
        g.AddMention(owner, id, c.item.value, e.snippet, e.confidence);
        DoneAppend(before, owner, [Mention(Note(ref, c.source, e.snippet, e.confidence))],
                   [Mention(Note(ref, c.item.value, e.snippet, e.confidence))]);
      }
    }

    /** Resolves one entity of a projection and records where it was seen. */
    method ApplyEntity(owner: Owner, e: Entity, c: Context) returns (id: Id, ghost ops: seq<Op>)
      requires g.Valid()
      modifies g`entities, g`next, g`aliases, g`idOf, g`mentions, g`views
      ensures g.Valid() && Grown(old(g.entities), g.entities)
      ensures Owned(g.entities, id, owner) && NoPuts(ops) && g.views == Done(old(g.views), owner, ops)
      ensures !fuzzy ==> g.entities[id].ref == e.ref && ops == EntityOps(e, c)
    {
      hide Refines, ResolvedTo, NamesAdded, Done;
      ghost var before := g.views;
      ghost var first: seq<Op>;
      id, first := ResolveEntity(owner, e);
      ghost var ref := g.entities[id].ref;
      AddNotes(owner, id, e, c, ref);
      DoneAppend(before, owner, first, NoteOps(e, ref, c));
      ops := first + NoteOps(e, ref, c);
    }

    method ApplyEntities(owner: Owner, entities: seq<Entity>, c: Context)
      returns (keyToEntity: map<Ref, Id>, ghost ops: seq<Op>)
      requires g.Valid()
      modifies g`entities, g`next, g`aliases, g`idOf, g`mentions, g`views
      ensures g.Valid() && Grown(old(g.entities), g.entities)
      ensures Resolved(g.entities, owner, entities, keyToEntity, fuzzy)
      ensures NoPuts(ops) && g.views == Done(old(g.views), owner, ops)
      ensures !fuzzy ==> ops == AllEntityOps(entities, c)
    {
      hide Refines, Resolved;
      ghost var before := g.views;
      DoneNothing(before, owner);
      NothingResolved(g.entities, owner, fuzzy);
      keyToEntity, ops := map[], [];
      var i := 0;
      while i < |entities|
        invariant 0 <= i <= |entities| && g.Valid() && Grown(old(g.entities), g.entities)
        invariant Resolved(g.entities, owner, entities[..i], keyToEntity, fuzzy)
        invariant NoPuts(ops) && g.views == Done(before, owner, ops)
        invariant !fuzzy ==> ops == AllEntityOps(entities[..i], c)
      {
        ghost var rows, so := g.entities, keyToEntity;
        var id, more := ApplyEntity(owner, entities[i], c);
        DoneAppend(before, owner, ops, more);
        ops := ops + more;
        keyToEntity := keyToEntity[entities[i].ref := id];
        ResolvedNext(rows, g.entities, owner, entities, i, so, id, fuzzy);
        assert entities[..i + 1][..i] == entities[..i];
        i := i + 1;
      }
      assert entities[..i] == entities;
    }

    /** The entity of the attachment a stand-in names, if the owner has it. */
    method ResolveAttachmentEntity(owner: Owner, key: string, c: Context) returns (found: Option<Id>)
      requires g.Valid()
      ensures found.Some? <==> NamedFile(c.files, key).Some? && NamedFile(c.files, key).value in g.views[owner].cards
      ensures found.Some? ==> IsRowOf(g.entities, found.value, owner, NamedFile(c.files, key).value)
      ensures found.Some? ==>
                exists i: nat :: FirstNamed(c.files, key, i)
                  && IsRowOf(g.entities, found.value, owner, Ref(EntityType.Attachment, "ingestion_attachment:" + c.files[i].id))
      ensures found.None? ==>
                forall i: nat :: FirstNamed(c.files, key, i) ==>
                  Ref(EntityType.Attachment, "ingestion_attachment:" + c.files[i].id) !in g.views[owner].cards
    {
      hide Refines, FirstNamed, NamedFile;
      NamedFileIs(c.files, key);
      forall i: nat, j: nat | FirstNamed(c.files, key, i) && FirstNamed(c.files, key, j) ensures i == j {
        FileIsUnique(c.files, key, i, j);
      }
      found := None;
      var file := NamedFile(c.files, key);
      if file.Some? {
        found := g.Find(owner, file.value);
      }
    }

    method FindSource(owner: Owner, entities: seq<Entity>, keyToEntity: map<Ref, Id>, e: Edge, email: Id, c: Context)
      returns (src: Option<Id>)
      requires g.Valid() && IsRowOf(g.entities, email, owner, c.email)
      requires Resolved(g.entities, owner, entities, keyToEntity, fuzzy)
      ensures src.Some? <==> SourceOf(entities, e, c, g.views[owner].cards.Keys).Some?
      ensures src.Some? ==> Owned(g.entities, src.value, owner)
      ensures src.Some? && !fuzzy ==> g.entities[src.value].ref == SourceOf(entities, e, c, g.views[owner].cards.Keys).value
    {
      hide Refines, Resolved;
      ResolvedAt(g.entities, owner, entities, keyToEntity, fuzzy, e.src);
      if e.src == EMAIL_SRC {
        src := Some(email);
      } else if IsFileStandIn(e.src) && c.item.Some? {
        src := ResolveAttachmentEntity(owner, e.src.key, c);
      } else if e.src in keyToEntity {
        src := Some(keyToEntity[e.src]);
      } else {
        src := None;
      }
    }

    /** Writes one edge, or skips it when an end is missing. */
    method ApplyEdge(owner: Owner, entities: seq<Entity>, keyToEntity: map<Ref, Id>, e: Edge, email: Id, c: Context)
      returns (written: bool, ghost ops: seq<Op>)
      requires g.Valid() && IsRowOf(g.entities, email, owner, c.email)
      requires Resolved(g.entities, owner, entities, keyToEntity, fuzzy)
      modifies g`edges, g`byKey, g`views
      ensures g.Valid() && |ops| == if written then 1 else 0
      ensures EdgeApplied(old(g.views), g.views, owner, ops, EdgeOps(entities, e, c, old(g.views)[owner].cards.Keys), fuzzy)
    {
      hide Refines, Resolved;
      written, ops := false, [];
      ResolvedAt(g.entities, owner, entities, keyToEntity, fuzzy, e.dst);
      DoneNothing(g.views, owner);
      var src := FindSource(owner, entities, keyToEntity, e, email, c);
      if src.Some? && e.dst in keyToEntity {
        var dst := keyToEntity[e.dst];
        ops := [Join(LinkKey(g.entities[src.value].ref, g.entities[dst].ref, e.relation, c.source), LinkData(e.attributes, e.confidence))];
        g.AddEdge(owner, src.value, dst, e.relation, c.source, LinkData(e.attributes, e.confidence));
        written := true;
      }
    }

    /** The next edge of a pass; earlier edges have changed no card, so it resolves as it would have before them. */
    method ApplyNextEdge(owner: Owner, entities: seq<Entity>, keyToEntity: map<Ref, Id>, e: Edge, email: Id, c: Context,
                         ghost before: Views, ghost so: seq<Op>, ghost wanted: seq<Op>, ghost write: EdgeWriter)
      returns (written: bool, ghost ops: seq<Op>)
      requires g.Valid() && IsRowOf(g.entities, email, owner, c.email)
      requires Resolved(g.entities, owner, entities, keyToEntity, fuzzy)
      requires Total(before) && EdgeApplied(before, g.views, owner, so, wanted, fuzzy)
      requires write == WriterOf(entities, c, before[owner].cards.Keys)
      modifies g`edges, g`byKey, g`views
      ensures g.Valid() && |ops| == if written then 1 else 0
      ensures EdgeApplied(old(g.views), g.views, owner, ops, write(e), fuzzy)
    {
      hide Refines, EdgeApplied, Resolved;
      EdgeAppliedIs(before, g.views, owner, so, wanted, fuzzy);
      JoinsKeepCards(before[owner], so);
      assert g.views[owner].cards == before[owner].cards;
      written, ops := ApplyEdge(owner, entities, keyToEntity, e, email, c);
    }

    method ApplyEdges(owner: Owner, entities: seq<Entity>, keyToEntity: map<Ref, Id>, edges: seq<Edge>, email: Id, c: Context,
                      ghost write: EdgeWriter)
      returns (added: nat, ghost ops: seq<Op>)
      requires g.Valid() && IsRowOf(g.entities, email, owner, c.email)
      requires Resolved(g.entities, owner, entities, keyToEntity, fuzzy)
      requires write == WriterOf(entities, c, g.views[owner].cards.Keys)
      modifies g`edges, g`byKey, g`views
      ensures g.Valid() && added == |ops|
      ensures EdgeApplied(old(g.views), g.views, owner, ops, AllEdgeOps(edges, write), fuzzy)
    {
      hide Refines, EdgeApplied, Resolved;
      ghost var before := g.views;
      NoEdgeApplied(before, owner, fuzzy);
      added, ops := 0, [];
      var i := 0;
      while i < |edges|
        invariant 0 <= i <= |edges| && added == |ops| && g.Valid()
        invariant EdgeApplied(before, g.views, owner, ops, AllEdgeOps(edges[..i], write), fuzzy)
      {
        ghost var so := g.views;
        var written, more := ApplyNextEdge(owner, entities, keyToEntity, edges[i], email, c, before, ops,
                                           AllEdgeOps(edges[..i], write), write);
        EdgesAppliedNext(before, so, g.views, owner, ops, more, edges, i, write, fuzzy);
        ops := ops + more;
        added := if written then added + 1 else added;
        i := i + 1;
      }
      assert edges[..i] == edges;
    }

    /**
     Applies a projection. Nothing the owner's graph already holds is rewritten, no other graph changes, and
     with exact keys the writes are those of the projection.
     */
    method ApplyProjection(owner: Owner, p: GraphProjection, email: Id, c: Context)
      returns (resolved: nat, added: nat, ghost ops: seq<Op>)
      requires g.Valid() && IsRowOf(g.entities, email, owner, c.email)
      modifies g
      ensures g.Valid() && NoPuts(ops) && g.views == Done(old(g.views), owner, ops)
      ensures resolved == |Refs(p.entities)|
      ensures !fuzzy ==> ops == ProjectionOps(old(g.views)[owner], p, c)
    {
      hide Refines;
      ghost var before := g.views;
      var keyToEntity, first := ApplyEntities(owner, p.entities, c);
      ghost var middle := g.views;
      ghost var second: seq<Op>;
      added, second := ApplyEdges(owner, p.entities, keyToEntity, p.edges, email, c,
                                  WriterOf(p.entities, c, middle[owner].cards.Keys));
      EdgeAppliedIs(middle, g.views, owner, second, AllEdgeOps(p.edges, WriterOf(p.entities, c, middle[owner].cards.Keys)), fuzzy);
      DoneAppend(before, owner, first, second);
      ops := first + second;
      assert middle[owner] == PerformAll(before[owner], first);
      RefsAreResolved(g.entities, owner, p.entities, keyToEntity, fuzzy);
      resolved := |keyToEntity|;
    }

    /** Indexes an email and then a projection. */
    method IndexBoth(s: Snapshot, read: PersonReader, p: GraphProjection, c: Context) returns (added: nat)
      requires g.Valid() && c.email == s.email
      modifies g
      ensures g.Valid()
      ensures forall o :: o != s.owner ==> g.views[o] == old(g.views)[o]
      ensures Kept(PerformAll(old(g.views)[s.owner], IndexOps(s, read)), g.views[s.owner])
      ensures !fuzzy ==> g.views[s.owner] == IndexRunView(old(g.views)[s.owner], s, read, p, c)
    {
      hide Refines;
      ghost var before := g.views;
      var email := IndexIngestionItem(g, s, read);
      ghost var indexed := g.views;
      var resolved;
      ghost var ops;
      resolved, added, ops := ApplyProjection(s.owner, p, email, c);
      CreatesKeep(indexed[s.owner], ops);
    }

    /** Indexes a run by id: its email, then the projection of its session. A refused run changes nothing. */
    method IndexRun(t: Tables, run: string, project: string -> GraphProjection) returns (r: Result<nat, RunRefusal>)
      requires g.Valid()
      modifies g
      ensures g.Valid()
      ensures RunTarget(t, run).Err? ==> r == Err(RunTarget(t, run).error) && g.views == old(g.views)
      ensures RunTarget(t, run).Ok? ==>
                var (s, c) := RunTarget(t, run).value;
                && r.Ok?
                && (forall o :: o != s.owner ==> g.views[o] == old(g.views)[o])
                && Kept(PerformAll(old(g.views)[s.owner], IndexOps(s, ReadPerson)), g.views[s.owner])
                && (!fuzzy ==> g.views[s.owner]
                               == IndexRunView(old(g.views)[s.owner], s, ReadPerson, project(t.runs[run].session), c))
    {
      hide Refines;
      var target := RunTarget(t, run);
      if target.Err? {
        return Err(target.error);
      }
      var (s, c) := target.value;
      var added := IndexBoth(s, ReadPerson, project(t.runs[run].session), c);
      r := Ok(added);
    }
  }

  function Refs(entities: seq<Entity>): set<Ref> {
    set e | e in entities :: e.ref
  }

  lemma {:induction false} RefsAreResolved(rows: Rows, owner: Owner, entities: seq<Entity>, keyToEntity: map<Ref, Id>, fuzzy: bool)
    requires Resolved(rows, owner, entities, keyToEntity, fuzzy)
    ensures |keyToEntity| == |Refs(entities)|
  {
    forall r ensures r in keyToEntity <==> r in Refs(entities) {
      assert r in keyToEntity <==> Has(entities, r);
    }
    assert keyToEntity.Keys == Refs(entities);
  }

  /** Every listed reference is resolved to an entity of the owner, and without fuzzy matching to its own. */
  ghost predicate Resolved(rows: Rows, owner: Owner, entities: seq<Entity>, keyToEntity: map<Ref, Id>, fuzzy: bool) {
    && (forall r :: r in keyToEntity <==> Has(entities, r))
    && (forall r :: r in keyToEntity ==> Owned(rows, keyToEntity[r], owner))
    && (!fuzzy ==> forall r :: r in keyToEntity ==> IsRowOf(rows, keyToEntity[r], owner, r))
  }

  lemma {:induction false} NothingResolved(rows: Rows, owner: Owner, fuzzy: bool)
    ensures Resolved(rows, owner, [], map[], fuzzy)
  {
  }

  lemma {:induction false} ResolvedAt(rows: Rows, owner: Owner, entities: seq<Entity>, keyToEntity: map<Ref, Id>, fuzzy: bool, r: Ref)
    requires Resolved(rows, owner, entities, keyToEntity, fuzzy)
    ensures r in keyToEntity <==> Has(entities, r)
    ensures r in keyToEntity ==> Owned(rows, keyToEntity[r], owner) && (!fuzzy ==> rows[keyToEntity[r]].ref == r)
  {
  }

  lemma {:induction false} ResolvedNext(rows: Rows, rows': Rows, owner: Owner, entities: seq<Entity>, i: nat, so: map<Ref, Id>, id: Id, fuzzy: bool)
    requires i < |entities| && Resolved(rows, owner, entities[..i], so, fuzzy) && Grown(rows, rows') && Owned(rows', id, owner)
    requires !fuzzy ==> rows'[id].ref == entities[i].ref
    ensures Resolved(rows', owner, entities[..i + 1], so[entities[i].ref := id], fuzzy)
  {
    assert entities[..i + 1] == entities[..i] + [entities[i]];
    forall r {
      HasSnoc(entities[..i], entities[i], r);
    }
    forall r | r in so ensures Owned(rows', so[r], owner)
                       ensures !fuzzy ==> IsRowOf(rows', so[r], owner, r) {
      assert Owned(rows, so[r], owner);
      assert IsRowOf(rows', so[r], owner, rows[so[r]].ref);
      assert !fuzzy ==> IsRowOf(rows, so[r], owner, r);
    }
  }
}
