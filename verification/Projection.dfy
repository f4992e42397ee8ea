/**
 Building the part of the knowledge graph that one run contributes. Builders offer entities one after
 another and keep the first of each key; what they keep is `KeepFirst` of everything offered, and every
 edge ends in an offered entity.
 */
module Projection {
  import opened Prelude
  import opened Strings
  import opened Ontology

  datatype Relation =
    | MENTIONS | SENT_BY | SENT_TO | REPLIES_TO | ATTACHED_TO | PARTY_TO | REFERENCES | GOVERNED_BY | CONCERNS

  /** The identity of an entity inside one owner's graph. */
  datatype Ref = Ref(typ: EntityType, key: string)

  datatype Value = Text(s: string) | Number(n: int) | Flag(b: bool) | Texts(items: seq<string>) | Pairs(fields: seq<Field>)

  datatype Field = Field(name: string, value: string)

  type Attributes = map<string, Value>

  /** Confidences are in hundredths. */
  datatype Entity = Entity(
    ref: Ref, name: string, attributes: Attributes, aliases: seq<string>, snippet: Option<string>, confidence: nat)

  datatype Edge = Edge(src: Ref, dst: Ref, relation: Relation, attributes: Attributes, confidence: nat)

  datatype GraphProjection = GraphProjection(entities: seq<Entity>, edges: seq<Edge>)

  /** The email a run is about is not an entity of its projection; it is named by this reference. */
  const EMAIL_SRC := Ref(Email, "__email__")

  // ---------------------------------------------------------------- artifacts

  datatype TypeField = Untyped | Known(typ: EntityType) | Unknown

  datatype RawEntity = Plain(text: string) | Described(name: string, canonicalName: string, typ: TypeField) | Malformed

  datatype Payload = Payload(contractTypeHint: string, fields: seq<Field>)

  datatype AttachmentEntry = AttachmentEntry(processed: bool, name: string, dataKey: string, textKey: string)

  /** A record lists the members any builder looks at; a member that is absent is empty. */
  datatype Content =
    | Opaque
    | Record(
        summary: string, sourceFile: string, entities: seq<RawEntity>,
        intention: string, action: string, payload: Option<Payload>,
        contractType: string, displayName: string, fieldValues: seq<Field>,
        subject: string, actionRequested: string, attachments: seq<AttachmentEntry>)

  datatype Artifact = Artifact(key: string, content: Content)

  /** Which fields name parties, how names get types and entities get keys; building works alike for every choice. */
  datatype Keying = Keying(
    isParty: string -> bool,
    infer: string -> EntityType,
    entity: (EntityType, string, Attributes) -> string,
    contract: (string, seq<string>) -> string,
    lawArea: string -> string,
    jurisdiction: string -> string,
    document: string -> string,
    attachment: string -> string)

  const REPORT := "analysis/report"
  const EXTRACTED := "analysis/extracted"
  const DRAFT := "contracts/draft"

  function Lookup(artifacts: seq<Artifact>, key: string): Content {
    if artifacts == [] then Opaque
    else if artifacts[0].key == key then artifacts[0].content
    else Lookup(artifacts[1..], key)
  }

  predicate StartsWith(s: string, prefix: string) {
    prefix <= s
  }

  function Clip(s: string, n: nat): string {
    if |s| <= n then s else s[..n]
  }

  function Or(s: string, fallback: string): string {
    if s != "" then s else fallback
  }

  // ---------------------------------------------------------------- keeping the first of each key

  predicate Has(entities: seq<Entity>, r: Ref) {
    exists i :: 0 <= i < |entities| && entities[i].ref == r
  }

  predicate DistinctRefs(entities: seq<Entity>) {
    forall i, j :: 0 <= i < j < |entities| ==> entities[i].ref != entities[j].ref
  }

  function KeepFirst(offered: seq<Entity>): seq<Entity>
    decreases |offered|
  {
    if offered == [] then []
    else
      var n := |offered| - 1;
      var kept := KeepFirst(offered[..n]);
      if Has(kept, offered[n].ref) then kept else kept + [offered[n]]
  }

  lemma {:induction false} KeepFirstSnoc(offered: seq<Entity>, e: Entity)
    ensures KeepFirst(offered + [e])
         == if Has(KeepFirst(offered), e.ref) then KeepFirst(offered) else KeepFirst(offered) + [e]
  {
    assert (offered + [e])[..|offered|] == offered;
  }

  /** The first offer for a reference. */
  predicate IsFirst(offered: seq<Entity>, i: int) {
    0 <= i < |offered| && forall j :: 0 <= j < i ==> offered[j].ref != offered[i].ref
  }

  /** Every offered reference is kept, once. */
  lemma {:induction false} KeepFirstRefs(offered: seq<Entity>, r: Ref)
    ensures DistinctRefs(KeepFirst(offered))
    ensures Has(KeepFirst(offered), r) <==> Has(offered, r)
    decreases |offered|
  {
    if offered != [] {
      var n := |offered| - 1;
      var before, last := offered[..n], offered[n];
      KeepFirstRefs(before, r);
      assert offered == before + [last];
      HasSnoc(before, last, r);
      HasSnoc(KeepFirst(before), last, r);
    }
  }

  predicate FirstOffer(offered: seq<Entity>, e: Entity) {
    exists i :: 0 <= i < |offered| && IsFirst(offered, i) && offered[i] == e
  }

  lemma {:induction false} FirstOfferSnoc(before: seq<Entity>, last: Entity, e: Entity)
    ensures FirstOffer(before + [last], e) <==> FirstOffer(before, e) || (last == e && !Has(before, last.ref))
  {
    var all := before + [last];
    assert forall i :: 0 <= i < |before| ==> all[i] == before[i];
    assert all[|before|] == last;
    if FirstOffer(before, e) {
      var i :| 0 <= i < |before| && IsFirst(before, i) && before[i] == e;
      assert IsFirst(all, i);
    }
    if last == e && !Has(before, last.ref) {
      assert IsFirst(all, |before|);
    }
    if FirstOffer(all, e) {
      var i :| 0 <= i < |all| && IsFirst(all, i) && all[i] == e;
      if i < |before| {
        assert IsFirst(before, i);
      }
    }
  }

  /** What is kept is exactly the first offer for each reference. */
  lemma {:induction false} KeepFirstIsFirst(offered: seq<Entity>, e: Entity)
    ensures e in KeepFirst(offered) <==> FirstOffer(offered, e)
    decreases |offered|
  {
    if offered != [] {
      var n := |offered| - 1;
      var before, last := offered[..n], offered[n];
      KeepFirstIsFirst(before, e);
      KeepFirstRefs(before, last.ref);
      FirstOfferSnoc(before, last, e);
      assert offered == before + [last];
    }
  }

  lemma {:induction false} HasSnoc(entities: seq<Entity>, last: Entity, r: Ref)
    ensures Has(entities + [last], r) <==> Has(entities, r) || last.ref == r
  {
    var all := entities + [last];
    assert all[|entities|] == last;
    if Has(entities, r) {
      var i :| 0 <= i < |entities| && entities[i].ref == r;
      assert all[i].ref == r;
    }
  }

  /** Keeping first in stages is keeping first overall. */
  lemma {:induction false} KeepFirstStages(a: seq<Entity>, b: seq<Entity>)
    ensures KeepFirst(KeepFirst(a) + b) == KeepFirst(a + b)
    decreases |b|
  {
    if b == [] {
      assert KeepFirst(a) + b == KeepFirst(a) && a + b == a;
      KeepFirstFixed(a);
    } else {
      var n := |b| - 1;
      KeepFirstStages(a, b[..n]);
      assert KeepFirst(a) + b == (KeepFirst(a) + b[..n]) + [b[n]];
      assert a + b == (a + b[..n]) + [b[n]];
      KeepFirstSnoc(KeepFirst(a) + b[..n], b[n]);
      KeepFirstSnoc(a + b[..n], b[n]);
    }
  }

  lemma {:induction false} DistinctFront(entities: seq<Entity>, n: nat)
    requires DistinctRefs(entities) && n < |entities|
    ensures DistinctRefs(entities[..n]) && !Has(entities[..n], entities[n].ref)
  {
  }

  lemma {:induction false} KeepFirstOfDistinct(entities: seq<Entity>)
    requires DistinctRefs(entities)
    ensures KeepFirst(entities) == entities
    decreases |entities|
  {
    if entities != [] {
      var n := |entities| - 1;
      var before, last := entities[..n], entities[n];
      DistinctFront(entities, n);
      KeepFirstOfDistinct(before);
      KeepFirstSnoc(before, last);
      hide KeepFirst, DistinctRefs, Has;
      assert entities == before + [last];
    }
  }

  lemma {:induction false} KeepFirstFixed(a: seq<Entity>)
    ensures KeepFirst(KeepFirst(a)) == KeepFirst(a)
  {
    if a != [] {
      KeepFirstRefs(a, a[0].ref);
      KeepFirstOfDistinct(KeepFirst(a));
    }
  }

  // ---------------------------------------------------------------- the builder

  /** What was offered and what was linked. */
  datatype Facts = Facts(entities: seq<Entity>, edges: seq<Edge>)

  const NO_FACTS := Facts([], [])

  function Plus(a: Facts, b: Facts): Facts {
    Facts(a.entities + b.entities, a.edges + b.edges)
  }

  lemma {:induction false} PlusAssociative(a: Facts, b: Facts, c: Facts)
    ensures Plus(Plus(a, b), c) == Plus(a, Plus(b, c))
  {
  }

  lemma {:induction false} PlusNothing(a: Facts)
    ensures Plus(a, NO_FACTS) == a
  {
  }

  class ProjectionBuilder {
    var entities: seq<Entity>
    var edges: seq<Edge>
    var entityByKey: map<Ref, Entity>
    ghost var offered: seq<Entity>

    constructor ()
      ensures Valid() && offered == [] && edges == []
    {
      entities, edges, entityByKey, offered := [], [], map[], [];
    }

    ghost predicate Valid()
      reads this
    {
      && entities == KeepFirst(offered)
      && (forall r :: r in entityByKey <==> Has(entities, r))
      && (forall r :: r in entityByKey ==> entityByKey[r].ref == r && entityByKey[r] in entities)
    }

    ghost function Given(): Facts
      reads this
    {
      Facts(offered, edges)
    }

    /** Offers an entity and returns the one that holds its reference. */
    method Add(e: Entity) returns (kept: Entity)
      requires Valid()
      modifies this
      ensures Valid() && offered == old(offered) + [e] && edges == old(edges)
      ensures kept.ref == e.ref && kept in entities
    {
      KeepFirstSnoc(offered, e);
      offered := offered + [e];
      if e.ref in entityByKey {
        return entityByKey[e.ref];
      }
      entityByKey := entityByKey[e.ref := e];
      forall r {
        HasSnoc(entities, e, r);
      }
      entities := entities + [e];
      kept := e;
    }

    method Link(edge: Edge)
      requires Valid()
      modifies this`edges
      ensures Valid() && edges == old(edges) + [edge]
    {
      edges := edges + [edge];
    }
  }
}
