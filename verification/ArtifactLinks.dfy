/**
 The links and entities of a run's artifacts, read off the artifacts themselves: which edges there are, which
 way each of them runs, and what each of them is about. They are exactly those of the facts that are offered.
 */
module ArtifactLinks {
  import opened Prelude
  import opened Strings
  import opened Ontology
  import opened Projection
  import opened RunArtifacts

  /** What is kept under a key: the content of the first artifact with it. */
  predicate IsContent(artifacts: seq<Artifact>, key: string, content: Content) {
    exists i: nat :: i < |artifacts| && artifacts[i] == Artifact(key, content) && forall j: nat :: j < i ==> artifacts[j].key != key
  }

  predicate IsValue(fields: seq<Field>, name: string, value: string) {
    exists i: nat :: i < |fields| && fields[i] == Field(name, value) && forall j: nat :: j < i ==> fields[j].name != name
  }

  function EntryName(raw: RawEntity): string {
    match raw
    case Plain(text) => Strip(text)
    case Described(name, canonicalName, _) => Strip(if name != "" then name else canonicalName)
    case Malformed => ""
  }

  function EntryType(raw: RawEntity, k: Keying): EntityType {
    if raw.Described? && raw.typ.Known? then raw.typ.typ else k.infer(EntryName(raw))
  }

  /** The entity one entry of an extract names. */
  function EntryEntity(raw: RawEntity, a: Artifact, k: Keying): Entity
    requires a.content.Record?
  {
    var typ, name, attributes: Attributes := EntryType(raw, k), EntryName(raw), map["source_file" := Text(a.content.sourceFile)];
    var about := if a.content.summary != "" then a.content.summary else a.key;
    Entity(Ref(typ, k.entity(typ, name, attributes)), name, attributes, [], Some(if |about| <= 500 then about else about[..500]), 90)
  }

  /** Some extract among the artifacts names the entity. */
  ghost predicate Extracted(artifacts: seq<Artifact>, k: Keying, x: Entity) {
    exists a, raw ::
      && a in artifacts && StartsWith(a.key, "extracted_data/") && a.content.Record?
      && raw in a.content.entities && EntryName(raw) != "" && x == EntryEntity(raw, a, k)
  }

  function IntentionEntity(intention: string, k: Keying): Entity {
    var area, name := if |intention| <= 80 then intention else intention[..80], if |intention| <= 120 then intention else intention[..120];
    Entity(Ref(Document, k.lawArea(area)), Strip(name), map["analysis_intention" := Flag(true)], [], None, 90)
  }

  predicate NamesParty(f: Field, k: Keying) {
    k.isParty(f.name) && Strip(f.value) != ""
  }

  function PartyEntity(f: Field, k: Keying, quoted: bool): Entity {
    var name := Strip(f.value);
    var typ, attributes: Attributes := k.infer(name), map["field" := Text(f.name)];
    Entity(Ref(typ, k.entity(typ, name, attributes)), name, attributes, [], if quoted then Some(f.name + ": " + name) else None, 90)
  }

  /** The parties' names, in the order of their fields. */
  function NamesIn(fields: seq<Field>, k: Keying): seq<string> {
    if fields == [] then []
    else (if NamesParty(fields[0], k) then [Strip(fields[0].value)] else []) + NamesIn(fields[1..], k)
  }

  function ContractRef(contractType: string, fields: seq<Field>, k: Keying): Ref {
    Ref(Contract, k.contract(contractType, NamesIn(fields, k)))
  }

  /** An edge from the party of some field to the contract. */
  predicate PartyTo(fields: seq<Field>, k: Keying, contract: Ref, e: Edge) {
    exists f :: f in fields && NamesParty(f, k) && e == Edge(PartyEntity(f, k, false).ref, contract, PARTY_TO, map[], 90)
  }

  predicate PartyOf(fields: seq<Field>, k: Keying, quoted: bool, x: Entity) {
    exists f :: f in fields && NamesParty(f, k) && x == PartyEntity(f, k, quoted)
  }

  /** A report that asks for a contract, of which something is known. */
  predicate Requests(report: Content, k: Keying) {
    && report.Record? && Strip(report.action) == "create_contract" && report.payload.Some?
    && (RequestedType(report.payload.value) != "" || NamesIn(report.payload.value.fields, k) != [])
  }

  function RequestedType(payload: Payload): string {
    Strip(if payload.contractTypeHint != "" then payload.contractTypeHint else "contract")
  }

  /** What a requested contract is linked to: its parties to it, and the email to it. */
  predicate RequestLinks(report: Content, k: Keying, e: Edge) {
    && Requests(report, k)
    && var fields, contractType := report.payload.value.fields, RequestedType(report.payload.value);
       || PartyTo(fields, k, ContractRef(contractType, fields, k), e)
       || e == Edge(EMAIL_SRC, ContractRef(contractType, fields, k), REFERENCES, map[], 90)
  }

  predicate RequestOffers(report: Content, k: Keying, x: Entity) {
    && Requests(report, k)
    && var fields, contractType := report.payload.value.fields, RequestedType(report.payload.value);
       || PartyOf(fields, k, true, x)
       || x == Entity(ContractRef(contractType, fields, k), contractType,
                      map["contract_type" := Text(contractType), "parties" := Texts(NamesIn(fields, k)), "status" := Text("requested")],
                      [], None, 90)
  }

  /** What a report links: the email to its intention, and what its request links. */
  predicate ReportLinks(report: Content, k: Keying, e: Edge) {
    && report.Record?
    && (|| (Strip(report.intention) != ""
            && e == Edge(EMAIL_SRC, IntentionEntity(Strip(report.intention), k).ref, CONCERNS, map[], 90))
        || RequestLinks(report, k, e))
  }

  predicate ReportOffers(report: Content, k: Keying, x: Entity) {
    && report.Record?
    && ((Strip(report.intention) != "" && x == IntentionEntity(Strip(report.intention), k)) || RequestOffers(report, k, x))
  }

  function DraftedType(draft: Content): string
    requires draft.Record?
  {
    Strip(if draft.contractType != "" then draft.contractType else "contract")
  }

  /** The drafted contract. */
  function Drafted(draft: Content, k: Keying): Entity
    requires draft.Record?
  {
    var contractType, fields := DraftedType(draft), draft.fieldValues;
    Entity(ContractRef(contractType, fields, k), Strip(if draft.displayName != "" then draft.displayName else contractType),
           map["contract_type" := Text(contractType), "parties" := Texts(NamesIn(fields, k)),
               "field_values" := Pairs(fields), "status" := Text("draft")], [], None, 95)
  }

  /** The jurisdiction that the governing law of a contract names. */
  ghost predicate IsLaw(fields: seq<Field>, k: Keying, x: Entity) {
    exists law ::
      law != "" && IsValue(fields, "governing_law", law)
      && x == Entity(Ref(Jurisdiction, k.jurisdiction(law)), Strip(law), map[], [], None, 90)
  }

  ghost predicate Governs(fields: seq<Field>, k: Keying, contract: Ref, e: Edge) {
    exists law ::
      law != "" && IsValue(fields, "governing_law", law)
      && e == Edge(contract, Ref(Jurisdiction, k.jurisdiction(law)), GOVERNED_BY, map[], 90)
  }

  /** What a draft links: its parties to the contract, and the contract to the law that governs it. */
  ghost predicate DraftLinks(draft: Content, k: Keying, e: Edge) {
    && draft.Record?
    && var contract := ContractRef(DraftedType(draft), draft.fieldValues, k);
       || PartyTo(draft.fieldValues, k, contract, e)
       || Governs(draft.fieldValues, k, contract, e)
  }

  ghost predicate DraftOffers(draft: Content, k: Keying, x: Entity) {
    && draft.Record?
    && var contractType, fields := DraftedType(draft), draft.fieldValues;
       || PartyOf(fields, k, false, x)
       || x == Drafted(draft, k)
       || IsLaw(fields, k, x)
  }

  /** The edges the artifacts of a run stand for. */
  ghost predicate ArtifactsLink(artifacts: seq<Artifact>, k: Keying, e: Edge) {
    || (exists x :: Extracted(artifacts, k, x) && e == Edge(EMAIL_SRC, x.ref, MENTIONS, map[], 90))
    || (exists report :: IsContent(artifacts, "analysis/report", report) && ReportLinks(report, k, e))
    || (exists draft :: IsContent(artifacts, "contracts/draft", draft) && DraftLinks(draft, k, e))
  }

  /** The entities they offer. */
  ghost predicate ArtifactsOffer(artifacts: seq<Artifact>, k: Keying, x: Entity) {
    || Extracted(artifacts, k, x)
    || (exists report :: IsContent(artifacts, "analysis/report", report) && ReportOffers(report, k, x))
    || (exists draft :: IsContent(artifacts, "contracts/draft", draft) && DraftOffers(draft, k, x))
  }

  // ---------------------------------------------------------------- looking up

  lemma {:induction false} ContentOfRest(artifacts: seq<Artifact>, key: string, content: Content)
    requires artifacts != [] && artifacts[0].key != key
    ensures IsContent(artifacts, key, content) <==> IsContent(artifacts[1..], key, content)
  {
    var rest := artifacts[1..];
    if IsContent(artifacts, key, content) {
      var i: nat :| i < |artifacts| && artifacts[i] == Artifact(key, content) && forall j: nat :: j < i ==> artifacts[j].key != key;
      assert rest[i - 1] == Artifact(key, content);
      assert forall j: nat :: j < i - 1 ==> rest[j] == artifacts[j + 1];
    }
    if IsContent(rest, key, content) {
      var i: nat :| i < |rest| && rest[i] == Artifact(key, content) && forall j: nat :: j < i ==> rest[j].key != key;
      assert artifacts[i + 1] == Artifact(key, content);
      forall j: nat | j < i + 1 ensures artifacts[j].key != key {
        assert j > 0 ==> artifacts[j] == rest[j - 1];
      }
    }
  }

  lemma {:induction false} LookupIs(artifacts: seq<Artifact>, key: string, content: Content)
    requires content.Record?
    ensures IsContent(artifacts, key, content) <==> Lookup(artifacts, key) == content
    decreases |artifacts|
  {
    if artifacts != [] && artifacts[0].key == key {
      assert artifacts[0] == Artifact(key, artifacts[0].content);
    } else if artifacts != [] {
      ContentOfRest(artifacts, key, content);
      LookupIs(artifacts[1..], key, content);
    }
  }

  lemma {:induction false} ContentIs(artifacts: seq<Artifact>, key: string)
    ensures Lookup(artifacts, key).Record? ==> IsContent(artifacts, key, Lookup(artifacts, key))
    ensures forall c: Content :: c.Record? && IsContent(artifacts, key, c) ==> c == Lookup(artifacts, key)
  {
    forall c: Content | c.Record? && IsContent(artifacts, key, c) ensures c == Lookup(artifacts, key) {
      LookupIs(artifacts, key, c);
    }
    if Lookup(artifacts, key).Record? {
      LookupIs(artifacts, key, Lookup(artifacts, key));
    }
  }

  lemma {:induction false} ValueOfRest(fields: seq<Field>, name: string, value: string)
    requires fields != [] && fields[0].name != name
    ensures IsValue(fields, name, value) <==> IsValue(fields[1..], name, value)
  {
    var rest := fields[1..];
    if IsValue(fields, name, value) {
      var i: nat :| i < |fields| && fields[i] == Field(name, value) && forall j: nat :: j < i ==> fields[j].name != name;
      assert rest[i - 1] == Field(name, value);
      assert forall j: nat :: j < i - 1 ==> rest[j] == fields[j + 1];
    }
    if IsValue(rest, name, value) {
      var i: nat :| i < |rest| && rest[i] == Field(name, value) && forall j: nat :: j < i ==> rest[j].name != name;
      assert fields[i + 1] == Field(name, value);
      forall j: nat | j < i + 1 ensures fields[j].name != name {
        assert j > 0 ==> fields[j] == rest[j - 1];
      }
    }
  }

  lemma {:induction false} ValueAtIs(fields: seq<Field>, name: string, value: string)
    requires value != ""
    ensures IsValue(fields, name, value) <==> ValueAt(fields, name) == value
    decreases |fields|
  {
    if fields != [] && fields[0].name == name {
      assert fields[0] == Field(name, fields[0].value);
    } else if fields != [] {
      ValueOfRest(fields, name, value);
      ValueAtIs(fields[1..], name, value);
    }
  }

  // ---------------------------------------------------------------- mentions

  lemma {:induction false} ParsedIs(raw: RawEntity, k: Keying)
    ensures ParseEntityEntry(raw, k) == if EntryName(raw) == "" then None else Some((EntryType(raw, k), EntryName(raw)))
    ensures Strip(EntryName(raw)) == EntryName(raw)
  {
    hide Strip, StripLeft, StripRight;
    match raw
    case Plain(text) =>
      StripTwice(text);
    case Described(name, canonicalName, _) =>
      StripTwice(Or(name, canonicalName));
    case Malformed =>
      StripTwice("");
      StripNothing();
  }

  lemma {:induction false} ReaderIs(a: Artifact, raw: RawEntity, k: Keying, x: Entity)
    requires a.content.Record?
    ensures ExtractReader(a, k)(raw) == Some(x) <==> EntryName(raw) != "" && x == EntryEntity(raw, a, k)
  {
    ParsedIs(raw, k);
    hide Strip, ParseEntityEntry, EntryName, EntryType;
  }

  lemma {:induction false} MentionedIs(raws: seq<RawEntity>, read: Reader, x: Entity)
    ensures x in Mentioned(raws, read) <==> exists raw :: raw in raws && read(raw) == Some(x)
    decreases |raws|
  {
    if raws != [] {
      var n := |raws| - 1;
      MentionedIs(raws[..n], read, x);
      assert raws == raws[..n] + [raws[n]];
    }
  }

  lemma {:induction false} AllMentionsIs(artifacts: seq<Artifact>, k: Keying, x: Entity)
    ensures x in AllMentions(artifacts, k) <==> exists a :: a in artifacts && x in ExtractMentions(a, k)
    decreases |artifacts|
  {
    if artifacts != [] {
      var n := |artifacts| - 1;
      AllMentionsIs(artifacts[..n], k, x);
      assert artifacts == artifacts[..n] + [artifacts[n]];
    }
  }

  lemma {:induction false} MentionsAreExtracted(artifacts: seq<Artifact>, k: Keying, x: Entity)
    ensures x in AllMentions(artifacts, k) <==> Extracted(artifacts, k, x)
  {
    AllMentionsIs(artifacts, k, x);
    forall a | a in artifacts && IsExtract(a)
      ensures x in ExtractMentions(a, k) <==> exists raw :: raw in a.content.entities && EntryName(raw) != "" && x == EntryEntity(raw, a, k)
    {
      MentionedIs(a.content.entities, ExtractReader(a, k), x);
      forall raw {
        ReaderIs(a, raw, k, x);
      }
    }
    hide EntryName, EntryEntity, Mentioned, AllMentions;
  }

  // ---------------------------------------------------------------- parties

  lemma {:induction false} NamesInSnoc(fields: seq<Field>, f: Field, k: Keying)
    ensures NamesIn(fields + [f], k) == NamesIn(fields, k) + if NamesParty(f, k) then [Strip(f.value)] else []
    decreases |fields|
  {
    if fields != [] {
      NamesInSnoc(fields[1..], f, k);
      assert (fields + [f])[1..] == fields[1..] + [f];
    }
    hide NamesParty, Strip;
  }

  lemma {:induction false} PartyNamesAre(fields: seq<Field>, k: Keying)
    ensures PartyNames(PartyFields(fields, PartyReader(k))) == NamesIn(fields, k)
    decreases |fields|
  {
    hide Strip;
    if fields != [] {
      var n := |fields| - 1;
      PartyNamesAre(fields[..n], k);
      NamesInSnoc(fields[..n], fields[n], k);
      assert fields == fields[..n] + [fields[n]];
    }
  }

  lemma {:induction false} PartyFieldsAre(fields: seq<Field>, k: Keying, g: Field)
    ensures g in PartyFields(fields, PartyReader(k))
       <==> exists f :: f in fields && NamesParty(f, k) && g == Field(f.name, Strip(f.value))
    decreases |fields|
  {
    hide Strip;
    if fields != [] {
      var n := |fields| - 1;
      PartyFieldsAre(fields[..n], k, g);
      assert fields == fields[..n] + [fields[n]];
    }
  }

  lemma {:induction false} MakerIs(f: Field, k: Keying, quoted: bool)
    ensures PartyMaker(quoted, k)(Field(f.name, Strip(f.value))) == PartyEntity(f, k, quoted)
  {
    StripTwice(f.value);
    hide Strip;
  }

  lemma {:induction false} PartiesAreOf(fields: seq<Field>, k: Keying, quoted: bool, x: Entity)
    ensures x in Parties(PartyFields(fields, PartyReader(k)), PartyMaker(quoted, k)) <==> PartyOf(fields, k, quoted, x)
  {
    var parties, make := PartyFields(fields, PartyReader(k)), PartyMaker(quoted, k);
    forall f {
      MakerIs(f, k, quoted);
    }
    forall g {
      PartyFieldsAre(fields, k, g);
    }
    hide PartyEntity, Strip, PartyFields, PartyMaker, NamesParty;
    if x in Parties(parties, make) {
      var i :| 0 <= i < |parties| && x == make(parties[i]);
      assert parties[i] in parties;
    }
    if PartyOf(fields, k, quoted, x) {
      var f :| f in fields && NamesParty(f, k) && x == PartyEntity(f, k, quoted);
      assert Field(f.name, Strip(f.value)) in parties;
      var i :| 0 <= i < |parties| && parties[i] == Field(f.name, Strip(f.value));
      assert Parties(parties, make)[i] == x;
    }
  }

  lemma {:induction false} PartyEdgesAre(parties: seq<Entity>, contract: Ref, e: Edge)
    ensures e in PartyEdges(parties, contract) <==> exists x :: x in parties && e == Edge(x.ref, contract, PARTY_TO, map[], 90)
  {
    if x :| x in parties && e == Edge(x.ref, contract, PARTY_TO, map[], 90) {
      var i :| 0 <= i < |parties| && parties[i] == x;
      assert PartyEdges(parties, contract)[i] == e;
    }
  }

  lemma {:induction false} EmailEdgesAre(entities: seq<Entity>, relation: Relation, e: Edge)
    ensures e in EmailEdges(entities, relation) <==> exists x :: x in entities && e == Edge(EMAIL_SRC, x.ref, relation, map[], 90)
  {
    if x :| x in entities && e == Edge(EMAIL_SRC, x.ref, relation, map[], 90) {
      var i :| 0 <= i < |entities| && entities[i] == x;
      assert EmailEdges(entities, relation)[i] == e;
    }
  }

  lemma {:induction false} PartyRef(f: Field, k: Keying, quoted: bool)
    ensures PartyEntity(f, k, quoted).ref == PartyEntity(f, k, false).ref
  {
  }

  lemma {:induction false} PartiesAreLinked(fields: seq<Field>, k: Keying, quoted: bool, contract: Ref, e: Edge)
    ensures e in PartyEdges(Parties(PartyFields(fields, PartyReader(k)), PartyMaker(quoted, k)), contract) <==> PartyTo(fields, k, contract, e)
  {
    var parties := Parties(PartyFields(fields, PartyReader(k)), PartyMaker(quoted, k));
    PartyEdgesAre(parties, contract, e);
    forall f {
      PartyRef(f, k, quoted);
    }
    forall x {
      PartiesAreOf(fields, k, quoted, x);
    }
    hide PartyEntity, Strip, PartyFields, PartyMaker, NamesParty, Parties, PartyEdges;
    if PartyTo(fields, k, contract, e) {
      var f :| f in fields && NamesParty(f, k) && e == Edge(PartyEntity(f, k, false).ref, contract, PARTY_TO, map[], 90);
      assert PartyOf(fields, k, quoted, PartyEntity(f, k, quoted));
    }
  }

  // ---------------------------------------------------------------- the report and the draft

  lemma {:induction false} ContractFactsAre(fields: seq<Field>, k: Keying, quoted: bool, contract: Entity, x: Entity, e: Edge)
    ensures var facts := ContractFacts(PartyFields(fields, PartyReader(k)), PartyMaker(quoted, k), contract);
            && (x in facts.entities <==> PartyOf(fields, k, quoted, x) || x == contract)
            && (e in facts.edges <==> PartyTo(fields, k, contract.ref, e))
  {
    PartiesAreOf(fields, k, quoted, x);
    PartiesAreLinked(fields, k, quoted, contract.ref, e);
    hide Parties, PartyEdges, PartyFields, PartyReader, PartyMaker, PartyOf, PartyTo;
  }

  lemma {:induction false} IntentionIs(report: Content, k: Keying)
    requires report.Record? && Strip(report.intention) != ""
    ensures Intention(report, k) == Some(IntentionEntity(Strip(report.intention), k))
  {
    hide Strip;
  }

  lemma {:induction false} RequestFactsAre(payload: Payload, k: Keying, quoted: bool, contractOf: ContractMaker, x: Entity, e: Edge)
    ensures var facts, contract := RequestFacts(payload, PartyReader(k), PartyMaker(quoted, k), contractOf), contractOf(NamesIn(payload.fields, k));
            var known := payload.contractTypeHint != "" || NamesIn(payload.fields, k) != [];
            && (x in facts.entities <==> known && (PartyOf(payload.fields, k, quoted, x) || x == contract))
            && (e in facts.edges <==> known && (PartyTo(payload.fields, k, contract.ref, e) || e == Edge(EMAIL_SRC, contract.ref, REFERENCES, map[], 90)))
  {
    var parties := PartyFields(payload.fields, PartyReader(k));
    PartyNamesAre(payload.fields, k);
    assert |PartyNames(parties)| == |parties|;
    ContractFactsAre(payload.fields, k, quoted, contractOf(NamesIn(payload.fields, k)), x, e);
    hide ContractFacts, PartyFields, PartyReader, PartyMaker, PartyOf, PartyTo, PartyNames, NamesIn;
  }

  lemma {:induction false} RequestIs(report: Content, k: Keying, x: Entity, e: Edge)
    ensures var facts := ReportRequestFacts(report, k);
            && (x in facts.entities <==> RequestOffers(report, k, x))
            && (e in facts.edges <==> RequestLinks(report, k, e))
  {
    if Requested(report).Some? {
      var payload := Requested(report).value;
      var hint, fields := payload.contractTypeHint, payload.fields;
      StripTwice(Or(report.payload.value.contractTypeHint, "contract"));
      RequestFactsAre(payload, k, true, RequestedContract(hint, k), x, e);
      hide Strip, RequestFacts, PartyReader, PartyMaker, PartyOf, PartyTo, NamesIn;
    }
  }

  lemma {:induction false} LawIs(fields: seq<Field>, k: Keying, contract: Ref, x: Entity, e: Edge)
    ensures var facts := LawFacts(contract, GoverningLaw(fields, k));
            && (x in facts.entities <==> IsLaw(fields, k, x))
            && (e in facts.edges <==> Governs(fields, k, contract, e))
  {
    forall law | law != "" {
      ValueAtIs(fields, "governing_law", law);
    }
    hide IsValue, ValueAt, Strip;
  }

  lemma {:induction false} DraftContractIs(draft: Content, k: Keying)
    requires draft.Record?
    ensures DraftContract(draft, k)(NamesIn(draft.fieldValues, k)) == Drafted(draft, k)
  {
    hide Strip, NamesIn;
  }

  lemma {:induction false} DraftFactsAre(draft: Content, k: Keying)
    requires draft.Record?
    ensures DraftedFacts(draft, k)
         == Plus(ContractFacts(PartyFields(draft.fieldValues, PartyReader(k)), PartyMaker(false, k), Drafted(draft, k)),
                 LawFacts(Drafted(draft, k).ref, GoverningLaw(draft.fieldValues, k)))
  {
    PartyNamesAre(draft.fieldValues, k);
    DraftContractIs(draft, k);
    hide Strip, ContractFacts, LawFacts, GoverningLaw, PartyFields, PartyReader, PartyMaker, PartyNames, NamesIn, DraftContract, Drafted;
  }

  lemma {:induction false} DraftIs(draft: Content, k: Keying, x: Entity, e: Edge)
    ensures var facts := DraftedFacts(draft, k);
            && (x in facts.entities <==> DraftOffers(draft, k, x))
            && (e in facts.edges <==> DraftLinks(draft, k, e))
  {
    if draft.Record? {
      DraftFactsAre(draft, k);
      ContractFactsAre(draft.fieldValues, k, false, Drafted(draft, k), x, e);
      LawIs(draft.fieldValues, k, Drafted(draft, k).ref, x, e);
      hide DraftedFacts, Strip, ContractFacts, LawFacts, GoverningLaw, PartyFields, PartyReader, PartyMaker,
        PartyNames, NamesIn, PartyOf, PartyTo, IsLaw, Governs;
    }
  }

  lemma {:induction false} ReportIs(report: Content, k: Keying, x: Entity, e: Edge)
    ensures var facts := Plus(IntentionFacts(Intention(report, k)), ReportRequestFacts(report, k));
            && (x in facts.entities <==> ReportOffers(report, k, x))
            && (e in facts.edges <==> ReportLinks(report, k, e))
  {
    RequestIs(report, k, x, e);
    if report.Record? && Strip(report.intention) != "" {
      IntentionIs(report, k);
    }
    hide Strip, ReportRequestFacts, RequestOffers, RequestLinks, IntentionEntity;
  }

  lemma {:induction false} MentionFactsAre(artifacts: seq<Artifact>, k: Keying, x: Entity, e: Edge)
    ensures var facts := MentionFacts(AllMentions(artifacts, k));
            && (x in facts.entities <==> Extracted(artifacts, k, x))
            && (e in facts.edges <==> exists y :: Extracted(artifacts, k, y) && e == Edge(EMAIL_SRC, y.ref, MENTIONS, map[], 90))
  {
    EmailEdgesAre(AllMentions(artifacts, k), MENTIONS, e);
    forall y {
      MentionsAreExtracted(artifacts, k, y);
    }
    hide EmailEdges, Extracted, AllMentions;
  }

  /** Everything the artifacts offer is there, once for each reference, with exactly the links they stand for. */
  ghost predicate StandsFor(p: GraphProjection, artifacts: seq<Artifact>, k: Keying) {
    && DistinctRefs(p.entities)
    && (forall x :: x in p.entities ==> ArtifactsOffer(artifacts, k, x))
    && (forall x :: ArtifactsOffer(artifacts, k, x) ==> Has(p.entities, x.ref))
    && (forall e :: e in p.edges <==> ArtifactsLink(artifacts, k, e))
  }

  lemma {:induction false} LinkedFacts(mentions: Facts, intention: Facts, request: Facts, draft: Facts, x: Entity, e: Edge)
    ensures var facts := Plus(Plus(Plus(mentions, intention), request), draft);
            && (x in facts.entities <==> x in mentions.entities || x in Plus(intention, request).entities || x in draft.entities)
            && (e in facts.edges <==> e in mentions.edges || e in Plus(intention, request).edges || e in draft.edges)
  {
  }

  /** The facts of a run's artifacts are exactly the links and the entities read off the artifacts. */
  lemma {:induction false} FactsAreLinks(artifacts: seq<Artifact>, k: Keying, x: Entity, e: Edge)
    ensures x in ArtifactFacts(artifacts, k).entities <==> ArtifactsOffer(artifacts, k, x)
    ensures e in ArtifactFacts(artifacts, k).edges <==> ArtifactsLink(artifacts, k, e)
  {
    var report, draft := Lookup(artifacts, REPORT), Lookup(artifacts, DRAFT);
    MentionFactsAre(artifacts, k, x, e);
    ReportIs(report, k, x, e);
    DraftIs(draft, k, x, e);
    LinkedFacts(MentionFacts(AllMentions(artifacts, k)), IntentionFacts(Intention(report, k)), ReportRequestFacts(report, k),
                DraftedFacts(draft, k), x, e);
    ContentIs(artifacts, REPORT);
    ContentIs(artifacts, DRAFT);
    hide Extracted, MentionFacts, IntentionFacts, ReportRequestFacts, DraftedFacts, Plus, Lookup, IsContent, AllMentions, Intention;
  }

  lemma {:induction false} KeptOnlyOffered(offered: seq<Entity>, x: Entity)
    requires x in KeepFirst(offered)
    ensures x in offered
  {
    KeepFirstIsFirst(offered, x);
  }

  lemma {:induction false} OfferedIsKept(offered: seq<Entity>, x: Entity)
    requires x in offered
    ensures Has(KeepFirst(offered), x.ref)
  {
    KeepFirstRefs(offered, x.ref);
    var i :| 0 <= i < |offered| && offered[i] == x;
    assert offered[i].ref == x.ref;
  }

  /** A projection of the first offers and all links of the facts stands for the artifacts. */
  lemma {:induction false} FactsStandFor(artifacts: seq<Artifact>, k: Keying)
    ensures StandsFor(GraphProjection(KeepFirst(ArtifactFacts(artifacts, k).entities), ArtifactFacts(artifacts, k).edges), artifacts, k)
  {
    var offered, edges := ArtifactFacts(artifacts, k).entities, ArtifactFacts(artifacts, k).edges;
    hide ArtifactFacts, ArtifactsOffer, ArtifactsLink, KeepFirst, IsFirst;
    KeepFirstRefs(offered, EMAIL_SRC);
    forall x | x in KeepFirst(offered) ensures ArtifactsOffer(artifacts, k, x) {
      KeptOnlyOffered(offered, x);
      FactsAreLinks(artifacts, k, x, Edge(EMAIL_SRC, EMAIL_SRC, MENTIONS, map[], 90));
    }
    forall x | ArtifactsOffer(artifacts, k, x) ensures Has(KeepFirst(offered), x.ref) {
      FactsAreLinks(artifacts, k, x, Edge(EMAIL_SRC, EMAIL_SRC, MENTIONS, map[], 90));
      OfferedIsKept(offered, x);
    }
    forall e ensures e in edges <==> ArtifactsLink(artifacts, k, e) {
      FactsAreLinks(artifacts, k, Entity(EMAIL_SRC, "", map[], [], None, 90), e);
    }
  }
}
