/** The entities and edges that the artifacts of a run stand for. */
module RunArtifacts {
  import opened Prelude
  import opened Strings
  import opened Ontology
  import opened Projection

  // ---------------------------------------------------------------- what the artifacts say

  function ParseEntityEntry(raw: RawEntity, k: Keying): Option<(EntityType, string)> {
    match raw
    case Plain(text) => if Strip(text) == "" then None else Some((k.infer(Strip(text)), Strip(text)))
    case Described(name, canonicalName, typ) =>
      var n := Strip(Or(name, canonicalName));
      if n == "" then None else Some((if typ.Known? then typ.typ else k.infer(n), n))
    case Malformed => None
  }

  function Named(k: Keying, typ: EntityType, name: string, attributes: Attributes, snippet: Option<string>): Entity {
    Entity(Ref(typ, k.entity(typ, name, attributes)), Strip(name), attributes, [], snippet, 90)
  }

  type Reader = RawEntity -> Option<Entity>

  /** Reads the entries of one extract. */
  function ExtractReader(a: Artifact, k: Keying): Reader
    requires a.content.Record?
  {
    raw =>
      match ParseEntityEntry(raw, k)
      case None => None
      case Some((typ, name)) =>
        Some(Named(k, typ, name, map["source_file" := Text(a.content.sourceFile)],
                   Some(Clip(Or(a.content.summary, a.key), 500))))
  }

  function ListOf<T>(o: Option<T>): seq<T> {
    match o case None => [] case Some(x) => [x]
  }

  /** The entities mentioned by a list of entries. */
  function Mentioned(raws: seq<RawEntity>, read: Reader): seq<Entity>
    decreases |raws|
  {
    if raws == [] then []
    else
      var n := |raws| - 1;
      Mentioned(raws[..n], read) + ListOf(read(raws[n]))
  }

  lemma {:induction false} MentionedNext(raws: seq<RawEntity>, i: nat, read: Reader)
    requires i < |raws|
    ensures Mentioned(raws[..i + 1], read) == Mentioned(raws[..i], read) + ListOf(read(raws[i]))
  {
    assert raws[..i + 1][..i] == raws[..i];
  }

  function EmailEdge(dst: Ref, relation: Relation): Edge {
    Edge(EMAIL_SRC, dst, relation, map[], 90)
  }

  function EmailEdges(entities: seq<Entity>, relation: Relation): seq<Edge> {
    seq(|entities|, i requires 0 <= i < |entities| => EmailEdge(entities[i].ref, relation))
  }

  lemma {:induction false} Regroup<T>(a: seq<T>, b: seq<T>, x: T)
    ensures a + b + [x] == a + (b + [x])
  {
  }

  lemma {:induction false} EmailEdgesAppend(a: seq<Entity>, b: seq<Entity>, relation: Relation)
    ensures EmailEdges(a + b, relation) == EmailEdges(a, relation) + EmailEdges(b, relation)
  {
  }

  predicate IsExtract(a: Artifact) {
    StartsWith(a.key, "extracted_data/") && a.content.Record?
  }

  function ExtractMentions(a: Artifact, k: Keying): seq<Entity> {
    if IsExtract(a) then Mentioned(a.content.entities, ExtractReader(a, k)) else []
  }

  function AllMentions(artifacts: seq<Artifact>, k: Keying): seq<Entity>
    decreases |artifacts|
  {
    if artifacts == [] then []
    else
      var n := |artifacts| - 1;
      AllMentions(artifacts[..n], k) + ExtractMentions(artifacts[n], k)
  }

  function LawArea(intention: string, k: Keying): Entity {
    Entity(Ref(Document, k.lawArea(Clip(intention, 80))), Strip(Clip(intention, 120)),
           map["analysis_intention" := Flag(true)], [], None, 90)
  }

  function Intention(report: Content, k: Keying): Option<Entity> {
    if report.Record? && Strip(report.intention) != "" then Some(LawArea(Strip(report.intention), k)) else None
  }

  function PartyField(field: Field, k: Keying): Option<Field> {
    if k.isParty(field.name) && Strip(field.value) != "" then Some(Field(field.name, Strip(field.value))) else None
  }

  type FieldReader = Field -> Option<Field>

  /** The parties among the fields of a contract, with their names stripped. */
  function PartyFields(fields: seq<Field>, read: FieldReader): seq<Field>
    decreases |fields|
  {
    if fields == [] then []
    else
      var n := |fields| - 1;
      PartyFields(fields[..n], read) + ListOf(read(fields[n]))
  }

  lemma {:induction false} PartyFieldsNext(fields: seq<Field>, i: nat, read: FieldReader)
    requires i < |fields|
    ensures PartyFields(fields[..i + 1], read) == PartyFields(fields[..i], read) + ListOf(read(fields[i]))
  {
    assert fields[..i + 1][..i] == fields[..i];
  }

  function PartyReader(k: Keying): FieldReader {
    (field: Field) => PartyField(field, k)
  }

  function PartyNames(parties: seq<Field>): seq<string> {
    seq(|parties|, i requires 0 <= i < |parties| => parties[i].value)
  }

  function PartyMaker(quoted: bool, k: Keying): Field -> Entity {
    (field: Field) =>
      Named(k, k.infer(field.value), field.value, map["field" := Text(field.name)],
            if quoted then Some(field.name + ": " + field.value) else None)
  }

  function Parties(parties: seq<Field>, make: Field -> Entity): seq<Entity> {
    seq(|parties|, i requires 0 <= i < |parties| => make(parties[i]))
  }

  function PartyEdge(party: Ref, contract: Ref): Edge {
    Edge(party, contract, PARTY_TO, map[], 90)
  }

  function PartyEdges(parties: seq<Entity>, contract: Ref): seq<Edge> {
    seq(|parties|, i requires 0 <= i < |parties| => PartyEdge(parties[i].ref, contract))
  }

  /** The payload of a report that asks for a contract. */
  function Requested(report: Content): Option<Payload> {
    if report.Record? && Strip(report.action) == "create_contract" && report.payload.Some?
    then Some(report.payload.value.(contractTypeHint := Strip(Or(report.payload.value.contractTypeHint, "contract"))))
    else None
  }

  /** Makes a contract from the names of its parties. */
  type ContractMaker = seq<string> -> Entity

  function RequestedContract(hint: string, k: Keying): ContractMaker {
    (names: seq<string>) =>
      Entity(Ref(Contract, k.contract(hint, names)), Strip(hint),
             map["contract_type" := Text(hint), "parties" := Texts(names), "status" := Text("requested")], [], None, 90)
  }

  function DraftContract(draft: Content, k: Keying): ContractMaker
    requires draft.Record?
  {
    var contractType := Strip(Or(draft.contractType, "contract"));
    (names: seq<string>) =>
      Entity(Ref(Contract, k.contract(contractType, names)), Strip(Or(draft.displayName, contractType)),
             map["contract_type" := Text(contractType), "parties" := Texts(names),
                 "field_values" := Pairs(draft.fieldValues), "status" := Text("draft")], [], None, 95)
  }

  function ValueAt(fields: seq<Field>, name: string): string {
    if fields == [] then "" else if fields[0].name == name then fields[0].value else ValueAt(fields[1..], name)
  }

  function GoverningLaw(fields: seq<Field>, k: Keying): Option<Entity> {
    var law := ValueAt(fields, "governing_law");
    if law == "" then None
    else Some(Entity(Ref(Jurisdiction, k.jurisdiction(law)), Strip(law), map[], [], None, 90))
  }

  function GovernedEdge(contract: Ref, law: Ref): Edge {
    Edge(contract, law, GOVERNED_BY, map[], 90)
  }

  function OneMention(e: Entity): Facts {
    Facts([e], [EmailEdge(e.ref, MENTIONS)])
  }

  function MentionFacts(mentions: seq<Entity>): Facts {
    Facts(mentions, EmailEdges(mentions, MENTIONS))
  }

  lemma {:induction false} MentionFactsAppend(a: seq<Entity>, b: seq<Entity>)
    ensures MentionFacts(a + b) == Plus(MentionFacts(a), MentionFacts(b))
  {
    EmailEdgesAppend(a, b, MENTIONS);
  }

  function IntentionFacts(intention: Option<Entity>): Facts {
    match intention case None => NO_FACTS case Some(law) => Facts([law], [EmailEdge(law.ref, CONCERNS)])
  }

  /** The parties among some fields, a contract made from their names, and the edges between them. */
  function ContractFacts(fields: seq<Field>, make: Field -> Entity, contract: Entity): Facts {
    Facts(Parties(fields, make) + [contract], PartyEdges(Parties(fields, make), contract.ref))
  }

  function RequestFacts(payload: Payload, read: FieldReader, make: Field -> Entity, contractOf: ContractMaker): Facts {
    var fields := PartyFields(payload.fields, read);
    var contract := contractOf(PartyNames(fields));
    if fields == [] && payload.contractTypeHint == "" then NO_FACTS
    else Plus(ContractFacts(fields, make, contract), Facts([], [EmailEdge(contract.ref, REFERENCES)]))
  }

  function LawFacts(contract: Ref, law: Option<Entity>): Facts {
    match law case None => NO_FACTS case Some(j) => Facts([j], [GovernedEdge(contract, j.ref)])
  }

  function DraftFacts(values: seq<Field>, read: FieldReader, make: Field -> Entity, contractOf: ContractMaker,
                      law: Option<Entity>): Facts
  {
    var fields := PartyFields(values, read);
    var contract := contractOf(PartyNames(fields));
    Plus(ContractFacts(fields, make, contract), LawFacts(contract.ref, law))
  }

  function ReportRequestFacts(report: Content, k: Keying): Facts {
    match Requested(report)
    case None => NO_FACTS
    case Some(payload) =>
      RequestFacts(payload, PartyReader(k), PartyMaker(true, k), RequestedContract(payload.contractTypeHint, k))
  }

  function DraftedFacts(draft: Content, k: Keying): Facts {
    if draft.Record?
    then DraftFacts(draft.fieldValues, PartyReader(k), PartyMaker(false, k), DraftContract(draft, k), GoverningLaw(draft.fieldValues, k))
    else NO_FACTS
  }

  function ArtifactFacts(artifacts: seq<Artifact>, k: Keying): Facts {
    var report, draft := Lookup(artifacts, REPORT), Lookup(artifacts, DRAFT);
    Plus(Plus(Plus(MentionFacts(AllMentions(artifacts, k)), IntentionFacts(Intention(report, k))),
              ReportRequestFacts(report, k)),
         DraftedFacts(draft, k))
  }
}
