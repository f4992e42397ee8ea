/** Building the projection of a run's artifacts, one offer after another. */
module ArtifactProjection {
  import opened Prelude
  import opened Strings
  import opened Ontology
  import opened Projection
  import opened RunArtifacts
  import opened ArtifactLinks

  // ---------------------------------------------------------------- building from artifacts

  method AddMention(b: ProjectionBuilder, e: Entity)
    requires b.Valid()
    modifies b
    ensures b.Valid() && b.Given() == Plus(old(b.Given()), OneMention(e))
  {
    var ent := b.Add(e);
    b.Link(EmailEdge(ent.ref, MENTIONS));
  }

  lemma {:induction false} MentionStep(start: Facts, raws: seq<RawEntity>, i: nat, read: Reader)
    requires i < |raws|
    ensures var done, done' := Mentioned(raws[..i], read), Mentioned(raws[..i + 1], read);
            match read(raws[i])
            case None => done' == done
            case Some(e) => Plus(Plus(start, MentionFacts(done)), OneMention(e)) == Plus(start, MentionFacts(done'))
  {
    MentionedNext(raws, i, read);
    var done := Mentioned(raws[..i], read);
    match read(raws[i])
    case None =>
    case Some(e) =>
      MentionFactsAppend(done, [e]);
      assert MentionFacts([e]) == OneMention(e);
      PlusAssociative(start, MentionFacts(done), OneMention(e));
  }

  /** Offers every entity a list of entries mentions and links the email to it. */
  method AddMentions(b: ProjectionBuilder, raws: seq<RawEntity>, read: Reader)
    requires b.Valid()
    modifies b
    ensures b.Valid() && b.Given() == Plus(old(b.Given()), MentionFacts(Mentioned(raws, read)))
  {
    ghost var start := b.Given();
    var i := 0;
    PlusNothing(start);
    while i < |raws|
      invariant 0 <= i <= |raws| && b.Valid()
      invariant b.Given() == Plus(start, MentionFacts(Mentioned(raws[..i], read)))
    {
      MentionStep(start, raws, i, read);
      var parsed := read(raws[i]);
      if parsed.Some? {
        AddMention(b, parsed.value);
      }
      i := i + 1;
    }
    assert raws[..i] == raws;
  }

  predicate SameRefs(a: seq<Entity>, b: seq<Entity>) {
    |a| == |b| && forall i :: 0 <= i < |a| ==> a[i].ref == b[i].ref
  }

  lemma {:induction false} PartiesNext(done: seq<Field>, field: Field, make: Field -> Entity)
    ensures Parties(done + [field], make) == Parties(done, make) + [make(field)]
    ensures PartyNames(done + [field]) == PartyNames(done) + [field.value]
  {
  }

  /** Where a pass over party fields stands after the parties `done`. */
  ghost predicate PartiesAre(offered: seq<Entity>, names: seq<string>, parties: seq<Entity>,
                             start: seq<Entity>, done: seq<Field>, make: Field -> Entity)
  {
    && offered == start + Parties(done, make)
    && names == PartyNames(done)
    && SameRefs(parties, Parties(done, make))
  }

  method AddParty(b: ProjectionBuilder, field: Field, make: Field -> Entity, names: seq<string>, parties: seq<Entity>,
                  ghost start: seq<Entity>, ghost done: seq<Field>)
    returns (names': seq<string>, parties': seq<Entity>)
    requires b.Valid() && PartiesAre(b.offered, names, parties, start, done, make)
    modifies b
    ensures b.Valid() && b.edges == old(b.edges)
    ensures PartiesAre(b.offered, names', parties', start, done + [field], make)
  {
    PartiesNext(done, field, make);
    Regroup(start, Parties(done, make), make(field));
    var party := b.Add(make(field));
    names', parties' := names + [field.value], parties + [party];
  }

  /** Offers the party of one field, if the field names one. */
  method AddField(b: ProjectionBuilder, field: Option<Field>, make: Field -> Entity, names: seq<string>, parties: seq<Entity>,
                  ghost start: seq<Entity>, ghost done: seq<Field>)
    returns (names': seq<string>, parties': seq<Entity>)
    requires b.Valid() && PartiesAre(b.offered, names, parties, start, done, make)
    modifies b
    ensures b.Valid() && b.edges == old(b.edges)
    ensures PartiesAre(b.offered, names', parties', start, done + ListOf(field), make)
  {
    if field.Some? {
      names', parties' := AddParty(b, field.value, make, names, parties, start, done);
    } else {
      assert done + ListOf(field) == done;
      names', parties' := names, parties;
    }
  }

  /** Offers the parties of a contract and returns the entities that stand for them. */
  method AddParties(b: ProjectionBuilder, fields: seq<Field>, read: FieldReader, make: Field -> Entity)
    returns (names: seq<string>, parties: seq<Entity>)
    requires b.Valid()
    modifies b
    ensures b.Valid() && b.edges == old(b.edges)
    ensures PartiesAre(b.offered, names, parties, old(b.offered), PartyFields(fields, read), make)
  {
    ghost var start, edges := b.offered, b.edges;
    names, parties := [], [];
    var i := 0;
    while i < |fields|
      invariant 0 <= i <= |fields| && b.Valid() && b.edges == edges
      invariant PartiesAre(b.offered, names, parties, start, PartyFields(fields[..i], read), make)
    {
      PartyFieldsNext(fields, i, read);
      var field := read(fields[i]);
      names, parties := AddField(b, field, make, names, parties, start, PartyFields(fields[..i], read));
      i := i + 1;
    }
    assert fields[..i] == fields;
  }

  method LinkParties(b: ProjectionBuilder, parties: seq<Entity>, contract: Ref)
    requires b.Valid()
    modifies b`edges
    ensures b.Valid() && b.edges == old(b.edges) + PartyEdges(parties, contract)
  {
    ghost var edges := b.edges;
    var i := 0;
    while i < |parties|
      invariant 0 <= i <= |parties| && b.Valid()
      invariant b.edges == edges + PartyEdges(parties[..i], contract)
    {
      b.Link(PartyEdge(parties[i].ref, contract));
      assert PartyEdges(parties[..i + 1], contract)
          == PartyEdges(parties[..i], contract) + [PartyEdge(parties[i].ref, contract)];
      i := i + 1;
    }
    assert parties[..i] == parties;
  }

  /** Offers a contract and links its parties, offered before, to it. */
  method AddContract(b: ProjectionBuilder, contract: Entity, parties: seq<Entity>,
                     ghost fields: seq<Field>, ghost make: Field -> Entity, ghost start: Facts)
    requires b.Valid() && SameRefs(parties, Parties(fields, make))
    requires b.Given() == Facts(start.entities + Parties(fields, make), start.edges)
    modifies b
    ensures b.Valid() && b.Given() == Plus(start, ContractFacts(fields, make, contract))
  {
    Regroup(start.entities, Parties(fields, make), contract);
    var kept := b.Add(contract);
    LinkParties(b, parties, kept.ref);
    assert PartyEdges(parties, contract.ref) == PartyEdges(Parties(fields, make), contract.ref);
  }

  method AddIntention(b: ProjectionBuilder, intention: Option<Entity>)
    requires b.Valid()
    modifies b
    ensures b.Valid() && b.Given() == Plus(old(b.Given()), IntentionFacts(intention))
  {
    if intention.Some? {
      var kept := b.Add(intention.value);
      b.Link(EmailEdge(kept.ref, CONCERNS));
    }
  }

  method AddRequest(b: ProjectionBuilder, payload: Payload, read: FieldReader, make: Field -> Entity, contractOf: ContractMaker)
    requires b.Valid()
    modifies b
    ensures b.Valid() && b.Given() == Plus(old(b.Given()), RequestFacts(payload, read, make, contractOf))
  {
    ghost var start, fields := b.Given(), PartyFields(payload.fields, read);
    var names, parties := AddParties(b, payload.fields, read, make);
    if names != [] || payload.contractTypeHint != "" {
      var contract := contractOf(names);
      AddContract(b, contract, parties, fields, make, start);
      b.Link(EmailEdge(contract.ref, REFERENCES));
      PlusAssociative(start, ContractFacts(fields, make, contract), Facts([], [EmailEdge(contract.ref, REFERENCES)]));
    }
  }

  method AddLaw(b: ProjectionBuilder, contract: Ref, law: Option<Entity>)
    requires b.Valid()
    modifies b
    ensures b.Valid() && b.Given() == Plus(old(b.Given()), LawFacts(contract, law))
  {
    if law.Some? {
      var jurisdiction := b.Add(law.value);
      b.Link(GovernedEdge(contract, jurisdiction.ref));
    }
  }

  method AddDraft(b: ProjectionBuilder, values: seq<Field>, read: FieldReader, make: Field -> Entity,
                  contractOf: ContractMaker, law: Option<Entity>)
    requires b.Valid()
    modifies b
    ensures b.Valid() && b.Given() == Plus(old(b.Given()), DraftFacts(values, read, make, contractOf, law))
  {
    ghost var start, fields := b.Given(), PartyFields(values, read);
    var names, parties := AddParties(b, values, read, make);
    var contract := contractOf(names);
    AddContract(b, contract, parties, fields, make, start);
    AddLaw(b, contract.ref, law);
    PlusAssociative(start, ContractFacts(fields, make, contract), LawFacts(contract.ref, law));
  }

  lemma {:induction false} AllMentionsStep(artifacts: seq<Artifact>, i: nat, k: Keying)
    requires i < |artifacts|
    ensures Plus(MentionFacts(AllMentions(artifacts[..i], k)), MentionFacts(ExtractMentions(artifacts[i], k)))
         == MentionFacts(AllMentions(artifacts[..i + 1], k))
  {
    assert artifacts[..i + 1][..i] == artifacts[..i];
    MentionFactsAppend(AllMentions(artifacts[..i], k), ExtractMentions(artifacts[i], k));
  }

  method AddExtract(b: ProjectionBuilder, a: Artifact, k: Keying)
    requires b.Valid()
    modifies b
    ensures b.Valid() && b.Given() == Plus(old(b.Given()), MentionFacts(ExtractMentions(a, k)))
  {
    PlusNothing(b.Given());
    if IsExtract(a) {
      AddMentions(b, a.content.entities, ExtractReader(a, k));
    }
  }

  method AddExtracts(b: ProjectionBuilder, artifacts: seq<Artifact>, k: Keying)
    requires b.Valid() && b.Given() == NO_FACTS
    modifies b
    ensures b.Valid() && b.Given() == MentionFacts(AllMentions(artifacts, k))
  {
    var i := 0;
    while i < |artifacts|
      invariant 0 <= i <= |artifacts| && b.Valid()
      invariant b.Given() == MentionFacts(AllMentions(artifacts[..i], k))
    {
      AllMentionsStep(artifacts, i, k);
      AddExtract(b, artifacts[i], k);
      i := i + 1;
    }
    assert artifacts[..i] == artifacts;
  }

  method AddReport(b: ProjectionBuilder, report: Content, k: Keying)
    requires b.Valid()
    modifies b
    ensures b.Valid()
    ensures b.Given() == Plus(Plus(old(b.Given()), IntentionFacts(Intention(report, k))), ReportRequestFacts(report, k))
  {
    AddIntention(b, Intention(report, k));
    PlusNothing(b.Given());
    var requested := Requested(report);
    if requested.Some? {
      AddRequest(b, requested.value, PartyReader(k), PartyMaker(true, k), RequestedContract(requested.value.contractTypeHint, k));
    }
  }

  /** The projection of the known artifact shapes: every fact offered, the first of each key kept. */
  method BuildProjectionFromArtifacts(artifacts: seq<Artifact>, k: Keying) returns (p: GraphProjection)
    ensures p.entities == KeepFirst(ArtifactFacts(artifacts, k).entities)
    ensures p.edges == ArtifactFacts(artifacts, k).edges
    ensures StandsFor(p, artifacts, k)
  {
    hide StandsFor;
    FactsStandFor(artifacts, k);
    var b := new ProjectionBuilder();
    var draft := Lookup(artifacts, DRAFT);
    AddExtracts(b, artifacts, k);
    AddReport(b, Lookup(artifacts, REPORT), k);
    PlusNothing(b.Given());
    if draft.Record? {
      AddDraft(b, draft.fieldValues, PartyReader(k), PartyMaker(false, k), DraftContract(draft, k), GoverningLaw(draft.fieldValues, k));
    }
    p := GraphProjection(b.entities, b.edges);
  }
}
