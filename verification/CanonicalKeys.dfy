/** The keys the ontology gives to entities, and what they tell apart. */
module CanonicalKeys {
  import opened Prelude
  import opened Strings
  import opened Ontology
  import opened Projection

  function TextAt(attributes: Attributes, name: string): string {
    if name in attributes && attributes[name].Text? then attributes[name].s else ""
  }

  function EntityKey(typ: EntityType, name: string, attributes: Attributes): string {
    match typ
    case Organization => OrganizationKey(name, TextAt(attributes, "domain"))
    case Person =>
      if TextAt(attributes, "email") != "" then PersonKey(TextAt(attributes, "email")) else NameKey(name)
    case Contract =>
      ContractKey(Or(TextAt(attributes, "contract_type"), "unknown"),
                  if "parties" in attributes && attributes["parties"].Texts? then attributes["parties"].items else [])
    case _ => NameKey(name)
  }

  predicate ContainsAt(s: string, word: string, i: nat) {
    i + |word| <= |s| && s[i..i + |word|] == word
  }

  predicate IsPartyField(name: string) {
    exists i :: 0 <= i <= |name| && ContainsAt(Lower(name), "party", i)
  }

  /** The keys the ontology gives, for one session. */
  function Canonical(infer: string -> EntityType, session: string): Keying {
    Keying((name: string) => IsPartyField(name), infer,
           (typ: EntityType, name: string, attributes: Attributes) => EntityKey(typ, name, attributes),
           (contractType: string, parties: seq<string>) => ContractKey(contractType, parties),
           (area: string) => LawAreaKey(area),
           (law: string) => JURISDICTION_PREFIX + NormalizeName(law),
           (artifact: string) => ArtifactKey(session, artifact),
           (file: string) => AttachmentFilenameKey(file))
  }

  const JURISDICTION_PREFIX := "jurisdiction:"

  // ---------------------------------------------------------------- what the keys tell apart

  predicate Holds(attributes: Attributes, name: string, text: string) {
    text != "" && name in attributes && attributes[name] == Text(text)
  }

  predicate SameWords(x: string, y: string) {
    LowerAll(Tokens(x)) == LowerAll(Tokens(y))
  }

  /** Both are known by an attribute, equal up to case and white space around it, or both only by name, of the same words. */
  ghost predicate KnownAlike(attribute: string, x: string, a: Attributes, y: string, b: Attributes) {
    || (exists s, t :: Holds(a, attribute, s) && Holds(b, attribute, t) && Lower(Strip(s)) == Lower(Strip(t)))
    || ((forall s :: !Holds(a, attribute, s)) && (forall t :: !Holds(b, attribute, t)) && SameWords(x, y))
  }

  lemma {:induction false} SamePrefix(prefix: string, x: string, y: string)
    ensures prefix + x == prefix + y <==> x == y
  {
    assert (prefix + x)[|prefix|..] == x && (prefix + y)[|prefix|..] == y;
  }

  lemma {:induction false} NameKeysIff(x: string, y: string)
    ensures NameKey(x) == NameKey(y) <==> SameWords(x, y)
  {
    NormalizeIff(x, y);
    SamePrefix("name:", NormalizeName(x), NormalizeName(y));
    hide NormalizeName, Tokens;
  }

  lemma {:induction false} TextAtIs(attributes: Attributes, name: string, text: string)
    ensures Holds(attributes, name, text) <==> text != "" && TextAt(attributes, name) == text
  {
  }

  lemma {:induction false} KnownAlikeIs(attribute: string, x: string, a: Attributes, y: string, b: Attributes)
    ensures var s, t := TextAt(a, attribute), TextAt(b, attribute);
            (KnownAlike(attribute, x, a, y, b)
             <==> (s != "" && t != "" && Lower(Strip(s)) == Lower(Strip(t))) || (s == "" && t == "" && SameWords(x, y)))
  {
    var s, t := TextAt(a, attribute), TextAt(b, attribute);
    forall u ensures Holds(a, attribute, u) <==> u != "" && TextAt(a, attribute) == u {
      TextAtIs(a, attribute, u);
    }
    forall u ensures Holds(b, attribute, u) <==> u != "" && TextAt(b, attribute) == u {
      TextAtIs(b, attribute, u);
    }
    assert s != "" ==> Holds(a, attribute, s);
    assert t != "" ==> Holds(b, attribute, t);
    hide TextAt, Holds, SameWords, Strip, Lower;
  }

  lemma {:induction false} KeyKinds(name: string, text: string)
    ensures NameKey(name)[0] == 'n' && PersonKey(text)[0] == 'e' && ("domain:" + Lower(Strip(text)))[0] == 'd'
  {
    hide NormalizeName, Strip, Lower;
  }

  /** Persons get one key exactly when they have one email address, or neither has any and their names have the same words. */
  lemma {:induction false} PersonKeysIff(x: string, a: Attributes, y: string, b: Attributes)
    ensures EntityKey(Person, x, a) == EntityKey(Person, y, b) <==> KnownAlike("email", x, a, y, b)
  {
    var s, t := TextAt(a, "email"), TextAt(b, "email");
    NameKeysIff(x, y);
    KnownAlikeIs("email", x, a, y, b);
    SamePrefix("email:", Lower(Strip(s)), Lower(Strip(t)));
    KeyKinds(x, s);
    KeyKinds(y, t);
    hide NameKey, TextAt, SameWords, Strip, Lower, KnownAlike;
  }

  /** Organisations likewise by their domain. */
  lemma {:induction false} OrganizationKeysIff(x: string, a: Attributes, y: string, b: Attributes)
    ensures EntityKey(Organization, x, a) == EntityKey(Organization, y, b) <==> KnownAlike("domain", x, a, y, b)
  {
    var s, t := TextAt(a, "domain"), TextAt(b, "domain");
    NameKeysIff(x, y);
    KnownAlikeIs("domain", x, a, y, b);
    SamePrefix("domain:", Lower(Strip(s)), Lower(Strip(t)));
    KeyKinds(x, s);
    KeyKinds(y, t);
    hide NameKey, TextAt, SameWords, Strip, Lower, KnownAlike;
  }

  /** Everything else but contracts is known by its name; a contract by its type and parties. */
  lemma {:induction false} OtherKeysIff(typ: EntityType, x: string, a: Attributes, y: string, b: Attributes)
    requires typ !in {Person, Organization, Contract}
    ensures EntityKey(typ, x, a) == EntityKey(typ, y, b) <==> SameWords(x, y)
  {
    NameKeysIff(x, y);
    hide NameKey, SameWords;
  }

  /** Documents of a session keep their artifacts apart; law areas, jurisdictions and files go by the words of their names. */
  lemma {:induction false} KeysTell(infer: string -> EntityType, session: string, x: string, y: string)
    ensures var k := Canonical(infer, session);
            && (k.document(x) == k.document(y) <==> x == y)
            && (k.attachment(x) == k.attachment(y) <==> SameWords(x, y))
            && (k.lawArea(x) == k.lawArea(y) <==> SameWords(x, y))
            && (k.jurisdiction(x) == k.jurisdiction(y) <==> SameWords(x, y))
  {
    NormalizeIff(x, y);
    var n, m := NormalizeName(x), NormalizeName(y);
    SamePrefix("artifact:" + session + ":", x, y);
    SamePrefix("law_area:", n, m);
    SamePrefix(ATTACHMENT_PREFIX, n, m);
    SamePrefix(JURISDICTION_PREFIX, n, m);
    hide NormalizeName, Tokens;
  }

  predicate SpelledAt(name: string, word: string, i: nat) {
    i + |word| <= |name| && Lower(name[i..i + |word|]) == word
  }

  /** A field names a party exactly when its name has the word in it, in any case. */
  lemma {:induction false} PartyFieldIff(name: string)
    ensures IsPartyField(name) <==> exists i: nat :: SpelledAt(name, "party", i)
  {
    forall i: nat ensures SpelledAt(name, "party", i) <==> ContainsAt(Lower(name), "party", i) {
      assert i + 5 <= |name| ==> Lower(name)[i..i + 5] == Lower(name[i..i + 5]);
    }
    if i: nat :| SpelledAt(name, "party", i) {
      assert ContainsAt(Lower(name), "party", i);
    }
  }
}
