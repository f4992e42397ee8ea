/** Indexing one ingested email: the writes its rows stand for, and the method that performs them. */
module IngestionIndex {
  import opened Prelude
  import opened Strings
  import opened Ontology
  import opened Projection
  import opened GraphView
  import opened KnowledgeGraph

  // ---------------------------------------------------------------- the writes of one email

  datatype Correspondent = Correspondent(ref: Ref, card: Card, alias: string, snippet: string)

  datatype Attached = Attached(ref: Ref, card: Card, source: Source, snippet: string)

  datatype Parent = Parent(ref: Ref, card: Card)

  type PersonReader = string -> Option<Correspondent>

  /** Everything the rows of one email say. */
  datatype Snapshot = Snapshot(
    owner: Owner, email: Ref, card: Card, snippet: string, source: Source,
    from: seq<string>, to: seq<string>, cc: seq<string>, attached: seq<Attached>, parent: Option<Parent>)

  const PLAIN := LinkData(map[], 100)

  const CC := LinkData(map["addr_kind" := Text("cc")], 100)

  function EmailOps(s: Snapshot): seq<Op> {
    [Put(s.email, s.card, ""), Mention(Note(s.email, s.source, Some(s.snippet), 100))]
  }

  function PersonOps(p: Correspondent, email: Ref, relation: Relation, data: LinkData, source: Source): seq<Op> {
    [Put(p.ref, p.card, p.alias), Mention(Note(p.ref, source, Some(p.snippet), 100)),
     Join(LinkKey(email, p.ref, relation, source), data)]
  }

  function PeopleOps(addrs: seq<string>, read: PersonReader, email: Ref, relation: Relation, data: LinkData, source: Source): seq<Op>
    decreases |addrs|
  {
    if addrs == [] then []
    else
      var n := |addrs| - 1;
      PeopleOps(addrs[..n], read, email, relation, data, source)
      + AnyPersonOps(read(addrs[n]), email, relation, data, source)
  }

  function AnyPersonOps(p: Option<Correspondent>, email: Ref, relation: Relation, data: LinkData, source: Source): seq<Op> {
    match p case None => [] case Some(p) => PersonOps(p, email, relation, data, source)
  }

  function AttachedOps(a: Attached, email: Ref, source: Source): seq<Op> {
    [Put(a.ref, a.card, ""), Mention(Note(a.ref, a.source, Some(a.snippet), 100)),
     Join(LinkKey(a.ref, email, ATTACHED_TO, source), PLAIN)]
  }

  function AllAttachedOps(attached: seq<Attached>, email: Ref, source: Source): seq<Op>
    decreases |attached|
  {
    if attached == [] then []
    else AllAttachedOps(attached[..|attached| - 1], email, source) + AttachedOps(attached[|attached| - 1], email, source)
  }

  /** An email that turns out to be its own parent gets no link. */
  function ReplyOps(p: Parent, email: Ref, source: Source): seq<Op> {
    if p.ref == email then [Put(p.ref, p.card, "")]
    else [Put(p.ref, p.card, ""), Join(LinkKey(email, p.ref, REPLIES_TO, source), PLAIN)]
  }

  function ParentOps(parent: Option<Parent>, email: Ref, source: Source): seq<Op> {
    match parent
    case None => []
    case Some(p) => ReplyOps(p, email, source)
  }

  function IndexOps(s: Snapshot, read: PersonReader): seq<Op> {
    EmailOps(s)
    + PeopleOps(s.from, read, s.email, SENT_BY, PLAIN, s.source)
    + PeopleOps(s.to, read, s.email, SENT_TO, PLAIN, s.source)
    + PeopleOps(s.cc, read, s.email, SENT_TO, CC, s.source)
    + AllAttachedOps(s.attached, s.email, s.source)
    + ParentOps(s.parent, s.email, s.source)
  }

  lemma {:induction false} PeopleNoCreates(addrs: seq<string>, read: PersonReader, email: Ref, relation: Relation, data: LinkData, source: Source)
    ensures NoCreates(PeopleOps(addrs, read, email, relation, data, source))
    decreases |addrs|
  {
    if addrs != [] {
      PeopleNoCreates(addrs[..|addrs| - 1], read, email, relation, data, source);
    }
  }

  lemma {:induction false} AttachedNoCreates(attached: seq<Attached>, email: Ref, source: Source)
    ensures NoCreates(AllAttachedOps(attached, email, source))
    decreases |attached|
  {
    if attached != [] {
      AttachedNoCreates(attached[..|attached| - 1], email, source);
    }
  }

  lemma {:induction false} IndexNoCreates(s: Snapshot, read: PersonReader)
    ensures NoCreates(IndexOps(s, read))
  {
    PeopleNoCreates(s.from, read, s.email, SENT_BY, PLAIN, s.source);
    PeopleNoCreates(s.to, read, s.email, SENT_TO, PLAIN, s.source);
    PeopleNoCreates(s.cc, read, s.email, SENT_TO, CC, s.source);
    AttachedNoCreates(s.attached, s.email, s.source);
  }

  /** What is written for a list of addresses is what is written for each. */
  lemma {:induction false} PeopleSay(addrs: seq<string>, read: PersonReader, email: Ref, relation: Relation, data: LinkData, source: Source, op: Op)
    ensures op in PeopleOps(addrs, read, email, relation, data, source)
       <==> exists i :: 0 <= i < |addrs| && op in AnyPersonOps(read(addrs[i]), email, relation, data, source)
    decreases |addrs|
  {
    hide AnyPersonOps;
    if addrs != [] {
      var n := |addrs| - 1;
      PeopleSay(addrs[..n], read, email, relation, data, source, op);
      assert forall i :: 0 <= i < n ==> addrs[..n][i] == addrs[i];
    }
  }

  lemma {:induction false} AttachmentsSay(attached: seq<Attached>, email: Ref, source: Source, op: Op)
    ensures op in AllAttachedOps(attached, email, source)
       <==> exists i :: 0 <= i < |attached| && op in AttachedOps(attached[i], email, source)
    decreases |attached|
  {
    hide AttachedOps;
    if attached != [] {
      var n := |attached| - 1;
      AttachmentsSay(attached[..n], email, source, op);
      assert forall i :: 0 <= i < n ==> attached[..n][i] == attached[i];
    }
  }

  // ---------------------------------------------------------------- what they say about senders and recipients

  /** Some address of the list belongs to the person. */
  predicate Names(addrs: seq<string>, read: PersonReader, r: Ref) {
    exists i :: 0 <= i < |addrs| && read(addrs[i]).Some? && read(addrs[i]).value.ref == r
  }

  lemma {:induction false} NamesNext(addrs: seq<string>, read: PersonReader, r: Ref)
    requires addrs != []
    ensures var n := |addrs| - 1;
            Names(addrs, read, r) <==>
              Names(addrs[..n], read, r) || (read(addrs[n]).Some? && read(addrs[n]).value.ref == r)
  {
    var n := |addrs| - 1;
    if Names(addrs[..n], read, r) {
      var i :| 0 <= i < n && read(addrs[..n][i]).Some? && read(addrs[..n][i]).value.ref == r;
      assert addrs[i] == addrs[..n][i];
    }
    if Names(addrs, read, r) {
      var i :| 0 <= i < |addrs| && read(addrs[i]).Some? && read(addrs[i]).value.ref == r;
      if i < n {
        assert addrs[..n][i] == addrs[i];
      }
    }
  }

  lemma {:induction false} PersonData(p: Correspondent, email: Ref, relation: Relation, data: LinkData, source: Source, l: LinkKey)
    ensures FirstData(PersonOps(p, email, relation, data, source), l)
         == if l == LinkKey(email, p.ref, relation, source) then Some(data) else None
  {
    var ops := PersonOps(p, email, relation, data, source);
    assert ops[..2][..1][..0] == [];
    assert FirstData(ops[..2][..1], l) == None;
    assert FirstData(ops[..2], l) == None;
  }

  lemma {:induction false} PeopleData(addrs: seq<string>, read: PersonReader, email: Ref, relation: Relation, data: LinkData, source: Source,
                                      l: LinkKey)
    ensures FirstData(PeopleOps(addrs, read, email, relation, data, source), l)
         == if l.src == email && l.relation == relation && l.source == source && Names(addrs, read, l.dst) then Some(data) else None
    decreases |addrs|
  {
    if addrs != [] {
      var n := |addrs| - 1;
      PeopleData(addrs[..n], read, email, relation, data, source, l);
      NamesNext(addrs, read, l.dst);
      FirstDataAppend(PeopleOps(addrs[..n], read, email, relation, data, source),
                      AnyPersonOps(read(addrs[n]), email, relation, data, source), l);
      if read(addrs[n]).Some? {
        PersonData(read(addrs[n]).value, email, relation, data, source, l);
      }
    }
  }

  /** The reference is one of the attachments. */
  predicate Attaches(attached: seq<Attached>, r: Ref) {
    exists i :: 0 <= i < |attached| && attached[i].ref == r
  }

  lemma {:induction false} AttachesNext(attached: seq<Attached>, r: Ref)
    requires attached != []
    ensures var n := |attached| - 1;
            Attaches(attached, r) <==> Attaches(attached[..n], r) || attached[n].ref == r
  {
    var n := |attached| - 1;
    if Attaches(attached[..n], r) {
      var i :| 0 <= i < n && attached[..n][i].ref == r;
      assert attached[i].ref == r;
    }
    if Attaches(attached, r) && attached[n].ref != r {
      var i :| 0 <= i < |attached| && attached[i].ref == r;
      assert attached[..n][i].ref == r;
    }
  }

  lemma {:induction false} OneAttachedData(a: Attached, email: Ref, source: Source, l: LinkKey)
    ensures FirstData(AttachedOps(a, email, source), l)
         == if l == LinkKey(a.ref, email, ATTACHED_TO, source) then Some(PLAIN) else None
  {
    var ops := AttachedOps(a, email, source);
    assert ops[..2][..1][..0] == [];
    assert FirstData(ops[..2][..1], l) == None;
    assert FirstData(ops[..2], l) == None;
  }

  lemma {:induction false} AttachedData(attached: seq<Attached>, email: Ref, source: Source, l: LinkKey)
    ensures FirstData(AllAttachedOps(attached, email, source), l)
         == if l.dst == email && l.relation == ATTACHED_TO && l.source == source && Attaches(attached, l.src) then Some(PLAIN) else None
    decreases |attached|
  {
    if attached != [] {
      var n := |attached| - 1;
      AttachedData(attached[..n], email, source, l);
      AttachesNext(attached, l.src);
      FirstDataAppend(AllAttachedOps(attached[..n], email, source), AttachedOps(attached[n], email, source), l);
      OneAttachedData(attached[n], email, source, l);
    }
  }

  lemma {:induction false} ParentData(parent: Option<Parent>, email: Ref, source: Source, l: LinkKey)
    ensures FirstData(ParentOps(parent, email, source), l)
         == if parent.Some? && parent.value.ref != email && l == LinkKey(email, parent.value.ref, REPLIES_TO, source)
            then Some(PLAIN) else None
  {
    match parent
    case None =>
    case Some(p) =>
      var ops := ReplyOps(p, email, source);
      assert ops[..1][..0] == [];
      assert FirstData(ops[..1], l) == None;
  }

  lemma {:induction false} EmailData(s: Snapshot, l: LinkKey)
    ensures FirstData(EmailOps(s), l) == None
  {
    assert EmailOps(s)[..1][..0] == [];
    assert FirstData(EmailOps(s)[..1], l) == None;
  }

  /** The data of a link after all writes of an email: its part of the email decides. */
  lemma {:induction false} IndexData(s: Snapshot, read: PersonReader, l: LinkKey)
    ensures FirstData(IndexOps(s, read), l)
         == Else(FirstData(PeopleOps(s.from, read, s.email, SENT_BY, PLAIN, s.source), l),
                 Else(FirstData(PeopleOps(s.to, read, s.email, SENT_TO, PLAIN, s.source), l),
                      Else(FirstData(PeopleOps(s.cc, read, s.email, SENT_TO, CC, s.source), l),
                           Else(FirstData(AllAttachedOps(s.attached, s.email, s.source), l),
                                FirstData(ParentOps(s.parent, s.email, s.source), l)))))
  {
    hide FirstData, PeopleOps, AllAttachedOps, ParentOps, EmailOps;
    var e := EmailOps(s);
    var f := PeopleOps(s.from, read, s.email, SENT_BY, PLAIN, s.source);
    var t := PeopleOps(s.to, read, s.email, SENT_TO, PLAIN, s.source);
    var c := PeopleOps(s.cc, read, s.email, SENT_TO, CC, s.source);
    var a, p := AllAttachedOps(s.attached, s.email, s.source), ParentOps(s.parent, s.email, s.source);
    EmailData(s, l);
    FirstDataAppend(e + f + t + c + a, p, l);
    FirstDataAppend(e + f + t + c, a, l);
    FirstDataAppend(e + f + t, c, l);
    FirstDataAppend(e + f, t, l);
    FirstDataAppend(e, f, l);
  }

  /** The links of a newly indexed email, whatever they are. */
  lemma {:induction false} IndexLink(v: View, s: Snapshot, read: PersonReader, l: LinkKey)
    requires l !in v.links
    ensures At(PerformAll(v, IndexOps(s, read)).links, l)
         == if l.source != s.source then None
            else if l.src == s.email && l.relation == SENT_BY && Names(s.from, read, l.dst) then Some(PLAIN)
            else if l.src == s.email && l.relation == SENT_TO && Names(s.to, read, l.dst) then Some(PLAIN)
            else if l.src == s.email && l.relation == SENT_TO && Names(s.cc, read, l.dst) then Some(CC)
            else if l.dst == s.email && l.relation == ATTACHED_TO && Attaches(s.attached, l.src) then Some(PLAIN)
            else if l.src == s.email && l.relation == REPLIES_TO && s.parent.Some? && l.dst == s.parent.value.ref != s.email then Some(PLAIN)
            else None
  {
    hide FirstData, PeopleOps, AllAttachedOps, ParentOps, EmailOps, IndexOps, PerformAll;
    LinkAfter(v, IndexOps(s, read), PerformAll(v, IndexOps(s, read)), l);
    IndexData(s, read, l);
    PeopleData(s.from, read, s.email, SENT_BY, PLAIN, s.source, l);
    PeopleData(s.to, read, s.email, SENT_TO, PLAIN, s.source, l);
    PeopleData(s.cc, read, s.email, SENT_TO, CC, s.source, l);
    AttachedData(s.attached, s.email, s.source, l);
    ParentData(s.parent, s.email, s.source, l);
  }

  /**
   An email indexed for the first time is linked to exactly the people on its lines: to its sender, to those
   it was sent to, and to those in copy, who are marked as such unless it was sent to them as well.
   */
  lemma {:induction false} SendersAndRecipients(v: View, s: Snapshot, read: PersonReader, r: Ref)
    requires LinkKey(s.email, r, SENT_BY, s.source) !in v.links && LinkKey(s.email, r, SENT_TO, s.source) !in v.links
    ensures var links := PerformAll(v, IndexOps(s, read)).links;
            && At(links, LinkKey(s.email, r, SENT_BY, s.source)) == (if Names(s.from, read, r) then Some(PLAIN) else None)
            && At(links, LinkKey(s.email, r, SENT_TO, s.source))
               == if Names(s.to, read, r) then Some(PLAIN) else if Names(s.cc, read, r) then Some(CC) else None
  {
    hide PerformAll, IndexOps, Names;
    IndexLink(v, s, read, LinkKey(s.email, r, SENT_BY, s.source));
    IndexLink(v, s, read, LinkKey(s.email, r, SENT_TO, s.source));
  }

  // ---------------------------------------------------------------- performing them

  lemma {:induction false} DoneTwo(views: Views, owner: Owner, a: Op, b: Op)
    requires Total(views)
    ensures Done(Done(views, owner, [a]), owner, [b]) == Done(views, owner, [a, b])
  {
    DoneAppend(views, owner, [a], [b]);
    assert [a] + [b] == [a, b];
  }

  lemma {:induction false} DoneThree(views: Views, owner: Owner, a: Op, b: Op, c: Op)
    requires Total(views)
    ensures Done(Done(Done(views, owner, [a]), owner, [b]), owner, [c]) == Done(views, owner, [a, b, c])
  {
    DoneTwo(views, owner, a, b);
    DoneAppend(views, owner, [a, b], [c]);
    assert [a, b] + [c] == [a, b, c];
    hide Done;
  }

  method LinkCorrespondent(g: KnowledgeGraphService, owner: Owner, email: Id, p: Correspondent, relation: Relation, data: LinkData,
                           source: Source, ghost ref: Ref)
    requires g.Valid() && IsRowOf(g.entities, email, owner, ref)
    modifies g
    ensures g.Valid() && IsRowOf(g.entities, email, owner, ref)
    ensures g.views == Done(old(g.views), owner, PersonOps(p, ref, relation, data, source))
  {
    hide Refines;
    ghost var before := g.views;
    var person := g.UpsertEntity(owner, p.ref, p.card, p.alias);
    g.AddMention(owner, person, source, Some(p.snippet), 100);
    g.AddEdge(owner, email, person, relation, source, data);
    DoneThree(before, owner, Put(p.ref, p.card, p.alias), Mention(Note(p.ref, source, Some(p.snippet), 100)),
              Join(LinkKey(ref, p.ref, relation, source), data));
  }

  /** Reads an address; whom it names is written and linked to the email, and a blank one is skipped. */
  method UpsertPersonFromAddr(g: KnowledgeGraphService, owner: Owner, email: Id, raw: string, read: PersonReader,
                              relation: Relation, data: LinkData, source: Source, ghost ref: Ref)
    requires g.Valid() && IsRowOf(g.entities, email, owner, ref)
    modifies g
    ensures g.Valid() && IsRowOf(g.entities, email, owner, ref)
    ensures g.views == Done(old(g.views), owner, AnyPersonOps(read(raw), ref, relation, data, source))
  {
    hide Refines;
    DoneNothing(g.views, owner);
    var p := read(raw);
    if p.Some? {
      LinkCorrespondent(g, owner, email, p.value, relation, data, source, ref);
    }
  }

  lemma {:induction false} PeopleStep(views: Views, owner: Owner, addrs: seq<string>, i: nat, read: PersonReader, email: Ref, relation: Relation,
                   data: LinkData, source: Source)
    requires Total(views) && i < |addrs|
    ensures Done(Done(views, owner, PeopleOps(addrs[..i], read, email, relation, data, source)), owner,
                 AnyPersonOps(read(addrs[i]), email, relation, data, source))
         == Done(views, owner, PeopleOps(addrs[..i + 1], read, email, relation, data, source))
  {
    assert addrs[..i + 1][..i] == addrs[..i];
    DoneAppend(views, owner, PeopleOps(addrs[..i], read, email, relation, data, source),
               AnyPersonOps(read(addrs[i]), email, relation, data, source));
  }

  /** Writes the people behind a list of addresses and links the email to them; blank addresses are skipped. */
  method LinkPeople(g: KnowledgeGraphService, owner: Owner, email: Id, addrs: seq<string>, read: PersonReader,
                    relation: Relation, data: LinkData, source: Source, ghost ref: Ref)
    requires g.Valid() && IsRowOf(g.entities, email, owner, ref)
    modifies g
    ensures g.Valid() && IsRowOf(g.entities, email, owner, ref)
    ensures g.views == Done(old(g.views), owner, PeopleOps(addrs, read, ref, relation, data, source))
  {
    hide Refines;
    ghost var before := g.views;
    DoneNothing(before, owner);
    var i := 0;
    while i < |addrs|
      invariant 0 <= i <= |addrs| && g.Valid() && IsRowOf(g.entities, email, owner, ref)
      invariant g.views == Done(before, owner, PeopleOps(addrs[..i], read, ref, relation, data, source))
    {
      PeopleStep(before, owner, addrs, i, read, ref, relation, data, source);
      UpsertPersonFromAddr(g, owner, email, addrs[i], read, relation, data, source, ref);
      i := i + 1;
    }
    assert addrs[..i] == addrs;
  }

  method LinkAttachment(g: KnowledgeGraphService, owner: Owner, email: Id, a: Attached, source: Source, ghost ref: Ref)
    requires g.Valid() && IsRowOf(g.entities, email, owner, ref)
    modifies g
    ensures g.Valid() && IsRowOf(g.entities, email, owner, ref)
    ensures g.views == Done(old(g.views), owner, AttachedOps(a, ref, source))
  {
    hide Refines;
    ghost var before := g.views;
    var id := g.UpsertEntity(owner, a.ref, a.card, "");
    g.AddMention(owner, id, a.source, Some(a.snippet), 100);
    g.AddEdge(owner, id, email, ATTACHED_TO, source, PLAIN);
    DoneThree(before, owner, Put(a.ref, a.card, ""), Mention(Note(a.ref, a.source, Some(a.snippet), 100)),
              Join(LinkKey(a.ref, ref, ATTACHED_TO, source), PLAIN));
  }

  method LinkAttachments(g: KnowledgeGraphService, owner: Owner, email: Id, attached: seq<Attached>, source: Source, ghost ref: Ref)
    requires g.Valid() && IsRowOf(g.entities, email, owner, ref)
    modifies g
    ensures g.Valid() && IsRowOf(g.entities, email, owner, ref)
    ensures g.views == Done(old(g.views), owner, AllAttachedOps(attached, ref, source))
  {
    hide Refines;
    ghost var before := g.views;
    DoneNothing(before, owner);
    var i := 0;
    while i < |attached|
      invariant 0 <= i <= |attached| && g.Valid() && IsRowOf(g.entities, email, owner, ref)
      invariant g.views == Done(before, owner, AllAttachedOps(attached[..i], ref, source))
    {
      assert attached[..i + 1][..i] == attached[..i];
      DoneAppend(before, owner, AllAttachedOps(attached[..i], ref, source), AttachedOps(attached[i], ref, source));
      LinkAttachment(g, owner, email, attached[i], source, ref);
      i := i + 1;
    }
    assert attached[..i] == attached;
  }

  method LinkOther(g: KnowledgeGraphService, owner: Owner, email: Id, other: Id, source: Source, ghost ref: Ref, ghost otherRef: Ref)
    requires g.Valid() && IsRowOf(g.entities, email, owner, ref) && IsRowOf(g.entities, other, owner, otherRef)
    modifies g`edges, g`byKey, g`views
    ensures g.Valid()
    ensures g.views == if otherRef == ref then old(g.views)
                       else Done(old(g.views), owner, [Join(LinkKey(ref, otherRef, REPLIES_TO, source), PLAIN)])
  {
    hide Refines;
    IdsAreRefs(g.entities, g.next, g.aliases, g.edges, g.mentions, g.idOf, g.byKey, g.views, other, email, owner);
    if other != email {
      g.AddEdge(owner, email, other, REPLIES_TO, source, PLAIN);
    }
  }

  method LinkReply(g: KnowledgeGraphService, owner: Owner, email: Id, p: Parent, source: Source, ghost ref: Ref)
    requires g.Valid() && IsRowOf(g.entities, email, owner, ref)
    modifies g
    ensures g.Valid() && IsRowOf(g.entities, email, owner, ref)
    ensures g.views == Done(old(g.views), owner, ReplyOps(p, ref, source))
  {
    hide Refines;
    DoneTwo(g.views, owner, Put(p.ref, p.card, ""), Join(LinkKey(ref, p.ref, REPLIES_TO, source), PLAIN));
    var id := g.UpsertEntity(owner, p.ref, p.card, "");
    LinkOther(g, owner, email, id, source, ref, p.ref);
  }

  method LinkParent(g: KnowledgeGraphService, owner: Owner, email: Id, parent: Option<Parent>, source: Source, ghost ref: Ref)
    requires g.Valid() && IsRowOf(g.entities, email, owner, ref)
    modifies g
    ensures g.Valid() && IsRowOf(g.entities, email, owner, ref)
    ensures g.views == Done(old(g.views), owner, ParentOps(parent, ref, source))
  {
    hide Refines;
    DoneNothing(g.views, owner);
    if parent.Some? {
      LinkReply(g, owner, email, parent.value, source, ref);
    }
  }

  lemma {:induction false} DoneSix(views: Views, owner: Owner, a: seq<Op>, b: seq<Op>, c: seq<Op>, d: seq<Op>, e: seq<Op>, f: seq<Op>)
    requires Total(views)
    ensures Done(Done(Done(Done(Done(Done(views, owner, a), owner, b), owner, c), owner, d), owner, e), owner, f)
         == Done(views, owner, a + b + c + d + e + f)
  {
    DoneAppend(views, owner, a, b);
    DoneAppend(views, owner, a + b, c);
    DoneAppend(views, owner, a + b + c, d);
    DoneAppend(views, owner, a + b + c + d, e);
    DoneAppend(views, owner, a + b + c + d + e, f);
  }

  method UpsertEmail(g: KnowledgeGraphService, s: Snapshot) returns (email: Id)
    requires g.Valid()
    modifies g
    ensures g.Valid() && IsRowOf(g.entities, email, s.owner, s.email)
    ensures g.views == Done(old(g.views), s.owner, EmailOps(s))
  {
    hide Refines;
    ghost var before := g.views;
    email := g.UpsertEntity(s.owner, s.email, s.card, "");
    g.AddMention(s.owner, email, s.source, Some(s.snippet), 100);
    DoneTwo(before, s.owner, Put(s.email, s.card, ""), Mention(Note(s.email, s.source, Some(s.snippet), 100)));
  }

  /** Indexes one email: its owner's graph gets exactly the writes its rows stand for, no other graph changes. */
  method IndexIngestionItem(g: KnowledgeGraphService, s: Snapshot, read: PersonReader) returns (email: Id)
    requires g.Valid()
    modifies g
    ensures g.Valid() && IsRowOf(g.entities, email, s.owner, s.email)
    ensures g.views == Done(old(g.views), s.owner, IndexOps(s, read))
  {
    hide Refines;
    ghost var before := g.views;
    email := UpsertEmail(g, s);
    LinkPeople(g, s.owner, email, s.from, read, SENT_BY, PLAIN, s.source, s.email);
    LinkPeople(g, s.owner, email, s.to, read, SENT_TO, PLAIN, s.source, s.email);
    LinkPeople(g, s.owner, email, s.cc, read, SENT_TO, CC, s.source, s.email);
    LinkAttachments(g, s.owner, email, s.attached, s.source, s.email);
    LinkParent(g, s.owner, email, s.parent, s.source, s.email);
    DoneSix(before, s.owner, EmailOps(s), PeopleOps(s.from, read, s.email, SENT_BY, PLAIN, s.source),
            PeopleOps(s.to, read, s.email, SENT_TO, PLAIN, s.source), PeopleOps(s.cc, read, s.email, SENT_TO, CC, s.source),
            AllAttachedOps(s.attached, s.email, s.source), ParentOps(s.parent, s.email, s.source));
  }
}
