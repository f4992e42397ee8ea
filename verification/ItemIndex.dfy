/** Indexing an ingested item by id: what its rows say, and what the graph says afterwards. */
module ItemIndex {
  import opened Prelude
  import opened Strings
  import opened Ontology
  import opened Projection
  import opened GraphView
  import opened KnowledgeGraph
  import opened Parents
  import opened IngestionIndex
  import Addresses

  datatype AttachmentRow = AttachmentRow(id: string, item: string, name: string, mime: string, size: nat)

  // ---------------------------------------------------------------- what the rows say

  const ITEM_PREFIX := "ingestion_item:"

  const FILE_PREFIX := "ingestion_attachment:"

  function ItemRef(id: string): Ref {
    Ref(Email, ITEM_PREFIX + id)
  }

  function FileRef(id: string): Ref {
    Ref(EntityType.Attachment, FILE_PREFIX + id)
  }

  function ReadPerson(raw: string): Option<Correspondent> {
    var (display, email) := Addresses.ParseEmailAddress(raw);
    if email == "" then None
    else
      var name := if display.Some? then Strip(display.value) else email;
      Some(Correspondent(Ref(EntityType.Person, PersonKey(email)),
                  Card(name, map["email" := Text(email)] + (if display.Some? then map["display_name" := Text(display.value)] else map[])),
                  name, Strip(raw)))
  }

  function EmailCard(item: Item): Card {
    Card(Or(item.title, "Email " + item.id),
         map["subject" := Text(item.title), "body_preview" := Text(Clip(item.body, 500))]
         + match item.meta
           case None => map[]
           case Some(m) => map["from_addr" := Text(m.from), "provider_message_id" := Text(m.messageId), "provider_thread_id" := Text(m.threadId)])
  }

  function FileOf(row: AttachmentRow): Attached {
    Attached(FileRef(row.id), Card(row.name, map["mime_type" := Text(row.mime), "size" := Number(row.size), "ingestion_item_id" := Text(row.item)]),
             Source(FromAttachment, row.id), row.name)
  }

  function ParentOf(parent: Option<Item>): Option<Parent> {
    match parent
    case None => None
    case Some(p) => Some(Parent(ItemRef(p.id), Card(Or(p.title, "Email " + p.id), map["subject" := Text(p.title)])))
  }

  /** What the tables say about an email at one moment. */
  function SnapshotOf(item: Item, parent: Option<Item>, files: seq<AttachmentRow>): Snapshot {
    Snapshot(item.owner, ItemRef(item.id), EmailCard(item), item.title, Source(FromItem, item.id),
             if item.meta.Some? && item.meta.value.from != "" then [item.meta.value.from] else [],
             if item.meta.Some? then item.meta.value.to else [],
             if item.meta.Some? then item.meta.value.cc else [],
             seq(|files|, i requires 0 <= i < |files| => FileOf(files[i])),
             ParentOf(parent))
  }

  /** The attachments of an item, in table order. */
  function FilesOf(files: seq<AttachmentRow>, id: string): (own: seq<AttachmentRow>)
    ensures forall a :: a in own <==> a in files && a.item == id
  {
    if files == [] then []
    else
      assert files == [files[0]] + files[1..];
      (if files[0].item == id then [files[0]] else []) + FilesOf(files[1..], id)
  }

  // ---------------------------------------------------------------- what the graph says about an item

  /** The address names the person: the person with the email address that is read from it, if any. */
  predicate AddressOf(raw: string, r: Ref) {
    var email := Addresses.ParseEmailAddress(raw).1;
    email != "" && r == Ref(EntityType.Person, "email:" + email)
  }

  predicate OnLine(line: seq<string>, r: Ref) {
    exists i :: 0 <= i < |line| && AddressOf(line[i], r)
  }

  /** An attachment row of the item. */
  predicate IsFileOf(files: seq<AttachmentRow>, item: Item, r: Ref) {
    exists i :: 0 <= i < |files| && files[i].item == item.id && r == Ref(EntityType.Attachment, "ingestion_attachment:" + files[i].id)
  }

  /**
   The links of an item's email: sent by whom the `from` column names, to whom `to` names, with those only in `cc`
   marked, from each attachment to it, and from it to its parent. Earlier links stay as they were.
   */
  ghost predicate LinkedAs(before: View, after: View, files: seq<AttachmentRow>, item: Item, parent: Option<Item>) {
    forall l: LinkKey :: LinkIs(before, after, files, item, parent, l)
  }

  ghost predicate LinkIs(before: View, after: View, files: seq<AttachmentRow>, item: Item, parent: Option<Item>, l: LinkKey) {
    var email, source := Ref(EntityType.Email, "ingestion_item:" + item.id), Source(FromItem, item.id);
    var plain, copy := LinkData(map[], 100), LinkData(map["addr_kind" := Text("cc")], 100);
    At(after.links, l) ==
      if l in before.links then Some(before.links[l])
      else if l.source != source then None
      else if l.src == email && l.relation == SENT_BY && item.meta.Some? && AddressOf(item.meta.value.from, l.dst) then Some(plain)
      else if l.src == email && l.relation == SENT_TO && item.meta.Some? && OnLine(item.meta.value.to, l.dst) then Some(plain)
      else if l.src == email && l.relation == SENT_TO && item.meta.Some? && OnLine(item.meta.value.cc, l.dst) then Some(copy)
      else if l.dst == email && l.relation == ATTACHED_TO && IsFileOf(files, item, l.src) then Some(plain)
      else if l.src == email && l.relation == REPLIES_TO && parent.Some? && parent.value.id != item.id
              && l.dst == Ref(EntityType.Email, "ingestion_item:" + parent.value.id) then Some(plain)
      else None
  }

  lemma {:induction false} ReadsAs(raw: string, r: Ref)
    ensures ReadPerson(raw).Some? && ReadPerson(raw).value.ref == r <==> AddressOf(raw, r)
  {
    hide Addresses.ParseEmailAddress, Strip, Lower;
    var email := Addresses.ParseEmailAddress(raw).1;
    Addresses.ParsedIsTidy(raw);
    if email != "" {
      StripPlain(email);
    }
  }

  lemma {:induction false} NamesAreOnLine(line: seq<string>, r: Ref)
    ensures Names(line, ReadPerson, r) <==> OnLine(line, r)
  {
    hide ReadPerson, AddressOf;
    forall i | 0 <= i < |line| ensures ReadPerson(line[i]).Some? && ReadPerson(line[i]).value.ref == r <==> AddressOf(line[i], r) {
      ReadsAs(line[i], r);
    }
  }

  lemma {:induction false} NoAddress(r: Ref)
    ensures !AddressOf("", r)
  {
  }

  lemma {:induction false} OneOnLine(raw: string, r: Ref)
    ensures OnLine(if raw != "" then [raw] else [], r) <==> AddressOf(raw, r)
  {
    hide AddressOf;
    NoAddress(r);
    var line := if raw != "" then [raw] else [];
    if raw != "" {
      assert line[0] == raw;
    }
  }

  lemma {:induction false} FilesAre(files: seq<AttachmentRow>, item: Item, r: Ref)
    ensures var own := FilesOf(files, item.id);
            Attaches(seq(|own|, i requires 0 <= i < |own| => FileOf(own[i])), r) <==> IsFileOf(files, item, r)
  {
    var own := FilesOf(files, item.id);
    var attached := seq(|own|, i requires 0 <= i < |own| => FileOf(own[i]));
    if Attaches(attached, r) {
      var i :| 0 <= i < |attached| && attached[i].ref == r;
      assert own[i] in files;
    }
    if IsFileOf(files, item, r) {
      var i :| 0 <= i < |files| && files[i].item == item.id && r == Ref(EntityType.Attachment, "ingestion_attachment:" + files[i].id);
      assert files[i] in own;
      var k :| 0 <= k < |own| && own[k] == files[i];
      assert attached[k].ref == r;
    }
  }

  lemma {:induction false} SameItemRef(a: string, b: string)
    ensures ItemRef(a) == ItemRef(b) <==> a == b
  {
    assert (ITEM_PREFIX + a)[|ITEM_PREFIX|..] == a && (ITEM_PREFIX + b)[|ITEM_PREFIX|..] == b;
  }

  lemma {:induction false} ItemLinks(v: View, files: seq<AttachmentRow>, item: Item, parent: Option<Item>)
    ensures LinkedAs(v, PerformAll(v, IndexOps(SnapshotOf(item, parent, FilesOf(files, item.id)), ReadPerson)), files, item, parent)
  {
    hide PerformAll, IndexOps, ReadPerson, AddressOf, OnLine, IsFileOf, Names, Attaches, EmailCard, FilesOf;
    var s := SnapshotOf(item, parent, FilesOf(files, item.id));
    var after := PerformAll(v, IndexOps(s, ReadPerson));
    if parent.Some? {
      SameItemRef(parent.value.id, item.id);
    }
    forall l: LinkKey ensures LinkIs(v, after, files, item, parent, l) {
      LinkAfter(v, IndexOps(s, ReadPerson), after, l);
      if l !in v.links {
        IndexLink(v, s, ReadPerson, l);
      }
      NamesAreOnLine(s.from, l.dst);
      NamesAreOnLine(s.to, l.dst);
      NamesAreOnLine(s.cc, l.dst);
      if item.meta.Some? {
        OneOnLine(item.meta.value.from, l.dst);
      }
      NobodyNamed(l.dst);
      FilesAre(files, item, l.src);
    }
  }

  lemma {:induction false} NobodyNamed(r: Ref)
    ensures !OnLine([], r)
  {
  }

  datatype IndexError = NotFound | Raised(error: LookupError)

  function HasId(id: string): Item -> bool {
    (i: Item) => i.id == id
  }

  /** The owner and the writes of indexing an item, if there is such an item and its parent can be looked up. */
  function ItemOps(items: seq<Item>, files: seq<AttachmentRow>, id: string): Result<(Owner, seq<Op>), IndexError> {
    match FirstWhere(items, HasId(id))
    case None => Err(NotFound)
    case Some(item) =>
      match ParentItem(items, item)
      case Err(error) => Err(Raised(error))
      case Ok(parent) => Ok((item.owner, IndexOps(SnapshotOf(item, parent, FilesOf(files, item.id)), ReadPerson)))
  }

  // ---------------------------------------------------------------- what is written for an item

  /** The writes for one address: the person with name and alias, the mention, and the link. */
  predicate PersonSays(raw: string, email: Ref, relation: Relation, data: LinkData, source: Source, op: Op) {
    var (display, address) := Addresses.ParseEmailAddress(raw);
    var person, name := Ref(EntityType.Person, "email:" + address), if display.Some? then Strip(display.value) else address;
    && address != ""
    && (|| op == Put(person, Card(name, if display.Some? then map["email" := Text(address), "display_name" := Text(display.value)]
                                        else map["email" := Text(address)]), name)
        || op == Mention(Note(person, source, Some(Strip(raw)), 100))
        || op == Join(LinkKey(email, person, relation, source), data))
  }

  predicate FileSays(a: AttachmentRow, email: Ref, source: Source, op: Op) {
    var file := Ref(EntityType.Attachment, "ingestion_attachment:" + a.id);
    || op == Put(file, Card(a.name, map["mime_type" := Text(a.mime), "size" := Number(a.size), "ingestion_item_id" := Text(a.item)]), "")
    || op == Mention(Note(file, Source(FromAttachment, a.id), Some(a.name), 100))
    || op == Join(LinkKey(file, email, ATTACHED_TO, source), LinkData(map[], 100))
  }

  predicate EmailSays(item: Item, email: Ref, source: Source, op: Op) {
    var title := if item.title != "" then item.title else "Email " + item.id;
    var body := if |item.body| <= 500 then item.body else item.body[..500];
    || op == Put(email, Card(title, match item.meta
         case None => map["subject" := Text(item.title), "body_preview" := Text(body)]
         case Some(m) => map["subject" := Text(item.title), "body_preview" := Text(body), "from_addr" := Text(m.from),
                             "provider_message_id" := Text(m.messageId), "provider_thread_id" := Text(m.threadId)]), "")
    || op == Mention(Note(email, source, Some(item.title), 100))
  }

  predicate ParentOpSays(p: Item, email: Ref, source: Source, op: Op) {
    var parent := Ref(EntityType.Email, "ingestion_item:" + p.id);
    || op == Put(parent, Card(if p.title != "" then p.title else "Email " + p.id, map["subject" := Text(p.title)]), "")
    || (parent != email && op == Join(LinkKey(email, parent, REPLIES_TO, source), LinkData(map[], 100)))
  }

  predicate LineSays(line: seq<string>, email: Ref, relation: Relation, data: LinkData, source: Source, op: Op) {
    exists i :: 0 <= i < |line| && PersonSays(line[i], email, relation, data, source, op)
  }

  /** A write that the rows of an item call for. */
  predicate ItemSays(files: seq<AttachmentRow>, item: Item, parent: Option<Item>, op: Op) {
    var email, source := Ref(EntityType.Email, "ingestion_item:" + item.id), Source(FromItem, item.id);
    || EmailSays(item, email, source, op)
    || (item.meta.Some?
        && (|| PersonSays(item.meta.value.from, email, SENT_BY, LinkData(map[], 100), source, op)
            || LineSays(item.meta.value.to, email, SENT_TO, LinkData(map[], 100), source, op)
            || LineSays(item.meta.value.cc, email, SENT_TO, LinkData(map["addr_kind" := Text("cc")], 100), source, op)))
    || (exists i :: 0 <= i < |files| && files[i].item == item.id && FileSays(files[i], email, source, op))
    || (parent.Some? && ParentOpSays(parent.value, email, source, op))
  }

  lemma {:induction false} PersonOpsSay(raw: string, email: Ref, relation: Relation, data: LinkData, source: Source, op: Op)
    ensures op in AnyPersonOps(ReadPerson(raw), email, relation, data, source) <==> PersonSays(raw, email, relation, data, source, op)
  {
    hide Addresses.ParseEmailAddress, Strip, Lower;
    var (display, address) := Addresses.ParseEmailAddress(raw);
    Addresses.ParsedIsTidy(raw);
    if address != "" {
      StripPlain(address);
      assert map["email" := Text(address)] + map["display_name" := Text(if display.Some? then display.value else "")]
          == map["email" := Text(address), "display_name" := Text(if display.Some? then display.value else "")];
      assert map["email" := Text(address)] + map[] == map["email" := Text(address)];
    }
  }

  lemma {:induction false} LineOpsSay(line: seq<string>, email: Ref, relation: Relation, data: LinkData, source: Source, op: Op)
    ensures op in PeopleOps(line, ReadPerson, email, relation, data, source) <==> LineSays(line, email, relation, data, source, op)
  {
    hide ReadPerson, PersonSays, AnyPersonOps, PeopleOps;
    PeopleSay(line, ReadPerson, email, relation, data, source, op);
    forall i | 0 <= i < |line|
      ensures op in AnyPersonOps(ReadPerson(line[i]), email, relation, data, source)
         <==> PersonSays(line[i], email, relation, data, source, op)
    {
      PersonOpsSay(line[i], email, relation, data, source, op);
    }
  }

  lemma {:induction false} NobodySays(email: Ref, source: Source, op: Op)
    ensures !PersonSays("", email, SENT_BY, PLAIN, source, op)
  {
  }

  lemma {:induction false} FromSays(raw: string, email: Ref, source: Source, op: Op)
    ensures LineSays(if raw != "" then [raw] else [], email, SENT_BY, PLAIN, source, op)
       <==> PersonSays(raw, email, SENT_BY, PLAIN, source, op)
  {
    hide PersonSays;
    NobodySays(email, source, op);
    var line := if raw != "" then [raw] else [];
    if raw != "" {
      assert line[0] == raw;
    }
  }

  lemma {:induction false} FileOpSays(a: AttachmentRow, email: Ref, source: Source, op: Op)
    ensures op in AttachedOps(FileOf(a), email, source) <==> FileSays(a, email, source, op)
  {
  }

  predicate Any(rows: seq<AttachmentRow>, says: AttachmentRow -> bool) {
    exists i :: 0 <= i < |rows| && says(rows[i])
  }

  lemma {:induction false} SomeFile(files: seq<AttachmentRow>, id: string, says: AttachmentRow -> bool)
    ensures Any(FilesOf(files, id), says) <==> exists i :: 0 <= i < |files| && files[i].item == id && says(files[i])
  {
    var own := FilesOf(files, id);
    if Any(own, says) {
      var i :| 0 <= i < |own| && says(own[i]);
      assert own[i] in files;
    }
    if i :| 0 <= i < |files| && files[i].item == id && says(files[i]) {
      assert files[i] in own;
    }
  }

  lemma {:induction false} FileOpsSay(files: seq<AttachmentRow>, item: Item, email: Ref, source: Source, op: Op)
    ensures var own := FilesOf(files, item.id);
            op in AllAttachedOps(seq(|own|, i requires 0 <= i < |own| => FileOf(own[i])), email, source)
            <==> exists i :: 0 <= i < |files| && files[i].item == item.id && FileSays(files[i], email, source, op)
  {
    hide FileSays, FileOf, AttachedOps, FilesOf, AllAttachedOps;
    var own := FilesOf(files, item.id);
    var attached := seq(|own|, i requires 0 <= i < |own| => FileOf(own[i]));
    var says := (a: AttachmentRow) => FileSays(a, email, source, op);
    AttachmentsSay(attached, email, source, op);
    SomeFile(files, item.id, says);
    forall i | 0 <= i < |own| ensures op in AttachedOps(attached[i], email, source) <==> says(own[i]) {
      FileOpSays(own[i], email, source, op);
    }
    if op in AllAttachedOps(attached, email, source) {
      var i :| 0 <= i < |attached| && op in AttachedOps(attached[i], email, source);
      assert says(own[i]) && Any(own, says);
      var j :| 0 <= j < |files| && files[j].item == item.id && says(files[j]);
      assert FileSays(files[j], email, source, op);
    }
    if j :| 0 <= j < |files| && files[j].item == item.id && FileSays(files[j], email, source, op) {
      assert says(files[j]) && Any(own, says);
      var i :| 0 <= i < |own| && says(own[i]);
      assert op in AttachedOps(attached[i], email, source);
    }
  }

  lemma {:induction false} EmailOpsSay(item: Item, parent: Option<Item>, files: seq<AttachmentRow>, op: Op)
    ensures op in EmailOps(SnapshotOf(item, parent, files)) <==> EmailSays(item, ItemRef(item.id), Source(FromItem, item.id), op)
    ensures op in ParentOps(SnapshotOf(item, parent, files).parent, ItemRef(item.id), Source(FromItem, item.id))
       <==> parent.Some? && ParentOpSays(parent.value, ItemRef(item.id), Source(FromItem, item.id), op)
  {
    var body := Clip(item.body, 500);
    var base: Attributes := map["subject" := Text(item.title), "body_preview" := Text(body)];
    assert base + map[] == base;
    if item.meta.Some? {
      var m := item.meta.value;
      assert base + map["from_addr" := Text(m.from), "provider_message_id" := Text(m.messageId), "provider_thread_id" := Text(m.threadId)]
          == map["subject" := Text(item.title), "body_preview" := Text(body), "from_addr" := Text(m.from),
                 "provider_message_id" := Text(m.messageId), "provider_thread_id" := Text(m.threadId)];
    }
  }

  /** What is written for an item is what its rows call for, no more and no less. */
  lemma {:induction false} ItemWrites(files: seq<AttachmentRow>, item: Item, parent: Option<Item>, op: Op)
    ensures op in IndexOps(SnapshotOf(item, parent, FilesOf(files, item.id)), ReadPerson) <==> ItemSays(files, item, parent, op)
  {
    var own := FilesOf(files, item.id);
    var email, source := ItemRef(item.id), Source(FromItem, item.id);
    EmailOpsSay(item, parent, own, op);
    FileOpsSay(files, item, email, source, op);
    hide EmailOps, PeopleOps, AllAttachedOps, ParentOps, EmailSays, PersonSays, LineSays, FileSays, ParentOpSays, ReadPerson, FilesOf,
         EmailCard, FileOf, ParentOf;
    if item.meta.Some? {
      var m := item.meta.value;
      LineOpsSay(if m.from != "" then [m.from] else [], email, SENT_BY, PLAIN, source, op);
      FromSays(m.from, email, source, op);
      LineOpsSay(m.to, email, SENT_TO, PLAIN, source, op);
      LineOpsSay(m.cc, email, SENT_TO, CC, source, op);
    } else {
      NobodyWritten(email, source, op);
    }
  }

  lemma {:induction false} NobodyWritten(email: Ref, source: Source, op: Op)
    ensures op !in PeopleOps([], ReadPerson, email, SENT_BY, PLAIN, source)
    ensures op !in PeopleOps([], ReadPerson, email, SENT_TO, PLAIN, source)
    ensures op !in PeopleOps([], ReadPerson, email, SENT_TO, CC, source)
  {
  }

  lemma {:induction false} NoSuchItem(items: seq<Item>, id: string)
    ensures FirstWhere(items, HasId(id)) == None <==> forall item :: item in items ==> item.id != id
  {
    var found := FirstWhere(items, HasId(id));
    assert found.Some? ==> found.value in items && found.value.id == id;
  }

  /** Indexes an item by id; an unknown id and an ambiguous reply reference change nothing. */
  method IndexItem(g: KnowledgeGraphService, items: seq<Item>, files: seq<AttachmentRow>, id: string)
    returns (r: Result<Id, IndexError>)
    requires g.Valid()
    modifies g
    ensures g.Valid() && (r.Ok? <==> ItemOps(items, files, id).Ok?) && (r.Err? ==> r.error == ItemOps(items, files, id).error)
    ensures g.views == match ItemOps(items, files, id) case Err(_) => old(g.views) case Ok((o, ops)) => Done(old(g.views), o, ops)
    ensures r == Err(NotFound) <==> forall item :: item in items ==> item.id != id
    ensures r.Err? && r.error.Raised? ==> exists item :: item in items && item.id == id && Unclear(items, item)
    ensures r.Ok? ==>
              exists item, parent ::
                && item in items && item.id == id && IsParent(items, item, parent)
                && LinkedAs(old(g.views)[item.owner], g.views[item.owner], files, item, parent)
  {
    hide Refines, IsParent, Unclear, LinkedAs, PerformAll, IndexOps, EmailCard, FilesOf, ParentItem;
    NoSuchItem(items, id);
    var item := FirstWhere(items, HasId(id));
    if item.None? {
      return Err(NotFound);
    }
    assert item.value in items && item.value.id == id;
    var parent := ResolveParentItem(items, item.value);
    if parent.Err? {
      return Err(Raised(parent.error));
    }
    ItemLinks(g.views[item.value.owner], files, item.value, parent.value);
    var email := IndexIngestionItem(g, SnapshotOf(item.value, parent.value, FilesOf(files, item.value.id)), ReadPerson);
    r := Ok(email);
  }

  /** Indexing an email again from unchanged rows changes no card, alias or link of any owner. */
  lemma {:induction false} ReindexingSettles(views: Views, s: Snapshot, read: PersonReader, owner: Owner)
    requires Total(views)
    ensures var once := Done(views, s.owner, IndexOps(s, read));
            SameGraph(Done(once, s.owner, IndexOps(s, read))[owner], once[owner])
  {
    IndexNoCreates(s, read);
    PutsSettle(views[s.owner], IndexOps(s, read));
  }

  /** So does indexing an item by id again. */
  lemma {:induction false} ReindexingItemSettles(views: Views, items: seq<Item>, files: seq<AttachmentRow>, id: string, owner: Owner)
    requires Total(views) && ItemOps(items, files, id).Ok?
    ensures var (o, ops) := ItemOps(items, files, id).value;
            var once := Done(views, o, ops);
            SameGraph(Done(once, o, ops)[owner], once[owner])
  {
    var item := FirstWhere(items, HasId(id)).value;
    ReindexingSettles(views, SnapshotOf(item, ParentItem(items, item).value, FilesOf(files, item.id)), ReadPerson, owner);
  }
}
