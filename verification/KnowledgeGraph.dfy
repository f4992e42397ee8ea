/**
 The knowledge graph tables, shared by all owners, with rows that point at each other by id. Every method
 is proved to keep the tables a representation of one separate graph per owner.
 */
module KnowledgeGraph {
  import opened Prelude
  import opened Strings
  import opened Projection
  import opened GraphView

  type Id = nat

  datatype Row = Row(owner: Owner, ref: Ref, card: Card)

  datatype AliasRow = AliasRow(entity: Id, name: string)

  /** The six columns edges are told apart by. */
  datatype EdgeKey = EdgeKey(owner: Owner, src: Id, dst: Id, relation: Relation, source: Source)

  datatype EdgeRow = EdgeRow(key: EdgeKey, data: LinkData)

  datatype MentionRow = MentionRow(owner: Owner, entity: Id, source: Source, snippet: Option<string>, confidence: nat)

  type Rows = map<Id, Row>

  datatype OwnerRef = OwnerRef(owner: Owner, ref: Ref)

  type Index = map<OwnerRef, Id>

  // ---------------------------------------------------------------- what the tables represent

  predicate IsRowOf(entities: Rows, id: Id, owner: Owner, ref: Ref) {
    id in entities && entities[id].owner == owner && entities[id].ref == ref
  }

  predicate Owned(entities: Rows, id: Id, owner: Owner) {
    id in entities && entities[id].owner == owner
  }

  predicate HasEdge(edges: seq<EdgeRow>, key: EdgeKey) {
    exists i :: 0 <= i < |edges| && edges[i].key == key
  }

  function LinkOf(entities: Rows, key: EdgeKey): LinkKey
    requires key.src in entities && key.dst in entities
  {
    LinkKey(entities[key.src].ref, entities[key.dst].ref, key.relation, key.source)
  }

  function KeyOf(idOf: Index, owner: Owner, l: LinkKey): EdgeKey
    requires OwnerRef(owner, l.src) in idOf && OwnerRef(owner, l.dst) in idOf
  {
    EdgeKey(owner, idOf[OwnerRef(owner, l.src)], idOf[OwnerRef(owner, l.dst)], l.relation, l.source)
  }

  /** Ids and references name each other, so no owner has two entities of one type and key. */
  ghost predicate Indexed(entities: Rows, next: Id, idOf: Index) {
    && (forall id :: id in entities ==> id < next)
    && (forall id :: id in entities ==>
          OwnerRef(entities[id].owner, entities[id].ref) in idOf && idOf[OwnerRef(entities[id].owner, entities[id].ref)] == id)
    && (forall k :: k in idOf ==> IsRowOf(entities, idOf[k], k.owner, k.ref))
  }

  ghost predicate CardsMatch(entities: Rows, idOf: Index, views: Views)
    requires Total(views)
  {
    && (forall k :: k in idOf <==> k.ref in views[k.owner].cards)
    && (forall k :: k in idOf ==> idOf[k] in entities && views[k.owner].cards[k.ref] == entities[idOf[k]].card)
  }

  ghost predicate AliasesMatch(aliases: set<AliasRow>, entities: Rows, idOf: Index, views: Views)
    requires Total(views)
  {
    && (forall a :: a in aliases ==> a.entity in entities)
    && (forall o, a :: a in views[o].aliases <==>
          OwnerRef(o, a.ref) in idOf && AliasRow(idOf[OwnerRef(o, a.ref)], a.name) in aliases)
  }

  type EdgeMap = map<EdgeKey, LinkData>

  /** The edge table lists each key once. */
  ghost predicate EdgesListed(edges: seq<EdgeRow>, byKey: EdgeMap) {
    && (forall i, j :: 0 <= i < j < |edges| ==> edges[i].key != edges[j].key)
    && (forall i :: 0 <= i < |edges| ==> edges[i].key in byKey && byKey[edges[i].key] == edges[i].data)
    && (forall k :: k in byKey ==> HasEdge(edges, k))
  }

  /** Edges stay inside one owner's graph and are that graph's links. */
  ghost predicate LinksMatch(byKey: EdgeMap, entities: Rows, idOf: Index, views: Views)
    requires Total(views)
  {
    && (forall k :: k in byKey ==> Owned(entities, k.src, k.owner) && Owned(entities, k.dst, k.owner))
    && (forall o, l :: l in views[o].links <==>
          OwnerRef(o, l.src) in idOf && OwnerRef(o, l.dst) in idOf && KeyOf(idOf, o, l) in byKey)
    && (forall o, l :: l in views[o].links ==> views[o].links[l] == byKey[KeyOf(idOf, o, l)])
  }

  ghost predicate MentionsSound(mentions: seq<MentionRow>, entities: Rows) {
    forall i :: 0 <= i < |mentions| ==> Owned(entities, mentions[i].entity, mentions[i].owner)
  }

  function NotesOf(mentions: seq<MentionRow>, entities: Rows, owner: Owner): seq<Note>
    requires MentionsSound(mentions, entities)
    decreases |mentions|
  {
    if mentions == [] then []
    else
      var last := mentions[|mentions| - 1];
      NotesOf(mentions[..|mentions| - 1], entities, owner) +
      if last.owner == owner then [Note(entities[last.entity].ref, last.source, last.snippet, last.confidence)] else []
  }

  ghost predicate NotesMatch(mentions: seq<MentionRow>, entities: Rows, views: Views)
    requires Total(views) && MentionsSound(mentions, entities)
  {
    forall o :: views[o].notes == NotesOf(mentions, entities, o)
  }

  /** The tables represent these views. */
  ghost predicate Refines(entities: Rows, next: Id, aliases: set<AliasRow>, edges: seq<EdgeRow>, mentions: seq<MentionRow>,
                          idOf: Index, byKey: EdgeMap, views: Views)
    requires Total(views)
  {
    && Indexed(entities, next, idOf)
    && CardsMatch(entities, idOf, views)
    && AliasesMatch(aliases, entities, idOf, views)
    && EdgesListed(edges, byKey)
    && LinksMatch(byKey, entities, idOf, views)
    && MentionsSound(mentions, entities)
    && NotesMatch(mentions, entities, views)
  }

  /** Rows may be added and cards rewritten, but no id changes its owner or reference. */
  ghost predicate Grown(before: Rows, after: Rows) {
    forall id :: id in before ==> IsRowOf(after, id, before[id].owner, before[id].ref)
  }

  // ---------------------------------------------------------------- one table at a time

  lemma {:induction false} NotesKept(mentions: seq<MentionRow>, before: Rows, after: Rows, owner: Owner)
    requires MentionsSound(mentions, before) && Grown(before, after)
    ensures MentionsSound(mentions, after) && NotesOf(mentions, after, owner) == NotesOf(mentions, before, owner)
    decreases |mentions|
  {
    if mentions != [] {
      var n := |mentions| - 1;
      NotesKept(mentions[..n], before, after, owner);
      assert Owned(before, mentions[n].entity, mentions[n].owner);
    }
  }

  lemma {:induction false} MentionsKept(mentions: seq<MentionRow>, entities: Rows, views: Views, after: Rows, views': Views)
    requires Total(views) && Total(views') && MentionsSound(mentions, entities) && NotesMatch(mentions, entities, views)
    requires Grown(entities, after) && forall o :: views'[o].notes == views[o].notes
    ensures MentionsSound(mentions, after) && NotesMatch(mentions, after, views')
  {
    NotesKept(mentions, entities, after, 0);
    forall o ensures views'[o].notes == NotesOf(mentions, after, o) {
      NotesKept(mentions, entities, after, o);
    }
  }

  lemma {:induction false} MentionAdded(mentions: seq<MentionRow>, entities: Rows, views: Views, m: MentionRow)
    requires Total(views) && MentionsSound(mentions, entities) && NotesMatch(mentions, entities, views)
    requires Owned(entities, m.entity, m.owner)
    ensures MentionsSound(mentions + [m], entities)
    ensures NotesMatch(mentions + [m], entities,
                       NoteWritten(views, m.owner, Note(entities[m.entity].ref, m.source, m.snippet, m.confidence)))
  {
    var after := mentions + [m];
    var views' := NoteWritten(views, m.owner, Note(entities[m.entity].ref, m.source, m.snippet, m.confidence));
    assert MentionsSound(after, entities);
    assert after[..|after| - 1] == mentions;
    forall o ensures views'[o].notes == NotesOf(after, entities, o) {
      assert views[o].notes == NotesOf(mentions, entities, o);
    }
  }

  ghost function NoteWritten(views: Views, owner: Owner, note: Note): (written: Views)
    requires Total(views)
    ensures Total(written)
  {
    views[owner := views[owner].(notes := views[owner].notes + [note])]
  }

  ghost function CardWritten(views: Views, owner: Owner, ref: Ref, card: Card): (written: Views)
    requires Total(views)
    ensures Total(written)
  {
    views[owner := views[owner].(cards := views[owner].cards[ref := card])]
  }

  lemma {:induction false} CardsKept(entities: Rows, idOf: Index, views: Views, views': Views)
    requires Total(views) && Total(views') && CardsMatch(entities, idOf, views)
    requires forall o :: views'[o].cards == views[o].cards
    ensures CardsMatch(entities, idOf, views')
  {
    forall k ensures k in idOf <==> k.ref in views'[k.owner].cards {
      assert k in idOf <==> k.ref in views[k.owner].cards;
    }
  }

  lemma {:induction false} RowRewritten(entities: Rows, next: Id, idOf: Index, id: Id, card: Card)
    requires Indexed(entities, next, idOf) && id in entities
    ensures Indexed(entities[id := entities[id].(card := card)], next, idOf)
  {
    forall m | m in idOf ensures IsRowOf(entities[id := entities[id].(card := card)], idOf[m], m.owner, m.ref) {
      assert IsRowOf(entities, idOf[m], m.owner, m.ref);
    }
  }

  /** Writing a card changes the cards of one reference only. */
  lemma {:induction false} CardWrittenAt(views: Views, owner: Owner, ref: Ref, card: Card, o: Owner, r: Ref)
    requires Total(views)
    ensures var before, after := views[o].cards, CardWritten(views, owner, ref, card)[o].cards;
            if o == owner && r == ref then r in after && after[r] == card
            else (r in after <==> r in before) && (r in before ==> after[r] == before[r])
  {
  }

  lemma {:induction false} CardRewritten(entities: Rows, next: Id, idOf: Index, views: Views, id: Id, card: Card)
    requires Total(views) && Indexed(entities, next, idOf) && CardsMatch(entities, idOf, views) && id in entities
    ensures CardsMatch(entities[id := entities[id].(card := card)], idOf,
                       CardWritten(views, entities[id].owner, entities[id].ref, card))
  {
    var k := OwnerRef(entities[id].owner, entities[id].ref);
    var after, views' := entities[id := entities[id].(card := card)], CardWritten(views, k.owner, k.ref, card);
    assert k in idOf && idOf[k] == id;
    forall m ensures m in idOf <==> m.ref in views'[m.owner].cards
             ensures m in idOf ==> idOf[m] in after && views'[m.owner].cards[m.ref] == after[idOf[m]].card {
      CardWrittenAt(views, k.owner, k.ref, card, m.owner, m.ref);
      assert m in idOf <==> m.ref in views[m.owner].cards;
      assert m in idOf ==> IsRowOf(entities, idOf[m], m.owner, m.ref);
      assert m in idOf && idOf[m] == id ==> m == k;
    }
  }

  lemma {:induction false} RowIndexed(entities: Rows, next: Id, idOf: Index, k: OwnerRef, card: Card)
    requires Indexed(entities, next, idOf) && k !in idOf
    ensures next !in entities && Grown(entities, entities[next := Row(k.owner, k.ref, card)])
    ensures Indexed(entities[next := Row(k.owner, k.ref, card)], next + 1, idOf[k := next])
    ensures Extends(idOf, idOf[k := next], entities)
  {
    var after, idOf' := entities[next := Row(k.owner, k.ref, card)], idOf[k := next];
    assert next !in entities;
    forall m | m in idOf' ensures IsRowOf(after, idOf'[m], m.owner, m.ref) {
      if m != k {
        assert IsRowOf(entities, idOf[m], m.owner, m.ref);
      }
    }
  }

  lemma {:induction false} CardInserted(entities: Rows, next: Id, idOf: Index, views: Views, k: OwnerRef, card: Card)
    requires Total(views) && Indexed(entities, next, idOf) && CardsMatch(entities, idOf, views) && k !in idOf
    ensures CardsMatch(entities[next := Row(k.owner, k.ref, card)], idOf[k := next], CardWritten(views, k.owner, k.ref, card))
  {
    var after, idOf' := entities[next := Row(k.owner, k.ref, card)], idOf[k := next];
    var views' := CardWritten(views, k.owner, k.ref, card);
    assert next !in entities;
    forall m ensures m in idOf' <==> m.ref in views'[m.owner].cards
             ensures m in idOf' ==> idOf'[m] in after && views'[m.owner].cards[m.ref] == after[idOf'[m]].card {
      CardWrittenAt(views, k.owner, k.ref, card, m.owner, m.ref);
      assert m in idOf <==> m.ref in views[m.owner].cards;
      assert m in idOf ==> IsRowOf(entities, idOf[m], m.owner, m.ref);
    }
  }

  lemma {:induction false} RewriteRefines(entities: Rows, next: Id, aliases: set<AliasRow>, edges: seq<EdgeRow>, mentions: seq<MentionRow>,
                       idOf: Index, byKey: EdgeMap, views: Views, id: Id, card: Card)
    requires Total(views) && Refines(entities, next, aliases, edges, mentions, idOf, byKey, views) && id in entities
    ensures Refines(entities[id := entities[id].(card := card)], next, aliases, edges, mentions, idOf, byKey,
                    CardWritten(views, entities[id].owner, entities[id].ref, card))
  {
    hide Indexed, CardsMatch, AliasesMatch, EdgesListed, LinksMatch, NotesMatch;
    var after := entities[id := entities[id].(card := card)];
    var views' := CardWritten(views, entities[id].owner, entities[id].ref, card);
    RowRewritten(entities, next, idOf, id, card);
    CardRewritten(entities, next, idOf, views, id, card);
    AliasesKept(aliases, entities, idOf, views, after, idOf, views');
    LinksKept(byKey, entities, idOf, views, after, idOf, views');
    MentionsKept(mentions, entities, views, after, views');
  }

  lemma {:induction false} AliasRefines(entities: Rows, next: Id, aliases: set<AliasRow>, edges: seq<EdgeRow>, mentions: seq<MentionRow>,
                     idOf: Index, byKey: EdgeMap, views: Views, id: Id, name: string)
    requires Total(views) && Refines(entities, next, aliases, edges, mentions, idOf, byKey, views) && id in entities
    ensures Refines(entities, next, aliases + {AliasRow(id, name)}, edges, mentions, idOf, byKey,
                    AliasWritten(views, entities[id].owner, entities[id].ref, name))
  {
    hide Indexed, CardsMatch, AliasesMatch, EdgesListed, LinksMatch, NotesMatch;
    var views' := AliasWritten(views, entities[id].owner, entities[id].ref, name);
    AliasAdded(aliases, entities, next, idOf, views, id, name);
    CardsKept(entities, idOf, views, views');
    LinksKept(byKey, entities, idOf, views, entities, idOf, views');
    MentionsKept(mentions, entities, views, entities, views');
  }

  lemma {:induction false} MentionRefines(entities: Rows, next: Id, aliases: set<AliasRow>, edges: seq<EdgeRow>, mentions: seq<MentionRow>,
                       idOf: Index, byKey: EdgeMap, views: Views, m: MentionRow)
    requires Total(views) && Refines(entities, next, aliases, edges, mentions, idOf, byKey, views) && Owned(entities, m.entity, m.owner)
    ensures Refines(entities, next, aliases, edges, mentions + [m], idOf, byKey,
                    NoteWritten(views, m.owner, Note(entities[m.entity].ref, m.source, m.snippet, m.confidence)))
  {
    hide Indexed, CardsMatch, AliasesMatch, EdgesListed, LinksMatch, NotesMatch;
    var views' := NoteWritten(views, m.owner, Note(entities[m.entity].ref, m.source, m.snippet, m.confidence));
    MentionAdded(mentions, entities, views, m);
    CardsKept(entities, idOf, views, views');
    AliasesKept(aliases, entities, idOf, views, entities, idOf, views');
    LinksKept(byKey, entities, idOf, views, entities, idOf, views');
  }

  lemma {:induction false} InsertRefines(entities: Rows, next: Id, aliases: set<AliasRow>, edges: seq<EdgeRow>, mentions: seq<MentionRow>,
                      idOf: Index, byKey: EdgeMap, views: Views, k: OwnerRef, card: Card)
    requires Total(views) && Refines(entities, next, aliases, edges, mentions, idOf, byKey, views) && k !in idOf
    ensures next !in entities && Grown(entities, entities[next := Row(k.owner, k.ref, card)])
    ensures Refines(entities[next := Row(k.owner, k.ref, card)], next + 1, aliases, edges, mentions,
                    idOf[k := next], byKey, CardWritten(views, k.owner, k.ref, card))
  {
    hide Indexed, CardsMatch, AliasesMatch, EdgesListed, LinksMatch, NotesMatch;
    var after, idOf' := entities[next := Row(k.owner, k.ref, card)], idOf[k := next];
    var views' := CardWritten(views, k.owner, k.ref, card);
    RowIndexed(entities, next, idOf, k, card);
    CardInserted(entities, next, idOf, views, k, card);
    AliasesKept(aliases, entities, idOf, views, after, idOf', views');
    LinksKept(byKey, entities, idOf, views, after, idOf', views');
    MentionsKept(mentions, entities, views, after, views');
  }

  /** No owner has two entities of one type and key; edges have distinct keys; edges and mentions stay with one owner. */
  lemma {:induction false} TablesAreSound(entities: Rows, next: Id, aliases: set<AliasRow>, edges: seq<EdgeRow>, mentions: seq<MentionRow>,
                       idOf: Index, byKey: EdgeMap, views: Views)
    requires Total(views) && Refines(entities, next, aliases, edges, mentions, idOf, byKey, views)
    ensures forall a, b :: a in entities && IsRowOf(entities, b, entities[a].owner, entities[a].ref) ==> a == b
    ensures forall i, j :: 0 <= i < j < |edges| ==> edges[i].key != edges[j].key
    ensures forall i :: 0 <= i < |edges| ==>
      Owned(entities, edges[i].key.src, edges[i].key.owner) && Owned(entities, edges[i].key.dst, edges[i].key.owner)
    ensures forall i :: 0 <= i < |mentions| ==> Owned(entities, mentions[i].entity, mentions[i].owner)
    ensures forall a :: a in aliases ==> a.entity in entities
  {
  }

  /** New references get new ids only. */
  ghost predicate Extends(idOf: Index, idOf': Index, entities: Rows) {
    && (forall k :: k in idOf ==> k in idOf' && idOf'[k] == idOf[k])
    && (forall k :: k in idOf' && k !in idOf ==> idOf'[k] !in entities)
  }

  lemma {:induction false} AliasesKept(aliases: set<AliasRow>, entities: Rows, idOf: Index, views: Views, after: Rows, idOf': Index, views': Views)
    requires Total(views) && Total(views') && AliasesMatch(aliases, entities, idOf, views)
    requires Grown(entities, after) && Extends(idOf, idOf', entities)
    requires forall o :: views'[o].aliases == views[o].aliases
    ensures AliasesMatch(aliases, after, idOf', views')
  {
    forall a | a in aliases ensures a.entity in after {
      assert IsRowOf(after, a.entity, entities[a.entity].owner, entities[a.entity].ref);
    }
    forall o, a ensures a in views'[o].aliases <==>
                        OwnerRef(o, a.ref) in idOf' && AliasRow(idOf'[OwnerRef(o, a.ref)], a.name) in aliases {
      assert a in views'[o].aliases <==> a in views[o].aliases;
      var k := OwnerRef(o, a.ref);
      if k in idOf' && k !in idOf {
        assert AliasRow(idOf'[k], a.name) !in aliases;
      }
    }
  }

  ghost function AliasWritten(views: Views, owner: Owner, ref: Ref, name: string): (written: Views)
    requires Total(views)
    ensures Total(written)
  {
    views[owner := views[owner].(aliases := views[owner].aliases + {Alias(ref, name)})]
  }

  lemma {:induction false} AliasAdded(aliases: set<AliasRow>, entities: Rows, next: Id, idOf: Index, views: Views, id: Id, name: string)
    requires Total(views) && Indexed(entities, next, idOf) && AliasesMatch(aliases, entities, idOf, views) && id in entities
    ensures AliasesMatch(aliases + {AliasRow(id, name)}, entities, idOf,
                         AliasWritten(views, entities[id].owner, entities[id].ref, name))
  {
    var owner, ref := entities[id].owner, entities[id].ref;
    var views' := AliasWritten(views, owner, ref, name);
    assert OwnerRef(owner, ref) in idOf && idOf[OwnerRef(owner, ref)] == id;
    forall o, a ensures a in views'[o].aliases <==>
                        OwnerRef(o, a.ref) in idOf && AliasRow(idOf[OwnerRef(o, a.ref)], a.name) in aliases + {AliasRow(id, name)} {
      var k := OwnerRef(o, a.ref);
      assert a in views[o].aliases <==> k in idOf && AliasRow(idOf[k], a.name) in aliases;
      assert k in idOf ==> IsRowOf(entities, idOf[k], o, a.ref);
    }
  }

  lemma {:induction false} LinksKept(byKey: EdgeMap, entities: Rows, idOf: Index, views: Views, after: Rows, idOf': Index, views': Views)
    requires Total(views) && Total(views') && LinksMatch(byKey, entities, idOf, views)
    requires Grown(entities, after) && Extends(idOf, idOf', entities)
    requires forall o :: views'[o].links == views[o].links
    ensures LinksMatch(byKey, after, idOf', views')
  {
    forall k | k in byKey ensures Owned(after, k.src, k.owner) && Owned(after, k.dst, k.owner) {
      assert Owned(entities, k.src, k.owner) && Owned(entities, k.dst, k.owner);
      assert IsRowOf(after, k.src, k.owner, entities[k.src].ref) && IsRowOf(after, k.dst, k.owner, entities[k.dst].ref);
    }
    forall o, l ensures l in views'[o].links <==>
                        OwnerRef(o, l.src) in idOf' && OwnerRef(o, l.dst) in idOf' && KeyOf(idOf', o, l) in byKey {
      assert l in views'[o].links <==> l in views[o].links;
      var a, b := OwnerRef(o, l.src), OwnerRef(o, l.dst);
      if a in idOf' && b in idOf' {
        var key := KeyOf(idOf', o, l);
        if key in byKey {
          assert Owned(entities, key.src, key.owner) && Owned(entities, key.dst, key.owner);
          assert a in idOf && b in idOf;
        }
      }
    }
  }

  ghost function LinkWritten(views: Views, owner: Owner, l: LinkKey, data: LinkData): (written: Views)
    requires Total(views)
    ensures Total(written)
  {
    views[owner := views[owner].(links := views[owner].links[l := data])]
  }

  /** An edge key is in the table exactly when its link is in its owner's graph. */
  lemma {:induction false} EdgeIsLink(edges: seq<EdgeRow>, byKey: EdgeMap, entities: Rows, next: Id, idOf: Index, views: Views, key: EdgeKey)
    requires Total(views) && EdgesListed(edges, byKey) && LinksMatch(byKey, entities, idOf, views) && Indexed(entities, next, idOf)
    requires Owned(entities, key.src, key.owner) && Owned(entities, key.dst, key.owner)
    ensures HasEdge(edges, key) <==> key in byKey
    ensures key in byKey <==> LinkOf(entities, key) in views[key.owner].links
    ensures var l := LinkOf(entities, key);
            OwnerRef(key.owner, l.src) in idOf && OwnerRef(key.owner, l.dst) in idOf && KeyOf(idOf, key.owner, l) == key
  {
    var l := LinkOf(entities, key);
    assert OwnerRef(key.owner, l.src) in idOf && idOf[OwnerRef(key.owner, l.src)] == key.src;
    assert OwnerRef(key.owner, l.dst) in idOf && idOf[OwnerRef(key.owner, l.dst)] == key.dst;
    assert KeyOf(idOf, key.owner, l) == key;
  }

  lemma {:induction false} EdgeListed(edges: seq<EdgeRow>, byKey: EdgeMap, key: EdgeKey, data: LinkData)
    requires EdgesListed(edges, byKey) && key !in byKey
    ensures EdgesListed(edges + [EdgeRow(key, data)], byKey[key := data])
  {
    var after := edges + [EdgeRow(key, data)];
    assert forall i :: 0 <= i < |edges| ==> after[i] == edges[i] && edges[i].key != key;
    assert after[|edges|].key == key;
    forall k | k in byKey ensures HasEdge(after, k) {
      var i :| 0 <= i < |edges| && edges[i].key == k;
      assert after[i].key == k;
    }
  }

  lemma {:induction false} LinkAdded(byKey: EdgeMap, entities: Rows, next: Id, idOf: Index, views: Views, key: EdgeKey, data: LinkData)
    requires Total(views) && LinksMatch(byKey, entities, idOf, views) && Indexed(entities, next, idOf) && key !in byKey
    requires Owned(entities, key.src, key.owner) && Owned(entities, key.dst, key.owner)
    ensures LinksMatch(byKey[key := data], entities, idOf, LinkWritten(views, key.owner, LinkOf(entities, key), data))
  {
    var l := LinkOf(entities, key);
    var byKey', views' := byKey[key := data], LinkWritten(views, key.owner, l, data);
    assert OwnerRef(key.owner, l.src) in idOf && OwnerRef(key.owner, l.dst) in idOf && KeyOf(idOf, key.owner, l) == key;
    forall o, m ensures m in views'[o].links <==>
                        OwnerRef(o, m.src) in idOf && OwnerRef(o, m.dst) in idOf && KeyOf(idOf, o, m) in byKey'
                ensures m in views'[o].links ==> views'[o].links[m] == byKey'[KeyOf(idOf, o, m)] {
      assert m in views[o].links <==>
             OwnerRef(o, m.src) in idOf && OwnerRef(o, m.dst) in idOf && KeyOf(idOf, o, m) in byKey;
      if OwnerRef(o, m.src) in idOf && OwnerRef(o, m.dst) in idOf && KeyOf(idOf, o, m) == key {
        assert IsRowOf(entities, key.src, o, m.src) && IsRowOf(entities, key.dst, o, m.dst);
        assert o == key.owner && m == l;
      }
    }
  }

  lemma {:induction false} EdgeRefines(entities: Rows, next: Id, aliases: set<AliasRow>, edges: seq<EdgeRow>, mentions: seq<MentionRow>,
                    idOf: Index, byKey: EdgeMap, views: Views, key: EdgeKey, data: LinkData)
    requires Total(views) && Refines(entities, next, aliases, edges, mentions, idOf, byKey, views) && key !in byKey
    requires Owned(entities, key.src, key.owner) && Owned(entities, key.dst, key.owner)
    ensures Refines(entities, next, aliases, edges + [EdgeRow(key, data)], mentions, idOf, byKey[key := data],
                    LinkWritten(views, key.owner, LinkOf(entities, key), data))
  {
    hide Indexed, CardsMatch, AliasesMatch, EdgesListed, LinksMatch, NotesMatch;
    var views' := LinkWritten(views, key.owner, LinkOf(entities, key), data);
    EdgeListed(edges, byKey, key, data);
    LinkAdded(byKey, entities, next, idOf, views, key, data);
    CardsKept(entities, idOf, views, views');
    AliasesKept(aliases, entities, idOf, views, entities, idOf, views');
    MentionsKept(mentions, entities, views, entities, views');
  }

  /** A reference has a card exactly when it has a row, and then at its own id. */
  lemma {:induction false} RowsAreCards(entities: Rows, next: Id, aliases: set<AliasRow>, edges: seq<EdgeRow>, mentions: seq<MentionRow>,
                     idOf: Index, byKey: EdgeMap, views: Views, k: OwnerRef)
    requires Total(views) && Refines(entities, next, aliases, edges, mentions, idOf, byKey, views)
    ensures k in idOf <==> k.ref in views[k.owner].cards
    ensures k in idOf ==> IsRowOf(entities, idOf[k], k.owner, k.ref)
    ensures forall id :: IsRowOf(entities, id, k.owner, k.ref) ==> k in idOf
  {
  }

  lemma {:induction false} EdgesAreLinks(entities: Rows, next: Id, aliases: set<AliasRow>, edges: seq<EdgeRow>, mentions: seq<MentionRow>,
                      idOf: Index, byKey: EdgeMap, views: Views, key: EdgeKey)
    requires Total(views) && Refines(entities, next, aliases, edges, mentions, idOf, byKey, views)
    requires Owned(entities, key.src, key.owner) && Owned(entities, key.dst, key.owner)
    ensures HasEdge(edges, key) <==> key in byKey
    ensures key in byKey <==> LinkOf(entities, key) in views[key.owner].links
  {
    hide Indexed, CardsMatch, AliasesMatch, EdgesListed, LinksMatch, NotesMatch;
    EdgeIsLink(edges, byKey, entities, next, idOf, views, key);
  }

  /** Two rows of one owner are the same row exactly when they have the same reference. */
  lemma {:induction false} IdsAreRefs(entities: Rows, next: Id, aliases: set<AliasRow>, edges: seq<EdgeRow>, mentions: seq<MentionRow>,
                   idOf: Index, byKey: EdgeMap, views: Views, a: Id, b: Id, owner: Owner)
    requires Total(views) && Refines(entities, next, aliases, edges, mentions, idOf, byKey, views)
    requires Owned(entities, a, owner) && Owned(entities, b, owner)
    ensures a == b <==> entities[a].ref == entities[b].ref
  {
  }

  // ---------------------------------------------------------------- writes as operations

  lemma {:induction false} PerformOne(v: View, op: Op)
    ensures PerformAll(v, [op]) == Perform(v, op)
  {
    assert [op][..0] == [];
  }

  lemma {:induction false} PutPlain(views: Views, owner: Owner, ref: Ref, card: Card, alias: string)
    requires Total(views) && Blank(alias)
    ensures CardWritten(views, owner, ref, card) == Done(views, owner, [Put(ref, card, alias)])
  {
    PerformOne(views[owner], Put(ref, card, alias));
    assert views[owner].aliases + AliasesOf(ref, alias) == views[owner].aliases;
  }

  lemma {:induction false} PutNamed(views: Views, owner: Owner, ref: Ref, card: Card, alias: string)
    requires Total(views) && !Blank(alias)
    ensures AliasWritten(CardWritten(views, owner, ref, card), owner, ref, Strip(alias))
         == Done(views, owner, [Put(ref, card, alias)])
  {
    PerformOne(views[owner], Put(ref, card, alias));
  }

  lemma {:induction false} CreateThere(views: Views, owner: Owner, ref: Ref, card: Card, alias: string)
    requires Total(views) && ref in views[owner].cards
    ensures Done(views, owner, [Create(ref, card, alias)]) == views
  {
    PerformOne(views[owner], Create(ref, card, alias));
  }

  lemma {:induction false} CreateMissing(views: Views, owner: Owner, ref: Ref, card: Card, alias: string)
    requires Total(views) && ref !in views[owner].cards
    ensures Done(views, owner, [Create(ref, card, alias)]) == Done(views, owner, [Put(ref, card, alias)])
  {
    PerformOne(views[owner], Create(ref, card, alias));
    PerformOne(views[owner], Put(ref, card, alias));
    assert PerformAll(views[owner], [Create(ref, card, alias)]) == PerformAll(views[owner], [Put(ref, card, alias)]);
  }

  lemma {:induction false} AlsoIs(views: Views, owner: Owner, ref: Ref, alias: string)
    requires Total(views) && !Blank(alias)
    ensures AliasWritten(views, owner, ref, Strip(alias)) == Done(views, owner, [Also(ref, alias)])
  {
    PerformOne(views[owner], Also(ref, alias));
  }

  lemma {:induction false} AlsoBlank(views: Views, owner: Owner, ref: Ref, alias: string)
    requires Total(views) && Blank(alias)
    ensures views == Done(views, owner, [Also(ref, alias)])
  {
    PerformOne(views[owner], Also(ref, alias));
    assert views[owner].aliases + AliasesOf(ref, alias) == views[owner].aliases;
  }

  lemma {:induction false} JoinIs(views: Views, owner: Owner, l: LinkKey, data: LinkData)
    requires Total(views)
    ensures l in views[owner].links ==> Done(views, owner, [Join(l, data)]) == views
    ensures l !in views[owner].links ==> Done(views, owner, [Join(l, data)]) == LinkWritten(views, owner, l, data)
  {
    PerformOne(views[owner], Join(l, data));
  }

  lemma {:induction false} MentionIs(views: Views, owner: Owner, note: Note)
    requires Total(views)
    ensures Done(views, owner, [Mention(note)]) == NoteWritten(views, owner, note)
  {
    PerformOne(views[owner], Mention(note));
  }

  // ---------------------------------------------------------------- the service

  predicate AnyOwner(o: Owner) {
    true
  }

  ghost function NoViews(): (views: Views)
    ensures Total(views) && forall o :: views[o] == EMPTY
  {
    imap o | AnyOwner(o) :: EMPTY
  }

  class KnowledgeGraphService {
    var entities: Rows
    var aliases: set<AliasRow>
    var edges: seq<EdgeRow>
    var mentions: seq<MentionRow>
    var next: Id
    ghost var idOf: Index
    ghost var byKey: EdgeMap
    ghost var views: Views

    constructor ()
      ensures Valid() && entities == map[] && edges == [] && mentions == []
      ensures forall o :: views[o] == EMPTY
    {
      entities, aliases, edges, mentions, next := map[], {}, [], [], 0;
      idOf, byKey, views := map[], map[], NoViews();
    }

    ghost predicate Valid()
      reads this
    {
      Total(views) && Refines(entities, next, aliases, edges, mentions, idOf, byKey, views)
    }

    method RewriteEntity(id: Id, card: Card)
      requires Valid() && id in entities
      modifies `entities, `views
      ensures Valid() && entities == old(entities)[id := old(entities)[id].(card := card)]
      ensures views == CardWritten(old(views), old(entities)[id].owner, old(entities)[id].ref, card)
    {
      hide Refines;
      ghost var views' := CardWritten(views, entities[id].owner, entities[id].ref, card);
      RewriteRefines(entities, next, aliases, edges, mentions, idOf, byKey, views, id, card);
      entities := entities[id := entities[id].(card := card)];
      views := views';
    }

    method InsertEntity(owner: Owner, ref: Ref, card: Card) returns (id: Id)
      requires Valid() && forall id :: !IsRowOf(entities, id, owner, ref)
      modifies `entities, `next, `idOf, `views
      ensures Valid() && id !in old(entities) && entities == old(entities)[id := Row(owner, ref, card)]
      ensures views == CardWritten(old(views), owner, ref, card)
    {
      hide Refines;
      ghost var k := OwnerRef(owner, ref);
      ghost var idOf', views' := idOf[k := next], CardWritten(views, owner, ref, card);
      RowsAreCards(entities, next, aliases, edges, mentions, idOf, byKey, views, k);
      InsertRefines(entities, next, aliases, edges, mentions, idOf, byKey, views, k, card);
      id := next;
      entities := entities[next := Row(owner, ref, card)];
      next := next + 1;
      idOf, views := idOf', views';
    }

    method UpsertAlias(id: Id, name: string)
      requires Valid() && id in entities
      modifies `aliases, `views
      ensures Valid() && aliases == old(aliases) + {AliasRow(id, name)}
      ensures views == AliasWritten(old(views), entities[id].owner, entities[id].ref, name)
    {
      hide Refines;
      ghost var views' := AliasWritten(views, entities[id].owner, entities[id].ref, name);
      AliasRefines(entities, next, aliases, edges, mentions, idOf, byKey, views, id, name);
      if AliasRow(id, name) !in aliases {
        aliases := aliases + {AliasRow(id, name)};
      }
      assert aliases == old(aliases) + {AliasRow(id, name)};
      views := views';
    }

    /** Finds the entity of a reference in one owner's graph. */
    method Find(owner: Owner, ref: Ref) returns (found: Option<Id>)
      requires Valid()
      ensures found.Some? <==> ref in views[owner].cards
      ensures found.Some? ==> IsRowOf(entities, found.value, owner, ref)
      ensures found.None? ==> forall id :: !IsRowOf(entities, id, owner, ref)
    {
      hide Refines;
      RowsAreCards(entities, next, aliases, edges, mentions, idOf, byKey, views, OwnerRef(owner, ref));
      if id :| id in entities && IsRowOf(entities, id, owner, ref) {
        found := Some(id);
      } else {
        found := None;
      }
    }

    /** The row part of an upsert: overwrite the row of a reference, or insert one. */
    method PutEntity(owner: Owner, ref: Ref, card: Card) returns (id: Id)
      requires Valid()
      modifies `entities, `next, `idOf, `views
      ensures Valid() && IsRowOf(entities, id, owner, ref) && Grown(old(entities), entities)
      ensures entities == old(entities)[id := Row(owner, ref, card)]
      ensures views == CardWritten(old(views), owner, ref, card)
    {
      hide Refines;
      var existing := Find(owner, ref);
      if existing.Some? {
        id := existing.value;
        RewriteEntity(id, card);
      } else {
        id := InsertEntity(owner, ref, card);
      }
    }

    method UpsertEntity(owner: Owner, ref: Ref, card: Card, alias: string) returns (id: Id)
      requires Valid()
      modifies `entities, `next, `aliases, `idOf, `views
      ensures Valid() && IsRowOf(entities, id, owner, ref) && Grown(old(entities), entities)
      ensures entities == old(entities)[id := Row(owner, ref, card)]
      ensures aliases == old(aliases) + if Blank(alias) then {} else {AliasRow(id, Strip(alias))}
      ensures views == Done(old(views), owner, [Put(ref, card, alias)])
    {
      hide Refines;
      ghost var before := views;
      id := PutEntity(owner, ref, card);
      if Blank(alias) {
        PutPlain(before, owner, ref, card, alias);
      } else {
        PutNamed(before, owner, ref, card, alias);
        UpsertAlias(id, Strip(alias));
      }
    }

    method AddEdge(owner: Owner, src: Id, dst: Id, relation: Relation, source: Source, data: LinkData)
      requires Valid() && Owned(entities, src, owner) && Owned(entities, dst, owner)
      modifies `edges, `byKey, `views
      ensures Valid()
      ensures edges == if HasEdge(old(edges), EdgeKey(owner, src, dst, relation, source)) then old(edges)
                       else old(edges) + [EdgeRow(EdgeKey(owner, src, dst, relation, source), data)]
      ensures views == Done(old(views), owner, [Join(LinkKey(entities[src].ref, entities[dst].ref, relation, source), data)])
    {
      hide Refines;
      var key := EdgeKey(owner, src, dst, relation, source);
      ghost var l := LinkOf(entities, key);
      EdgesAreLinks(entities, next, aliases, edges, mentions, idOf, byKey, views, key);
      JoinIs(views, owner, l, data);
      if !HasEdge(edges, key) {
        EdgeRefines(entities, next, aliases, edges, mentions, idOf, byKey, views, key, data);
        edges := edges + [EdgeRow(key, data)];
        byKey, views := byKey[key := data], LinkWritten(views, owner, l, data);
      }
    }

    method AddMention(owner: Owner, id: Id, source: Source, snippet: Option<string>, confidence: nat)
      requires Valid() && Owned(entities, id, owner)
      modifies `mentions, `views
      ensures Valid() && mentions == old(mentions) + [MentionRow(owner, id, source, snippet, confidence)]
      ensures views == Done(old(views), owner, [Mention(Note(entities[id].ref, source, snippet, confidence))])
    {
      hide Refines;
      var m := MentionRow(owner, id, source, snippet, confidence);
      ghost var note := Note(entities[id].ref, source, snippet, confidence);
      MentionIs(views, owner, note);
      MentionRefines(entities, next, aliases, edges, mentions, idOf, byKey, views, m);
      mentions := mentions + [m];
      views := NoteWritten(views, owner, note);
    }
  }
}
