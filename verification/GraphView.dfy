/**
 One owner's knowledge graph as values: what each write does to it, what a list of writes adds up to,
 why repeating a list changes nothing, and why other owners' writes never matter.
 */
module GraphView {
  import opened Prelude
  import opened Strings
  import opened Projection

  type Owner = int

  datatype SourceKind = FromItem | FromAttachment | FromRun

  datatype Source = Source(kind: SourceKind, id: string)

  datatype Card = Card(name: string, attributes: Attributes)

  datatype Alias = Alias(ref: Ref, name: string)

  datatype LinkKey = LinkKey(src: Ref, dst: Ref, relation: Relation, source: Source)

  datatype LinkData = LinkData(attributes: Attributes, confidence: nat)

  datatype Note = Note(ref: Ref, source: Source, snippet: Option<string>, confidence: nat)

  datatype View = View(cards: map<Ref, Card>, aliases: set<Alias>, links: map<LinkKey, LinkData>, notes: seq<Note>)

  const EMPTY := View(map[], {}, map[], [])

  /** `Put` overwrites a card, `Create` only fills a gap, `Also` adds a name; a link is kept as it was first written. */
  datatype Op =
    | Put(ref: Ref, card: Card, alias: string)
    | Create(ref: Ref, card: Card, alias: string)
    | Also(ref: Ref, alias: string)
    | Join(link: LinkKey, data: LinkData)
    | Mention(note: Note)

  function AliasesOf(ref: Ref, alias: string): set<Alias> {
    if Blank(alias) then {} else {Alias(ref, Strip(alias))}
  }

  function Perform(v: View, op: Op): View {
    match op
    case Put(ref, card, alias) => v.(cards := v.cards[ref := card], aliases := v.aliases + AliasesOf(ref, alias))
    case Create(ref, card, alias) =>
      if ref in v.cards then v
      else v.(cards := v.cards[ref := card], aliases := v.aliases + AliasesOf(ref, alias))
    case Also(ref, alias) => v.(aliases := v.aliases + AliasesOf(ref, alias))
    case Join(link, data) => if link in v.links then v else v.(links := v.links[link := data])
    case Mention(note) => v.(notes := v.notes + [note])
  }

  function PerformAll(v: View, ops: seq<Op>): View
    decreases |ops|
  {
    if ops == [] then v else Perform(PerformAll(v, ops[..|ops| - 1]), ops[|ops| - 1])
  }

  lemma {:induction false} PerformAppend(v: View, a: seq<Op>, b: seq<Op>)
    ensures PerformAll(v, a + b) == PerformAll(PerformAll(v, a), b)
    decreases |b|
  {
    if b == [] {
      assert a + b == a;
    } else {
      var n := |b| - 1;
      PerformAppend(v, a, b[..n]);
      assert (a + b)[..|a + b| - 1] == a + b[..n] && (a + b)[|a + b| - 1] == b[n];
    }
    hide Perform;
  }

  // ---------------------------------------------------------------- what a list of writes adds up to

  predicate NoCreates(ops: seq<Op>) {
    forall i :: 0 <= i < |ops| ==> !ops[i].Create? && !ops[i].Also?
  }

  predicate NoPuts(ops: seq<Op>) {
    forall i :: 0 <= i < |ops| ==> !ops[i].Put?
  }

  function At<K, V>(m: map<K, V>, k: K): Option<V> {
    if k in m then Some(m[k]) else None
  }

  function Else<V>(first: Option<V>, second: Option<V>): Option<V> {
    if first.Some? then first else second
  }

  /** The card a list without `Create` leaves at a reference. */
  function LastCard(ops: seq<Op>, r: Ref): Option<Card>
    decreases |ops|
  {
    if ops == [] then None
    else
      var last := ops[|ops| - 1];
      if last.Put? && last.ref == r then Some(last.card) else LastCard(ops[..|ops| - 1], r)
  }

  function FirstData(ops: seq<Op>, l: LinkKey): Option<LinkData>
    decreases |ops|
  {
    if ops == [] then None
    else
      var before := FirstData(ops[..|ops| - 1], l);
      var last := ops[|ops| - 1];
      if before.Some? then before else if last.Join? && last.link == l then Some(last.data) else None
  }

  lemma {:induction false} FirstDataAppend(a: seq<Op>, b: seq<Op>, l: LinkKey)
    ensures FirstData(a + b, l) == Else(FirstData(a, l), FirstData(b, l))
    decreases |b|
  {
    if b == [] {
      assert a + b == a;
    } else {
      assert (a + b)[..|a + b| - 1] == a + b[..|b| - 1];
      FirstDataAppend(a, b[..|b| - 1], l);
    }
  }

  /** The first card a list without `Put` offers for a reference. */
  function FirstCard(ops: seq<Op>, r: Ref): Option<Card>
    decreases |ops|
  {
    if ops == [] then None
    else
      var last := ops[|ops| - 1];
      Else(FirstCard(ops[..|ops| - 1], r), if last.Create? && last.ref == r then Some(last.card) else None)
  }

  lemma {:induction false} FirstCardAppend(a: seq<Op>, b: seq<Op>, r: Ref)
    ensures FirstCard(a + b, r) == Else(FirstCard(a, r), FirstCard(b, r))
    decreases |b|
  {
    if b == [] {
      assert a + b == a;
    } else {
      assert (a + b)[..|a + b| - 1] == a + b[..|b| - 1];
      FirstCardAppend(a, b[..|b| - 1], r);
    }
  }

  lemma {:induction false} CreateStep(v: View, op: Op, r: Ref)
    requires !op.Put?
    ensures At(Perform(v, op).cards, r) == Else(At(v.cards, r), if op.Create? && op.ref == r then Some(op.card) else None)
  {
  }

  lemma {:induction false} CardCreated(v: View, ops: seq<Op>, r: Ref)
    requires NoPuts(ops)
    ensures At(PerformAll(v, ops).cards, r) == Else(At(v.cards, r), FirstCard(ops, r))
    decreases |ops|
  {
    if ops != [] {
      var n := |ops| - 1;
      CardCreated(v, ops[..n], r);
      CreateStep(PerformAll(v, ops[..n]), ops[n], r);
    }
  }

  function AliasOf(op: Op): set<Alias> {
    if op.Put? then AliasesOf(op.ref, op.alias) else {}
  }

  function PutAliases(ops: seq<Op>): set<Alias>
    decreases |ops|
  {
    if ops == [] then {}
    else PutAliases(ops[..|ops| - 1]) + AliasOf(ops[|ops| - 1])
  }

  lemma {:induction false} CardStep(v: View, op: Op, r: Ref)
    requires !op.Create?
    ensures At(Perform(v, op).cards, r) == if op.Put? && op.ref == r then Some(op.card) else At(v.cards, r)
  {
  }

  lemma {:induction false} CardAfter(v: View, ops: seq<Op>, r: Ref)
    requires NoCreates(ops)
    ensures At(PerformAll(v, ops).cards, r) == Else(LastCard(ops, r), At(v.cards, r))
    decreases |ops|
  {
    if ops != [] {
      var n := |ops| - 1;
      CardAfter(v, ops[..n], r);
      CardStep(PerformAll(v, ops[..n]), ops[n], r);
    }
  }

  lemma {:induction false} LinkStep(v: View, op: Op, l: LinkKey)
    ensures At(Perform(v, op).links, l)
         == Else(At(v.links, l), if op.Join? && op.link == l then Some(op.data) else None)
  {
  }

  lemma {:induction false} LinkAfter(v: View, ops: seq<Op>, after: View, l: LinkKey)
    requires after == PerformAll(v, ops)
    ensures At(after.links, l) == Else(At(v.links, l), FirstData(ops, l))
    decreases |ops|
  {
    if ops != [] {
      var n := |ops| - 1;
      LinkAfter(v, ops[..n], PerformAll(v, ops[..n]), l);
      LinkStep(PerformAll(v, ops[..n]), ops[n], l);
    }
  }

  /** The data a list first gives a link is that of one of its joins; a link without any is not joined. */
  lemma {:induction false} JoinsAdded(ops: seq<Op>, l: LinkKey)
    ensures match FirstData(ops, l)
            case None => forall data :: Join(l, data) !in ops
            case Some(data) => Join(l, data) in ops
    decreases |ops|
  {
    if ops != [] {
      JoinsAdded(ops[..|ops| - 1], l);
      assert ops == ops[..|ops| - 1] + [ops[|ops| - 1]];
    }
  }

  lemma {:induction false} SameMap<K, V>(m: map<K, V>, n: map<K, V>)
    requires forall k :: At(m, k) == At(n, k)
    ensures m == n
  {
    forall k ensures k in m <==> k in n
             ensures k in m ==> m[k] == n[k] {
      assert At(m, k) == At(n, k);
    }
  }

  lemma {:induction false} AliasStep(v: View, op: Op)
    requires !op.Create? && !op.Also?
    ensures Perform(v, op).aliases == v.aliases + AliasOf(op)
  {
  }

  lemma {:induction false} AliasesAfter(v: View, ops: seq<Op>)
    requires NoCreates(ops)
    ensures PerformAll(v, ops).aliases == v.aliases + PutAliases(ops)
    decreases |ops|
  {
    if ops != [] {
      var n := |ops| - 1;
      AliasesAfter(v, ops[..n]);
      AliasStep(PerformAll(v, ops[..n]), ops[n]);
    }
  }

  // ---------------------------------------------------------------- repeating a list

  /** Two graphs that differ at most in their mentions. */
  predicate SameGraph(v: View, w: View) {
    v.cards == w.cards && v.aliases == w.aliases && v.links == w.links
  }

  /** Writing a list again changes no card, alias or link. */
  lemma {:induction false} PutsSettle(v: View, ops: seq<Op>)
    requires NoCreates(ops)
    ensures SameGraph(PerformAll(PerformAll(v, ops), ops), PerformAll(v, ops))
  {
    var once := PerformAll(v, ops);
    PutsStay(v, ops, once);
  }

  /** Every gap a list would fill is filled, and every link it would write is there. */
  predicate Filled(v: View, ops: seq<Op>) {
    forall i :: 0 <= i < |ops| ==>
      && (ops[i].Create? ==> ops[i].ref in v.cards)
      && (ops[i].Also? ==> AliasesOf(ops[i].ref, ops[i].alias) <= v.aliases)
      && (ops[i].Join? ==> ops[i].link in v.links)
  }

  predicate Within(v: View, w: View) {
    v.cards.Keys <= w.cards.Keys && v.links.Keys <= w.links.Keys && v.aliases <= w.aliases
  }

  lemma {:induction false} StepGrows(v: View, op: Op)
    ensures Within(v, Perform(v, op))
  {
  }

  lemma {:induction false} KeysStay(v: View, ops: seq<Op>)
    ensures Within(v, PerformAll(v, ops))
    decreases |ops|
  {
    if ops != [] {
      var before := PerformAll(v, ops[..|ops| - 1]);
      KeysStay(v, ops[..|ops| - 1]);
      StepGrows(before, ops[|ops| - 1]);
    }
  }

  lemma {:induction false} Fills(v: View, ops: seq<Op>)
    ensures Filled(PerformAll(v, ops), ops)
  {
    forall i | 0 <= i < |ops|
      ensures ops[i].Create? ==> ops[i].ref in PerformAll(v, ops).cards
      ensures ops[i].Also? ==> AliasesOf(ops[i].ref, ops[i].alias) <= PerformAll(v, ops).aliases
      ensures ops[i].Join? ==> ops[i].link in PerformAll(v, ops).links
    {
      FillsOne(v, ops, i);
    }
    hide AliasesOf, PerformAll;
  }

  lemma {:induction false} FillsOne(v: View, ops: seq<Op>, i: nat)
    requires i < |ops|
    ensures ops[i].Create? ==> ops[i].ref in PerformAll(v, ops).cards
    ensures ops[i].Also? ==> AliasesOf(ops[i].ref, ops[i].alias) <= PerformAll(v, ops).aliases
    ensures ops[i].Join? ==> ops[i].link in PerformAll(v, ops).links
  {
    var before, after := ops[..i], PerformAll(v, ops[..i + 1]);
    assert ops == ops[..i + 1] + ops[i + 1..] && ops[..i + 1][..i] == before;
    assert after == Perform(PerformAll(v, before), ops[i]);
    hide AliasesOf, PerformAll;
    PerformAppend(v, ops[..i + 1], ops[i + 1..]);
    KeysStay(after, ops[i + 1..]);
  }

  lemma {:induction false} FilledStays(v: View, ops: seq<Op>)
    requires NoPuts(ops) && Filled(v, ops)
    ensures SameGraph(PerformAll(v, ops), v)
    decreases |ops|
  {
    if ops != [] {
      FilledStays(v, ops[..|ops| - 1]);
    }
  }

  /** Filling gaps again changes no card, alias or link. */
  lemma {:induction false} CreatesSettle(v: View, ops: seq<Op>)
    requires NoPuts(ops)
    ensures SameGraph(PerformAll(PerformAll(v, ops), ops), PerformAll(v, ops))
  {
    Fills(v, ops);
    FilledStays(PerformAll(v, ops), ops);
  }

  /** Everything in `v` is in `w` as well, unchanged. */
  ghost predicate Kept(v: View, w: View) {
    && (forall r :: r in v.cards ==> At(w.cards, r) == Some(v.cards[r]))
    && (forall l :: l in v.links ==> At(w.links, l) == Some(v.links[l]))
    && v.aliases <= w.aliases
  }

  lemma {:induction false} KeptStep(v: View, op: Op)
    requires !op.Put?
    ensures Kept(v, Perform(v, op))
  {
  }

  /** Filling gaps leaves what is there alone. */
  lemma {:induction false} CreatesKeep(v: View, ops: seq<Op>)
    requires NoPuts(ops)
    ensures Kept(v, PerformAll(v, ops))
    decreases |ops|
  {
    if ops != [] {
      var n := |ops| - 1;
      CreatesKeep(v, ops[..n]);
      KeptStep(PerformAll(v, ops[..n]), ops[n]);
    }
  }

  lemma {:induction false} CardStays(v: View, puts: seq<Op>, w: View, r: Ref)
    requires NoCreates(puts) && Kept(PerformAll(v, puts), w)
    ensures At(PerformAll(w, puts).cards, r) == At(w.cards, r)
  {
    CardAfter(v, puts, r);
    CardAfter(w, puts, r);
  }

  lemma {:induction false} LinkStays(v: View, puts: seq<Op>, w: View, l: LinkKey)
    requires Kept(PerformAll(v, puts), w)
    ensures At(PerformAll(w, puts).links, l) == At(w.links, l)
  {
    LinkAfter(v, puts, PerformAll(v, puts), l);
    LinkAfter(w, puts, PerformAll(w, puts), l);
  }

  /** Where all that some writes left is still there, the same writes change nothing. */
  lemma {:induction false} PutsStay(v: View, puts: seq<Op>, w: View)
    requires NoCreates(puts) && Kept(PerformAll(v, puts), w)
    ensures SameGraph(PerformAll(w, puts), w)
  {
    var again := PerformAll(w, puts);
    forall r ensures At(again.cards, r) == At(w.cards, r) { CardStays(v, puts, w, r); }
    forall l ensures At(again.links, l) == At(w.links, l) { LinkStays(v, puts, w, l); }
    SameMap(again.cards, w.cards);
    SameMap(again.links, w.links);
    AliasesAfter(v, puts);
    AliasesAfter(w, puts);
  }

  lemma {:induction false} SameGraphStep(v: View, w: View, op: Op)
    requires SameGraph(v, w)
    ensures SameGraph(Perform(v, op), Perform(w, op))
  {
  }

  lemma {:induction false} SameGraphPerforms(v: View, w: View, ops: seq<Op>)
    requires SameGraph(v, w)
    ensures SameGraph(PerformAll(v, ops), PerformAll(w, ops))
    decreases |ops|
  {
    hide Perform, SameGraph;
    if ops != [] {
      var n := |ops| - 1;
      SameGraphPerforms(v, w, ops[..n]);
      SameGraphStep(PerformAll(v, ops[..n]), PerformAll(w, ops[..n]), ops[n]);
    }
  }

  /** Overwriting and then filling gaps, done twice, is done once. */
  lemma {:induction false} BothSettle(v: View, puts: seq<Op>, creates: seq<Op>)
    requires NoCreates(puts) && NoPuts(creates)
    ensures SameGraph(PerformAll(PerformAll(v, puts + creates), puts + creates), PerformAll(v, puts + creates))
  {
    var u := PerformAll(v, puts);
    var w := PerformAll(u, creates);
    PerformAppend(v, puts, creates);
    PerformAppend(w, puts, creates);
    CreatesKeep(u, creates);
    PutsStay(v, puts, w);
    SameGraphPerforms(PerformAll(w, puts), w, creates);
    CreatesSettle(u, creates);
  }

  // ---------------------------------------------------------------- many owners

  type Views = imap<Owner, View>

  ghost predicate Total(views: Views) {
    forall o :: o in views
  }

  ghost function Done(views: Views, owner: Owner, ops: seq<Op>): Views
    requires Total(views)
  {
    views[owner := PerformAll(views[owner], ops)]
  }

  lemma {:induction false} DoneNothing(views: Views, owner: Owner)
    requires Total(views)
    ensures Done(views, owner, []) == views
  {
  }

  lemma {:induction false} DoneAppend(views: Views, owner: Owner, a: seq<Op>, b: seq<Op>)
    requires Total(views)
    ensures Done(Done(views, owner, a), owner, b) == Done(views, owner, a + b)
  {
    PerformAppend(views[owner], a, b);
  }

  datatype Write = Write(owner: Owner, op: Op)

  ghost function Played(views: Views, writes: seq<Write>): (r: Views)
    requires Total(views)
    ensures Total(r)
    decreases |writes|
  {
    if writes == [] then views
    else
      var last := writes[|writes| - 1];
      Done(Played(views, writes[..|writes| - 1]), last.owner, [last.op])
  }

  function Own(writes: seq<Write>, owner: Owner): seq<Op>
    decreases |writes|
  {
    if writes == [] then []
    else
      var last := writes[|writes| - 1];
      Own(writes[..|writes| - 1], owner) + if last.owner == owner then [last.op] else []
  }

  /** However the writes of many owners interleave, each graph is what its own owner's writes made of it. */
  lemma {:induction false} OnlyOwnWritesMatter(views: Views, writes: seq<Write>, owner: Owner)
    requires Total(views)
    ensures Played(views, writes)[owner] == PerformAll(views[owner], Own(writes, owner))
    decreases |writes|
  {
    if writes != [] {
      var last := writes[|writes| - 1];
      var before := Own(writes[..|writes| - 1], owner);
      OnlyOwnWritesMatter(views, writes[..|writes| - 1], owner);
      PerformAppend(views[owner], before, [last.op]);
      assert last.owner != owner ==> Own(writes, owner) == before;
    }
  }

  /** So a repetition is harmless with any writes of other owners between, before and inside the two passes. */
  lemma {:induction false} RepetitionSettles(views: Views, writes: seq<Write>, owner: Owner, puts: seq<Op>, creates: seq<Op>)
    requires Total(views) && NoCreates(puts) && NoPuts(creates)
    requires Own(writes, owner) == (puts + creates) + (puts + creates)
    ensures SameGraph(Played(views, writes)[owner], PerformAll(views[owner], puts + creates))
  {
    OnlyOwnWritesMatter(views, writes, owner);
    PerformAppend(views[owner], puts + creates, puts + creates);
    BothSettle(views[owner], puts, creates);
  }
}
