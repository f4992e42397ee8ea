/** Ingested items, and which of them an email replies to. */
module Parents {
  import opened Prelude
  import opened Strings
  import opened GraphView

  datatype Meta = Meta(
    from: string, to: seq<string>, cc: seq<string>,
    messageId: string, threadId: string, inReplyTo: string, references: seq<string>)

  datatype Item = Item(id: string, owner: Owner, title: string, body: string, externalId: string, ingestedAt: int, meta: Option<Meta>)

  // ---------------------------------------------------------------- who replied to whom

  /** Message references that may name the parent: the replied-to one first, then the others once each. */
  function Candidates(m: Meta): seq<string> {
    MoreCandidates(if m.inReplyTo != "" then [Strip(m.inReplyTo)] else [], m.references)
  }

  function MoreCandidates(found: seq<string>, references: seq<string>): seq<string>
    decreases |references|
  {
    if references == [] then found
    else
      var n := |references| - 1;
      WithCandidate(MoreCandidates(found, references[..n]), Strip(references[n]))
  }

  function WithCandidate(found: seq<string>, ref: string): seq<string> {
    if ref != "" && ref !in found then found + [ref] else found
  }

  predicate Provides(i: Item, owner: Owner, ref: string) {
    i.owner == owner && i.meta.Some? && i.meta.value.messageId == ref
  }

  predicate Exposes(i: Item, owner: Owner, ref: string) {
    i.owner == owner && i.externalId == ref
  }

  /** The first item that matches, by message id or else by external id. */
  function FirstWhere(items: seq<Item>, p: Item -> bool): (found: Option<Item>)
    ensures found.Some? ==> found.value in items && p(found.value)
    ensures found.None? ==> forall i :: 0 <= i < |items| ==> !p(items[i])
  {
    if items == [] then None else if p(items[0]) then Some(items[0]) else FirstWhere(items[1..], p)
  }

  /** A lookup that allows one row at most found several. */
  datatype LookupError = SeveralMatch

  type Lookup = Result<Option<Item>, LookupError>

  /** The items that match, in order. */
  function Where(items: seq<Item>, p: Item -> bool): (r: seq<Item>)
    ensures forall i :: i in r <==> i in items && p(i)
  {
    if items == [] then []
    else
      assert items == [items[0]] + items[1..];
      (if p(items[0]) then [items[0]] else []) + Where(items[1..], p)
  }

  function OneOrNone(items: seq<Item>, p: Item -> bool): (found: Lookup)
    ensures found.Ok? && found.value.Some? ==> found.value.value in items && p(found.value.value)
    ensures found == Ok(None) <==> forall i :: i in items ==> !p(i)
  {
    var matching := Where(items, p);
    assert matching != [] ==> matching[0] in matching;
    if matching == [] then Ok(None) else if |matching| == 1 then Ok(Some(matching[0])) else Err(SeveralMatch)
  }

  function FindItemByMessageRef(items: seq<Item>, owner: Owner, ref: string): Lookup {
    if ref == "" then Ok(None)
    else
      var byProvider := OneOrNone(items, Providing(owner, ref));
      if byProvider != Ok(None) then byProvider else OneOrNone(items, Exposing(owner, ref))
  }

  function Providing(owner: Owner, ref: string): Item -> bool {
    (i: Item) => Provides(i, owner, ref)
  }

  function Exposing(owner: Owner, ref: string): Item -> bool {
    (i: Item) => Exposes(i, owner, ref)
  }

  function FirstFound(items: seq<Item>, owner: Owner, candidates: seq<string>): Lookup {
    if candidates == [] then Ok(None)
    else
      var found := FindItemByMessageRef(items, owner, candidates[0]);
      if found != Ok(None) then found else FirstFound(items, owner, candidates[1..])
  }

  predicate InThread(i: Item, item: Item, thread: string) {
    i.owner == item.owner && i.meta.Some? && i.meta.value.threadId == thread && i.id != item.id
  }

  /** The oldest other item of a thread. */
  function OldestInThread(items: seq<Item>, item: Item, thread: string): (found: Option<Item>)
    ensures found.Some? ==> found.value in items && InThread(found.value, item, thread)
    ensures found.None? ==> forall i :: 0 <= i < |items| ==> !InThread(items[i], item, thread)
    ensures found.Some? ==> forall i :: 0 <= i < |items| && InThread(items[i], item, thread) ==>
                              found.value.ingestedAt <= items[i].ingestedAt
  {
    if items == [] then None
    else
      var rest := OldestInThread(items[1..], item, thread);
      assert items == [items[0]] + items[1..];
      if InThread(items[0], item, thread) && (rest.None? || items[0].ingestedAt <= rest.value.ingestedAt)
      then Some(items[0]) else rest
  }

  function ParentItem(items: seq<Item>, item: Item): Lookup {
    match item.meta
    case None => Ok(None)
    case Some(m) =>
      var replied := FirstFound(items, item.owner, Candidates(m));
      if replied != Ok(None) then replied
      else Ok(if m.threadId != "" then OldestInThread(items, item, m.threadId) else None)
  }

  /** A parent is always an item of the same owner. */
  lemma {:induction false} ParentHasOwner(items: seq<Item>, item: Item, parent: Item)
    requires ParentItem(items, item) == Ok(Some(parent))
    ensures parent in items && parent.owner == item.owner
  {
    FoundHasOwner(items, item.owner, Candidates(item.meta.value));
  }

  lemma {:induction false} FoundHasOwner(items: seq<Item>, owner: Owner, candidates: seq<string>)
    ensures var found := FirstFound(items, owner, candidates);
            found.Ok? && found.value.Some? ==> found.value.value in items && found.value.value.owner == owner
  {
    if candidates != [] {
      FoundHasOwner(items, owner, candidates[1..]);
    }
  }

  method CollectCandidates(first: seq<string>, references: seq<string>) returns (candidates: seq<string>)
    ensures candidates == MoreCandidates(first, references)
  {
    hide Strip;
    candidates := first;
    var i := 0;
    while i < |references|
      invariant 0 <= i <= |references| && candidates == MoreCandidates(first, references[..i])
    {
      assert references[..i + 1][..i] == references[..i];
      var ref := Strip(references[i]);
      if ref != "" && ref !in candidates {
        candidates := candidates + [ref];
      }
      i := i + 1;
    }
    assert references[..i] == references;
  }

  method FindFirst(items: seq<Item>, owner: Owner, candidates: seq<string>) returns (found: Lookup)
    ensures found == FirstFound(items, owner, candidates)
  {
    var j := 0;
    while j < |candidates|
      invariant 0 <= j <= |candidates|
      invariant FirstFound(items, owner, candidates) == FirstFound(items, owner, candidates[j..])
    {
      found := FindItemByMessageRef(items, owner, candidates[j]);
      if found != Ok(None) {
        return;
      }
      j := j + 1;
    }
    found := Ok(None);
  }

  method ResolveParentItem(items: seq<Item>, item: Item) returns (parent: Lookup)
    ensures parent == ParentItem(items, item)
    ensures ParentSays(items, item, parent)
  {
    hide ParentSays;
    ParentIs(items, item);
    if item.meta.None? {
      return Ok(None);
    }
    var m := item.meta.value;
    var candidates := CollectCandidates(if m.inReplyTo != "" then [Strip(m.inReplyTo)] else [], m.references);
    parent := FindFirst(items, item.owner, candidates);
    if parent == Ok(None) && m.threadId != "" {
      parent := Ok(OldestInThread(items, item, m.threadId));
    }
  }

  // ---------------------------------------------------------------- which item that is

  /** The references of a message: the one it replies to, then the others in order. */
  function RefAt(m: Meta, k: nat): string
    requires k <= |m.references|
  {
    Strip(if k == 0 then m.inReplyTo else m.references[k - 1])
  }

  predicate HasMessageId(i: Item, owner: Owner, ref: string) {
    i.owner == owner && i.meta.Some? && i.meta.value.messageId == ref
  }

  predicate HasExternalId(i: Item, owner: Owner, ref: string) {
    i.owner == owner && i.externalId == ref
  }

  /** Some item of the owner goes by the reference. */
  predicate Known(items: seq<Item>, owner: Owner, ref: string) {
    ref != "" && exists i :: i in items && (HasMessageId(i, owner, ref) || HasExternalId(i, owner, ref))
  }

  /** `p` goes by the reference: by its message id, or by its external id if no message id is the reference. */
  predicate GoesBy(items: seq<Item>, owner: Owner, ref: string, p: Item) {
    && p in items
    && if exists i :: i in items && HasMessageId(i, owner, ref) then HasMessageId(p, owner, ref) else HasExternalId(p, owner, ref)
  }

  /** The `k`-th reference is the first that anything goes by. */
  predicate FirstKnown(items: seq<Item>, owner: Owner, m: Meta, k: nat) {
    k <= |m.references| && Known(items, owner, RefAt(m, k)) && forall j: nat :: j < k ==> !Known(items, owner, RefAt(m, j))
  }

  predicate OtherInThread(i: Item, item: Item, thread: string) {
    i.owner == item.owner && i.id != item.id && i.meta.Some? && i.meta.value.threadId == thread
  }

  /**
   The parent of an item: what goes by its first known reference, or else the oldest other item of its thread,
   or else none.
   */
  ghost predicate IsParent(items: seq<Item>, item: Item, parent: Option<Item>) {
    match item.meta
    case None => parent == None
    case Some(m) =>
      if exists k: nat :: FirstKnown(items, item.owner, m, k)
      then parent.Some? && exists k: nat :: FirstKnown(items, item.owner, m, k) && GoesBy(items, item.owner, RefAt(m, k), parent.value)
      else if m.threadId != "" && exists i :: i in items && OtherInThread(i, item, m.threadId)
      then
        && parent.Some? && parent.value in items && OtherInThread(parent.value, item, m.threadId)
        && forall i :: i in items && OtherInThread(i, item, m.threadId) ==> parent.value.ingestedAt <= i.ingestedAt
      else parent == None
  }

  /** More than one item goes by the reference in the way that decides. */
  predicate Ambiguous(items: seq<Item>, owner: Owner, ref: string) {
    if exists i :: i in items && HasMessageId(i, owner, ref)
    then exists j, k :: 0 <= j < k < |items| && HasMessageId(items[j], owner, ref) && HasMessageId(items[k], owner, ref)
    else exists j, k :: 0 <= j < k < |items| && HasExternalId(items[j], owner, ref) && HasExternalId(items[k], owner, ref)
  }

  /** The item at some position, or the items at two, match. */
  predicate Once(items: seq<Item>, p: Item -> bool) {
    exists k :: 0 <= k < |items| && p(items[k])
  }

  predicate Twice(items: seq<Item>, p: Item -> bool) {
    exists j, k :: 0 <= j < k < |items| && p(items[j]) && p(items[k])
  }

  lemma {:induction false} OnceCons(items: seq<Item>, p: Item -> bool)
    requires items != []
    ensures Once(items, p) <==> p(items[0]) || Once(items[1..], p)
  {
    if Once(items[1..], p) {
      var k :| 0 <= k < |items[1..]| && p(items[1..][k]);
      assert p(items[k + 1]);
    }
    if Once(items, p) && !p(items[0]) {
      var k :| 0 <= k < |items| && p(items[k]);
      assert p(items[1..][k - 1]);
    }
  }

  lemma {:induction false} TwiceCons(items: seq<Item>, p: Item -> bool)
    requires items != []
    ensures Twice(items, p) <==> Twice(items[1..], p) || (p(items[0]) && Once(items[1..], p))
  {
    if Twice(items[1..], p) {
      var j, k :| 0 <= j < k < |items[1..]| && p(items[1..][j]) && p(items[1..][k]);
      assert p(items[j + 1]) && p(items[k + 1]);
    }
    if p(items[0]) && Once(items[1..], p) {
      var k :| 0 <= k < |items[1..]| && p(items[1..][k]);
      assert p(items[0]) && p(items[k + 1]);
    }
    if Twice(items, p) {
      var j, k :| 0 <= j < k < |items| && p(items[j]) && p(items[k]);
      assert p(items[1..][k - 1]);
      if j > 0 {
        assert p(items[1..][j - 1]) && p(items[1..][k - 1]);
      }
    }
  }

  lemma {:induction false} WhereTwice(items: seq<Item>, p: Item -> bool)
    ensures Where(items, p) != [] <==> Once(items, p)
    ensures |Where(items, p)| > 1 <==> Twice(items, p)
  {
    if items != [] {
      OnceCons(items, p);
      TwiceCons(items, p);
      WhereTwice(items[1..], p);
    }
  }

  lemma {:induction false} OneOrNoneErr(items: seq<Item>, p: Item -> bool)
    ensures OneOrNone(items, p).Err? <==> Twice(items, p)
  {
    WhereTwice(items, p);
  }

  lemma {:induction false} ProvidingIs(owner: Owner, ref: string)
    ensures forall i: Item :: Providing(owner, ref)(i) <==> HasMessageId(i, owner, ref)
    ensures forall i: Item :: Exposing(owner, ref)(i) <==> HasExternalId(i, owner, ref)
  {
  }

  lemma {:induction false} FindAmbiguous(items: seq<Item>, owner: Owner, ref: string)
    ensures FindItemByMessageRef(items, owner, ref).Err? <==> ref != "" && Ambiguous(items, owner, ref)
  {
    hide OneOrNone, Providing, Exposing, HasMessageId, HasExternalId;
    ProvidingIs(owner, ref);
    OneOrNoneErr(items, Providing(owner, ref));
    OneOrNoneErr(items, Exposing(owner, ref));
  }

  lemma {:induction false} FindKnown(items: seq<Item>, owner: Owner, ref: string)
    ensures FindItemByMessageRef(items, owner, ref) == Ok(None) <==> !Known(items, owner, ref)
    ensures var found := FindItemByMessageRef(items, owner, ref);
            && (found.Ok? && found.value.Some? ==> GoesBy(items, owner, ref, found.value.value))
            && (found.Err? <==> ref != "" && Ambiguous(items, owner, ref))
  {
    FindAmbiguous(items, owner, ref);
    hide OneOrNone, Providing, Exposing, HasMessageId, HasExternalId, Ambiguous;
    ProvidingIs(owner, ref);
  }

  type Finder = nat -> Lookup

  /** What is found first, by the references one after another. */
  function FoundAmong(find: Finder, n: nat): Lookup {
    if n == 0 then Ok(None)
    else
      var before := FoundAmong(find, n - 1);
      if before != Ok(None) then before else find(n - 1)
  }

  lemma {:induction false} FoundAmongIs(find: Finder, n: nat)
    ensures var found := FoundAmong(find, n);
            && (found == Ok(None) ==> forall j: nat :: j < n ==> find(j) == Ok(None))
            && (found != Ok(None) ==>
                  exists k: nat :: k < n && find(k) == found && forall j: nat :: j < k ==> find(j) == Ok(None))
  {
    if n > 0 {
      FoundAmongIs(find, n - 1);
    }
  }

  function RefFinder(items: seq<Item>, owner: Owner, m: Meta): Finder {
    (k: nat) => if k <= |m.references| then FindItemByMessageRef(items, owner, RefAt(m, k)) else Ok(None)
  }

  lemma {:induction false} FoundWith(items: seq<Item>, owner: Owner, found: seq<string>, ref: string)
    ensures FirstFound(items, owner, WithCandidate(found, ref))
         == if FirstFound(items, owner, found) != Ok(None) then FirstFound(items, owner, found)
            else FindItemByMessageRef(items, owner, ref)
  {
    hide FindItemByMessageRef;
    FoundSnoc(items, owner, found, ref);
    if ref in found && FirstFound(items, owner, found) == Ok(None) {
      FoundNone(items, owner, found, ref);
    }
    if ref == "" {
      NoRefFindsNothing(items, owner);
    }
  }

  lemma {:induction false} NoRefFindsNothing(items: seq<Item>, owner: Owner)
    ensures FindItemByMessageRef(items, owner, "") == Ok(None)
  {
  }

  lemma {:induction false} FoundSnoc(items: seq<Item>, owner: Owner, found: seq<string>, ref: string)
    ensures FirstFound(items, owner, found + [ref])
         == if FirstFound(items, owner, found) != Ok(None) then FirstFound(items, owner, found)
            else FindItemByMessageRef(items, owner, ref)
  {
    hide FindItemByMessageRef;
    if found == [] {
      assert found + [ref] == [ref] && [ref][1..] == [];
    } else {
      assert (found + [ref])[1..] == found[1..] + [ref];
      FoundSnoc(items, owner, found[1..], ref);
    }
  }

  lemma {:induction false} FoundNone(items: seq<Item>, owner: Owner, found: seq<string>, ref: string)
    requires ref in found && FirstFound(items, owner, found) == Ok(None)
    ensures FindItemByMessageRef(items, owner, ref) == Ok(None)
  {
    hide FindItemByMessageRef;
    if found[0] != ref {
      FoundNone(items, owner, found[1..], ref);
    }
  }

  /** Dropping blank and repeated references loses nothing. */
  lemma {:induction false} CandidatesFind(items: seq<Item>, owner: Owner, m: Meta, n: nat)
    requires n <= |m.references|
    ensures FirstFound(items, owner, MoreCandidates(if m.inReplyTo != "" then [Strip(m.inReplyTo)] else [], m.references[..n]))
         == FoundAmong(RefFinder(items, owner, m), n + 1)
  {
    hide FindItemByMessageRef, Strip;
    var first := if m.inReplyTo != "" then [Strip(m.inReplyTo)] else [];
    if n == 0 {
      FirstCandidateFinds(items, owner, m);
      assert m.references[..0] == [];
    } else {
      hide FirstFound;
      CandidatesFind(items, owner, m, n - 1);
      assert m.references[..n][..n - 1] == m.references[..n - 1];
      FoundWith(items, owner, MoreCandidates(first, m.references[..n - 1]), RefAt(m, n));
    }
  }

  lemma {:induction false} FirstCandidateFinds(items: seq<Item>, owner: Owner, m: Meta)
    ensures FirstFound(items, owner, if m.inReplyTo != "" then [Strip(m.inReplyTo)] else []) == FoundAmong(RefFinder(items, owner, m), 1)
  {
    StripNothing();
    hide FindItemByMessageRef, Strip;
    FoundSnoc(items, owner, [], RefAt(m, 0));
    assert [] + [RefAt(m, 0)] == [RefAt(m, 0)];
    if m.inReplyTo == "" {
      NoRefFindsNothing(items, owner);
      assert RefAt(m, 0) == "";
    }
    assert FoundAmong(RefFinder(items, owner, m), 0) == Ok(None);
  }

  lemma {:induction false} FinderKnows(items: seq<Item>, owner: Owner, m: Meta)
    ensures forall j: nat :: j <= |m.references| ==>
              (RefFinder(items, owner, m)(j) == Ok(None) <==> !Known(items, owner, RefAt(m, j)))
  {
    hide FindItemByMessageRef, Known, GoesBy, Ambiguous;
    forall j: nat | j <= |m.references|
      ensures RefFinder(items, owner, m)(j) == Ok(None) <==> !Known(items, owner, RefAt(m, j))
    {
      FindKnown(items, owner, RefAt(m, j));
    }
  }

  lemma {:induction false} OneFirstKnown(items: seq<Item>, owner: Owner, m: Meta, j: nat, k: nat)
    requires FirstKnown(items, owner, m, j) && FirstKnown(items, owner, m, k)
    ensures j == k
  {
    hide Known;
  }

  /** The reference that decides whether there is a parent is ambiguous. */
  ghost predicate Unclear(items: seq<Item>, item: Item) {
    item.meta.Some?
    && exists k: nat :: FirstKnown(items, item.owner, item.meta.value, k) && Ambiguous(items, item.owner, RefAt(item.meta.value, k))
  }

  ghost predicate ParentSays(items: seq<Item>, item: Item, parent: Lookup) {
    (parent.Ok? ==> IsParent(items, item, parent.value)) && (parent.Err? <==> Unclear(items, item))
  }

  lemma {:induction false} ParentByReference(items: seq<Item>, item: Item, k: nat)
    requires item.meta.Some? && FirstKnown(items, item.owner, item.meta.value, k)
    ensures ParentSays(items, item, FindItemByMessageRef(items, item.owner, RefAt(item.meta.value, k)))
  {
    hide FindItemByMessageRef, GoesBy, Ambiguous, FirstKnown, Known;
    var m := item.meta.value;
    KnownAt(items, item.owner, m, k);
    FindKnown(items, item.owner, RefAt(m, k));
    forall j: nat | FirstKnown(items, item.owner, m, j) ensures j == k {
      OneFirstKnown(items, item.owner, m, j, k);
    }
  }

  lemma {:induction false} KnownAt(items: seq<Item>, owner: Owner, m: Meta, k: nat)
    requires FirstKnown(items, owner, m, k)
    ensures k <= |m.references| && Known(items, owner, RefAt(m, k)) && RefAt(m, k) != ""
  {
  }

  lemma {:induction false} ParentByThread(items: seq<Item>, item: Item)
    requires item.meta.Some? && forall k: nat :: !FirstKnown(items, item.owner, item.meta.value, k)
    ensures ParentSays(items, item, Ok(if item.meta.value.threadId != "" then OldestInThread(items, item, item.meta.value.threadId) else None))
  {
    hide FirstKnown, Ambiguous;
    var thread := item.meta.value.threadId;
    assert forall i :: InThread(i, item, thread) <==> OtherInThread(i, item, thread);
  }

  lemma {:induction false} FirstHitIsKnown(items: seq<Item>, owner: Owner, m: Meta, k: nat)
    requires k <= |m.references| && RefFinder(items, owner, m)(k) != Ok(None)
    requires forall j: nat :: j < k ==> RefFinder(items, owner, m)(j) == Ok(None)
    ensures FirstKnown(items, owner, m, k)
  {
    hide FindItemByMessageRef, Known, RefFinder;
    FinderKnows(items, owner, m);
  }

  lemma {:induction false} NoHitNoneKnown(items: seq<Item>, owner: Owner, m: Meta)
    requires forall j: nat :: j <= |m.references| ==> RefFinder(items, owner, m)(j) == Ok(None)
    ensures forall k: nat :: !FirstKnown(items, owner, m, k)
  {
    hide FindItemByMessageRef, Known, RefFinder;
    FinderKnows(items, owner, m);
  }

  lemma {:induction false} RepliedIs(items: seq<Item>, owner: Owner, m: Meta)
    ensures FirstFound(items, owner, Candidates(m)) == FoundAmong(RefFinder(items, owner, m), |m.references| + 1)
  {
    hide FirstFound, FoundAmong, RefFinder, MoreCandidates, Strip;
    CandidatesFind(items, owner, m, |m.references|);
    assert m.references[..|m.references|] == m.references;
  }

  lemma {:induction false} RepliedAt(items: seq<Item>, owner: Owner, m: Meta) returns (k: nat)
    requires FirstFound(items, owner, Candidates(m)) != Ok(None)
    ensures FirstKnown(items, owner, m, k)
    ensures FirstFound(items, owner, Candidates(m)) == FindItemByMessageRef(items, owner, RefAt(m, k))
  {
    hide FindItemByMessageRef, FirstKnown, FirstFound, FoundAmong, Candidates, Strip, Known;
    var find, n := RefFinder(items, owner, m), |m.references| + 1;
    RepliedIs(items, owner, m);
    FoundAmongIs(find, n);
    k :| k < n && find(k) == FoundAmong(find, n) && forall j: nat :: j < k ==> find(j) == Ok(None);
    FirstHitIsKnown(items, owner, m, k);
  }

  lemma {:induction false} NotReplied(items: seq<Item>, owner: Owner, m: Meta)
    requires FirstFound(items, owner, Candidates(m)) == Ok(None)
    ensures forall k: nat :: !FirstKnown(items, owner, m, k)
  {
    hide FindItemByMessageRef, FirstKnown, FirstFound, FoundAmong, Candidates, Strip, RefFinder;
    RepliedIs(items, owner, m);
    FoundAmongIs(RefFinder(items, owner, m), |m.references| + 1);
    NoHitNoneKnown(items, owner, m);
  }

  /** The parent found is the parent, and the lookup raises exactly when the deciding reference is ambiguous. */
  lemma {:induction false} ParentIs(items: seq<Item>, item: Item)
    ensures ParentSays(items, item, ParentItem(items, item))
  {
    hide FindItemByMessageRef, FirstKnown;
    if item.meta.Some? {
      hide ParentSays, FirstFound, Candidates, OldestInThread;
      if FirstFound(items, item.owner, Candidates(item.meta.value)) == Ok(None) {
        NotReplied(items, item.owner, item.meta.value);
        ParentByThread(items, item);
      } else {
        var k := RepliedAt(items, item.owner, item.meta.value);
        ParentByReference(items, item, k);
      }
    }
  }
}
