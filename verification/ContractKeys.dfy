/** When a contract key tells its parties from all others, bars in names included. */
module ContractKeys {
  import opened Prelude
  import opened Strings
  import opened Ontology

  // ---------------------------------------------------------------- normal forms

  /** A name in normal form. */
  predicate Normal(s: string) {
    s != [] && NormalizeName(s) == s
  }

  /** Lower-case words. */
  predicate GoodWords(words: seq<string>) {
    && (forall i :: 0 <= i < |words| ==> words[i] != [] && Lower(words[i]) == words[i])
    && (forall i, c :: 0 <= i < |words| && c in words[i] ==> !IsSpace(c))
  }

  lemma {:induction false} NormalToWords(s: string) returns (words: seq<string>)
    requires Normal(s)
    ensures GoodWords(words) && words != [] && s == Join(' ', words)
  {
    words := LowerAll(Tokens(s));
    NormalizedIsJoin(s);
    WordsStayWords(s);
    LowerAllOnce(Tokens(s));
    assert forall i :: 0 <= i < |words| ==> Lower(words[i]) == LowerAll(words)[i];
  }

  lemma {:induction false} WordsToNormal(words: seq<string>)
    requires GoodWords(words) && words != []
    ensures Normal(Join(' ', words))
  {
    TokensOfJoin(words);
    NormalizedIsJoin(Join(' ', words));
    assert LowerAll(words) == words;
    assert Separable(' ', words) by {
      assert forall i :: 0 <= i < |words| && ' ' in words[i] ==> !IsSpace(' ');
    }
    JoinHasSep(' ', words);
  }

  function Barred(b: string, c: string): (bar: string)
    ensures |bar| == |b| + 1 + |c|
  {
    b + ['|'] + c
  }

  /** The words of `a | b`: the bar sticks to the words beside it. */
  function Glued(a: seq<string>, b: seq<string>): seq<string>
    requires a != [] && b != []
  {
    if |a| == 1 then [Barred(a[0], b[0])] + b[1..] else [a[0]] + Glued(a[1..], b)
  }

  lemma {:induction false} JoinCons(sep: char, first: string, rest: seq<string>)
    requires rest != []
    ensures Join(sep, [first] + rest) == first + [sep] + Join(sep, rest)
  {
    assert ([first] + rest)[1..] == rest;
  }

  lemma {:induction false} GluedJoins(a: seq<string>, b: seq<string>)
    requires a != [] && b != []
    ensures Glued(a, b) != [] && Join(' ', Glued(a, b)) == Barred(Join(' ', a), Join(' ', b))
  {
    if |a| == 1 {
      if |b| > 1 {
        JoinCons(' ', Barred(a[0], b[0]), b[1..]);
      }
    } else {
      GluedJoins(a[1..], b);
      JoinCons(' ', a[0], Glued(a[1..], b));
    }
  }

  lemma {:induction false} BarredWord(b: string, c: string)
    requires Lower(b) == b && Lower(c) == c
    requires forall x :: x in b || x in c ==> !IsSpace(x)
    ensures Lower(Barred(b, c)) == Barred(b, c) && forall x :: x in Barred(b, c) ==> !IsSpace(x)
  {
    LowerAppend(b, ['|']);
    LowerAppend(b + ['|'], c);
    assert Lower(['|']) == ['|'];
  }

  lemma {:induction false} GluedWords(a: seq<string>, b: seq<string>)
    requires a != [] && b != [] && GoodWords(a) && GoodWords(b)
    ensures GoodWords(Glued(a, b))
  {
    if |a| == 1 {
      BarredWord(a[0], b[0]);
    } else {
      GluedWords(a[1..], b);
    }
  }

  lemma {:induction false} BarredNormal(b: string, c: string)
    requires Normal(b) && Normal(c)
    ensures Normal(Barred(b, c))
  {
    var v := NormalToWords(b);
    var w := NormalToWords(c);
    GluedWords(v, w);
    GluedJoins(v, w);
    WordsToNormal(Glued(v, w));
  }

  // ---------------------------------------------------------------- lists of names

  type Names = string -> bool

  /** Names that a bar can join are names again. */
  ghost predicate Closed(name: Names) {
    !name("") && forall b, c :: name(b) && name(c) ==> name(Barred(b, c))
  }

  predicate Listing(parts: seq<string>, name: Names) {
    StrictlySorted(parts) && forall i :: 0 <= i < |parts| ==> name(parts[i])
  }

  /** A bar at `k` cuts the name into two names in order. */
  predicate CutsAt(p: string, k: nat, name: Names) {
    0 < k < |p| - 1 && p[k] == '|' && name(p[..k]) && name(p[k + 1..]) && Less(p[..k], p[k + 1..])
  }

  predicate Splits(p: string, name: Names) {
    exists k: nat :: k < |p| && CutsAt(p, k, name)
  }

  /** No other listing reads the same when joined. */
  ghost predicate Tells(parts: seq<string>, name: Names) {
    forall other :: Listing(other, name) && Join('|', other) == Join('|', parts) ==> other == parts
  }

  lemma {:induction false} JoinedIsName(parts: seq<string>, name: Names)
    requires Closed(name) && Listing(parts, name) && parts != []
    ensures name(Join('|', parts))
  {
    if |parts| > 1 {
      JoinedIsName(parts[1..], name);
      assert name(Barred(parts[0], Join('|', parts[1..])));
    }
  }

  lemma {:induction false} LessExtends(a: string, b: string, x: string)
    requires Less(a, b)
    ensures Less(a, b + x)
  {
    if a != [] && a[0] == b[0] {
      LessExtends(a[1..], b[1..], x);
      assert (b + x)[1..] == b[1..] + x;
    }
  }

  lemma {:induction false} JoinStarts(parts: seq<string>) returns (rest: string)
    requires parts != []
    ensures Join('|', parts) == parts[0] + rest
  {
    rest := if |parts| == 1 then "" else ['|'] + Join('|', parts[1..]);
  }

  lemma {:induction false} BarredSplits(l: string, r: string, name: Names)
    requires name(l) && name(r) && Less(l, r) && l != []
    ensures Splits(Barred(l, r), name)
  {
    var p := Barred(l, r);
    assert p[..|l|] == l && p[|l| + 1..] == r && p[|l|] == '|';
    assert CutsAt(p, |l|, name);
  }

  /** A joined listing of several names splits after the first. */
  lemma {:induction false} JoinedSplits(parts: seq<string>, name: Names)
    requires Closed(name) && Listing(parts, name) && |parts| > 1
    ensures Splits(Join('|', parts), name)
  {
    JoinedIsName(parts[1..], name);
    var rest := JoinStarts(parts[1..]);
    LessExtends(parts[0], parts[1], rest);
    BarredSplits(parts[0], Join('|', parts[1..]), name);
  }

  lemma {:induction false} FewTell(parts: seq<string>, name: Names)
    requires Closed(name) && Listing(parts, name) && |parts| <= 1
    requires forall p :: p in parts ==> !Splits(p, name)
    ensures Tells(parts, name)
  {
    forall other | Listing(other, name) && Join('|', other) == Join('|', parts) ensures other == parts {
      if |other| > 1 {
        JoinedSplits(other, name);
      }
    }
  }

  /** Several names read like the one name that they join to. */
  lemma {:induction false} ManyDoNotTell(parts: seq<string>, name: Names)
    requires Closed(name) && Listing(parts, name) && |parts| > 1
    ensures !Tells(parts, name)
  {
    JoinedIsName(parts, name);
    assert Listing([Join('|', parts)], name);
  }

  /** A name that splits reads like its two halves. */
  lemma {:induction false} SplitDoesNotTell(p: string, name: Names)
    requires Splits(p, name)
    ensures !Tells([p], name)
  {
    var k: nat :| k < |p| && CutsAt(p, k, name);
    var l, r := p[..k], p[k + 1..];
    var both := [l] + [r];
    assert p == l + ['|'] + r;
    JoinCons('|', l, [r]);
    assert Join('|', both) == p;
    assert Listing(both, name);
  }

  lemma {:induction false} TellsIff(parts: seq<string>, name: Names)
    requires Closed(name) && Listing(parts, name)
    ensures Tells(parts, name) <==> |parts| <= 1 && forall p :: p in parts ==> !Splits(p, name)
  {
    if |parts| > 1 {
      ManyDoNotTell(parts, name);
    } else if p :| p in parts && Splits(p, name) {
      assert parts == [p];
      SplitDoesNotTell(p, name);
    } else {
      FewTell(parts, name);
    }
  }

  // ---------------------------------------------------------------- from names to parties

  /** How a list of parties becomes a listing: every listing is its own. */
  type Lister = seq<string> -> seq<string>

  ghost predicate Lists(list: Lister, name: Names) {
    && (forall ps :: Listing(list(ps), name))
    && (forall parts :: Listing(parts, name) ==> list(parts) == parts)
  }

  /** No other set of names has a listing that reads the same when joined. */
  ghost predicate SetTells(list: Lister, ps: seq<string>) {
    forall qs :: Join('|', list(qs)) == Join('|', list(ps)) ==> Elements(list(qs)) == Elements(list(ps))
  }

  lemma {:induction false} SetTellsIff(list: Lister, name: Names, ps: seq<string>)
    requires Lists(list, name)
    ensures SetTells(list, ps) <==> Tells(list(ps), name)
  {
    if SetTells(list, ps) {
      forall other | Listing(other, name) && Join('|', other) == Join('|', list(ps)) ensures other == list(ps) {
        assert list(other) == other;
        SortedUnique(other, list(ps));
      }
    }
    if Tells(list(ps), name) {
      forall qs | Join('|', list(qs)) == Join('|', list(ps)) ensures Elements(list(qs)) == Elements(list(ps)) {
        assert Listing(list(qs), name);
      }
    }
  }

  lemma {:induction false} SizeIsLength(s: seq<string>)
    requires StrictlySorted(s)
    ensures |Elements(s)| == |s|
  {
    NoElements(s);
    if s != [] {
      TailElements(s);
      SizeIsLength(s[1..]);
      assert s[0] in Elements(s);
    }
  }

  lemma {:induction false} SetTellsExactly(list: Lister, name: Names, ps: seq<string>)
    requires Lists(list, name) && Closed(name)
    ensures SetTells(list, ps)
       <==> |Elements(list(ps))| <= 1 && forall p :: p in Elements(list(ps)) ==> !Splits(p, name)
  {
    SetTellsIff(list, name, ps);
    TellsIff(list(ps), name);
    SizeIsLength(list(ps));
  }

  function PartyList(ps: seq<string>): seq<string> {
    Sorted(NormalizedParties(ps))
  }

  lemma {:induction false} NormalIsClosed()
    ensures Closed(Normal)
  {
    forall b, c | Normal(b) && Normal(c) ensures Normal(Barred(b, c)) {
      BarredNormal(b, c);
    }
  }

  lemma {:induction false} PartiesAreListed(ps: seq<string>)
    ensures Listing(PartyList(ps), Normal)
  {
    var sorted := PartyList(ps);
    SortedSorts(NormalizedParties(ps));
    forall i | 0 <= i < |sorted| ensures Normal(sorted[i]) {
      assert sorted[i] in Elements(sorted);
      assert sorted[i] in NormalizedParties(ps);
      var k :| 0 <= k < |ps| && !Blank(ps[k]) && sorted[i] == NormalizeName(ps[k]);
      NormalizedNonBlank(ps[k]);
      NormalizeIdempotent(ps[k]);
    }
  }

  lemma {:induction false} NormalParties(parts: seq<string>)
    requires forall i :: 0 <= i < |parts| ==> Normal(parts[i])
    ensures NormalizedParties(parts) == parts
  {
    if parts != [] {
      NormalizedNonBlank(parts[0]);
      NormalParties(parts[1..]);
      assert parts == [parts[0]] + parts[1..];
    }
  }

  lemma {:induction false} ListingIsItself(parts: seq<string>)
    requires Listing(parts, Normal)
    ensures PartyList(parts) == parts
  {
    NormalParties(parts);
    SortedSorts(parts);
    SortedUnique(Sorted(parts), parts);
  }

  lemma {:induction false} PartyListLists()
    ensures Lists(PartyList, Normal)
  {
    forall ps ensures Listing(PartyList(ps), Normal) {
      PartiesAreListed(ps);
    }
    forall parts | Listing(parts, Normal) ensures PartyList(parts) == parts {
      ListingIsItself(parts);
    }
  }

  /** Under one type, keys are equal exactly when fingerprints are. */
  lemma {:induction false} SameKeyIff(t: string, ps: seq<string>, qs: seq<string>)
    ensures ContractKey(t, ps) == ContractKey(t, qs) <==> Join('|', PartyList(ps)) == Join('|', PartyList(qs))
  {
    var front := CONTRACT_PREFIX + ContractTypeOf(t) + ['|'];
    assert (front + Fingerprint(ps))[|front|..] == Fingerprint(ps);
    assert (front + Fingerprint(qs))[|front|..] == Fingerprint(qs);
  }

  lemma {:induction false} PartySetIs(ps: seq<string>)
    ensures PartySet(ps) == Elements(PartyList(ps))
  {
    SortedSorts(NormalizedParties(ps));
  }

  /** The key of `ps` is the key of no other set of parties. */
  ghost predicate KeyTells(t: string, ps: seq<string>) {
    forall qs :: ContractKey(t, qs) == ContractKey(t, ps) ==> PartySet(qs) == PartySet(ps)
  }

  lemma {:induction false} KeyTellsSet(t: string, ps: seq<string>)
    ensures KeyTells(t, ps) <==> SetTells(PartyList, ps)
  {
    forall qs
      ensures ContractKey(t, qs) == ContractKey(t, ps) <==> Join('|', PartyList(qs)) == Join('|', PartyList(ps))
      ensures PartySet(qs) == Elements(PartyList(qs))
    {
      SameKeyIff(t, qs, ps);
      PartySetIs(qs);
    }
  }

  /**
   A contract key tells its set of parties from every other exactly when there is at most one party, and its
   name, if it has bars, does not split at one into two names in order.
   */
  lemma {:induction false} KeyTellsIff(t: string, ps: seq<string>)
    ensures KeyTells(t, ps) <==> |PartySet(ps)| <= 1 && forall p :: p in PartySet(ps) ==> !Splits(p, Normal)
  {
    KeyTellsSet(t, ps);
    PartyListLists();
    NormalIsClosed();
    SetTellsExactly(PartyList, Normal, ps);
    PartySetIs(ps);
  }

  lemma {:induction false} NoBarNoSplit(p: string, name: Names)
    requires '|' !in p
    ensures !Splits(p, name)
  {
  }

  lemma {:induction false} PartiesHaveNoBar(t: string, ps: seq<string>, p: string)
    requires BarFree(t, ps) && p in PartySet(ps)
    ensures '|' !in p
  {
    BarFreeParts(t, ps);
    PartySetIs(ps);
    var i :| 0 <= i < |PartyList(ps)| && PartyList(ps)[i] == p;
  }

  /** Without bars: exactly when there is at most one party. */
  lemma {:induction false} BarFreeKeyTellsIff(t: string, ps: seq<string>)
    requires BarFree(t, ps)
    ensures KeyTells(t, ps) <==> |PartySet(ps)| <= 1
  {
    KeyTellsIff(t, ps);
    forall p | p in PartySet(ps) ensures !Splits(p, Normal) {
      PartiesHaveNoBar(t, ps, p);
      NoBarNoSplit(p, Normal);
    }
  }

  lemma {:induction false} ListsCollide(list: Lister, name: Names, b: string, c: string)
    requires Lists(list, name) && Closed(name) && name(b) && name(c) && Less(b, c)
    ensures Join('|', list([Barred(b, c)])) == Join('|', list([b, c]))
    ensures Elements(list([Barred(b, c)])) != Elements(list([b, c]))
  {
    var one, two := [Barred(b, c)], [b, c];
    assert Listing(one, name) && Listing(two, name);
    assert two[1..] == [c];
    assert b in Elements(two) && |Barred(b, c)| != |b| && b !in Elements(one);
  }

  /** One party `b|c` gets the key of the two parties `b` and `c`. */
  lemma {:induction false} BarsCollide(t: string, b: string, c: string)
    requires Normal(b) && Normal(c) && Less(b, c)
    ensures ContractKey(t, [Barred(b, c)]) == ContractKey(t, [b, c]) && PartySet([Barred(b, c)]) != PartySet([b, c])
  {
    PartyListLists();
    NormalIsClosed();
    ListsCollide(PartyList, Normal, b, c);
    SameKeyIff(t, [Barred(b, c)], [b, c]);
    PartySetIs([Barred(b, c)]);
    PartySetIs([b, c]);
  }
}
