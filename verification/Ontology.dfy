/** Names and canonical keys of the knowledge graph: normalising, sorting and joining strings. */
module Ontology {
  import opened Prelude
  import opened Strings

  datatype EntityType =
    | Person | Organization | Case | Contract | Document | Email
    | Attachment | Clause | Court | Jurisdiction | Date | MonetaryAmount

  // ---------------------------------------------------------------- joining and splitting

  function Join(sep: char, parts: seq<string>): string {
    if parts == [] then []
    else if |parts| == 1 then parts[0]
    else parts[0] + [sep] + Join(sep, parts[1..])
  }

  /** Parts that a separator can keep apart. */
  predicate Separable(sep: char, parts: seq<string>) {
    forall i :: 0 <= i < |parts| ==> parts[i] != [] && sep !in parts[i]
  }

  /** Two texts cut at the first separator are equal only piece by piece. */
  lemma {:induction false} CutUnique(sep: char, a: string, x: string, b: string, y: string)
    requires sep !in a && sep !in b
    requires a + [sep] + x == b + [sep] + y
    ensures a == b && x == y
  {
    var s, t := a + [sep] + x, b + [sep] + y;
    assert s[|a|] == sep && t[|b|] == sep;
    assert forall i :: 0 <= i < |a| ==> s[i] == a[i];
    assert forall i :: 0 <= i < |b| ==> t[i] == b[i];
    assert |a| == |b|;
    assert a == s[..|a|] && b == t[..|b|];
    assert x == s[|a| + 1..] && y == t[|b| + 1..];
  }

  /** A joined text has the separator exactly when it has more than one part. */
  lemma {:induction false} JoinHasSep(sep: char, parts: seq<string>)
    requires Separable(sep, parts)
    ensures sep in Join(sep, parts) <==> |parts| > 1
    ensures Join(sep, parts) == [] <==> parts == []
  {
    if |parts| > 1 {
      assert Join(sep, parts)[|parts[0]|] == sep;
    }
  }

  /** Joining loses nothing. */
  lemma {:induction false} JoinInjective(sep: char, a: seq<string>, b: seq<string>)
    requires Separable(sep, a) && Separable(sep, b)
    requires Join(sep, a) == Join(sep, b)
    ensures a == b
  {
    JoinHasSep(sep, a);
    JoinHasSep(sep, b);
    if |a| > 1 {
      CutUnique(sep, a[0], Join(sep, a[1..]), b[0], Join(sep, b[1..]));
      JoinInjective(sep, a[1..], b[1..]);
      assert a == [a[0]] + a[1..] && b == [b[0]] + b[1..];
    }
  }

  /** Where the word at the start of a text ends. */
  function WordEnd(s: string): (n: nat)
    ensures n <= |s| && (forall i :: 0 <= i < n ==> !IsSpace(s[i]))
    ensures n < |s| ==> IsSpace(s[n])
  {
    if s == [] || IsSpace(s[0]) then 0 else 1 + WordEnd(s[1..])
  }

  /** The maximal runs of non-space characters: splitting on white space. */
  function Tokens(s: string): (r: seq<string>)
    ensures forall i, c :: 0 <= i < |r| && c in r[i] ==> !IsSpace(c)
    ensures forall i :: 0 <= i < |r| ==> r[i] != []
    decreases |s|
  {
    if s == [] then []
    else if IsSpace(s[0]) then Tokens(s[1..])
    else [s[..WordEnd(s)]] + Tokens(s[WordEnd(s)..])
  }

  function LowerAll(words: seq<string>): (r: seq<string>)
    ensures |r| == |words| && forall i :: 0 <= i < |r| ==> r[i] == Lower(words[i])
  {
    seq(|words|, i requires 0 <= i < |words| => Lower(words[i]))
  }

  /** `normalize_name`. */
  function NormalizeName(s: string): string {
    Lower(Join(' ', Tokens(Strip(s))))
  }

  // ---------------------------------------------------------------- what normalising forgets

  lemma {:induction false} TokensOfSpaces(s: string, t: string)
    requires forall i :: 0 <= i < |t| ==> IsSpace(t[i])
    ensures Tokens(s + t) == Tokens(s)
    decreases |s| + |t|
  {
    if s == [] {
      assert s + t == t;
      if t != [] {
        TokensOfSpaces([], t[1..]);
        assert [] + t[1..] == t[1..];
      }
    } else if IsSpace(s[0]) {
      assert (s + t)[1..] == s[1..] + t;
      TokensOfSpaces(s[1..], t);
    } else {
      var n := WordEnd(s);
      WordEndBefore(s, t);
      assert (s + t)[..n] == s[..n] && (s + t)[n..] == s[n..] + t;
      TokensOfSpaces(s[n..], t);
    }
  }

  lemma {:induction false} WordEndBefore(s: string, t: string)
    requires t == [] || IsSpace(t[0])
    ensures WordEnd(s + t) == WordEnd(s)
  {
    if s == [] {
      assert s + t == t;
    } else {
      assert (s + t)[1..] == s[1..] + t;
      WordEndBefore(s[1..], t);
    }
  }

  lemma {:induction false} TokensStripLeft(s: string)
    ensures Tokens(StripLeft(s)) == Tokens(s)
  {
    if s != [] && IsSpace(s[0]) {
      TokensStripLeft(s[1..]);
    }
  }

  lemma {:induction false} TokensStripRight(s: string)
    ensures Tokens(StripRight(s)) == Tokens(s)
  {
    if s != [] && IsSpace(s[|s| - 1]) {
      var n := |s| - 1;
      assert s == s[..n] + [s[n]];
      TokensOfSpaces(s[..n], [s[n]]);
      TokensStripRight(s[..n]);
    }
  }

  lemma {:induction false} TokensStrip(s: string)
    ensures Tokens(Strip(s)) == Tokens(s)
  {
    TokensStripLeft(s);
    TokensStripRight(StripLeft(s));
  }

  lemma {:induction false} LowerJoin(words: seq<string>)
    ensures Lower(Join(' ', words)) == Join(' ', LowerAll(words))
  {
    if |words| == 1 {
      assert LowerAll(words) == [Lower(words[0])];
    } else if |words| > 1 {
      LowerJoin(words[1..]);
      assert LowerAll(words)[1..] == LowerAll(words[1..]);
      LowerAppend(words[0], [' ']);
      LowerAppend(words[0] + [' '], Join(' ', words[1..]));
    }
  }

  lemma {:induction false} LowerAppend(a: string, b: string)
    ensures Lower(a + b) == Lower(a) + Lower(b)
  {
    assert forall i :: 0 <= i < |a + b| ==> Lower(a + b)[i] == (Lower(a) + Lower(b))[i];
  }

  /** Lower-casing touches no space. */
  lemma {:induction false} WordsStayWords(s: string)
    ensures Separable(' ', LowerAll(Tokens(s)))
    ensures forall i, c :: 0 <= i < |LowerAll(Tokens(s))| && c in LowerAll(Tokens(s))[i] ==> !IsSpace(c)
  {
    var words := Tokens(s);
    forall i, c | 0 <= i < |LowerAll(words)| && c in LowerAll(words)[i] ensures !IsSpace(c) {
      var k :| 0 <= k < |words[i]| && LowerAll(words)[i][k] == c;
      assert words[i][k] in words[i];
    }
    forall i | 0 <= i < |words| ensures LowerAll(words)[i] != [] && ' ' !in LowerAll(words)[i] {
      assert words[i] != [];
      assert ' ' in LowerAll(words)[i] ==> !IsSpace(' ');
    }
  }

  lemma {:induction false} NormalizedIsJoin(s: string)
    ensures NormalizeName(s) == Join(' ', LowerAll(Tokens(s)))
  {
    TokensStrip(s);
    LowerJoin(Tokens(s));
  }

  /** Two names normalise alike exactly when they have the same words up to case. */
  lemma {:induction false} NormalizeIff(x: string, y: string)
    ensures NormalizeName(x) == NormalizeName(y) <==> LowerAll(Tokens(x)) == LowerAll(Tokens(y))
  {
    NormalizedIsJoin(x);
    NormalizedIsJoin(y);
    if NormalizeName(x) == NormalizeName(y) {
      WordsStayWords(x);
      WordsStayWords(y);
      JoinInjective(' ', LowerAll(Tokens(x)), LowerAll(Tokens(y)));
    }
  }

  lemma {:induction false} TokensOfJoin(words: seq<string>)
    requires forall i, c :: 0 <= i < |words| && c in words[i] ==> !IsSpace(c)
    requires forall i :: 0 <= i < |words| ==> words[i] != []
    ensures Tokens(Join(' ', words)) == words
  {
    if words != [] {
      var s, rest := Join(' ', words), if |words| == 1 then "" else [' '] + Join(' ', words[1..]);
      assert s == words[0] + rest;
      WordEndBefore(words[0], rest);
      WordEndAll(words[0]);
      assert s[..|words[0]|] == words[0] && s[|words[0]|..] == rest;
      assert words == [words[0]] + words[1..];
      if |words| > 1 {
        assert rest[1..] == Join(' ', words[1..]);
      }
      TokensOfJoin(words[1..]);
    }
  }

  lemma {:induction false} WordEndAll(s: string)
    requires forall i :: 0 <= i < |s| ==> !IsSpace(s[i])
    ensures WordEnd(s) == |s|
  {
    if s != [] { WordEndAll(s[1..]); }
  }

  lemma {:induction false} LowerAllOnce(words: seq<string>)
    ensures LowerAll(LowerAll(words)) == LowerAll(words)
  {
    var low := LowerAll(words);
    forall i | 0 <= i < |low| ensures Lower(low[i]) == low[i] {
      LowerOnce(words[i]);
    }
    assert LowerAll(low) == low;
  }

  /** Normalising is a projection: what comes out is in normal form. */
  lemma {:induction false} NormalizeIdempotent(s: string)
    ensures NormalizeName(NormalizeName(s)) == NormalizeName(s)
  {
    var normal := NormalizeName(s);
    assert LowerAll(Tokens(normal)) == LowerAll(Tokens(s)) by {
      NormalizedIsJoin(s);
      WordsStayWords(s);
      TokensOfJoin(LowerAll(Tokens(s)));
      LowerAllOnce(Tokens(s));
    }
    NormalizeIff(normal, s);
  }

  lemma {:induction false} NoTokens(s: string)
    ensures Tokens(s) == [] <==> StripLeft(s) == []
  {
    if s != [] && IsSpace(s[0]) {
      NoTokens(s[1..]);
    }
  }

  lemma {:induction false} NormalizedChars(s: string, sep: char)
    requires sep in NormalizeName(s) && sep != ' ' && !('a' <= sep <= 'z')
    ensures sep in s
  {
    LowerChars(Join(' ', Tokens(Strip(s))), sep);
    JoinChars(Tokens(Strip(s)), sep);
    TokenChars(Strip(s), sep);
    StripChars(s, sep);
  }

  /** A name that is not blank has a non-empty normal form. */
  lemma {:induction false} NormalizedNonBlank(s: string)
    ensures NormalizeName(s) == [] <==> Blank(s)
  {
    NoTokens(s);
    NormalizedIsJoin(s);
    WordsStayWords(s);
    JoinHasSep(' ', LowerAll(Tokens(s)));
    BlankIsNoStart(s);
  }

  lemma {:induction false} BlankIsNoStart(s: string)
    ensures Blank(s) <==> StripLeft(s) == []
  {
    var l := StripLeft(s);
    if l != [] {
      StartSurvives(l);
    }
  }

  lemma {:induction false} StartSurvives(s: string)
    requires s != [] && !IsSpace(s[0])
    ensures StripRight(s) != []
    decreases |s|
  {
    if IsSpace(s[|s| - 1]) {
      StartSurvives(s[..|s| - 1]);
    }
  }

  lemma {:induction false} JoinChars(words: seq<string>, c: char)
    requires c in Join(' ', words) && c != ' '
    ensures exists i :: 0 <= i < |words| && c in words[i]
  {
    if |words| == 1 {
      assert c in words[0];
    } else if |words| > 1 && c !in words[0] {
      JoinChars(words[1..], c);
      var i :| 0 <= i < |words[1..]| && c in words[1..][i];
      assert c in words[i + 1];
    }
  }

  lemma {:induction false} TokenChars(s: string, c: char)
    requires exists i :: 0 <= i < |Tokens(s)| && c in Tokens(s)[i]
    ensures c in s
    decreases |s|
  {
    var i :| 0 <= i < |Tokens(s)| && c in Tokens(s)[i];
    if s != [] && IsSpace(s[0]) {
      TokenChars(s[1..], c);
    } else if i > 0 {
      assert Tokens(s[WordEnd(s)..])[i - 1] == Tokens(s)[i];
      TokenChars(s[WordEnd(s)..], c);
    }
  }

  // ---------------------------------------------------------------- sorted sets of strings

  /** Strict order of strings by code point. */
  predicate Less(a: string, b: string) {
    b != [] && (a == [] || a[0] < b[0] || (a[0] == b[0] && Less(a[1..], b[1..])))
  }

  lemma {:induction false} LessTotal(a: string, b: string)
    ensures Less(a, b) || a == b || Less(b, a)
    ensures !(Less(a, b) && Less(b, a)) && !Less(a, a)
  {
    if a != [] && b != [] {
      LessTotal(a[1..], b[1..]);
      assert a == [a[0]] + a[1..] && b == [b[0]] + b[1..];
    }
    if a != [] {
      LessTotal(a[1..], a[1..]);
    }
  }

  lemma {:induction false} LessTransitive(a: string, b: string, c: string)
    requires Less(a, b) && Less(b, c)
    ensures Less(a, c)
  {
    if a != [] && a[0] == b[0] == c[0] {
      LessTransitive(a[1..], b[1..], c[1..]);
    }
  }

  predicate StrictlySorted(s: seq<string>) {
    forall i, j :: 0 <= i < j < |s| ==> Less(s[i], s[j])
  }

  function Elements(s: seq<string>): set<string> {
    set x | x in s
  }

  function Insert(x: string, s: seq<string>): seq<string> {
    if s == [] then [x]
    else if x == s[0] then s
    else if Less(x, s[0]) then [x] + s
    else [s[0]] + Insert(x, s[1..])
  }

  /** The elements of a list in order and once each: `sorted` of a set. */
  function Sorted(s: seq<string>): seq<string> {
    if s == [] then [] else Insert(s[0], Sorted(s[1..]))
  }

  lemma {:induction false} InsertSorts(x: string, s: seq<string>)
    requires StrictlySorted(s)
    ensures StrictlySorted(Insert(x, s)) && Elements(Insert(x, s)) == Elements(s) + {x}
  {
    if s == [] {
      assert Insert(x, s) == [x];
    } else if x != s[0] {
      if Less(x, s[0]) {
        forall j | 0 < j < |s| ensures Less(x, s[j]) {
          LessTransitive(x, s[0], s[j]);
        }
        assert [x] + s == Insert(x, s);
      } else {
        LessTotal(x, s[0]);
        InsertSorts(x, s[1..]);
        var r := Insert(x, s[1..]);
        forall j | 0 <= j < |r| ensures Less(s[0], r[j]) {
          assert r[j] in Elements(r);
        }
        assert s == [s[0]] + s[1..];
        assert Elements(s) == {s[0]} + Elements(s[1..]);
        assert Elements([s[0]] + r) == {s[0]} + Elements(r);
      }
    }
  }

  lemma {:induction false} SortedSorts(s: seq<string>)
    ensures StrictlySorted(Sorted(s)) && Elements(Sorted(s)) == Elements(s)
  {
    if s != [] {
      SortedSorts(s[1..]);
      InsertSorts(s[0], Sorted(s[1..]));
      assert s == [s[0]] + s[1..];
      assert Elements(s) == {s[0]} + Elements(s[1..]);
    }
  }

  /** A set has one strictly sorted listing. */
  lemma {:induction false} SortedUnique(a: seq<string>, b: seq<string>)
    requires StrictlySorted(a) && StrictlySorted(b) && Elements(a) == Elements(b)
    ensures a == b
  {
    if a == [] || b == [] {
      NoElements(a);
      NoElements(b);
    } else {
      assert a[0] in Elements(b) && b[0] in Elements(a);
      LessTotal(a[0], b[0]);
      TailElements(a);
      TailElements(b);
      SortedUnique(a[1..], b[1..]);
      assert a == [a[0]] + a[1..] && b == [b[0]] + b[1..];
    }
  }

  lemma {:induction false} NoElements(s: seq<string>)
    ensures Elements(s) == {} <==> s == []
  {
    if s != [] {
      assert s[0] in Elements(s);
    }
  }

  lemma {:induction false} TailElements(s: seq<string>)
    requires StrictlySorted(s) && s != []
    ensures Elements(s[1..]) == Elements(s) - {s[0]}
  {
    assert s == [s[0]] + s[1..];
    LessTotal(s[0], s[0]);
    assert forall j :: 0 < j < |s| ==> s[j] != s[0];
  }

  // ---------------------------------------------------------------- canonical keys

  function NameKey(name: string): string {
    "name:" + NormalizeName(name)
  }

  function PersonKey(email: string): string {
    "email:" + Lower(Strip(email))
  }

  function OrganizationKey(name: string, domain: string): string {
    if domain != "" then "domain:" + Lower(Strip(domain)) else NameKey(name)
  }

  function LawAreaKey(area: string): string {
    "law_area:" + NormalizeName(area)
  }

  function ArtifactKey(session: string, artifact: string): string {
    "artifact:" + session + ":" + artifact
  }

  const ATTACHMENT_PREFIX := "__attachment__:"

  function AttachmentFilenameKey(filename: string): string {
    ATTACHMENT_PREFIX + NormalizeName(filename)
  }

  function ContractTypeOf(contractType: string): string {
    Lower(Strip(if contractType == "" then "unknown" else contractType))
  }

  /** The normal forms of the parties that are not blank. */
  function NormalizedParties(parties: seq<string>): (r: seq<string>)
    ensures forall p :: p in r <==> NamesOne(parties, p)
  {
    hide Blank, NormalizeName, NamesOne;
    NamesOneOf(parties);
    if parties == [] then []
    else
      var rest := NormalizedParties(parties[1..]);
      if Blank(parties[0]) then rest else [NormalizeName(parties[0])] + rest
  }

  /** Some party that is not blank has this normal form. */
  predicate NamesOne(parties: seq<string>, p: string) {
    exists i :: 0 <= i < |parties| && !Blank(parties[i]) && p == NormalizeName(parties[i])
  }

  lemma {:induction false} NamesOneOf(parties: seq<string>)
    ensures forall p :: NamesOne(parties, p)
                   <==> parties != [] && ((!Blank(parties[0]) && p == NormalizeName(parties[0])) || NamesOne(parties[1..], p))
  {
    hide Blank, NormalizeName;
    forall p | parties != [] && NamesOne(parties[1..], p) ensures NamesOne(parties, p) {
      var i :| 0 <= i < |parties[1..]| && !Blank(parties[1..][i]) && p == NormalizeName(parties[1..][i]);
      assert parties[i + 1] == parties[1..][i];
    }
    forall p | NamesOne(parties, p) && (Blank(parties[0]) || p != NormalizeName(parties[0])) ensures NamesOne(parties[1..], p) {
      var i :| 0 <= i < |parties| && !Blank(parties[i]) && p == NormalizeName(parties[i]);
      assert parties[i] == parties[1..][i - 1];
    }
  }

  function PartySet(parties: seq<string>): set<string> {
    Elements(NormalizedParties(parties))
  }

  const CONTRACT_PREFIX := "contract:"

  function Fingerprint(parties: seq<string>): string {
    Join('|', Sorted(NormalizedParties(parties)))
  }

  function ContractKey(contractType: string, parties: seq<string>): string {
    CONTRACT_PREFIX + ContractTypeOf(contractType) + ['|'] + Fingerprint(parties)
  }

  // ---------------------------------------------------------------- the contract key is canonical

  predicate BarFree(contractType: string, parties: seq<string>) {
    '|' !in contractType && forall i :: 0 <= i < |parties| ==> '|' !in parties[i]
  }

  lemma {:induction false} LowerStripHasNoBar(t: string)
    requires '|' !in t
    ensures '|' !in Lower(Strip(t))
  {
    forall k | 0 <= k < |Strip(t)| ensures Strip(t)[k] != '|' {
      if '|' in Strip(t) { StripChars(t, '|'); }
    }
  }

  lemma {:induction false} NormalHasNoBar(p: string)
    requires !Blank(p) && '|' !in p
    ensures NormalizeName(p) != [] && '|' !in NormalizeName(p)
  {
    NormalizedNonBlank(p);
    if '|' in NormalizeName(p) { NormalizedChars(p, '|'); }
  }

  lemma {:induction false} BarFreeParts(contractType: string, parties: seq<string>)
    requires BarFree(contractType, parties)
    ensures '|' !in ContractTypeOf(contractType)
    ensures Separable('|', Sorted(NormalizedParties(parties)))
  {
    LowerStripHasNoBar(if contractType == "" then "unknown" else contractType);
    var normal := NormalizedParties(parties);
    var sorted := Sorted(normal);
    SortedSorts(normal);
    forall i | 0 <= i < |sorted| ensures sorted[i] != [] && '|' !in sorted[i] {
      assert sorted[i] in Elements(sorted);
      assert sorted[i] in normal;
      var k :| 0 <= k < |parties| && !Blank(parties[k]) && sorted[i] == NormalizeName(parties[k]);
      NormalHasNoBar(parties[k]);
    }
  }

  /** Order, repetition, case and spacing of the parties never matter. */
  lemma {:induction false} SamePartiesSameKey(t: string, ps: seq<string>, u: string, qs: seq<string>)
    requires ContractTypeOf(t) == ContractTypeOf(u) && PartySet(ps) == PartySet(qs)
    ensures ContractKey(t, ps) == ContractKey(u, qs)
  {
    SortedSorts(NormalizedParties(ps));
    SortedSorts(NormalizedParties(qs));
    SortedUnique(Sorted(NormalizedParties(ps)), Sorted(NormalizedParties(qs)));
  }

  /** Without bars, equal keys mean equal types and equal sets of parties. */
  lemma {:induction false} ContractKeyIff(t: string, ps: seq<string>, u: string, qs: seq<string>)
    requires BarFree(t, ps) && BarFree(u, qs)
    ensures ContractKey(t, ps) == ContractKey(u, qs) <==> ContractTypeOf(t) == ContractTypeOf(u) && PartySet(ps) == PartySet(qs)
  {
    if ContractTypeOf(t) == ContractTypeOf(u) && PartySet(ps) == PartySet(qs) {
      SamePartiesSameKey(t, ps, u, qs);
    }
    if ContractKey(t, ps) == ContractKey(u, qs) {
      BarFreeParts(t, ps);
      BarFreeParts(u, qs);
      var a, b := Sorted(NormalizedParties(ps)), Sorted(NormalizedParties(qs));
      AfterPrefix(CONTRACT_PREFIX, ContractTypeOf(t), Fingerprint(ps));
      AfterPrefix(CONTRACT_PREFIX, ContractTypeOf(u), Fingerprint(qs));
      CutUnique('|', ContractTypeOf(t), Join('|', a), ContractTypeOf(u), Join('|', b));
      JoinInjective('|', a, b);
      SortedSorts(NormalizedParties(ps));
      SortedSorts(NormalizedParties(qs));
    }
  }

  lemma {:induction false} AfterPrefix(p: string, a: string, b: string)
    ensures (p + a + ['|'] + b)[|p|..] == a + ['|'] + b
  {
    assert p + a + ['|'] + b == p + (a + ['|'] + b);
  }
}
