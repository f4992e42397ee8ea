/**
 Contract templates: a scanner for `{{ name }}` and strict single-pass substitution.

 A placeholder is two opening braces, optional white space, a name of letters, digits and
 underscores, optional white space and two closing braces. The scanner finds placeholders from
 left to right without overlap.
 */
module ContractTemplate {
  import opened Prelude
  import opened Strings

  predicate IsWord(c: char) {
    'a' <= c <= 'z' || 'A' <= c <= 'Z' || '0' <= c <= '9' || c == '_'
  }

  // ---------------------------------------------------------------- one placeholder

  /** The end of the longest run of white space, or of word characters, from `i`. */
  function Skip(s: string, i: nat, word: bool): (j: nat)
    requires i <= |s|
    ensures i <= j <= |s|
    ensures forall k :: i <= k < j ==> if word then IsWord(s[k]) else IsSpace(s[k])
    ensures j < |s| ==> if word then !IsWord(s[j]) else !IsSpace(s[j])
    decreases |s| - i
  {
    if i < |s| && (if word then IsWord(s[i]) else IsSpace(s[i])) then Skip(s, i + 1, word) else i
  }

  /** Two characters `c` in a row at `i`. */
  predicate Twice(s: string, i: int, c: char) {
    0 <= i < |s| - 1 && s[i] == c && s[i + 1] == c
  }

  /** A placeholder found: its name and its end. */
  datatype Hit = Hit(name: string, end: nat)

  /** The placeholder that starts at `i`, if any. */
  function MatchAt(s: string, i: nat): (m: Option<Hit>)
    ensures m.Some? ==> i + 5 <= m.value.end <= |s| && m.value.name != []
  {
    if !Twice(s, i, '{') then None
    else
      var a := Skip(s, i + 2, false);
      var b := Skip(s, a, true);
      var c := Skip(s, b, false);
      if a == b || !Twice(s, c, '}') then None else Some(Hit(s[a..b], c + 2))
  }

  /** The pattern: braces, white space up to `a`, a name up to `b`, white space, braces. */
  predicate Parts(s: string, i: nat, a: nat, b: nat, end: nat) {
    && i + 2 <= a < b <= end - 2 && end <= |s|
    && Twice(s, i, '{') && Twice(s, end - 2, '}')
    && (forall k :: i + 2 <= k < a ==> IsSpace(s[k]))
    && (forall k :: a <= k < b ==> IsWord(s[k]))
    && (forall k :: b <= k < end - 2 ==> IsSpace(s[k]))
  }

  /** `s[i..end]` is a placeholder for `name`. */
  ghost predicate IsPlaceholder(s: string, i: nat, end: nat, name: string) {
    exists a: nat, b: nat :: Parts(s, i, a, b, end) && s[a..b] == name
  }

  lemma {:induction false} SkipAll(s: string, i: nat, j: nat, word: bool)
    requires i <= j <= |s|
    requires forall k :: i <= k < j ==> if word then IsWord(s[k]) else IsSpace(s[k])
    requires j < |s| ==> if word then !IsWord(s[j]) else !IsSpace(s[j])
    ensures Skip(s, i, word) == j
    decreases j - i
  {
    if i < j {
      SkipAll(s, i + 1, j, word);
    }
  }

  lemma {:induction false} MatchIsPlaceholder(s: string, i: nat)
    requires MatchAt(s, i).Some?
    ensures IsPlaceholder(s, i, MatchAt(s, i).value.end, MatchAt(s, i).value.name)
  {
    var a := Skip(s, i + 2, false);
    var b := Skip(s, a, true);
    var c := Skip(s, b, false);
    assert Parts(s, i, a, b, c + 2);
  }

  lemma {:induction false} PartsMatch(s: string, i: nat, a: nat, b: nat, end: nat)
    requires Parts(s, i, a, b, end)
    ensures MatchAt(s, i) == Some(Hit(s[a..b], end))
  {
    SkipAll(s, i + 2, a, false);
    SkipAll(s, a, b, true);
    SkipAll(s, b, end - 2, false);
  }

  /** Exactly the placeholders are found, each with its own name and end. */
  lemma {:induction false} MatchIffPlaceholder(s: string, i: nat, end: nat, name: string)
    ensures MatchAt(s, i) == Some(Hit(name, end)) <==> IsPlaceholder(s, i, end, name)
  {
    if MatchAt(s, i) == Some(Hit(name, end)) {
      MatchIsPlaceholder(s, i);
    }
    if IsPlaceholder(s, i, end, name) {
      var a: nat, b: nat :| Parts(s, i, a, b, end) && s[a..b] == name;
      PartsMatch(s, i, a, b, end);
    }
  }

  // ---------------------------------------------------------------- the whole template

  /** A template taken apart: literal, placeholder, literal, and so on to a last literal. */
  datatype Pieces = Last(text: string) | More(text: string, raw: string, name: string, rest: Pieces)

  /** Where placeholders start in a given template. */
  type Finder = nat -> Option<Hit>

  ghost predicate Progresses(s: string, find: Finder) {
    forall i: nat :: find(i).Some? ==> i < find(i).value.end <= |s|
  }

  /** The pieces of `s` from `i` on; `open` is where the current literal started. */
  function ScanFrom(s: string, find: Finder, open: nat, i: nat): Pieces
    requires Progresses(s, find) && open <= i <= |s|
    decreases |s| - i
  {
    if find(i).Some? then
      var end := find(i).value.end;
      More(s[open..i], s[i..end], find(i).value.name, ScanFrom(s, find, end, end))
    else if i == |s| then Last(s[open..])
    else ScanFrom(s, find, open, i + 1)
  }

  function Matches(s: string): (find: Finder)
    ensures Progresses(s, find)
  {
    var find := (i: nat) => MatchAt(s, i);
    assert forall i: nat :: find(i) == MatchAt(s, i);
    find
  }

  function Scan(s: string): Pieces {
    ScanFrom(s, Matches(s), 0, 0)
  }

  function Concat(p: Pieces): string {
    match p
    case Last(text) => text
    case More(text, raw, _, rest) => text + raw + Concat(rest)
  }

  /** From `at` on, no placeholder starts before `end`, which is where `text` ends. */
  ghost predicate IsLiteral(s: string, find: Finder, at: nat, end: nat, text: string) {
    at <= end <= |s| && s[at..end] == text && forall k: nat :: at <= k < end ==> find(k) == None
  }

  /**
   `p` is the leftmost non-overlapping reading of `s` from `at`: it spells `s` out, every hole is a
   placeholder found there, and no placeholder starts at a position inside a literal.
   */
  ghost predicate Reading(s: string, find: Finder, at: nat, p: Pieces)
    decreases p
  {
    var end := at + |p.text|;
    && IsLiteral(s, find, at, end, p.text)
    && match p
       case Last(_) => end == |s|
       case More(_, raw, name, rest) =>
         var next := end + |raw|;
         next <= |s| && s[end..next] == raw && find(end) == Some(Hit(name, next)) && Reading(s, find, next, rest)
  }

  lemma {:induction false} ScanReads(s: string, find: Finder, open: nat, i: nat)
    requires Progresses(s, find) && open <= i <= |s| && IsLiteral(s, find, open, i, s[open..i])
    ensures Reading(s, find, open, ScanFrom(s, find, open, i))
    decreases |s| - i
  {
    if find(i).Some? {
      var end := find(i).value.end;
      ScanReads(s, find, end, end);
    } else if i == |s| {
      assert s[open..] == s[open..i];
    } else {
      ScanReads(s, find, open, i + 1);
    }
  }

  /** There is one reading only. */
  lemma {:induction false} ReadingUnique(s: string, find: Finder, at: nat, a: Pieces, b: Pieces)
    requires Progresses(s, find) && Reading(s, find, at, a) && Reading(s, find, at, b)
    ensures a == b
    decreases a
  {
    var enda, endb := at + |a.text|, at + |b.text|;
    assert find(|s|) == None;
    assert enda == endb;
    if a.More? {
      ReadingUnique(s, find, enda + |a.raw|, a.rest, b.rest);
    }
  }

  lemma {:induction false} ReadingSpells(s: string, find: Finder, at: nat, p: Pieces)
    requires Reading(s, find, at, p)
    ensures at <= |s| && Concat(p) == s[at..]
    decreases p
  {
    var end := at + |p.text|;
    if p.More? {
      ReadingSpells(s, find, end + |p.raw|, p.rest);
    }
  }

  /** The scan is the one leftmost reading of the template, and its pieces spell the template. */
  lemma {:induction false} ScanIsTheReading(s: string, p: Pieces)
    ensures Concat(Scan(s)) == s
    ensures Reading(s, Matches(s), 0, p) <==> p == Scan(s)
  {
    var find := Matches(s);
    ScanReads(s, find, 0, 0);
    ReadingSpells(s, find, 0, Scan(s));
    if Reading(s, find, 0, p) {
      ReadingUnique(s, find, 0, p, Scan(s));
    }
  }

  // ---------------------------------------------------------------- substitution

  /** Placeholder names, in order of first use, each once. */
  function Names(p: Pieces): (names: seq<string>)
    ensures NoDuplicates(names)
  {
    match p
    case Last(_) => []
    case More(_, _, name, rest) =>
      var others := Without(Names(rest), name);
      NoDuplicatesCons(name, others);
      [name] + others
  }

  function Without(names: seq<string>, name: string): (r: seq<string>)
    requires NoDuplicates(names)
    ensures forall x :: x in r <==> x in names && x != name
    ensures NoDuplicates(r)
  {
    if names == [] then []
    else
      var others := Without(names[1..], name);
      assert names == [names[0]] + names[1..];
      NoDuplicatesCons(names[0], others);
      if names[0] == name then others else [names[0]] + others
  }

  type Values = map<string, string>

  function ValueOf(values: Values, name: string): string {
    if name in values then values[name] else ""
  }

  /** The names without a non-blank value. */
  function Missing(values: Values): string -> bool {
    (name: string) => Blank(ValueOf(values, name))
  }

  /** Those of `names` that are missing, in order. */
  function OnlyMissing(names: seq<string>, missing: string -> bool): (r: seq<string>)
    ensures forall x :: x in r <==> x in names && missing(x)
  {
    if names == [] then []
    else
      assert names == [names[0]] + names[1..];
      (if missing(names[0]) then [names[0]] else []) + OnlyMissing(names[1..], missing)
  }

  /** Every placeholder replaced by what is to be inserted for its name, in one pass. */
  function Spliced(p: Pieces, insert: string -> string): string {
    match p
    case Last(text) => text
    case More(text, _, name, rest) => text + insert(name) + Spliced(rest, insert)
  }

  /** Values are stripped before they are inserted. */
  function Inserted(values: Values): string -> string {
    (name: string) => Strip(ValueOf(values, name))
  }

  datatype ContractType = ContractType(required: seq<string>, template: string)

  datatype TemplateError = UnknownContractType | Unfilled(names: seq<string>)

  type Registry = map<string, ContractType>

  function GetContractType(registry: Registry, typeId: string): Option<ContractType> {
    var id := Lower(Strip(typeId));
    if id in registry then Some(registry[id]) else None
  }

  function TemplatePlaceholders(registry: Registry, typeId: string): Result<seq<string>, TemplateError> {
    var ct := GetContractType(registry, typeId);
    if ct.None? then Err(UnknownContractType) else Ok(Names(Scan(ct.value.template)))
  }

  function MissingFields(registry: Registry, typeId: string, provided: Values): Result<seq<string>, TemplateError> {
    var ct := GetContractType(registry, typeId);
    if ct.None? then Err(UnknownContractType) else Ok(OnlyMissing(ct.value.required, Missing(provided)))
  }

  function Render(p: Pieces, missing: string -> bool, insert: string -> string): Result<string, TemplateError> {
    var unfilled := OnlyMissing(Names(p), missing);
    if unfilled != [] then Err(Unfilled(unfilled)) else Ok(Spliced(p, insert))
  }

  function RenderText(template: string, values: Values): Result<string, TemplateError> {
    Render(Scan(template), Missing(values), Inserted(values))
  }

  function RenderTemplate(registry: Registry, typeId: string, values: Values): Result<string, TemplateError> {
    var ct := GetContractType(registry, typeId);
    if ct.None? then Err(UnknownContractType) else RenderText(ct.value.template, values)
  }

  /** The names of a template are those of the placeholders in its one leftmost reading. */
  predicate Uses(p: Pieces, name: string) {
    p.More? && (p.name == name || Uses(p.rest, name))
  }

  lemma {:induction false} NamesAreUses(p: Pieces, name: string)
    ensures name in Names(p) <==> Uses(p, name)
    decreases p
  {
    if p.More? {
      NamesAreUses(p.rest, name);
    }
  }

  /** Every name in use has a value. */
  ghost predicate AllFilled(p: Pieces, missing: string -> bool) {
    forall name :: Uses(p, name) ==> !missing(name)
  }

  /** `names` are the names in use that are missing, no more and no fewer. */
  ghost predicate NamesMissing(names: seq<string>, p: Pieces, missing: string -> bool) {
    forall name :: name in names <==> Uses(p, name) && missing(name)
  }

  lemma {:induction false} UnfilledExactly(p: Pieces, missing: string -> bool)
    ensures NamesMissing(OnlyMissing(Names(p), missing), p, missing)
    ensures OnlyMissing(Names(p), missing) == [] <==> AllFilled(p, missing)
  {
    forall name ensures name in Names(p) <==> Uses(p, name) {
      NamesAreUses(p, name);
    }
    var unfilled := OnlyMissing(Names(p), missing);
    if unfilled != [] {
      assert unfilled[0] in unfilled;
    }
  }

  predicate HasValue(values: Values, name: string) {
    name in values && Strip(values[name]) != ""
  }

  lemma {:induction false} MissingHasNone(values: Values, name: string)
    ensures Missing(values)(name) <==> !HasValue(values, name)
  {
    StripNothing();
    hide Strip;
  }

  /** Where a name is first used, counted in placeholders. */
  function FirstUse(p: Pieces, name: string): nat
    requires Uses(p, name)
  {
    if p.name == name then 0 else 1 + FirstUse(p.rest, name)
  }

  /** All names are in use, and an earlier one is used first. */
  ghost predicate InOrderOfUse(p: Pieces, names: seq<string>) {
    && (forall i :: 0 <= i < |names| ==> Uses(p, names[i]))
    && forall i, j :: 0 <= i < j < |names| ==> FirstUse(p, names[i]) < FirstUse(p, names[j])
  }

  /** A name used before all others may stand in front of them. */
  lemma {:induction false} FirstInOrder(p: Pieces, x: string, names: seq<string>)
    requires Uses(p, x) && InOrderOfUse(p, names)
    requires forall y :: y in names && Uses(p, y) ==> FirstUse(p, x) < FirstUse(p, y)
    ensures InOrderOfUse(p, [x] + names)
  {
    var all := [x] + names;
    assert forall j :: 0 < j < |all| ==> all[j] == names[j - 1] && names[j - 1] in names;
    hide Uses, FirstUse;
  }

  lemma {:induction false} FirstOfOrdered(p: Pieces, names: seq<string>, y: string)
    requires names != [] && InOrderOfUse(p, names) && y in names[1..]
    ensures Uses(p, names[0]) && Uses(p, y) && FirstUse(p, names[0]) < FirstUse(p, y)
  {
    hide Uses, FirstUse;
    var j :| 0 <= j < |names[1..]| && names[1..][j] == y;
    assert names[j + 1] == y;
  }

  lemma {:induction false} RestInOrder(p: Pieces, names: seq<string>)
    requires names != [] && InOrderOfUse(p, names)
    ensures InOrderOfUse(p, names[1..])
  {
    hide Uses, FirstUse;
    assert forall j :: 0 <= j < |names[1..]| ==> names[1..][j] == names[j + 1];
  }

  lemma {:induction false} WithoutInOrder(p: Pieces, names: seq<string>, name: string)
    requires NoDuplicates(names) && InOrderOfUse(p, names)
    ensures InOrderOfUse(p, Without(names, name))
  {
    hide InOrderOfUse, Uses, FirstUse;
    if names != [] {
      var others := Without(names[1..], name);
      RestInOrder(p, names);
      WithoutInOrder(p, names[1..], name);
      forall y | y in others ensures Uses(p, names[0]) && Uses(p, y) && FirstUse(p, names[0]) < FirstUse(p, y) {
        FirstOfOrdered(p, names, y);
      }
      FirstIsUsed(p, names);
      FirstInOrder(p, names[0], others);
    } else {
      NoneInOrder(p);
    }
  }

  lemma {:induction false} NoneInOrder(p: Pieces)
    ensures InOrderOfUse(p, [])
  {
  }

  lemma {:induction false} FirstIsUsed(p: Pieces, names: seq<string>)
    requires names != [] && InOrderOfUse(p, names)
    ensures Uses(p, names[0])
  {
  }

  lemma {:induction false} OnlyInOrder(p: Pieces, names: seq<string>, missing: string -> bool)
    requires InOrderOfUse(p, names)
    ensures InOrderOfUse(p, OnlyMissing(names, missing))
  {
    hide InOrderOfUse, Uses, FirstUse;
    if names != [] {
      var others := OnlyMissing(names[1..], missing);
      RestInOrder(p, names);
      OnlyInOrder(p, names[1..], missing);
      forall y | y in others ensures Uses(p, names[0]) && Uses(p, y) && FirstUse(p, names[0]) < FirstUse(p, y) {
        FirstOfOrdered(p, names, y);
      }
      FirstIsUsed(p, names);
      FirstInOrder(p, names[0], others);
      assert [] + others == others;
    } else {
      NoneInOrder(p);
    }
  }

  /** The names of a template stand in the order of their first use. */
  lemma {:induction false} NamesInOrder(p: Pieces)
    ensures InOrderOfUse(p, Names(p))
    decreases p
  {
    if p.More? {
      NamesInOrder(p.rest);
      WithoutInOrder(p.rest, Names(p.rest), p.name);
      LaterInOrder(p, Without(Names(p.rest), p.name));
    }
    hide InOrderOfUse;
  }

  lemma {:induction false} LaterInOrder(p: Pieces, others: seq<string>)
    requires p.More? && p.name !in others && InOrderOfUse(p.rest, others)
    ensures InOrderOfUse(p, [p.name] + others)
  {
    forall i | 0 <= i < |others| ensures Uses(p, others[i]) && FirstUse(p, others[i]) == 1 + FirstUse(p.rest, others[i]) {
      assert others[i] in others;
    }
    hide Uses;
    var names := [p.name] + others;
    assert forall i :: 0 < i < |names| ==> names[i] == others[i - 1];
  }

  /** Rendering succeeds exactly when every placeholder has a non-blank value; if not, it names the rest, in order of use. */
  lemma {:induction false} RendersIffFilled(template: string, values: Values)
    ensures var pieces := Scan(template);
            var r := RenderText(template, values);
            && (r.Ok? <==> forall name :: Uses(pieces, name) ==> HasValue(values, name))
            && (r.Err? ==>
                  && r.error.Unfilled? && InOrderOfUse(pieces, r.error.names)
                  && forall name :: name in r.error.names <==> Uses(pieces, name) && !HasValue(values, name))
  {
    hide Missing, HasValue, Scan, Uses, InOrderOfUse, Render, Inserted;
    RenderOutcome(Scan(template), Missing(values), Inserted(values));
    forall name ensures Missing(values)(name) <==> !HasValue(values, name) {
      MissingHasNone(values, name);
    }
  }

  lemma {:induction false} RenderOutcome(p: Pieces, missing: string -> bool, insert: string -> string)
    ensures var r := Render(p, missing, insert);
            && (r.Ok? <==> forall name :: Uses(p, name) ==> !missing(name))
            && (r.Err? ==>
                  && r.error.Unfilled? && InOrderOfUse(p, r.error.names)
                  && forall name :: name in r.error.names <==> Uses(p, name) && missing(name))
  {
    UnfilledExactly(p, missing);
    NamesInOrder(p);
    OnlyInOrder(p, Names(p), missing);
    hide Names, OnlyMissing, InOrderOfUse, Uses, Spliced;
  }

  lemma {:induction false} NoneMissingFilled(p: Pieces, required: seq<string>, missing: string -> bool)
    requires forall name :: name in Names(p) ==> name in required
    requires OnlyMissing(required, missing) == []
    ensures AllFilled(p, missing)
  {
    forall name | Uses(p, name) ensures !missing(name) {
      NamesAreUses(p, name);
      assert name !in OnlyMissing(required, missing);
    }
  }

  /** When a type's placeholders are declared fields, having no missing field is enough to render. */
  lemma {:induction false} NoMissingFieldsRenders(registry: Registry, typeId: string, values: Values)
    requires TemplatePlaceholders(registry, typeId).Ok?
    requires forall name :: name in TemplatePlaceholders(registry, typeId).value ==>
               name in GetContractType(registry, typeId).value.required
    requires MissingFields(registry, typeId, values) == Ok([])
    ensures RenderTemplate(registry, typeId, values).Ok?
  {
    var ct := GetContractType(registry, typeId).value;
    NoneMissingFilled(Scan(ct.template), ct.required, Missing(values));
    RendersIffFilled(ct.template, values);
  }

  function Holes(p: Pieces): nat {
    match p case Last(_) => 0 case More(_, _, _, rest) => 1 + Holes(rest)
  }

  /** What is left of `p` after its first `n` placeholders. */
  function From(p: Pieces, n: nat): Pieces
    requires n <= Holes(p)
  {
    if n == 0 then p else From(p.rest, n - 1)
  }

  /** The template's text up to and including its first `n` placeholders. */
  function SourceFront(p: Pieces, n: nat): string
    requires n <= Holes(p)
  {
    if n == 0 then "" else p.text + p.raw + SourceFront(p.rest, n - 1)
  }

  /** The output up to and including what is inserted for the first `n` placeholders. */
  function OutputFront(p: Pieces, insert: string -> string, n: nat): string
    requires n <= Holes(p)
  {
    if n == 0 then "" else p.text + insert(p.name) + OutputFront(p.rest, insert, n - 1)
  }

  lemma {:induction false} FromHoles(p: Pieces, n: nat)
    requires n <= Holes(p)
    ensures Holes(From(p, n)) == Holes(p) - n
  {
    if n > 0 { FromHoles(p.rest, n - 1); }
  }

  lemma {:induction false} Regroup(a: string, b: string, c: string, d: string)
    ensures a + b + (c + d) == a + b + c + d
  {
  }

  lemma {:induction false} SplitsAt(p: Pieces, insert: string -> string, n: nat)
    requires n <= Holes(p)
    ensures Concat(p) == SourceFront(p, n) + Concat(From(p, n))
    ensures Spliced(p, insert) == OutputFront(p, insert, n) + Spliced(From(p, n), insert)
  {
    if n > 0 {
      SplitsAt(p.rest, insert, n - 1);
      Regroup(p.text, p.raw, SourceFront(p.rest, n - 1), Concat(From(p, n)));
      Regroup(p.text, insert(p.name), OutputFront(p.rest, insert, n - 1), Spliced(From(p, n), insert));
    }
  }

  /**
   At every placeholder the template reads: front, literal, placeholder, rest; and the output reads: rendered
   front, the same literal, the inserted text whatever it contains, rendered rest.
   */
  ghost predicate SplicesAt(template: string, out: string, p: Pieces, insert: string -> string, n: nat)
    requires n < Holes(p)
  {
    var q := From(p, n);
    && q.More?
    && template == SourceFront(p, n) + (q.text + q.raw + Concat(q.rest))
    && out == OutputFront(p, insert, n) + (q.text + insert(q.name) + Spliced(q.rest, insert))
  }

  lemma {:induction false} SplicedAt(p: Pieces, insert: string -> string, n: nat)
    requires n < Holes(p)
    ensures SplicesAt(Concat(p), Spliced(p, insert), p, insert, n)
  {
    FromHoles(p, n);
    SplitsAt(p, insert, n);
  }

  /** After the last placeholder the template and the output end with the same literal. */
  lemma {:induction false} SplicedLast(p: Pieces, insert: string -> string)
    ensures From(p, Holes(p)).Last?
    ensures var text := From(p, Holes(p)).text;
            Concat(p) == SourceFront(p, Holes(p)) + text && Spliced(p, insert) == OutputFront(p, insert, Holes(p)) + text
  {
    FromHoles(p, Holes(p));
    SplitsAt(p, insert, Holes(p));
  }

  lemma {:induction false} RendersFilled(template: string, values: Values)
    requires RenderText(template, values).Ok?
    ensures Concat(Scan(template)) == template && RenderText(template, values).value == Spliced(Scan(template), Inserted(values))
  {
    ScanIsTheReading(template, Scan(template));
  }

  /** In a rendered template literals stand verbatim and in place, and inserted text is not scanned again. */
  lemma {:induction false} RenderedSplices(template: string, values: Values, n: nat)
    requires RenderText(template, values).Ok?
    requires n < Holes(Scan(template))
    ensures SplicesAt(template, RenderText(template, values).value, Scan(template), Inserted(values), n)
    ensures var name := From(Scan(template), n).name;
            HasValue(values, name) && Inserted(values)(name) == Strip(values[name])
  {
    hide RenderText, Scan, From, Uses, HasValue, InOrderOfUse, Inserted, SplicesAt, Spliced, Concat, Holes;
    RendersFilled(template, values);
    SplicedAt(Scan(template), Inserted(values), n);
    UsedAt(Scan(template), n);
    RendersIffFilled(template, values);
    HasValueInserted(values, From(Scan(template), n).name);
  }

  lemma {:induction false} HasValueInserted(values: Values, name: string)
    ensures HasValue(values, name) ==> Inserted(values)(name) == Strip(values[name])
  {
    hide Strip;
  }

  lemma {:induction false} UsedAt(p: Pieces, n: nat)
    requires n < Holes(p)
    ensures From(p, n).More? && Uses(p, From(p, n).name)
  {
    if n > 0 {
      UsedAt(p.rest, n - 1);
    }
  }

  /** Two ways of inserting agree on every name in use. */
  ghost predicate Agree(p: Pieces, insert: string -> string, other: string -> string) {
    forall name :: Uses(p, name) ==> insert(name) == other(name)
  }

  lemma {:induction false} SplicedAgree(p: Pieces, insert: string -> string, other: string -> string)
    requires Agree(p, insert, other)
    ensures Spliced(p, insert) == Spliced(p, other)
    decreases p
  {
    if p.More? {
      assert Uses(p, p.name);
      forall name | Uses(p.rest, name) ensures insert(name) == other(name) {
        assert Uses(p, name);
      }
      SplicedAgree(p.rest, insert, other);
    }
  }

  /** Every name in use has something to insert. */
  ghost predicate AllInserted(p: Pieces, insert: string -> string) {
    forall name :: Uses(p, name) ==> insert(name) != []
  }

  /** A name is missing exactly when there is nothing to insert for it. */
  ghost predicate MissingIsNothing(missing: string -> bool, insert: string -> string) {
    forall name :: missing(name) <==> insert(name) == []
  }

  lemma {:induction false} BlankIsNothing(values: Values)
    ensures MissingIsNothing(Missing(values), Inserted(values))
  {
  }

  lemma {:induction false} FilledIffInserted(p: Pieces, missing: string -> bool, insert: string -> string)
    requires MissingIsNothing(missing, insert)
    ensures AllFilled(p, missing) <==> AllInserted(p, insert)
  {
  }

  lemma {:induction false} AgreeInserts(p: Pieces, insert: string -> string, other: string -> string)
    requires Agree(p, insert, other) && AllInserted(p, insert)
    ensures AllInserted(p, other)
  {
  }

  lemma {:induction false} AlikeRender(p: Pieces, missing: string -> bool, insert: string -> string,
                                       otherMissing: string -> bool, other: string -> string)
    requires MissingIsNothing(missing, insert) && MissingIsNothing(otherMissing, other) && Agree(p, insert, other)
    requires Render(p, missing, insert).Ok?
    ensures Render(p, otherMissing, other) == Render(p, missing, insert)
  {
    UnfilledExactly(p, missing);
    FilledIffInserted(p, missing, insert);
    AgreeInserts(p, insert, other);
    FilledIffInserted(p, otherMissing, other);
    UnfilledExactly(p, otherMissing);
    SplicedAgree(p, insert, other);
  }

  lemma {:induction false} ValuesAlike(p: Pieces, values: Values, others: Values)
    requires Agree(p, Inserted(values), Inserted(others))
    requires Render(p, Missing(values), Inserted(values)).Ok?
    ensures Render(p, Missing(others), Inserted(others)) == Render(p, Missing(values), Inserted(values))
  {
    BlankIsNothing(values);
    BlankIsNothing(others);
    AlikeRender(p, Missing(values), Inserted(values), Missing(others), Inserted(others));
  }

  /** Values that agree after stripping on the names in use render alike. */
  lemma {:induction false} RendersAlike(template: string, values: Values, others: Values)
    requires RenderText(template, values).Ok?
    requires Agree(Scan(template), Inserted(values), Inserted(others))
    ensures RenderText(template, others) == RenderText(template, values)
  {
    ValuesAlike(Scan(template), values, others);
  }

  predicate NoDoubleBrace(s: string) {
    forall i :: 0 <= i < |s| - 1 ==> !(s[i] == '{' && s[i + 1] == '{')
  }

  /** No literal of `p` has two opening braces in a row. */
  predicate PlainLiterals(p: Pieces) {
    NoDoubleBrace(p.text) && (p.More? ==> PlainLiterals(p.rest))
  }

  lemma {:induction false} SpliceHasNoDoubleBrace(before: string, value: string, after: string)
    requires NoDoubleBrace(before) && NoDoubleBrace(after) && value != [] && '{' !in value
    ensures NoDoubleBrace(before + value + after)
  {
    var out := before + value + after;
    var n, m := |before|, |before| + |value|;
    forall i | 0 <= i < |out| - 1 ensures !(out[i] == '{' && out[i + 1] == '{') {
      if i + 1 < n {
        assert out[i] == before[i] && out[i + 1] == before[i + 1];
      } else if i >= m {
        assert out[i] == after[i - m] && out[i + 1] == after[i + 1 - m];
      } else if i >= n {
        assert out[i] == value[i - n];
      } else {
        assert out[i + 1] == value[0];
      }
    }
  }

  /** What is inserted for the names in use is free of opening braces. */
  ghost predicate BraceFree(p: Pieces, insert: string -> string) {
    forall name :: Uses(p, name) ==> '{' !in insert(name)
  }

  lemma {:induction false} SplicedHasNoDoubleBrace(p: Pieces, insert: string -> string)
    requires PlainLiterals(p) && AllInserted(p, insert) && BraceFree(p, insert)
    ensures NoDoubleBrace(Spliced(p, insert))
    decreases p
  {
    if p.More? {
      assert Uses(p, p.name);
      assert forall name :: Uses(p.rest, name) ==> Uses(p, name);
      SplicedHasNoDoubleBrace(p.rest, insert);
      SpliceHasNoDoubleBrace(p.text, insert(p.name), Spliced(p.rest, insert));
    }
  }

  lemma {:induction false} InsertsNoBrace(values: Values, name: string)
    requires name in values ==> '{' !in values[name]
    ensures '{' !in Inserted(values)(name)
  {
    if '{' in Strip(ValueOf(values, name)) {
      StripChars(ValueOf(values, name), '{');
    }
  }

  lemma {:induction false} InsertsNoBraces(p: Pieces, values: Values)
    requires forall name :: name in values ==> '{' !in values[name]
    ensures BraceFree(p, Inserted(values))
  {
    forall name ensures '{' !in Inserted(values)(name) {
      InsertsNoBrace(values, name);
    }
  }

  /** With brace-free values and plain literals, nothing in the output is a placeholder any more. */
  lemma {:induction false} RenderedHasNoPlaceholder(template: string, values: Values, i: nat)
    requires RenderText(template, values).Ok?
    requires PlainLiterals(Scan(template))
    requires forall name :: name in values ==> '{' !in values[name]
    ensures MatchAt(RenderText(template, values).value, i) == None
  {
    var p := Scan(template);
    BlankIsNothing(values);
    FilledIffInserted(p, Missing(values), Inserted(values));
    RendersIffFilled(template, values);
    RendersFilled(template, values);
    InsertsNoBraces(p, values);
    SplicedHasNoDoubleBrace(p, Inserted(values));
  }
}
