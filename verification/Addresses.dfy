/** Reading `Display Name <local@domain>` style addresses. */
module Addresses {
  import opened Prelude
  import opened Strings

  function TrimLeft(s: string, c: char): (r: string)
    ensures |r| <= |s| && r == s[|s| - |r|..] && (r != [] ==> r[0] != c)
  {
    if s != [] && s[0] == c then TrimLeft(s[1..], c) else s
  }

  function TrimRight(s: string, c: char): (r: string)
    ensures |r| <= |s| && r == s[..|r|] && (r != [] ==> r[|r| - 1] != c)
  {
    if s != [] && s[|s| - 1] == c then TrimRight(s[..|s| - 1], c) else s
  }

  function Trim(s: string, c: char): string {
    TrimRight(TrimLeft(s, c), c)
  }

  /** The display name may end before `j`, and the rest is one bracketed address. */
  predicate OpensAt(t: string, j: nat) {
    && 0 < j && j + 2 < |t| && t[j] == '<' && t[|t| - 1] == '>'
    && '>' !in t[j + 1..|t| - 1]
    && '\n' !in StripRight(t[..j])
  }

  /** The first opening bracket that makes the text match, or the length if none does. */
  function Opening(t: string, from: nat): (j: nat)
    requires from <= |t|
    ensures from <= j <= |t| && (j < |t| ==> j + 2 < |t|)
    decreases |t| - from
  {
    if from == |t| || OpensAt(t, from) then from else Opening(t, from + 1)
  }

  lemma {:induction false} OpeningIs(t: string, from: nat, j: nat)
    requires from <= j < |t| && OpensAt(t, j)
    requires forall i: nat :: from <= i < j ==> !OpensAt(t, i)
    ensures Opening(t, from) == j
    decreases j - from
  {
    if from < j {
      OpeningIs(t, from + 1, j);
    }
  }

  function DisplayOf(s: string): Option<string> {
    var display := Trim(Trim(Strip(s), '"'), '\'');
    if display == "" then None else Some(display)
  }

  function AddressOf(s: string): string {
    Lower(Strip(s))
  }

  /** What stands before the brackets and inside them. */
  function Split(t: string): Option<(string, string)> {
    var j := Opening(t, 0);
    if j == |t| then None else Some((t[..j], t[j + 1..|t| - 1]))
  }

  /** The display name, if there is one, and the address. */
  function ParseEmailAddress(raw: string): (Option<string>, string) {
    match Split(Strip(raw))
    case None => (None, Lower(Strip(raw)))
    case Some((before, inside)) => (DisplayOf(before), AddressOf(inside))
  }

  /** A name that survives being written in front of an address. */
  predicate PlainDisplay(d: string) {
    && d != "" && !IsSpace(d[0]) && !IsSpace(d[|d| - 1])
    && '<' !in d && '\n' !in d
    && d[0] !in "\"'" && d[|d| - 1] !in "\"'"
  }

  predicate PlainAddress(a: string) {
    a != "" && !IsSpace(a[0]) && !IsSpace(a[|a| - 1]) && '<' !in a && '>' !in a
  }

  function Formatted(d: string, a: string): string {
    d + [' ', '<'] + a + ['>']
  }

  lemma {:induction false} StripSpace(d: string)
    requires d != "" && !IsSpace(d[0]) && !IsSpace(d[|d| - 1])
    ensures StripRight(d + [' ']) == d && Strip(d + [' ']) == d && Strip(d) == d
  {
    assert (d + [' '])[..|d|] == d;
    assert StripRight(d) == d;
  }

  lemma {:induction false} FormattedParts(t: string, d: string, a: string)
    requires t == Formatted(d, a)
    ensures |t| == |d| + |a| + 3 && t[|d| + 1] == '<' && t[|t| - 1] == '>'
    ensures t[..|d| + 1] == d + [' '] && t[|d| + 2..|t| - 1] == a
    ensures forall i :: 0 <= i < |d| ==> t[i] == d[i]
    ensures t[|d|] == ' '
  {
  }

  lemma {:induction false} FormattedOpens(t: string, d: string, a: string)
    requires t == Formatted(d, a) && PlainDisplay(d) && PlainAddress(a)
    ensures Opening(t, 0) == |d| + 1
  {
    FormattedParts(t, d, a);
    StripSpace(d);
    hide StripLeft, StripRight;
    assert OpensAt(t, |d| + 1);
    forall i: nat | i < |d| + 1 ensures !OpensAt(t, i) {
      assert t[i] != '<' by {
        assert i < |d| ==> t[i] == d[i];
      }
    }
    OpeningIs(t, 0, |d| + 1);
  }

  lemma {:induction false} TrimPlain(d: string, c: char)
    requires d != "" && d[0] != c && d[|d| - 1] != c
    ensures Trim(d, c) == d
  {
  }

  lemma {:induction false} PartsOfFormatted(d: string, a: string)
    requires PlainDisplay(d) && PlainAddress(a)
    ensures DisplayOf(d + [' ']) == Some(d) && AddressOf(a) == Lower(a)
  {
    StripSpace(d);
    TrimPlain(d, '"');
    TrimPlain(d, '\'');
    StripPlain(a);
  }

  lemma {:induction false} SplitFormatted(t: string, d: string, a: string)
    requires t == Formatted(d, a) && PlainDisplay(d) && PlainAddress(a)
    ensures Split(t) == Some((d + [' '], a))
  {
    FormattedParts(t, d, a);
    FormattedOpens(t, d, a);
  }

  lemma {:induction false} ParseSplit(t: string, before: string, inside: string)
    requires Strip(t) == t && Split(t) == Some((before, inside))
    ensures ParseEmailAddress(t) == (DisplayOf(before), AddressOf(inside))
  {
  }

  /** Writing a name and an address and reading them back gives the name and the address in lower case. */
  lemma {:induction false} ParseFormatted(t: string, d: string, a: string)
    requires t == Formatted(d, a) && PlainDisplay(d) && PlainAddress(a)
    ensures ParseEmailAddress(t) == (Some(d), Lower(a))
  {
    SplitFormatted(t, d, a);
    FormattedTidy(t, d, a);
    ParseSplit(t, d + [' '], a);
    PartsOfFormatted(d, a);
  }

  lemma {:induction false} FormattedTidy(t: string, d: string, a: string)
    requires t == Formatted(d, a) && PlainDisplay(d)
    ensures Strip(t) == t
  {
    FormattedParts(t, d, a);
    assert t[0] == d[0];
    StripPlain(t);
  }

  lemma {:induction false} TidyLower(s: string)
    ensures var r := Lower(Strip(s));
            Lower(r) == r && (r != "" ==> !IsSpace(r[0]) && !IsSpace(r[|r| - 1]))
  {
    StripTidy(s);
    LowerOnce(Strip(s));
  }

  /** An address read from a text is in lower case, and never has white space around it. */
  lemma {:induction false} ParsedIsTidy(raw: string)
    ensures var email := ParseEmailAddress(raw).1;
            Lower(email) == email && (email != "" ==> !IsSpace(email[0]) && !IsSpace(email[|email| - 1]))
  {
    match Split(Strip(raw))
    case None => TidyLower(raw);
    case Some((before, inside)) => TidyLower(inside);
  }
}
