// String helpers shared by the frontend (TypeScript) and backend (Python)
// models. Characters are restricted to their ASCII behaviour: case mapping
// and whitespace classes are the ASCII parts of what the host languages do.
module Strings {
  import opened Wrappers

  /** Whitespace as JavaScript's `trim` and regular-expression `\s` see it (ASCII part). */
  predicate IsJsSpace(c: char) {
    c == ' ' || c == '\t' || c == '\n' || c == '\r' || c == '\U{0B}' || c == '\U{0C}'
  }

  /** Whitespace as Python's `str.strip`, `str.isspace` and `re`'s `\s` see it (ASCII part). */
  predicate IsPySpace(c: char) {
    IsJsSpace(c) || ('\U{1C}' <= c <= '\U{1F}')
  }

  predicate IsDigit(c: char) { '0' <= c <= '9' }
  predicate IsAsciiLetter(c: char) { 'a' <= c <= 'z' || 'A' <= c <= 'Z' }

  /** A word character of `\w` (ASCII part): letters, digits and underscore. */
  predicate IsWordChar(c: char) { IsAsciiLetter(c) || IsDigit(c) || c == '_' }

  function LowerChar(c: char): (r: char)
    ensures !('A' <= r <= 'Z')
    ensures r == c || ('A' <= c <= 'Z' && r as int == c as int + 32)
  {
    if 'A' <= c <= 'Z' then (c as int + 32) as char else c
  }

  function UpperChar(c: char): (r: char)
    ensures !('a' <= r <= 'z')
    ensures r == c || ('a' <= c <= 'z' && r as int == c as int - 32)
  {
    if 'a' <= c <= 'z' then (c as int - 32) as char else c
  }

  /** `toLowerCase()` / `lower()`, ASCII letters only. */
  function Lower(s: string): (r: string)
    ensures |r| == |s|
    ensures forall i :: 0 <= i < |s| ==> r[i] == LowerChar(s[i])
  {
    seq(|s|, i requires 0 <= i < |s| => LowerChar(s[i]))
  }

  lemma LowerIdempotent(s: string)
    ensures Lower(Lower(s)) == Lower(s)
  {
  }

  lemma LowerConcat(a: string, b: string)
    ensures Lower(a + b) == Lower(a) + Lower(b)
  {
  }

  /**
   * Python's `str.title()` on ASCII text: a letter is upper-cased when it
   * follows a non-letter (or starts the text) and lower-cased otherwise.
   */
  function PyTitle(s: string): (r: string)
    ensures |r| == |s|
  {
    seq(|s|, i requires 0 <= i < |s| =>
      if i == 0 || !IsAsciiLetter(s[i - 1]) then UpperChar(s[i]) else LowerChar(s[i]))
  }

  /** `p` occurs in `s` starting at index `i`. */
  predicate OccursAt(s: string, p: string, i: nat) {
    i + |p| <= |s| && s[i..i + |p|] == p
  }

  /** JavaScript's `includes` and Python's `in` on strings. */
  predicate Contains(s: string, p: string) {
    exists i: nat | i <= |s| :: OccursAt(s, p, i)
  }

  predicate StartsWith(s: string, p: string) { p <= s }

  predicate EndsWith(s: string, p: string) {
    |p| <= |s| && s[|s| - |p|..] == p
  }

  /** The first occurrence of `p` in `s` at or after `i`. */
  function FindFrom(s: string, p: string, i: nat): (r: Option<nat>)
    ensures r.Some? ==> i <= r.value && OccursAt(s, p, r.value)
    ensures r.Some? ==> forall j: nat :: i <= j < r.value ==> !OccursAt(s, p, j)
    ensures r.None? ==> forall j: nat :: i <= j ==> !OccursAt(s, p, j)
    decreases |s| - i
  {
    if i + |p| > |s| then None
    else if OccursAt(s, p, i) then Some(i)
    else FindFrom(s, p, i + 1)
  }

  /** `indexOf` / `find`: the first occurrence, `None` standing for -1. */
  function IndexOf(s: string, p: string): (r: Option<nat>)
    ensures r.Some? <==> Contains(s, p)
    ensures r.Some? ==> OccursAt(s, p, r.value) && forall j: nat :: j < r.value ==> !OccursAt(s, p, j)
  {
    FindFrom(s, p, 0)
  }

  /** The last occurrence of `p` in `s` starting at or before `i`. */
  function FindLastFrom(s: string, p: string, i: nat): (r: Option<nat>)
    ensures r.Some? ==> r.value <= i && OccursAt(s, p, r.value)
    ensures r.Some? ==> forall j: nat :: r.value < j <= i ==> !OccursAt(s, p, j)
    ensures r.None? ==> forall j: nat :: j <= i ==> !OccursAt(s, p, j)
  {
    if OccursAt(s, p, i) then Some(i)
    else if i == 0 then None
    else FindLastFrom(s, p, i - 1)
  }

  /** `lastIndexOf` with a string pattern, `None` standing for -1. */
  function LastIndexOf(s: string, p: string): (r: Option<nat>)
    ensures r.Some? <==> Contains(s, p)
    ensures r.Some? ==> OccursAt(s, p, r.value) && forall j: nat :: r.value < j ==> !OccursAt(s, p, j)
  {
    FindLastFrom(s, p, |s|)
  }

  /** `lastIndexOf` for one character, `None` standing for -1. */
  function LastIndexOfChar(s: string, c: char): (r: Option<nat>)
    ensures r.Some? <==> c in s
    ensures r.Some? ==> r.value < |s| && s[r.value] == c && c !in s[r.value + 1..]
  {
    if |s| == 0 then None
    else if s[|s| - 1] == c then Some(|s| - 1)
    else
      assert s == s[..|s| - 1] + [s[|s| - 1]];
      LastIndexOfChar(s[..|s| - 1], c)
  }

  /** `replace` with a string pattern: only the first occurrence is replaced. */
  function ReplaceFirst(s: string, p: string, rep: string): (r: string)
    ensures !Contains(s, p) ==> r == s
    ensures Contains(s, p) ==> exists i: nat :: OccursAt(s, p, i) && r == s[..i] + rep + s[i + |p|..]
  {
    match IndexOf(s, p)
    case None => s
    case Some(i) => s[..i] + rep + s[i + |p|..]
  }

  /** `replace` acts at the first occurrence, wherever the caller has located it. */
  lemma ReplaceFirstAt(s: string, p: string, rep: string, i: nat)
    requires OccursAt(s, p, i) && forall j: nat :: j < i ==> !OccursAt(s, p, j)
    ensures ReplaceFirst(s, p, rep) == s[..i] + rep + s[i + |p|..]
  {
    var k := IndexOf(s, p).value;
    assert k == i;
  }

  /** Global replacement of a non-empty pattern, leftmost and non-overlapping. */
  function ReplaceAll(s: string, p: string, rep: string): (r: string)
    requires |p| > 0
    ensures !Contains(s, p) ==> r == s
    decreases |s|
  {
    if |s| < |p| then s
    else if p <= s then
      assert OccursAt(s, p, 0);
      rep + ReplaceAll(s[|p|..], p, rep)
    else
      assert OccursAt(s, p, 0) == false;
      ReplaceAllStep(s, p);
      [s[0]] + ReplaceAll(s[1..], p, rep)
  }

  /** Replacing by something no longer than the pattern never lengthens the text. */
  lemma {:induction false} ReplaceAllShrinks(s: string, p: string, rep: string)
    requires |p| > 0 && |rep| <= |p|
    ensures |ReplaceAll(s, p, rep)| <= |s|
    decreases |s|
  {
    if |s| >= |p| {
      if p <= s {
        ReplaceAllShrinks(s[|p|..], p, rep);
      } else {
        ReplaceAllShrinks(s[1..], p, rep);
      }
    }
  }

  /** A pattern that starts with `c` cannot occur in a text without `c`. */
  lemma AbsentHead(s: string, p: string, c: char)
    requires |p| > 0 && p[0] == c && c !in s
    ensures !Contains(s, p)
  {
    forall i: nat | i <= |s| ensures !OccursAt(s, p, i) {
      if i + |p| <= |s| {
        assert s[i..i + |p|][0] == s[i] && s[i] in s;
      }
    }
  }

  /** A pattern cannot start inside a prefix that lacks its first character. */
  lemma NoOccurrenceIn(a: string, rest: string, p: string)
    requires |p| > 0 && p[0] !in a
    ensures forall j: nat :: j < |a| ==> !OccursAt(a + rest, p, j)
  {
    forall j: nat | j < |a| ensures !OccursAt(a + rest, p, j) {
      var g := a + rest;
      if j + |p| <= |g| {
        assert g[j..j + |p|][0] == g[j] == a[j] && a[j] in a;
      }
    }
  }

  lemma ReplaceAllStep(s: string, p: string)
    requires |s| > 0
    ensures !Contains(s, p) ==> !Contains(s[1..], p)
  {
    if !Contains(s, p) {
      forall i: nat ensures !OccursAt(s[1..], p, i) {
        if OccursAt(s[1..], p, i) {
          assert s[i + 1..i + 1 + |p|] == s[1..][i..i + |p|];
          assert OccursAt(s, p, i + 1);
        }
      }
    }
  }

  /** Length of the leading run of `ws` characters. */
  function LeadCount(s: string, ws: char -> bool): (k: nat)
    ensures k <= |s|
    ensures forall i :: 0 <= i < k ==> ws(s[i])
    ensures k < |s| ==> !ws(s[k])
  {
    if |s| > 0 && ws(s[0]) then 1 + LeadCount(s[1..], ws) else 0
  }

  /** Length of the trailing run of `ws` characters. */
  function TrailCount(s: string, ws: char -> bool): (k: nat)
    ensures k <= |s|
    ensures forall i :: |s| - k <= i < |s| ==> ws(s[i])
    ensures k < |s| ==> !ws(s[|s| - k - 1])
  {
    if |s| > 0 && ws(s[|s| - 1]) then 1 + TrailCount(s[..|s| - 1], ws) else 0
  }

  /**
   * Removes the leading and the trailing run of `ws` characters: what is
   * left is a slice of `s` that neither starts nor ends with one.
   */
  function Trim(s: string, ws: char -> bool): (r: string)
    ensures |r| <= |s|
    ensures LeadCount(s, ws) + |r| <= |s| && r == s[LeadCount(s, ws)..LeadCount(s, ws) + |r|]
    ensures |r| > 0 ==> !ws(r[0]) && !ws(r[|r| - 1])
    ensures |r| == 0 <==> forall i :: 0 <= i < |s| ==> ws(s[i])
  {
    var k := LeadCount(s, ws);
    var rest := s[k..];
    var r := rest[..|rest| - TrailCount(rest, ws)];
    assert r == s[k..k + |r|];
    assert k < |s| ==> rest[0] == s[k];
    r
  }

  function JsTrim(s: string): string { Trim(s, IsJsSpace) }
  function PyStrip(s: string): string { Trim(s, IsPySpace) }

  lemma TrimIdempotent(s: string, ws: char -> bool)
    ensures Trim(Trim(s, ws), ws) == Trim(s, ws)
  {
    var t := Trim(s, ws);
    if |t| > 0 {
      assert LeadCount(t, ws) == 0;
      assert TrailCount(t, ws) == 0;
    }
  }

  /** A text with no `ws` character is its own trim. */
  lemma TrimNothing(s: string, ws: char -> bool)
    requires forall i :: 0 <= i < |s| ==> !ws(s[i])
    ensures Trim(s, ws) == s
  {
    assert LeadCount(s, ws) == 0;
    assert TrailCount(s, ws) == 0;
  }

  /** JavaScript's `split(c)` and Python's `split(c)` with a one-character separator. */
  function Split(s: string, c: char): (r: seq<string>)
    ensures |r| >= 1
    ensures forall i :: 0 <= i < |r| ==> c !in r[i]
    decreases |s|
  {
    if |s| == 0 then [""]
    else
      var rest := Split(s[1..], c);
      if s[0] == c then [""] + rest
      else [[s[0]] + rest[0]] + rest[1..]
  }

  /** `join`: the parts with `sep` between consecutive ones. */
  function Join(parts: seq<string>, sep: string): string {
    if |parts| == 0 then ""
    else if |parts| == 1 then parts[0]
    else parts[0] + sep + Join(parts[1..], sep)
  }

  lemma {:induction false} SplitJoin(s: string, c: char)
    ensures Join(Split(s, c), [c]) == s
    decreases |s|
  {
    if |s| > 0 {
      SplitJoin(s[1..], c);
      var rest := Split(s[1..], c);
      if s[0] == c {
        assert Split(s, c)[1..] == rest;
      } else if |rest| > 1 {
        assert Split(s, c)[1..] == rest[1..];
        assert Join(rest, [c]) == rest[0] + [c] + Join(rest[1..], [c]);
      }
    }
  }

  /** Splitting text that starts with a separator-free piece `p`. */
  lemma {:induction false} SplitPrefix(p: string, t: string, c: char)
    requires c !in p
    ensures Split(p + t, c) == [p + Split(t, c)[0]] + Split(t, c)[1..]
    decreases |p|
  {
    if |p| > 0 {
      assert (p + t)[1..] == p[1..] + t;
      assert c !in p[1..] && (p + t)[0] != c;
      SplitPrefix(p[1..], t, c);
      var rest := Split(p[1..] + t, c);
      assert Split(p + t, c) == [[p[0]] + rest[0]] + rest[1..];
      assert rest[1..] == Split(t, c)[1..];
      assert [p[0]] + (p[1..] + Split(t, c)[0]) == p + Split(t, c)[0];
    } else {
      assert p + t == t;
      assert p + Split(t, c)[0] == Split(t, c)[0];
      assert Split(t, c) == [Split(t, c)[0]] + Split(t, c)[1..];
    }
  }

  lemma {:induction false} JoinSplit(parts: seq<string>, c: char)
    requires |parts| >= 1
    requires forall i :: 0 <= i < |parts| ==> c !in parts[i]
    ensures Split(Join(parts, [c]), c) == parts
    decreases |parts|
  {
    if |parts| == 1 {
      SplitPrefix(parts[0], "", c);
      assert parts[0] + "" == parts[0];
      assert Split("", c) == [""];
    } else {
      var tail := Join(parts[1..], [c]);
      JoinSplit(parts[1..], c);
      assert Join(parts, [c]) == parts[0] + ([c] + tail);
      SplitPrefix(parts[0], [c] + tail, c);
      assert ([c] + tail)[1..] == tail;
      assert Split([c] + tail, c) == [""] + parts[1..];
      assert parts[0] + "" == parts[0];
      assert parts == [parts[0]] + parts[1..];
    }
  }

  lemma {:induction false} JoinAppend(ls: seq<string>, x: string, sep: string)
    ensures Join(ls + [x], sep) == if |ls| == 0 then x else Join(ls, sep) + sep + x
    decreases |ls|
  {
    if |ls| > 1 {
      JoinAppend(ls[1..], x, sep);
      assert (ls + [x])[1..] == ls[1..] + [x];
    } else if |ls| == 1 {
      assert ls + [x] == [ls[0], x];
    }
  }

  lemma {:induction false} JoinConcat(a: seq<string>, b: seq<string>, sep: string)
    requires |a| > 0 && |b| > 0
    ensures Join(a + b, sep) == Join(a, sep) + sep + Join(b, sep)
    decreases |a|
  {
    if |a| == 1 {
      assert (a + b)[1..] == b;
    } else {
      JoinConcat(a[1..], b, sep);
      assert (a + b)[1..] == a[1..] + b;
    }
  }

  /** Splitting text whose last separator is followed by the separator-free `b`. */
  lemma SplitAtLast(a: string, b: string, c: char)
    requires c !in b
    ensures Split(a + [c] + b, c) == Split(a, c) + [b]
  {
    var ls := Split(a, c) + [b];
    SplitJoin(a, c);
    JoinAppend(Split(a, c), b, [c]);
    JoinSplit(ls, c);
  }

  /** A text without the separator splits into itself. */
  lemma {:induction false} SplitWithoutSeparator(s: string, c: char)
    requires c !in s
    ensures Split(s, c) == [s]
    decreases |s|
  {
    if |s| > 0 {
      assert c !in s[1..] by { assert forall x :: x in s[1..] ==> x in s; }
      SplitWithoutSeparator(s[1..], c);
      assert [s[0]] + s[1..] == s;
    }
  }

  /** Splitting at the last separator at index `i`. */
  lemma SplitAtIndex(s: string, c: char, i: nat)
    requires i < |s| && s[i] == c && c !in s[i + 1..]
    ensures Split(s, c) == Split(s[..i], c) + [s[i + 1..]]
  {
    assert s == s[..i] + [c] + s[i + 1..];
    SplitAtLast(s[..i], s[i + 1..], c);
  }

  /** The text after the last `c`, or all of it when there is no `c`. */
  function AfterLast(s: string, c: char): (r: string)
    ensures c !in r
  {
    match LastIndexOfChar(s, c)
    case Some(k) => s[k + 1..]
    case None => s
  }

  /** The last piece of a split (what `pop` returns) is the text after the last separator. */
  lemma SplitLastPiece(s: string, c: char)
    ensures var r := Split(s, c); r[|r| - 1] == AfterLast(s, c)
  {
    var k := LastIndexOfChar(s, c);
    if k.Some? {
      SplitAtIndex(s, c, k.value);
    } else {
      SplitWithoutSeparator(s, c);
    }
  }

  /** Lower-casing keeps out any character that is not a letter. */
  lemma LowerKeepsOut(s: string, c: char)
    requires c !in s && !IsAsciiLetter(c)
    ensures c !in Lower(s)
  {
    forall i | 0 <= i < |s| ensures Lower(s)[i] != c {
      assert s[i] in s;
    }
  }

  /** `filter(Boolean)` on a list of strings: the non-empty ones, in order. */
  function NonEmpty(parts: seq<string>): (r: seq<string>)
    ensures |r| <= |parts|
    ensures forall i :: 0 <= i < |r| ==> r[i] != "" && r[i] in parts
    ensures forall x :: x in parts && x != "" ==> x in r
  {
    if |parts| == 0 then []
    else if parts[0] == "" then NonEmpty(parts[1..])
    else [parts[0]] + NonEmpty(parts[1..])
  }

  lemma {:induction false} NonEmptyKeepsAll(parts: seq<string>)
    requires forall i :: 0 <= i < |parts| ==> parts[i] != ""
    ensures NonEmpty(parts) == parts
    decreases |parts|
  {
    if |parts| > 0 {
      NonEmptyKeepsAll(parts[1..]);
      assert [parts[0]] + parts[1..] == parts;
    }
  }

  /** `map(x => x.trim())`. */
  function TrimAll(parts: seq<string>): (r: seq<string>)
    ensures |r| == |parts| && forall i :: 0 <= i < |r| ==> r[i] == JsTrim(parts[i])
  {
    seq(|parts|, i requires 0 <= i < |parts| => JsTrim(parts[i]))
  }

  lemma TrimKeepsOut(s: string, c: char)
    requires c !in s
    ensures c !in JsTrim(s)
  {
    var k := LeadCount(s, IsJsSpace);
    var t := JsTrim(s);
    forall i | 0 <= i < |t| ensures t[i] != c {
      assert t[i] == s[k + i];
    }
  }

  /** Items of a list the user types: trimmed, non-empty and free of commas. */
  predicate CleanItems(items: seq<string>) {
    forall i :: 0 <= i < |items| ==> items[i] != "" && ',' !in items[i] && JsTrim(items[i]) == items[i]
  }

  /** `text.split(',').map(x => x.trim()).filter(Boolean)`. */
  function ParseList(s: string): (r: seq<string>)
    ensures CleanItems(r)
  {
    var parts := Split(s, ',');
    var trimmed := TrimAll(parts);
    assert CleanItems(NonEmpty(trimmed)) by {
      forall i | 0 <= i < |trimmed| ensures ',' !in trimmed[i] && JsTrim(trimmed[i]) == trimmed[i] {
        TrimIdempotent(parts[i], IsJsSpace);
        TrimKeepsOut(parts[i], ',');
      }
    }
    NonEmpty(trimmed)
  }

  /** Clean items joined with ',' parse back to themselves; the empty list gives "" and back. */
  lemma ParseJoined(items: seq<string>)
    requires CleanItems(items)
    ensures ParseList(Join(items, ",")) == items
  {
    if |items| == 0 {
      assert Split("", ',') == [""];
      assert TrimAll([""]) == [""];
    } else {
      JoinSplit(items, ',');
      assert TrimAll(items) == items;
      NonEmptyKeepsAll(items);
    }
  }

  // ---------------------------------------------------------------------
  // Regular-expression shapes used by the backend's name cleaners

  /**
   * `re.sub(r"<class>+", rep, s)`: every maximal run of characters of the
   * class becomes a single `rep`; every other character is kept.
   */
  function ReplaceRuns(s: string, p: char -> bool, rep: char): (r: string)
    ensures |r| <= |s|
    ensures forall i :: 0 <= i < |r| ==> r[i] == rep || (r[i] in s && !p(r[i]))
    ensures |s| > 0 && p(s[0]) ==> |r| > 0 && r[0] == rep
    ensures |s| > 0 && !p(s[0]) ==> |r| > 0 && r[0] == s[0]
    decreases |s|
  {
    if |s| == 0 then ""
    else if p(s[0]) then
      var k := LeadCount(s, p);
      var rest := ReplaceRuns(s[k..], p, rep);
      assert forall c :: c in s[k..] ==> c in s;
      [rep] + rest
    else
      var rest := ReplaceRuns(s[1..], p, rep);
      assert forall c :: c in s[1..] ==> c in s;
      [s[0]] + rest
  }

  /** No two class characters stand side by side. */
  predicate Separated(s: string, p: char -> bool) {
    forall i :: 0 <= i < |s| - 1 ==> !(p(s[i]) && p(s[i + 1]))
  }

  /** Two class characters never stand side by side in the result. */
  lemma {:induction false} ReplaceRunsSeparated(s: string, p: char -> bool, rep: char)
    ensures Separated(ReplaceRuns(s, p, rep), p)
    decreases |s|
  {
    if |s| > 0 {
      var k := if p(s[0]) then LeadCount(s, p) else 1;
      ReplaceRunsSeparated(s[k..], p, rep);
      var r, rest := ReplaceRuns(s, p, rep), ReplaceRuns(s[k..], p, rep);
      assert |r| == |rest| + 1 && r[1..] == rest;
      assert |rest| > 0 ==> !p(r[0]) || !p(rest[0]);
      forall i | 0 <= i < |r| - 1 ensures !(p(r[i]) && p(r[i + 1])) {
        if i > 0 {
          assert r[i] == rest[i - 1] && r[i + 1] == rest[i];
        }
      }
    }
  }

  /** A text whose class characters are single `rep`s already is left as it is. */
  lemma {:induction false} ReplaceRunsIdentity(s: string, p: char -> bool, rep: char)
    requires forall i :: 0 <= i < |s| && p(s[i]) ==> s[i] == rep
    requires Separated(s, p)
    ensures ReplaceRuns(s, p, rep) == s
    decreases |s|
  {
    if |s| > 0 {
      if p(s[0]) {
        assert LeadCount(s, p) == 1 by {
          if |s| > 1 {
            assert !p(s[1]);
          }
        }
      }
      ReplaceRunsIdentity(s[1..], p, rep);
      assert [s[0]] + s[1..] == s;
    }
  }

  /** With `rep` in the class, replacing runs a second time changes nothing. */
  lemma ReplaceRunsIdempotent(s: string, p: char -> bool, rep: char)
    requires p(rep)
    ensures ReplaceRuns(ReplaceRuns(s, p, rep), p, rep) == ReplaceRuns(s, p, rep)
  {
    ReplaceRunsSeparated(s, p, rep);
    ReplaceRunsIdentity(ReplaceRuns(s, p, rep), p, rep);
  }

  /** `s.split(sep)[0]`: the text before the first `sep`, or all of it. */
  function BeforeFirst(s: string, sep: string): (r: string)
    ensures r <= s
    ensures !Contains(s, sep) ==> r == s
    ensures Contains(s, sep) ==> OccursAt(s, sep, |r|)
  {
    match IndexOf(s, sep)
    case None => s
    case Some(i) => s[..i]
  }

  /** An occurrence inside a prefix is an occurrence in the whole text, and back. */
  lemma OccursInPrefix(s: string, k: nat, p: string, j: nat)
    requires j + |p| <= k <= |s|
    ensures OccursAt(s[..k], p, j) <==> OccursAt(s, p, j)
  {
    assert s[..k][j..j + |p|] == s[j..j + |p|];
  }

  /** `BeforeFirst` stops at the first occurrence. */
  lemma BeforeFirstAt(s: string, sep: string, i: nat)
    requires OccursAt(s, sep, i)
    requires forall j: nat :: j < i ==> !OccursAt(s, sep, j)
    ensures BeforeFirst(s, sep) == s[..i]
  {
    assert Contains(s, sep);
  }

  /** A `sep` starting with a character `a` lacks is found right after `a`. */
  lemma BeforeFirstAppended(a: string, sep: string, b: string)
    requires |sep| > 0 && sep[0] !in a
    ensures BeforeFirst(a + sep + b, sep) == a
  {
    var s := a + sep + b;
    assert OccursAt(s, sep, |a|);
    forall j: nat | j < |a| ensures !OccursAt(s, sep, j) {
      assert s[j] == a[j];
    }
  }

  /**
   * The maximal runs of word characters (`\w`, ASCII part), left to right:
   * the pieces `\b...\b` can match.
   */
  function WordRuns(s: string): (r: seq<string>)
    ensures forall i :: 0 <= i < |r| ==> |r[i]| > 0
    ensures forall i, k :: 0 <= i < |r| && 0 <= k < |r[i]| ==> IsWordChar(r[i][k]) && r[i][k] in s
    decreases |s|
  {
    if |s| == 0 then []
    else if !IsWordChar(s[0]) then
      var rest := WordRuns(s[1..]);
      assert forall c :: c in s[1..] ==> c in s;
      rest
    else
      var k := LeadCount(s, IsWordChar);
      var rest := WordRuns(s[k..]);
      assert forall c :: c in s[k..] ==> c in s;
      assert forall c :: c in s[..k] ==> c in s;
      [s[..k]] + rest
  }

  /** A run of word characters followed by a break or the end is one whole run. */
  lemma {:induction false} LeadRun(w: string, t: string)
    requires forall i :: 0 <= i < |w| ==> IsWordChar(w[i])
    requires t == [] || !IsWordChar(t[0])
    ensures LeadCount(w + t, IsWordChar) == |w|
    decreases |w|
  {
    if |w| > 0 {
      assert (w + t)[1..] == w[1..] + t;
      LeadRun(w[1..], t);
    }
  }

  /** `WordRuns` of a whole run and what follows it. */
  lemma RunThenRest(w: string, t: string)
    requires |w| > 0 && forall i :: 0 <= i < |w| ==> IsWordChar(w[i])
    requires t == [] || !IsWordChar(t[0])
    ensures WordRuns(w + t) == [w] + WordRuns(t)
  {
    LeadRun(w, t);
    assert (w + t)[..|w|] == w && (w + t)[|w|..] == t;
  }

  /** A leading non-word character starts no run. */
  lemma SkipBreak(c: char, t: string)
    requires !IsWordChar(c)
    ensures WordRuns([c] + t) == WordRuns(t)
  {
    assert ([c] + t)[1..] == t;
  }

  function DigitChar(d: nat): (c: char)
    requires d < 10
    ensures IsDigit(c)
  {
    ('0' as int + d) as char
  }

  /** Decimal rendering of a natural number, as `str(n)` and `${n}` print it. */
  function NatToString(n: nat): (r: string)
    ensures |r| > 0
    ensures forall i :: 0 <= i < |r| ==> IsDigit(r[i])
  {
    if n < 10 then [DigitChar(n)] else NatToString(n / 10) + [DigitChar(n % 10)]
  }

  /** Different numbers print differently. */
  lemma {:induction false} NatToStringInjective(n: nat, m: nat)
    requires NatToString(n) == NatToString(m)
    ensures n == m
    decreases n
  {
    var a := NatToString(n);
    if n >= 10 && m >= 10 {
      assert a[..|a| - 1] == NatToString(n / 10) && NatToString(m) [..|a| - 1] == NatToString(m / 10);
      NatToStringInjective(n / 10, m / 10);
      assert DigitChar(n % 10) == a[|a| - 1] == DigitChar(m % 10);
    }
  }

  /** Decimal rendering of an integer, with a leading '-' when negative. */
  function IntToString(n: int): (r: string)
    ensures |r| > 0
  {
    if n < 0 then "-" + NatToString(-n) else NatToString(n)
  }

  /** Number of bytes of the UTF-8 encoding of `s` (`len(s.encode('utf-8'))`). */
  function Utf8Length(s: string): (n: nat)
    ensures |s| <= n <= 4 * |s|
  {
    if |s| == 0 then 0
    else
      var c := s[0] as int;
      (if c < 0x80 then 1 else if c < 0x800 then 2 else if c < 0x10000 then 3 else 4)
      + Utf8Length(s[1..])
  }
}
