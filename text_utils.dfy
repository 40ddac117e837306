// The markdown helpers of the chat client: accumulating streamed text,
// preparing partial markdown for rendering, cleaning the final text,
// extracting fenced code blocks and guessing whether text is still
// streaming. Regular expressions are written out as character predicates.
module TextUtils {
  import opened Strings
  import opened Wrappers

  // ---------------------------------------------------------------------
  // accumulateStreamingContent

  /** Length of the run of newlines that starts `s`. */
  function NewlineRun(s: string): (k: nat)
    ensures k <= |s|
    ensures forall i :: 0 <= i < k ==> s[i] == '\n'
    ensures k < |s| ==> s[k] != '\n'
  {
    if |s| > 0 && s[0] == '\n' then 1 + NewlineRun(s[1..]) else 0
  }

  /** `replace(/\n{3,}/g, '\n\n')`: each run of three or more newlines becomes two. */
  function CollapseNewlines(s: string): string
    decreases |s|
  {
    if |s| == 0 then ""
    else if s[0] != '\n' then [s[0]] + CollapseNewlines(s[1..])
    else
      var k := NewlineRun(s);
      (if k >= 3 then "\n\n" else s[..k]) + CollapseNewlines(s[k..])
  }

  /** No three consecutive newlines. */
  predicate NoTripleNewline(s: string) {
    forall i :: 0 <= i < |s| - 2 ==> !(s[i] == '\n' && s[i + 1] == '\n' && s[i + 2] == '\n')
  }

  lemma NoTripleNewlineMeansNotContained(s: string)
    ensures NoTripleNewline(s) <==> !Contains(s, "\n\n\n")
  {
    if !NoTripleNewline(s) {
      var i :| 0 <= i < |s| - 2 && s[i] == '\n' && s[i + 1] == '\n' && s[i + 2] == '\n';
      assert OccursAt(s, "\n\n\n", i);
    }
    if Contains(s, "\n\n\n") {
      var i: nat :| i <= |s| && OccursAt(s, "\n\n\n", i);
      assert s[i..i + 3][0] == s[i] && s[i..i + 3][1] == s[i + 1] && s[i..i + 3][2] == s[i + 2];
    }
  }

  /** The text without its newlines: what collapsing must never change. */
  function WithoutNewlines(s: string): (r: string)
    ensures |r| <= |s|
  {
    if |s| == 0 then "" else (if s[0] == '\n' then "" else [s[0]]) + WithoutNewlines(s[1..])
  }

  lemma {:induction false} WithoutNewlinesConcat(a: string, b: string)
    ensures WithoutNewlines(a + b) == WithoutNewlines(a) + WithoutNewlines(b)
    decreases |a|
  {
    if |a| == 0 {
      assert a + b == b;
    } else {
      assert (a + b)[1..] == a[1..] + b;
      WithoutNewlinesConcat(a[1..], b);
    }
  }

  lemma {:induction false} WithoutNewlinesOfNewlines(s: string)
    requires forall i :: 0 <= i < |s| ==> s[i] == '\n'
    ensures WithoutNewlines(s) == ""
    decreases |s|
  {
    if |s| > 0 {
      WithoutNewlinesOfNewlines(s[1..]);
    }
  }

  lemma {:induction false} CollapseKeepsText(s: string)
    ensures WithoutNewlines(CollapseNewlines(s)) == WithoutNewlines(s)
    decreases |s|
  {
    if |s| > 0 {
      if s[0] != '\n' {
        CollapseKeepsText(s[1..]);
        WithoutNewlinesConcat([s[0]], CollapseNewlines(s[1..]));
      } else {
        var k := NewlineRun(s);
        var pre := if k >= 3 then "\n\n" else s[..k];
        CollapseKeepsText(s[k..]);
        WithoutNewlinesConcat(pre, CollapseNewlines(s[k..]));
        WithoutNewlinesOfNewlines(pre);
        assert s == s[..k] + s[k..];
        WithoutNewlinesConcat(s[..k], s[k..]);
        WithoutNewlinesOfNewlines(s[..k]);
      }
    }
  }

  lemma CollapseHead(s: string)
    requires |s| > 0 && s[0] != '\n'
    ensures |CollapseNewlines(s)| > 0 && CollapseNewlines(s)[0] == s[0]
  {
  }

  lemma NoTriplePrepend(pre: string, x: string)
    requires |pre| <= 2 && forall i :: 0 <= i < |pre| ==> pre[i] == '\n'
    requires NoTripleNewline(x)
    requires |x| > 0 ==> x[0] != '\n'
    ensures NoTripleNewline(pre + x)
  {
    var s := pre + x;
    forall i | 0 <= i < |s| - 2
      ensures !(s[i] == '\n' && s[i + 1] == '\n' && s[i + 2] == '\n')
    {
      if i >= |pre| {
        assert s[i] == x[i - |pre|] && s[i + 1] == x[i + 1 - |pre|] && s[i + 2] == x[i + 2 - |pre|];
      } else if i + 1 == |pre| {
        assert s[i + 1] == x[0];
      } else {
        assert s[i + 2] == x[0];
      }
    }
  }

  lemma {:induction false} CollapseLeavesNoTriple(s: string)
    ensures NoTripleNewline(CollapseNewlines(s))
    decreases |s|
  {
    if |s| > 0 {
      if s[0] != '\n' {
        CollapseLeavesNoTriple(s[1..]);
        var t := CollapseNewlines(s[1..]);
        assert forall i :: 1 <= i < |t| + 1 ==> ([s[0]] + t)[i] == t[i - 1];
      } else {
        var k := NewlineRun(s);
        var pre := if k >= 3 then "\n\n" else s[..k];
        CollapseLeavesNoTriple(s[k..]);
        if k < |s| {
          CollapseHead(s[k..]);
        }
        NoTriplePrepend(pre, CollapseNewlines(s[k..]));
      }
    }
  }

  lemma {:induction false} CollapseIdentity(s: string)
    requires NoTripleNewline(s)
    ensures CollapseNewlines(s) == s
    decreases |s|
  {
    if |s| > 0 {
      if s[0] != '\n' {
        assert NoTripleNewline(s[1..]) by {
          forall i | 0 <= i < |s[1..]| - 2
            ensures !(s[1..][i] == '\n' && s[1..][i + 1] == '\n' && s[1..][i + 2] == '\n')
          {
            assert s[1..][i] == s[i + 1];
          }
        }
        CollapseIdentity(s[1..]);
      } else {
        var k := NewlineRun(s);
        if |s| >= 3 {
          assert !(s[0] == '\n' && s[1] == '\n' && s[2] == '\n');
        }
        assert k < 3;
        assert NoTripleNewline(s[k..]) by {
          forall i | 0 <= i < |s[k..]| - 2
            ensures !(s[k..][i] == '\n' && s[k..][i + 1] == '\n' && s[k..][i + 2] == '\n')
          {
            assert s[k..][i] == s[i + k];
          }
        }
        CollapseIdentity(s[k..]);
        assert s == s[..k] + s[k..];
      }
    }
  }

  lemma CollapseIdempotent(s: string)
    ensures CollapseNewlines(CollapseNewlines(s)) == CollapseNewlines(s)
  {
    CollapseLeavesNoTriple(s);
    CollapseIdentity(CollapseNewlines(s));
  }

  /**
   * accumulateStreamingContent: an empty chunk leaves the text as it is;
   * otherwise the chunk is appended and newline runs longer than two are
   * collapsed, which loses nothing but newlines.
   */
  function Accumulate(current: string, chunk: string): (r: string)
    ensures chunk == "" ==> r == current
    ensures chunk != "" ==> !Contains(r, "\n\n\n")
    ensures WithoutNewlines(r) == WithoutNewlines(current) + WithoutNewlines(chunk)
    ensures NoTripleNewline(current + chunk) ==> r == current + chunk
  {
    if chunk == "" then
      assert WithoutNewlines(chunk) == "";
      current
    else
      CollapseFacts(current + chunk);
      WithoutNewlinesConcat(current, chunk);
      CollapseNewlines(current + chunk)
  }

  lemma CollapseFacts(s: string)
    ensures !Contains(CollapseNewlines(s), "\n\n\n")
    ensures WithoutNewlines(CollapseNewlines(s)) == WithoutNewlines(s)
    ensures NoTripleNewline(s) ==> CollapseNewlines(s) == s
  {
    CollapseLeavesNoTriple(s);
    NoTripleNewlineMeansNotContained(CollapseNewlines(s));
    CollapseKeepsText(s);
    if NoTripleNewline(s) {
      CollapseIdentity(s);
    }
  }

  // ---------------------------------------------------------------------
  // processMarkdownContent

  /** Number of word characters from index `i` on. */
  function WordRun(s: string, i: nat): (k: nat)
    requires i <= |s|
    ensures i + k <= |s|
    ensures forall j :: i <= j < i + k ==> IsWordChar(s[j])
    ensures i + k < |s| ==> !IsWordChar(s[i + k])
    decreases |s| - i
  {
    if i < |s| && IsWordChar(s[i]) then 1 + WordRun(s, i + 1) else 0
  }

  /**
   * The test of /```(\w+)?\n((?:(?!```)[\s\S])*?)$/ at position `p`: a fence,
   * an optional language word, a newline, and no further fence up to the end.
   */
  predicate OpenFenceAt(s: string, p: nat) {
    OccursAt(s, "```", p) &&
    var nl := p + 3 + WordRun(s, p + 3);
    nl < |s| && s[nl] == '\n' && !Contains(s[nl + 1..], "```")
  }

  predicate EndsInOpenFence(s: string) {
    exists p: nat | p <= |s| :: OpenFenceAt(s, p)
  }

  /** Nothing after the last fence can contain a newline followed by a fence. */
  lemma AfterLastFenceHasNoClose(s: string, l: nat)
    requires LastIndexOf(s, "```") == Some(l)
    ensures !Contains(s[l..], "\n```")
  {
    if Contains(s[l..], "\n```") {
      var j: nat :| j <= |s[l..]| && OccursAt(s[l..], "\n```", j);
      assert s[l + j + 1..l + j + 4] == s[l..][j..j + 4][1..];
      assert OccursAt(s, "```", l + j + 1);
    }
  }

  /**
   * Lines 18-26 of processMarkdownContent: the inner `includes('\n```')`
   * test always passes, so text that ends inside an open fence always gets
   * a closing fence appended.
   */
  function CloseOpenFence(s: string): (r: string)
    ensures r == if EndsInOpenFence(s) then s + "\n```" else s
  {
    if EndsInOpenFence(s) then
      var p: nat :| p <= |s| && OpenFenceAt(s, p);
      assert Contains(s, "```");
      var l := LastIndexOf(s, "```").value;
      AfterLastFenceHasNoClose(s, l);
      if !Contains(s[l..], "\n```") then s + "\n```" else s
    else s
  }

  /** A `- ` list line that the lazy `.+?` of the bullet rule can cover. */
  predicate BulletItem(l: string) {
    |l| >= 3 && l[0] == '-' && l[1] == ' ' && '\r' !in l[2..]
  }

  /** A line that `(?=\n[^-\s])` accepts after a bullet line. */
  predicate BulletFollower(l: string) {
    |l| >= 1 && l[0] != '-' && !IsJsSpace(l[0])
  }

  function LeadingDigits(l: string): (k: nat)
    ensures k <= |l|
    ensures forall i :: 0 <= i < k ==> IsDigit(l[i])
    ensures k < |l| ==> !IsDigit(l[k])
  {
    if |l| > 0 && IsDigit(l[0]) then 1 + LeadingDigits(l[1..]) else 0
  }

  /** A `12. ` list line that the numbered rule can cover. */
  predicate NumberedItem(l: string) {
    var d := LeadingDigits(l);
    d >= 1 && |l| >= d + 3 && l[d] == '.' && l[d + 1] == ' ' && '\r' !in l[d + 2..]
  }

  /** A line that `(?=\n[^\d\s])` accepts after a numbered line. */
  predicate NumberedFollower(l: string) {
    |l| >= 1 && !IsDigit(l[0]) && !IsJsSpace(l[0])
  }

  /** Appends a newline to every line whose mask bit is set. */
  function MarkLines(ls: seq<string>, mask: seq<bool>): (r: seq<string>)
    requires |mask| == |ls|
    ensures |r| == |ls|
    ensures forall i :: 0 <= i < |ls| ==> r[i] == if mask[i] then ls[i] + "\n" else ls[i]
  {
    seq(|ls|, i requires 0 <= i < |ls| => if mask[i] then ls[i] + "\n" else ls[i])
  }

  /** Lines that the bullet rule matches: preceded by a newline and followed by an accepted line. */
  function BulletMask(ls: seq<string>): (m: seq<bool>)
    ensures |m| == |ls|
    ensures |ls| > 0 ==> !m[|ls| - 1]
  {
    seq(|ls|, i requires 0 <= i < |ls| =>
      1 <= i && i + 1 < |ls| && BulletItem(ls[i]) && BulletFollower(ls[i + 1]))
  }

  function NumberedMask(ls: seq<string>): (m: seq<bool>)
    ensures |m| == |ls|
    ensures |ls| > 0 ==> !m[|ls| - 1]
  {
    seq(|ls|, i requires 0 <= i < |ls| =>
      1 <= i && i + 1 < |ls| && NumberedItem(ls[i]) && NumberedFollower(ls[i + 1]))
  }

  /** `replace(/(\n- .+?)(?=\n[^-\s])/g, '$1\n')`: a blank line after a list that is followed by prose. */
  function SpaceBulletLists(s: string): string {
    var ls := Split(s, '\n');
    Join(MarkLines(ls, BulletMask(ls)), "\n")
  }

  /** `replace(/(\n\d+\. .+?)(?=\n[^\d\s])/g, '$1\n')`, the same for numbered lists. */
  function SpaceNumberedLists(s: string): string {
    var ls := Split(s, '\n');
    Join(MarkLines(ls, NumberedMask(ls)), "\n")
  }

  /** The text without any whitespace characters. */
  function NonSpace(s: string): (r: string)
    ensures |r| <= |s|
  {
    if |s| == 0 then "" else (if IsJsSpace(s[0]) then "" else [s[0]]) + NonSpace(s[1..])
  }

  lemma {:induction false} NonSpaceConcat(a: string, b: string)
    ensures NonSpace(a + b) == NonSpace(a) + NonSpace(b)
    decreases |a|
  {
    if |a| == 0 {
      assert a + b == b;
    } else {
      assert (a + b)[1..] == a[1..] + b;
      NonSpaceConcat(a[1..], b);
    }
  }

  lemma {:induction false} NonSpaceOfSpace(s: string)
    requires forall i :: 0 <= i < |s| ==> IsJsSpace(s[i])
    ensures NonSpace(s) == ""
    decreases |s|
  {
    if |s| > 0 {
      NonSpaceOfSpace(s[1..]);
    }
  }

  /** Whitespace on both sides adds nothing to the text without whitespace. */
  lemma NonSpaceAround(x: string, m: string, y: string)
    requires forall i :: 0 <= i < |x| ==> IsJsSpace(x[i])
    requires forall i :: 0 <= i < |y| ==> IsJsSpace(y[i])
    ensures NonSpace(x + m + y) == NonSpace(m)
  {
    NonSpaceConcat(x + m, y);
    NonSpaceConcat(x, m);
    NonSpaceOfSpace(x);
    NonSpaceOfSpace(y);
  }

  lemma NonSpaceTrim(s: string)
    ensures NonSpace(JsTrim(s)) == NonSpace(s)
  {
    var r := JsTrim(s);
    var k := LeadCount(s, IsJsSpace);
    var rest := s[k..];
    var t := TrailCount(rest, IsJsSpace);
    var x, y := s[..k], rest[|rest| - t..];
    assert r == rest[..|rest| - t];
    assert s == x + r + y;
    assert forall i :: 0 <= i < |y| ==> IsJsSpace(y[i]) by {
      forall i | 0 <= i < |y| ensures IsJsSpace(y[i]) {
        assert y[i] == rest[|rest| - t + i];
      }
    }
    NonSpaceAround(x, r, y);
  }

  /** Non-whitespace text of the lines, concatenated. */
  function LinesText(ls: seq<string>): string {
    if |ls| == 0 then "" else NonSpace(ls[0]) + LinesText(ls[1..])
  }

  lemma {:induction false} NonSpaceJoinLines(ls: seq<string>)
    ensures NonSpace(Join(ls, "\n")) == LinesText(ls)
    decreases |ls|
  {
    if |ls| == 1 {
      assert LinesText(ls[1..]) == "";
    } else if |ls| > 1 {
      NonSpaceJoinLines(ls[1..]);
      NonSpaceConcat(ls[0] + "\n", Join(ls[1..], "\n"));
      NonSpaceConcat(ls[0], "\n");
    }
  }

  lemma {:induction false} LinesTextMarked(ls: seq<string>, mask: seq<bool>)
    requires |mask| == |ls|
    ensures LinesText(MarkLines(ls, mask)) == LinesText(ls)
    decreases |ls|
  {
    if |ls| > 0 {
      assert MarkLines(ls, mask)[1..] == MarkLines(ls[1..], mask[1..]);
      LinesTextMarked(ls[1..], mask[1..]);
      NonSpaceConcat(ls[0], "\n");
    }
  }

  lemma SpacingKeepsText(s: string)
    ensures NonSpace(SpaceBulletLists(s)) == NonSpace(s)
    ensures NonSpace(SpaceNumberedLists(s)) == NonSpace(s)
  {
    var ls := Split(s, '\n');
    SplitJoin(s, '\n');
    NonSpaceJoinLines(ls);
    NonSpaceJoinLines(MarkLines(ls, BulletMask(ls)));
    LinesTextMarked(ls, BulletMask(ls));
    NonSpaceJoinLines(MarkLines(ls, NumberedMask(ls)));
    LinesTextMarked(ls, NumberedMask(ls));
  }

  /** The lines of a text that ends in a fence line end with that line. */
  lemma FenceIsLastLine(a: string)
    ensures var ls := Split(a + "\n```", '\n'); |ls| > 1 && ls[|ls| - 1] == "```"
  {
    assert a + "\n```" == a + "\n" + "```";
    SplitAtLast(a, "```", '\n');
  }

  /** Marking lines with a clear last bit keeps the last line at the end of the joined text. */
  lemma MarkedKeepsLastLine(ls: seq<string>, mask: seq<bool>)
    requires |ls| > 1 && |mask| == |ls| && ls[|ls| - 1] == "```" && !mask[|ls| - 1]
    ensures var mb := MarkLines(ls, mask); Join(mb, "\n") == Join(mb[..|ls| - 1], "\n") + "\n```"
  {
    var mb := MarkLines(ls, mask);
    assert mb[|ls| - 1] == "```";
    assert mb == mb[..|mb| - 1] + ["```"];
    JoinAppend(mb[..|mb| - 1], "```", "\n");
  }

  lemma TrimKeepsFinalFence(x: string)
    requires EndsWith(x, "```")
    ensures EndsWith(JsTrim(x), "```")
  {
    var k := LeadCount(x, IsJsSpace);
    assert !IsJsSpace(x[|x| - 3]);
    assert k <= |x| - 3;
    var rest := x[k..];
    assert TrailCount(rest, IsJsSpace) == 0;
    assert JsTrim(x) == x[k..];
  }

  /** The markdown pipeline of processMarkdownContent after its early return. */
  function Prepared(content: string): string {
    JsTrim(SpaceNumberedLists(SpaceBulletLists(CloseOpenFence(content))))
  }

  /**
   * processMarkdownContent. The table loop pushes every line unchanged
   * (its `inTable` flag is computed and never read; the separator pattern
   * only matches lines that the row test accepts already), so the split
   * and join in between give back the text.
   */
  method ProcessMarkdownContent(content: string) returns (r: string)
    ensures content == "" ==> r == ""
    ensures content != "" ==> r == Prepared(content)
    ensures |r| > 0 ==> !IsJsSpace(r[0]) && !IsJsSpace(r[|r| - 1])
    ensures NonSpace(r) == NonSpace(content) + (if content != "" && EndsInOpenFence(content) then "```" else "")
    ensures content != "" && EndsInOpenFence(content) ==> EndsWith(r, "```")
  {
    if content == "" {
      return "";
    }
    var processed := CloseOpenFence(content);
    var lines := Split(processed, '\n');
    var inTable := false;
    var processedLines: seq<string> := [];
    for i := 0 to |lines|
      invariant processedLines == lines[..i]
    {
      var line := lines[i];
      var isTableRow := Contains(line, "|") && StartsWith(JsTrim(line), "|") && EndsWith(JsTrim(line), "|");
      if isTableRow {
        inTable := true;
      } else if inTable && JsTrim(line) == "" {
        inTable := false;
      }
      processedLines := processedLines + [line];
    }
    assert processedLines == lines;
    SplitJoin(processed, '\n');
    processed := Join(processedLines, "\n");
    processed := SpaceBulletLists(processed);
    processed := SpaceNumberedLists(processed);
    r := JsTrim(processed);
    PreparedFacts(content);
  }

  lemma PreparedFacts(content: string)
    ensures var r := Prepared(content);
      (|r| > 0 ==> !IsJsSpace(r[0]) && !IsJsSpace(r[|r| - 1])) &&
      NonSpace(r) == NonSpace(content) + (if EndsInOpenFence(content) then "```" else "") &&
      (EndsInOpenFence(content) ==> EndsWith(r, "```"))
  {
    PreparedKeepsText(content);
    if EndsInOpenFence(content) {
      PreparedClosesFence(content);
    }
  }

  lemma PreparedKeepsText(content: string)
    ensures NonSpace(Prepared(content)) == NonSpace(content) + (if EndsInOpenFence(content) then "```" else "")
  {
    var c := CloseOpenFence(content);
    if EndsInOpenFence(content) {
      NonSpaceConcat(content, "\n```");
      assert NonSpace("\n```") == "```";
    } else {
      assert content + "" == content;
    }
    SpacingKeepsText(c);
    SpacingKeepsText(SpaceBulletLists(c));
    NonSpaceTrim(SpaceNumberedLists(SpaceBulletLists(c)));
  }

  /** The bullet rule keeps a final fence line. */
  lemma BulletKeepsFence(x: string)
    requires EndsWith(x, "\n```")
    ensures EndsWith(SpaceBulletLists(x), "\n```")
  {
    var a := x[..|x| - 4];
    assert x == a + "\n```";
    var ls := Split(x, '\n');
    FenceIsLastLine(a);
    MarkedKeepsLastLine(ls, BulletMask(ls));
    var b := Join(MarkLines(ls, BulletMask(ls))[..|ls| - 1], "\n");
    EndsWithAppended(b, "\n```");
  }

  /** The numbered rule keeps a final fence line. */
  lemma NumberedKeepsFence(x: string)
    requires EndsWith(x, "\n```")
    ensures EndsWith(SpaceNumberedLists(x), "\n```")
  {
    var a := x[..|x| - 4];
    assert x == a + "\n```";
    var ls := Split(x, '\n');
    FenceIsLastLine(a);
    MarkedKeepsLastLine(ls, NumberedMask(ls));
    var b := Join(MarkLines(ls, NumberedMask(ls))[..|ls| - 1], "\n");
    EndsWithAppended(b, "\n```");
  }

  lemma EndsWithAppended(b: string, p: string)
    ensures EndsWith(b + p, p)
  {
    assert (b + p)[|b|..] == p;
  }

  lemma PreparedClosesFence(content: string)
    requires EndsInOpenFence(content)
    ensures EndsWith(Prepared(content), "```")
  {
    var c := CloseOpenFence(content);
    EndsWithAppended(content, "\n```");
    SpacingKeepsFence(c);
    TrimKeepsFinalFence(SpaceNumberedLists(SpaceBulletLists(c)));
  }

  /** Both list rules keep a final fence line. */
  lemma SpacingKeepsFence(c: string)
    requires EndsWith(c, "\n```")
    ensures EndsWith(SpaceNumberedLists(SpaceBulletLists(c)), "```")
  {
    BulletKeepsFence(c);
    var b := SpaceBulletLists(c);
    NumberedKeepsFence(b);
    var b2 := SpaceNumberedLists(b);
    assert b2[|b2| - 3..] == b2[|b2| - 4..][1..];
  }

  // ---------------------------------------------------------------------
  // finalizeStreamingContent

  /**
   * `replace(/\n```\s*$/, '')`: the match, when there is one, is the fence
   * that ends the text once trailing whitespace is ignored.
   */
  function RemoveTrailingFence(s: string): (r: string)
    ensures |r| <= |s| && r == s[..|r|]
  {
    var t := s[..|s| - TrailCount(s, IsJsSpace)];
    if EndsWith(t, "\n```") then t[..|t| - 4] else s
  }

  /** `replace(/\n+$/, '\n')`: a final run of newlines becomes one newline. */
  function SingleFinalNewline(s: string): (r: string) {
    var k := TrailCount(s, c => c == '\n');
    if k > 0 then s[..|s| - k] + "\n" else s
  }

  /** finalizeStreamingContent. */
  function Finalize(content: string): (r: string)
    ensures |r| > 0 ==> !IsJsSpace(r[0]) && !IsJsSpace(r[|r| - 1])
    ensures r == JsTrim(RemoveTrailingFence(content))
  {
    var t := JsTrim(RemoveTrailingFence(content));
    assert TrailCount(t, c => c == '\n') == 0;
    SingleFinalNewline(t)
  }

  /** The trailing-fence rule removes exactly a fence appended on its own line. */
  lemma RemoveAppendedFence(s: string)
    ensures RemoveTrailingFence(s + "\n```") == s
  {
    var x := s + "\n```";
    assert x[|x| - 1] == '`';
    assert TrailCount(x, IsJsSpace) == 0;
    assert x[..|x|] == x;
    assert EndsWith(x, "\n```");
    assert x[..|x| - 4] == s;
  }

  /** Finalizing undoes the temporary closing fence that processMarkdownContent adds. */
  lemma FinalizeRemovesTemporaryFence(s: string)
    ensures Finalize(s + "\n```") == JsTrim(s)
  {
    RemoveAppendedFence(s);
  }

  // ---------------------------------------------------------------------
  // extractCodeBlocks

  datatype CodeBlock = CodeBlock(language: string, code: string)

  /** A match of /```(\w+)?\n([\s\S]*?)```/ starting at `p`, with the index after it. */
  datatype FenceMatch = FenceMatch(word: string, body: string, end: nat)

  /** Three backticks at `i`, compared character by character. */
  predicate FenceAt(s: string, i: nat) {
    i + 3 <= |s| && s[i] == '`' && s[i + 1] == '`' && s[i + 2] == '`'
  }

  lemma FenceAtOccurs(s: string, i: nat)
    ensures FenceAt(s, i) <==> OccursAt(s, "```", i)
  {
    if i + 3 <= |s| {
      assert s[i..i + 3][0] == s[i] && s[i..i + 3][1] == s[i + 1] && s[i..i + 3][2] == s[i + 2];
    }
  }

  /** The lazy `[\s\S]*?` before the closing fence: the first fence at or after `i`. */
  function FindFence(s: string, i: nat): (r: Option<nat>)
    ensures r.Some? ==> i <= r.value && FenceAt(s, r.value)
    ensures r.Some? ==> forall j :: i <= j < r.value ==> !FenceAt(s, j)
    ensures r.None? ==> forall j :: i <= j ==> !FenceAt(s, j)
    decreases |s| - i
  {
    if i + 3 > |s| then None
    else if FenceAt(s, i) then Some(i)
    else FindFence(s, i + 1)
  }

  function MatchAt(s: string, p: nat): (m: Option<FenceMatch>)
    ensures m.Some? ==> p + 7 <= m.value.end <= |s|
  {
    if !FenceAt(s, p) then None
    else MatchBody(s, p, p + 3 + WordRun(s, p + 3))
  }

  /** The rest of a match once the fence at `p` and the word up to `nl` are read. */
  function MatchBody(s: string, p: nat, nl: nat): (m: Option<FenceMatch>)
    requires p + 3 <= nl <= |s|
    ensures m.Some? ==> p + 7 <= m.value.end <= |s|
  {
    if nl < |s| && s[nl] == '\n' then
      match FindFence(s, nl + 1)
      case Some(q) => Some(FenceMatch(s[p + 3..nl], s[nl + 1..q], q + 3))
      case None => None
    else None
  }

  /** `regex.exec` from `lastIndex = from`: the leftmost match at or after `from`. */
  function NextMatch(s: string, from: nat): (r: Option<(nat, FenceMatch)>)
    ensures r.Some? ==> from <= r.value.0 && MatchAt(s, r.value.0) == Some(r.value.1)
    ensures r.Some? ==> forall j :: from <= j < r.value.0 ==> MatchAt(s, j).None?
    ensures r.None? ==> forall j :: from <= j ==> MatchAt(s, j).None?
    decreases |s| - from
  {
    if from + 7 > |s| then
      NoMatchNearEnd(s, from);
      None
    else match MatchAt(s, from)
      case Some(m) => Some((from, m))
      case None =>
        var r := NextMatch(s, from + 1);
        MissAt(s, from, r);
        r
  }

  /** No match at `from`: the search from `from + 1` answers for `from` too. */
  lemma MissAt(s: string, from: nat, r: Option<(nat, FenceMatch)>)
    requires MatchAt(s, from).None?
    requires r.Some? ==> from + 1 <= r.value.0 && MatchAt(s, r.value.0) == Some(r.value.1)
    requires r.Some? ==> forall j :: from + 1 <= j < r.value.0 ==> MatchAt(s, j).None?
    requires r.None? ==> forall j :: from + 1 <= j ==> MatchAt(s, j).None?
    ensures r.Some? ==> from <= r.value.0
    ensures r.Some? ==> forall j :: from <= j < r.value.0 ==> MatchAt(s, j).None?
    ensures r.None? ==> forall j :: from <= j ==> MatchAt(s, j).None?
  {
  }

  /** A match needs seven characters. */
  lemma NoMatchNearEnd(s: string, from: nat)
    requires from + 7 > |s|
    ensures forall j :: from <= j ==> MatchAt(s, j).None?
  {
    forall j | from <= j ensures MatchAt(s, j).None? {
      var m := MatchAt(s, j);
    }
  }

  function BlockOf(m: FenceMatch): CodeBlock {
    CodeBlock(if m.word == "" then "text" else m.word, JsTrim(m.body))
  }

  /** The blocks that successive `exec` calls find from `from` on. */
  function BlocksFrom(s: string, from: nat): seq<CodeBlock>
    decreases |s| - from
  {
    match NextMatch(s, from)
    case None => []
    case Some((_, m)) => [BlockOf(m)] + BlocksFrom(s, m.end)
  }

  /** extractCodeBlocks: the `exec` loop, one block per match, left to right. */
  method ExtractCodeBlocks(content: string) returns (blocks: seq<CodeBlock>)
    ensures blocks == BlocksFrom(content, 0)
  {
    blocks := [];
    var lastIndex := 0;
    while true
      invariant lastIndex <= |content|
      invariant blocks + BlocksFrom(content, lastIndex) == BlocksFrom(content, 0)
      decreases |content| - lastIndex
    {
      var m := NextMatch(content, lastIndex);
      if m.None? {
        break;
      }
      BlocksFromStep(content, lastIndex, blocks);
      blocks := blocks + [BlockOf(m.value.1)];
      lastIndex := m.value.1.end;
    }
  }

  /** One `exec` call: the block it finds, then the blocks after its end. */
  lemma BlocksFromStep(s: string, from: nat, done: seq<CodeBlock>)
    requires NextMatch(s, from).Some?
    ensures var m := NextMatch(s, from).value.1;
      from < m.end <= |s| && done + BlocksFrom(s, from) == done + [BlockOf(m)] + BlocksFrom(s, m.end)
  {
    BlocksFromUnfold(s, from);
  }

  lemma BlocksFromUnfold(s: string, from: nat)
    requires NextMatch(s, from).Some?
    ensures var m := NextMatch(s, from).value.1;
      from < m.end <= |s| && BlocksFrom(s, from) == [BlockOf(m)] + BlocksFrom(s, m.end)
  {
  }

  /** The language is `text` or a word; the code is trimmed. */
  predicate WellFormedBlock(b: CodeBlock) {
    (b.language == "text" || (b.language != "" && forall i :: 0 <= i < |b.language| ==> IsWordChar(b.language[i])))
    && b.code == JsTrim(b.code)
  }

  lemma MatchWellFormed(s: string, p: nat)
    requires MatchAt(s, p).Some?
    ensures WellFormedBlock(BlockOf(MatchAt(s, p).value))
  {
    var m := MatchAt(s, p).value;
    var nl := p + 3 + WordRun(s, p + 3);
    assert m.word == s[p + 3..nl];
    TrimIdempotent(m.body, IsJsSpace);
  }

  /** Every extracted block has `text` or a word as language, and trimmed code. */
  lemma {:induction false} BlocksWellFormed(s: string, from: nat)
    ensures forall i :: 0 <= i < |BlocksFrom(s, from)| ==> WellFormedBlock(BlocksFrom(s, from)[i])
    decreases |s| - from
  {
    match NextMatch(s, from)
    case None =>
    case Some((p, m)) =>
      BlocksFromUnfold(s, from);
      BlocksWellFormed(s, m.end);
      MatchWellFormed(s, p);
      WellFormedCons(BlockOf(m), BlocksFrom(s, m.end));
  }

  lemma WellFormedCons(b: CodeBlock, rest: seq<CodeBlock>)
    requires WellFormedBlock(b) && forall i :: 0 <= i < |rest| ==> WellFormedBlock(rest[i])
    ensures forall i :: 0 <= i < |[b] + rest| ==> WellFormedBlock(([b] + rest)[i])
  {
  }

  /** No fence starts inside `code` when a fence follows it. */
  predicate FenceFree(code: string) {
    forall j :: 0 <= j < |code| ==> !FenceAt(code + "```", j)
  }

  /** Under a fence-free `code`, the first fence after it is the closing one. */
  lemma ClosingFence(code: string, off: nat, s: string)
    requires FenceFree(code)
    requires off + |code| + 3 == |s| && s[off..] == code + "```"
    ensures FindFence(s, off) == Some(off + |code|)
  {
    var t := code + "```";
    forall k | 0 <= k < |t| ensures s[off + k] == t[k] {
      assert s[off..][k] == s[off + k];
    }
    var q := off + |code|;
    assert t[|code|] == '`' && t[|code| + 1] == '`' && t[|code| + 2] == '`';
    assert FenceAt(s, q);
    forall j | off <= j < q ensures !FenceAt(s, j) {
      assert !FenceAt(t, j - off);
    }
  }

  /** The match of the regular expression on a single fenced block. */
  lemma SingleBlockMatch(lang: string, code: string)
    requires forall i :: 0 <= i < |lang| ==> IsWordChar(lang[i])
    requires FenceFree(code)
    ensures var s := "```" + lang + "\n" + code + "```";
      MatchAt(s, 0) == Some(FenceMatch(lang, code, |s|))
  {
    var s := "```" + lang + "\n" + code + "```";
    var nl := 3 + |lang|;
    assert FenceAt(s, 0);
    assert WordRun(s, 3) == |lang| by {
      assert s == "```" + lang + ("\n" + code + "```");
      WordRunOf("```", lang, "\n" + code + "```");
    }
    assert s[nl] == '\n' && s[nl + 1..] == code + "```" by {
      assert s == ("```" + lang + "\n") + (code + "```");
    }
    assert s[3..nl] == lang by {
      MiddleSlice("```", lang, "\n" + code + "```");
    }
    MatchAtWord(s, 0, nl);
    ClosingBody(s, 0, nl, code);
  }

  /** After the newline at `nl`, a fence-free `code` and a fence close the match. */
  lemma ClosingBody(s: string, p: nat, nl: nat, code: string)
    requires p + 3 <= nl < |s| && s[nl] == '\n' && s[nl + 1..] == code + "```"
    requires FenceFree(code)
    ensures MatchBody(s, p, nl) == Some(FenceMatch(s[p + 3..nl], code, |s|))
  {
    var q := nl + 1 + |code|;
    assert nl + 1 + |code| + 3 == |s|;
    assert FindFence(s, nl + 1) == Some(q) by {
      ClosingFence(code, nl + 1, s);
    }
    MatchBodyParts(s, p, nl, q, s[p + 3..nl], s[nl + 1..][..|code|]);
  }

  /** The middle of a three-part concatenation. */
  lemma MiddleSlice<T>(a: seq<T>, b: seq<T>, c: seq<T>)
    ensures (a + b + c)[|a|..|a| + |b|] == b
  {
  }

  /** The opening fence and the word of one match. */
  lemma MatchAtWord(s: string, p: nat, nl: nat)
    requires FenceAt(s, p) && p + 3 <= nl <= |s| && WordRun(s, p + 3) == nl - p - 3
    ensures MatchAt(s, p) == MatchBody(s, p, nl)
  {
  }

  /** The newline and the closing fence of one match. */
  lemma MatchBodyParts(s: string, p: nat, nl: nat, q: nat, word: string, body: string)
    requires p + 3 <= nl < |s| && s[nl] == '\n' && FindFence(s, nl + 1) == Some(q)
    requires s[p + 3..nl] == word && s[nl + 1..q] == body
    ensures MatchBody(s, p, nl) == Some(FenceMatch(word, body, q + 3))
  {
  }

  /** The word run after `pre` is exactly `w` when a non-word character follows it. */
  lemma WordRunOf(pre: string, w: string, rest: string)
    requires forall i :: 0 <= i < |w| ==> IsWordChar(w[i])
    requires |rest| > 0 && !IsWordChar(rest[0])
    ensures WordRun(pre + w + rest, |pre|) == |w|
  {
    var s := pre + w + rest;
    forall j | |pre| <= j < |pre| + |w| ensures IsWordChar(s[j]) {
      assert s[j] == w[j - |pre|];
    }
    assert s[|pre| + |w|] == rest[0];
    WordRunAll(s, |pre|, |w|);
  }

  lemma {:induction false} WordRunAll(s: string, i: nat, n: nat)
    requires i + n < |s|
    requires forall j :: i <= j < i + n ==> IsWordChar(s[j])
    requires !IsWordChar(s[i + n])
    ensures WordRun(s, i) == n
    decreases n
  {
    if n > 0 {
      WordRunAll(s, i + 1, n - 1);
    }
  }

  // ---------------------------------------------------------------------
  // isContentStreaming

  /** `(content.match(/```/g) || []).length`: non-overlapping fences, left to right. */
  function FenceCount(s: string): nat {
    if |s| < 3 then 0
    else if s[..3] == "```" then 1 + FenceCount(s[3..])
    else FenceCount(s[1..])
  }

  predicate IsTableRow(line: string) {
    Contains(line, "|") && StartsWith(JsTrim(line), "|") && EndsWith(JsTrim(line), "|")
  }

  /**
   * Line `i` looks like a table row that nothing completes: there is no
   * next line, the next line is empty, or it has no '|' and is not blank.
   */
  predicate IncompleteTableAt(ls: seq<string>, i: nat)
    requires i < |ls|
  {
    IsTableRow(ls[i]) &&
    (i + 1 == |ls| || ls[i + 1] == "" || (!Contains(ls[i + 1], "|") && JsTrim(ls[i + 1]) != ""))
  }

  predicate EndsWithOpenMarker(s: string) {
    EndsWith(s, "**") || EndsWith(s, "*") || EndsWith(s, "`")
  }

  /** An odd fence count, an incomplete table row, or a dangling `*` or backtick. */
  predicate StreamingSigns(content: string) {
    content != "" &&
    (FenceCount(content) % 2 != 0 ||
     (exists i :: 0 <= i < |Split(content, '\n')| && IncompleteTableAt(Split(content, '\n'), i)) ||
     EndsWithOpenMarker(content))
  }

  /** isContentStreaming: the checks in order, the table scan returning at the first hit. */
  method IsContentStreaming(content: string) returns (r: bool)
    ensures r <==> StreamingSigns(content)
  {
    if content == "" {
      return false;
    }
    if FenceCount(content) % 2 != 0 {
      return true;
    }
    var lines := Split(content, '\n');
    for i := 0 to |lines|
      invariant forall j :: 0 <= j < i ==> !IncompleteTableAt(lines, j)
    {
      var line := lines[i];
      if Contains(line, "|") && StartsWith(JsTrim(line), "|") && EndsWith(JsTrim(line), "|") {
        var nextIsMissing := i + 1 == |lines| || lines[i + 1] == "";
        if nextIsMissing || (!Contains(lines[i + 1], "|") && JsTrim(lines[i + 1]) != "") {
          assert IncompleteTableAt(lines, i);
          return true;
        }
      }
    }
    if EndsWith(content, "**") || EndsWith(content, "*") || EndsWith(content, "`") {
      return true;
    }
    return false;
  }

  /** Exactly one fence, between fence-free text, is an odd count. */
  lemma SingleFenceIsOdd(a: string, b: string)
    requires !Contains(a + "``", "```") && !Contains(b, "```")
    ensures FenceCount(a + "```" + b) % 2 == 1
  {
    assert a + "```" + b == a + ("```" + b);
    FenceCountSkip(a, "```" + b);
    assert ("```" + b)[..3] == "```";
    assert ("```" + b)[3..] == b;
    FenceCountNone(b);
    assert FenceCount("```" + b) == 1 + FenceCount(b);
  }

  lemma {:induction false} FenceCountSkip(a: string, t: string)
    requires !Contains(a + "``", "```")
    requires |t| >= 3 && t[..3] == "```"
    ensures FenceCount(a + t) == FenceCount(t)
    decreases |a|
  {
    if |a| > 0 {
      var s := a + t;
      if |a| == 1 {
        assert s[..3] == [a[0]] + t[..2];
        assert (a + "``")[..3] == [a[0]] + "``";
      } else if |a| == 2 {
        assert s[..3] == a + t[..1];
        assert (a + "``")[..3] == a + "`";
      } else {
        assert s[..3] == a[..3];
        assert (a + "``")[..3] == a[..3];
      }
      assert !OccursAt(a + "``", "```", 0);
      assert s[1..] == a[1..] + t;
      assert !Contains(a[1..] + "``", "```") by {
        if Contains(a[1..] + "``", "```") {
          var j: nat :| j <= |a[1..] + "``"| && OccursAt(a[1..] + "``", "```", j);
          assert (a + "``")[j + 1..j + 4] == (a[1..] + "``")[j..j + 3];
          assert OccursAt(a + "``", "```", j + 1);
        }
      }
      FenceCountSkip(a[1..], t);
    } else {
      assert a + t == t;
    }
  }

  lemma {:induction false} FenceCountNone(b: string)
    requires !Contains(b, "```")
    ensures FenceCount(b) == 0
    decreases |b|
  {
    if |b| >= 3 {
      if b[..3] == "```" {
        assert OccursAt(b, "```", 0);
      }
      ReplaceAllStep(b, "```");
      FenceCountNone(b[1..]);
    }
  }
}
