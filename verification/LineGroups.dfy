// The paragraphs of a section, in terms of its lines: what the blank lines of its body separate are its
// maximal runs of lines that are not blank.
module LineGroups {
  import opened Text
  import opened VisibleText
  import opened Spans
  import opened Sections
  import opened Chunker
  import opened Documents
  import opened Coverage

  // ---------------------------------------------------------------- groups of lines

  /** Lines as `splitlines` gives them: no line holds a line break. */
  predicate AreLines(lines: seq<string>) {
    forall i :: 0 <= i < |lines| ==> '\n' !in lines[i]
  }

  predicate InSome(groups: seq<Span>, i: nat) {
    exists k :: 0 <= k < |groups| && groups[k].from <= i < groups[k].to
  }

  /** The maximal runs of lines that are not blank, in order. */
  predicate AreGroups(lines: seq<string>, groups: seq<Span>) {
    && (forall k :: 0 <= k < |groups| ==> groups[k].from < groups[k].to <= |lines|)
    && (forall j, k :: 0 <= j < k < |groups| ==> groups[j].to < groups[k].from)
    && (forall i :: 0 <= i < |lines| ==> (IsBlank(lines[i]) <==> !InSome(groups, i)))
  }

  lemma StillIn(a: seq<Span>, b: seq<Span>, i: nat)
    requires forall k :: 0 <= k < |a| && a[k].from <= i < a[k].to ==> k < |b| && b[k].from <= i < b[k].to
    ensures InSome(a, i) ==> InSome(b, i)
  {
  }

  lemma GroupsExtend(lines: seq<string>, groups: seq<Span>, last: Span, line: string)
    requires AreGroups(lines, groups) && !IsBlank(line) && last.to == |lines| + 1
    requires if groups != [] && groups[|groups| - 1].to == |lines| then last.from == groups[|groups| - 1].from
             else last.from == |lines|
    ensures AreGroups(lines + [line],
                      (if last.from == |lines| then groups else groups[..|groups| - 1]) + [last])
  {
    hide IsBlank;
    var front := if last.from == |lines| then groups else groups[..|groups| - 1];
    var more := front + [last];
    forall i | 0 <= i < |lines + [line]|
      ensures IsBlank((lines + [line])[i]) <==> !InSome(more, i)
    {
      assert more[|front|] == last;
      if i < |lines| {
        StillIn(groups, more, i);
        StillIn(more, groups, i);
      }
    }
  }

  lemma BlankAdds(lines: seq<string>, groups: seq<Span>, line: string)
    requires AreGroups(lines, groups) && IsBlank(line)
    ensures AreGroups(lines + [line], groups)
  {
  }

  lemma {:induction false} GroupsExist(lines: seq<string>) returns (groups: seq<Span>)
    ensures AreGroups(lines, groups)
  {
    groups := [];
    if lines != [] {
      hide IsBlank;
      var n := |lines| - 1;
      groups := GroupsExist(lines[..n]);
      assert lines == lines[..n] + [lines[n]];
      if IsBlank(lines[n]) {
        BlankAdds(lines[..n], groups, lines[n]);
      } else if groups != [] && groups[|groups| - 1].to == n {
        GroupsExtend(lines[..n], groups, Span(groups[|groups| - 1].from, n + 1), lines[n]);
        groups := groups[..|groups| - 1] + [Span(groups[|groups| - 1].from, n + 1)];
      } else {
        GroupsExtend(lines[..n], groups, Span(n, n + 1), lines[n]);
        groups := groups + [Span(n, n + 1)];
      }
    }
  }

  // ---------------------------------------------------------------- joined lines

  function Lined(lines: seq<string>): string {
    Join(lines, "\n")
  }

  lemma {:induction false} LinedSplit(a: seq<string>, b: seq<string>)
    requires a != [] && b != []
    ensures Lined(a + b) == Lined(a) + "\n" + Lined(b)
  {
    assert (a + b)[..|a + b| - 1] == a + b[..|b| - 1];
    if |b| == 1 {
      assert a + b[..0] == a;
    } else {
      LinedSplit(a, b[..|b| - 1]);
      assert Lined(a) + "\n" + Lined(b[..|b| - 1]) + "\n" + b[|b| - 1] == Lined(a) + "\n" + Lined(b);
    }
  }

  lemma LinedSnoc(front: seq<string>, last: string)
    requires front != []
    ensures Lined(front + [last]) == Lined(front) + "\n" + last
  {
    LinedSplit(front, [last]);
  }

  /** Blank lines are blank when joined. */
  lemma {:induction false} LinedBlank(lines: seq<string>)
    requires forall i :: 0 <= i < |lines| ==> IsBlank(lines[i])
    ensures IsBlank(Lined(lines))
  {
    if |lines| > 1 {
      LinedBlank(lines[..|lines| - 1]);
    }
  }

  /** A line break right before a line of the text that is not blank starts no separator. */
  lemma NoGapBefore(text: string, at: nat, line: string)
    requires '\n' !in line && !IsBlank(line) && at + 1 + |line| <= |text| && text[at + 1..at + 1 + |line|] == line
    ensures forall j: nat :: !GapAt(text, at, j)
  {
    var k :| 0 <= k < |line| && !IsSpace(line[k]);
    assert text[at + 1 + k] == line[k];
    forall j: nat | at + 2 <= j <= |text|
      ensures !GapAt(text, at, j)
    {
      if at + 1 + k < j {
        assert text[at..j][1 + k] == line[k];
      } else {
        assert text[j - 1] == line[j - 2 - at];
      }
    }
  }

  /** No separator starts within lines that are not blank. */
  lemma {:induction false} NoGapInGroup(text: string, start: nat, lines: seq<string>)
    requires lines != [] && AreLines(lines) && forall i :: 0 <= i < |lines| ==> !IsBlank(lines[i])
    requires start + |Lined(lines)| <= |text| && text[start..start + |Lined(lines)|] == Lined(lines)
    ensures NoGapStarts(text, start, start + |Lined(lines)|)
  {
    hide IsBlank;
    var front, last := lines[..|lines| - 1], lines[|lines| - 1];
    var end := start + |Lined(lines)|;
    assert text[end - |last|..end] == last by {
      assert Lined(lines)[|Lined(lines)| - |last|..] == last;
    }
    assert NoGapStarts(text, end - |last|, end) by {
      NoBreakNoGap(text, end - |last|, last);
    }
    if front != [] {
      assert lines == front + [last];
      LinedSnoc(front, last);
      var mid := start + |Lined(front)|;
      assert text[start..mid] == Lined(lines)[..|Lined(front)|] == Lined(front);
      NoGapInGroup(text, start, front);
      NoGapBefore(text, mid, last);
    }
  }

  lemma NoBreakNoGap(text: string, start: nat, line: string)
    requires start + |line| <= |text| && text[start..start + |line|] == line && '\n' !in line
    ensures NoGapStarts(text, start, start + |line|)
  {
    forall i: nat, j: nat | start <= i < start + |line|
      ensures !GapAt(text, i, j)
    {
      assert text[i] == line[i - start];
    }
  }

  /** Blank lines between a group and a line that is not blank make one separator, the longest there. */
  lemma GapBetween(text: string, at: nat, gap: seq<string>, line: string)
    requires gap != [] && (forall i :: 0 <= i < |gap| ==> IsBlank(gap[i])) && '\n' !in line && !IsBlank(line)
    requires at + |Lined(gap)| + 2 + |line| <= |text|
    requires text[at..at + |Lined(gap)| + 2] == "\n" + Lined(gap) + "\n"
    requires text[at + |Lined(gap)| + 2..at + |Lined(gap)| + 2 + |line|] == line
    ensures LongestGapAt(text, at, at + |Lined(gap)| + 2)
  {
    LinedBlank(gap);
    var next := at + |Lined(gap)| + 2;
    var s := "\n" + Lined(gap) + "\n";
    assert text[at] == s[0] && text[next - 1] == s[|s| - 1];
    assert IsBlank(s);
    NoGapBefore(text, next - 1, line);
    forall j: nat | next < j <= |text|
      ensures !GapAt(text, at, j)
    {
      GapFromLater(text, at, next - 1, j);
    }
  }

  lemma GapFromLater(text: string, at: nat, later: nat, j: nat)
    requires at <= later && later + 2 <= j <= |text| && text[later] == '\n'
    ensures GapAt(text, at, j) ==> GapAt(text, later, j)
  {
    assert forall i :: 0 <= i < j - later ==> text[later..j][i] == text[at..j][i + later - at];
  }

  // ---------------------------------------------------------------- groups are what blank lines separate

  function GroupLines(lines: seq<string>, g: Span): seq<string> {
    if g.from <= g.to <= |lines| then lines[g.from..g.to] else []
  }

  /** The groups from k on, each joined. */
  function GroupTexts(lines: seq<string>, groups: seq<Span>, k: nat): (r: seq<string>)
    requires k <= |groups|
    ensures |r| == |groups| - k && forall i :: 0 <= i < |r| ==> r[i] == Lined(GroupLines(lines, groups[k + i]))
  {
    seq(|groups| - k, i requires 0 <= i < |groups| - k => Lined(GroupLines(lines, groups[k + i])))
  }

  lemma GroupTextsStep(lines: seq<string>, groups: seq<Span>, k: nat)
    requires k < |groups|
    ensures GroupTexts(lines, groups, k) == [Lined(GroupLines(lines, groups[k]))] + GroupTexts(lines, groups, k + 1)
  {
    hide Lined, GroupLines;
  }

  lemma TailParts<T>(s: seq<T>, a: nat, b: nat, c: nat)
    requires a <= b <= c <= |s|
    ensures s[a..] == s[a..b] + s[b..c] + s[c..]
  {
  }

  lemma NotInGroups(groups: seq<Span>, k: nat, i: nat)
    requires forall j, k :: 0 <= j < k < |groups| ==> groups[j].to < groups[k].from
    requires forall j :: 0 <= j < |groups| ==> groups[j].from < groups[j].to
    requires k + 1 < |groups| && groups[k].to <= i < groups[k + 1].from
    ensures !InSome(groups, i)
  {
    forall j | 0 <= j < |groups|
      ensures !(groups[j].from <= i < groups[j].to)
    {
      assert j < k || j == k || j == k + 1 || j > k + 1;
    }
  }

  /** What one group and the blank lines behind it are: the group's lines, and at least one blank line
      before the next group. */
  lemma GroupAndGap(lines: seq<string>, groups: seq<Span>, k: nat) returns (gap: seq<string>)
    requires AreGroups(lines, groups) && k + 1 < |groups|
    ensures gap != [] && (forall i :: 0 <= i < |gap| ==> IsBlank(gap[i]))
    ensures var rest := lines[groups[k + 1].from..];
      rest != [] && !IsBlank(rest[0]) && rest[0] in lines
      && lines[groups[k].from..] == GroupLines(lines, groups[k]) + gap + rest
  {
    hide IsBlank;
    var g, n := groups[k], groups[k + 1];
    gap := lines[g.to..n.from];
    TailParts(lines, g.from, g.to, n.from);
    forall i | g.to <= i < n.from
      ensures IsBlank(lines[i])
    {
      NotInGroups(groups, k, i);
    }
    assert InSome(groups, n.from);
  }

  lemma GroupIsFull(lines: seq<string>, groups: seq<Span>, k: nat)
    requires AreGroups(lines, groups) && k < |groups|
    ensures var g := GroupLines(lines, groups[k]); g != [] && forall i :: 0 <= i < |g| ==> !IsBlank(g[i])
  {
    forall i | groups[k].from <= i < groups[k].to
      ensures !IsBlank(lines[i])
    {
      assert InSome(groups, i);
    }
  }

  lemma LinedThree(a: seq<string>, b: seq<string>, c: seq<string>)
    requires a != [] && b != [] && c != []
    ensures Lined(a + b + c) == Lined(a) + ("\n" + Lined(b) + "\n") + Lined(c)
  {
    LinedSplit(a + b, c);
    LinedSplit(a, b);
  }

  lemma LinedStarts(lines: seq<string>)
    requires lines != []
    ensures |lines[0]| <= |Lined(lines)| && Lined(lines)[..|lines[0]|] == lines[0]
  {
    if |lines| > 1 {
      LinedSplit([lines[0]], lines[1..]);
      assert lines == [lines[0]] + lines[1..];
    }
  }

  /** A piece of a text, and what is around it. */
  lemma SliceOf(text: string, start: nat, a: string, b: string, c: string)
    requires start <= |text| && text[start..] == a + b + c
    ensures start + |a| + |b| + |c| == |text|
    ensures text[start..start + |a|] == a && text[start + |a|..start + |a| + |b|] == b
    ensures text[start + |a| + |b|..] == c
  {
    var rest := text[start..];
    assert rest[..|a|] == a && rest[|a|..|a| + |b|] == b && rest[|a| + |b|..] == c;
  }

  /** A group at the start of a text, the separator behind it, and what follows. */
  lemma OneGroupCut(text: string, start: nat, g: seq<string>, gap: seq<string>, rest: seq<string>) returns (next: nat)
    requires g != [] && AreLines(g) && (forall i :: 0 <= i < |g| ==> !IsBlank(g[i]))
    requires gap != [] && (forall i :: 0 <= i < |gap| ==> IsBlank(gap[i]))
    requires rest != [] && '\n' !in rest[0] && !IsBlank(rest[0])
    requires start <= |text| && text[start..] == Lined(g + gap + rest)
    ensures start <= next <= |text| && text[next..] == Lined(rest)
    ensures start + |Lined(g)| <= |text| && text[start..start + |Lined(g)|] == Lined(g)
    ensures NoGapStarts(text, start, start + |Lined(g)|) && LongestGapAt(text, start + |Lined(g)|, next)
  {
    hide IsBlank, LongestGapAt, NoGapStarts, Lined;
    LinedThree(g, gap, rest);
    SliceOf(text, start, Lined(g), "\n" + Lined(gap) + "\n", Lined(rest));
    NoGapInGroup(text, start, g);
    next := start + |Lined(g)| + |Lined(gap)| + 2;
    LinedStarts(rest);
    assert text[next..next + |rest[0]|] == text[next..][..|rest[0]|];
    GapBetween(text, start + |Lined(g)|, gap, rest[0]);
  }

  lemma LastGroupCut(text: string, start: nat, g: seq<string>)
    requires g != [] && AreLines(g) && (forall i :: 0 <= i < |g| ==> !IsBlank(g[i]))
    requires start <= |text| && text[start..] == Lined(g)
    ensures IsCut(text, start, [Lined(g)])
  {
    hide IsBlank, Lined;
    SliceOf(text, start, Lined(g), "", "");
    NoGapInGroup(text, start, g);
  }

  /** Lines that start and end with a group: the groups are the pieces between blank lines. */
  lemma {:induction false} GroupsCut(text: string, start: nat, lines: seq<string>, groups: seq<Span>, k: nat)
    requires AreLines(lines) && AreGroups(lines, groups) && k < |groups| && groups[|groups| - 1].to == |lines|
    requires start <= |text| && text[start..] == Lined(lines[groups[k].from..])
    ensures IsCut(text, start, GroupTexts(lines, groups, k))
    decreases |groups| - k
  {
    hide IsBlank, AreGroups, LongestGapAt, NoGapStarts, Lined, IsCut, GroupTexts;
    var g := GroupLines(lines, groups[k]);
    GroupIsFull(lines, groups, k);
    GroupTextsStep(lines, groups, k);
    GroupEnds(lines, groups, k);
    if k + 1 == |groups| {
      assert g == lines[groups[k].from..];
      LastGroupCut(text, start, g);
      assert [Lined(g)] + GroupTexts(lines, groups, k + 1) == [Lined(g)];
    } else {
      var gap := GroupAndGap(lines, groups, k);
      var next := OneGroupCut(text, start, g, gap, lines[groups[k + 1].from..]);
      GroupsCut(text, next, lines, groups, k + 1);
      CutAtGap(text, start, start + |Lined(g)|, next, GroupTexts(lines, groups, k + 1));
    }
  }

  lemma GroupEnds(lines: seq<string>, groups: seq<Span>, k: nat)
    requires AreLines(lines) && AreGroups(lines, groups) && k < |groups|
    ensures groups[k].from < groups[k].to <= |lines| && AreLines(GroupLines(lines, groups[k]))
    ensures k + 1 < |groups| ==> groups[k + 1].from < |lines|
  {
  }

  // ---------------------------------------------------------------- the body of a section

  lemma BlankTogether(a: string, b: string)
    requires IsBlank(a) && IsBlank(b)
    ensures IsBlank(a + b)
  {
  }

  /** Blank ends do not matter to `strip`. */
  lemma StripIgnoresEnds(pre: string, s: string, post: string)
    requires IsBlank(pre) && IsBlank(post) && !IsBlank(s)
    ensures Strip(pre + s + post) == Strip(s)
  {
    hide IsBlank, Strip;
    var p, q := StripCutsWhitespaceEnds(s);
    StripNotEmpty(s);
    BlankTogether(pre, p);
    BlankTogether(q, post);
    assert pre + s + post == (pre + p) + Strip(s) + (q + post);
    StripIsUnique(pre + p, Strip(s), q + post);
  }

  lemma StripNotEmpty(s: string)
    ensures Strip(s) == "" <==> IsBlank(s)
  {
    var p, q := StripCutsWhitespaceEnds(s);
    if Strip(s) == "" {
      assert s == p + q;
    } else {
      assert s[|p|] == Strip(s)[0];
    }
  }

  lemma {:induction false} FirstLonger(p: string, x: string, rest: seq<string>)
    ensures Lined([p + x] + rest) == p + Lined([x] + rest)
  {
    if rest == [] {
      assert [p + x] + rest == [p + x] && [x] + rest == [x];
    } else {
      LinedSplit([p + x], rest);
      LinedSplit([x], rest);
    }
  }

  lemma LastLonger(front: seq<string>, y: string, q: string)
    ensures Lined(front + [y + q]) == Lined(front + [y]) + q
  {
    if front == [] {
      assert front + [y + q] == [y + q] && front + [y] == [y];
    } else {
      hide Lined;
      LinedSnoc(front, y + q);
      LinedSnoc(front, y);
      Associates(Lined(front) + "\n", y, q);
    }
  }

  /** Cutting a prefix of the first line cuts it off every slice that starts there. */
  lemma FirstLineCut(lines: seq<string>, p: string, x: string, a: nat, b: nat)
    requires lines != [] && lines[0] == p + x && a < b <= |lines|
    ensures Lined(lines[a..b]) == (if a == 0 then p else "") + Lined(lines[0 := x][a..b])
  {
    if a == 0 {
      assert lines[..b] == [p + x] + lines[1..b] && lines[0 := x][..b] == [x] + lines[1..b];
      FirstLonger(p, x, lines[1..b]);
    } else {
      assert lines[a..b] == lines[0 := x][a..b];
    }
  }

  lemma LastLineCut(lines: seq<string>, y: string, q: string, a: nat, b: nat)
    requires lines != [] && lines[|lines| - 1] == y + q && a < b <= |lines|
    ensures Lined(lines[a..b]) == Lined(lines[|lines| - 1 := y][a..b]) + if b == |lines| then q else ""
  {
    var n := |lines| - 1;
    if b == |lines| {
      assert lines[a..b] == lines[a..n] + [y + q] && lines[n := y][a..b] == lines[a..n] + [y];
      LastLonger(lines[a..n], y, q);
    } else {
      assert lines[a..b] == lines[n := y][a..b];
    }
  }

  /** The line without the whitespace before its first other character. */
  lemma CutLeft(line: string) returns (p: string, x: string)
    requires !IsBlank(line) && '\n' !in line
    ensures line == p + x && IsBlank(p) && x != "" && !IsSpace(x[0]) && '\n' !in x
  {
    var n := FirstKept(line, 0);
    FirstKeptShape(line, 0);
    p, x := line[0..n], line[n..];
  }

  lemma CutRight(line: string) returns (y: string, q: string)
    requires !IsBlank(line) && '\n' !in line
    ensures line == y + q && IsBlank(q) && y != "" && !IsSpace(y[|y| - 1]) && '\n' !in y && y[0] == line[0]
  {
    var n := LastKept(line, |line|);
    LastKeptShape(line, |line|);
    y, q := line[..n], line[n..|line|];
  }

  /** `trimmed` is `lines` without the blank ends p and q. */
  predicate AreTrimmed(lines: seq<string>, trimmed: seq<string>, p: string, q: string) {
    && |trimmed| == |lines| && AreLines(trimmed) && IsBlank(p) && IsBlank(q)
    && (forall i :: 0 <= i < |lines| ==> (IsBlank(trimmed[i]) <==> IsBlank(lines[i])))
    && (forall a, b :: 0 <= a < b <= |lines| ==>
      Lined(lines[a..b]) == (if a == 0 then p else "") + Lined(trimmed[a..b]) + if b == |lines| then q else "")
  }

  /** Lines that start and end with one that is not blank, without their blank ends. */
  lemma EndsCut(lines: seq<string>) returns (trimmed: seq<string>, p: string, q: string)
    requires AreLines(lines) && lines != [] && !IsBlank(lines[0]) && !IsBlank(lines[|lines| - 1])
    ensures AreTrimmed(lines, trimmed, p, q)
    ensures !IsSpace(if trimmed[0] == "" then ' ' else trimmed[0][0])
    ensures var last := trimmed[|trimmed| - 1]; !IsSpace(if last == "" then ' ' else last[|last| - 1])
  {
    hide Lined;
    var x, y, n := "", "", |lines| - 1;
    p, x := CutLeft(lines[0]);
    var left := lines[0 := x];
    assert !IsBlank(x) && !IsBlank(left[n]);
    y, q := CutRight(left[n]);
    trimmed := left[n := y];
    forall a, b | 0 <= a < b <= |lines|
      ensures Lined(lines[a..b])
        == (if a == 0 then p else "") + Lined(trimmed[a..b]) + if b == |lines| then q else ""
    {
      FirstLineCut(lines, p, x, a, b);
      LastLineCut(left, y, q, a, b);
    }
    assert !IsBlank(y) by {
      assert !IsSpace(y[|y| - 1]);
    }
  }

  lemma LinedEnds(lines: seq<string>)
    requires lines != [] && lines[0] != "" && lines[|lines| - 1] != ""
    ensures Lined(lines) != "" && Lined(lines)[0] == lines[0][0]
    ensures var last := lines[|lines| - 1]; Lined(lines)[|Lined(lines)| - 1] == last[|last| - 1]
  {
    LinedStarts(lines);
    assert Lined(lines)[0] == Lined(lines)[..|lines[0]|][0];
  }

  /** The body of such lines is what they are without their blank ends. */
  lemma BodyOfTrimmed(lines: seq<string>) returns (trimmed: seq<string>, p: string, q: string)
    requires AreLines(lines) && lines != [] && !IsBlank(lines[0]) && !IsBlank(lines[|lines| - 1])
    ensures AreTrimmed(lines, trimmed, p, q) && Strip(Lined(lines)) == Lined(trimmed)
  {
    hide Lined, IsBlank, Strip;
    trimmed, p, q := EndsCut(lines);
    LinedEnds(trimmed);
    assert lines[0..|lines|] == lines && trimmed[0..|lines|] == trimmed;
    assert Lined(lines) == p + Lined(trimmed) + q;
    StripIsUnique(p, Lined(trimmed), q);
  }

  // ---------------------------------------------------------------- paragraphs

  /** The paragraphs of these lines: the maximal runs of lines that are not blank, each joined by line
      breaks and stripped. */
  ghost predicate AreParagraphs(lines: seq<string>, texts: seq<string>) {
    exists groups :: AreGroups(lines, groups) && GiveParagraphs(lines, groups, texts)
  }

  predicate GiveParagraphs(lines: seq<string>, groups: seq<Span>, texts: seq<string>) {
    |texts| == |groups|
    && forall k :: 0 <= k < |groups| ==>
      groups[k].from < groups[k].to <= |lines|
      && texts[k] == Strip(Join(lines[groups[k].from..groups[k].to], "\n"))
  }

  lemma {:induction false} NonBlankAll(parts: seq<string>)
    requires forall i :: 0 <= i < |parts| ==> !IsBlank(parts[i])
    ensures NonBlank(parts) == parts
  {
    hide Strip, IsBlank;
    if parts != [] {
      NonBlankAll(parts[..|parts| - 1]);
      StripNotEmpty(parts[|parts| - 1]);
    }
  }

  lemma {:induction false} StripAllAt(parts: seq<string>)
    ensures |StripAll(parts)| == |parts| && forall i :: 0 <= i < |parts| ==> StripAll(parts)[i] == Strip(parts[i])
  {
    hide Strip;
    if parts != [] {
      var front, last := parts[..|parts| - 1], parts[|parts| - 1];
      StripAllAt(front);
      assert StripAll(parts) == StripAll(front) + [Strip(last)];
    }
  }

  lemma LinedNotBlank(lines: seq<string>)
    requires lines != [] && !IsBlank(lines[0])
    ensures !IsBlank(Lined(lines))
  {
    LinedStarts(lines);
    var k :| 0 <= k < |lines[0]| && !IsSpace(lines[0][k]);
    assert Lined(lines)[..|lines[0]|][k] == lines[0][k];
  }

  /** The paragraphs of trimmed lines. */
  lemma ParagraphsOfTrimmed(lines: seq<string>, groups: seq<Span>)
    requires AreLines(lines) && AreGroups(lines, groups)
    requires groups != [] && groups[0].from == 0 && groups[|groups| - 1].to == |lines|
    ensures var texts := Paragraphs(Lined(lines));
      |texts| == |groups| && forall k :: 0 <= k < |groups| ==> texts[k] == Strip(Lined(GroupLines(lines, groups[k])))
  {
    hide AreGroups, IsBlank, Lined, IsCut, BetweenBlankLines, Strip;
    var text, pieces := Lined(lines), GroupTexts(lines, groups, 0);
    assert text[0..] == text && lines[0..] == lines;
    GroupsCut(text, 0, lines, groups, 0);
    NoGapsInNothing(text);
    BlankLinesSeparate(text, 0, 0);
    CutIsUnique(text, 0, BetweenBlankLines(text, 0, 0), pieces);
    forall k | 0 <= k < |groups|
      ensures !IsBlank(pieces[k])
    {
      GroupIsFull(lines, groups, k);
      LinedNotBlank(GroupLines(lines, groups[k]));
    }
    NonBlankAll(pieces);
    StripAllAt(pieces);
  }

  lemma NoGapsInNothing(text: string)
    ensures NoGapStarts(text, 0, 0)
  {
  }

  /** The groups of a part of the lines that holds all of them. */
  function Shifted(groups: seq<Span>, shift: nat): (r: seq<Span>)
    requires forall k :: 0 <= k < |groups| ==> shift <= groups[k].from <= groups[k].to
    ensures |r| == |groups|
    ensures forall k :: 0 <= k < |groups| ==> r[k] == Span(groups[k].from - shift, groups[k].to - shift)
  {
    seq(|groups|, k requires 0 <= k < |groups| => Span(groups[k].from - shift, groups[k].to - shift))
  }

  lemma GroupsWithin(groups: seq<Span>, k: nat)
    requires forall j, k :: 0 <= j < k < |groups| ==> groups[j].to < groups[k].from
    requires (forall j :: 0 <= j < |groups| ==> groups[j].from < groups[j].to) && k < |groups|
    ensures groups[0].from <= groups[k].from < groups[k].to <= groups[|groups| - 1].to
  {
    assert k == 0 || groups[0].to < groups[k].from;
    assert k == |groups| - 1 || groups[k].to < groups[|groups| - 1].from;
  }

  /** All groups lie between the start of the first and the end of the last one. */
  predicate SpanLines(lines: seq<string>, groups: seq<Span>) {
    forall k :: 0 <= k < |groups| ==>
      groups[0].from <= groups[k].from < groups[k].to <= groups[|groups| - 1].to <= |lines|
  }

  lemma AllWithin(lines: seq<string>, groups: seq<Span>)
    requires AreGroups(lines, groups) && groups != []
    ensures SpanLines(lines, groups)
  {
    forall k | 0 <= k < |groups|
      ensures groups[0].from <= groups[k].from < groups[k].to <= groups[|groups| - 1].to
    {
      GroupsWithin(groups, k);
    }
  }

  lemma ShiftedIn(groups: seq<Span>, shift: nat, i: nat)
    requires forall k :: 0 <= k < |groups| ==> shift <= groups[k].from <= groups[k].to
    ensures InSome(Shifted(groups, shift), i) <==> InSome(groups, i + shift)
  {
    var r := Shifted(groups, shift);
    if InSome(groups, i + shift) {
      var k :| 0 <= k < |groups| && groups[k].from <= i + shift < groups[k].to;
      assert r[k].from <= i < r[k].to;
    }
  }

  lemma ShiftedAreGroups(lines: seq<string>, groups: seq<Span>, inner: seq<string>)
    requires AreGroups(lines, groups) && groups != []
    requires SpanLines(lines, groups)
    requires |inner| == groups[|groups| - 1].to - groups[0].from
    requires forall i :: 0 <= i < |inner| ==> (IsBlank(inner[i]) <==> IsBlank(lines[i + groups[0].from]))
    ensures AreGroups(inner, Shifted(groups, groups[0].from))
  {
    hide IsBlank;
    var f := groups[0].from;
    forall i | 0 <= i < |inner|
      ensures IsBlank(inner[i]) <==> !InSome(Shifted(groups, f), i)
    {
      ShiftedIn(groups, f, i);
    }
  }

  lemma BlankOutside(lines: seq<string>, groups: seq<Span>, i: nat)
    requires AreGroups(lines, groups) && i < |lines|
    requires groups == [] || i < groups[0].from || i >= groups[|groups| - 1].to
    requires SpanLines(lines, groups)
    ensures IsBlank(lines[i])
  {
    hide IsBlank;
  }

  /** Blank lines around do not matter to the body. */
  lemma BodyIgnoresBlankLines(before: seq<string>, inner: seq<string>, after: seq<string>)
    requires forall i :: 0 <= i < |before| ==> IsBlank(before[i])
    requires forall i :: 0 <= i < |after| ==> IsBlank(after[i])
    requires inner != [] && !IsBlank(inner[0])
    ensures Strip(Lined(before + inner + after)) == Strip(Lined(inner))
  {
    hide IsBlank, Strip, Lined;
    LinedNotBlank(inner);
    LinedBlank(before);
    LinedBlank(after);
    var pre := if before == [] then "" else Lined(before) + "\n";
    var post := if after == [] then "" else "\n" + Lined(after);
    BreakIsBlank();
    BlankTogether(Lined(before), "\n");
    BlankTogether("\n", Lined(after));
    LinedAround(before, inner, after);
    StripIgnoresEnds(pre, Lined(inner), post);
  }

  lemma BreakIsBlank()
    ensures IsBlank("\n") && IsBlank("")
  {
  }

  lemma LinedAround(before: seq<string>, inner: seq<string>, after: seq<string>)
    requires inner != []
    ensures Lined(before + inner + after)
      == (if before == [] then "" else Lined(before) + "\n") + Lined(inner)
         + if after == [] then "" else "\n" + Lined(after)
  {
    hide Lined;
    if before == [] {
      assert before + inner == inner;
    } else {
      LinedSplit(before, inner);
    }
    if after == [] {
      assert before + inner + after == before + inner;
    } else {
      LinedSplit(before + inner, after);
      Associates(Lined(before + inner), "\n", Lined(after));
    }
  }

  lemma BlankBody(lines: seq<string>)
    requires forall i :: 0 <= i < |lines| ==> IsBlank(lines[i])
    ensures Strip(Join(lines, "\n")) == "" && Paragraphs("") == []
  {
    LinedBlank(lines);
    StripNotEmpty(Lined(lines));
    StripNotEmpty("");
    assert [""][..0] == [];
    assert BetweenBlankLines("", 0, 0) == [""];
  }

  /** A paragraph is the same whether the blank ends of the section were cut before or not. */
  lemma SameParagraph(inner: seq<string>, trimmed: seq<string>, p: string, q: string, g: Span)
    requires AreTrimmed(inner, trimmed, p, q) && g.from < g.to <= |inner| && !IsBlank(trimmed[g.from])
    ensures Strip(Lined(trimmed[g.from..g.to])) == Strip(Lined(inner[g.from..g.to]))
  {
    hide IsBlank, Strip, Lined;
    var part := Lined(trimmed[g.from..g.to]);
    LinedNotBlank(trimmed[g.from..g.to]);
    BreakIsBlank();
    StripIgnoresEnds(if g.from == 0 then p else "", part, if g.to == |inner| then q else "");
  }

  /** The paragraphs of a body are the groups of its lines. */
  lemma BodyParagraphs(lines: seq<string>, groups: seq<Span>)
    requires AreLines(lines) && AreGroups(lines, groups)
    ensures GiveParagraphs(lines, groups, Paragraphs(Strip(Join(lines, "\n"))))
  {
    hide IsBlank, Strip, Lined, AreTrimmed, Paragraphs, AreGroups, AreLines;
    if groups == [] {
      AllBlank(lines, groups);
      BlankBody(lines);
    } else {
      AllWithin(lines, groups);
      var f, l := groups[0].from, groups[|groups| - 1].to;
      var inner := lines[f..l];
      BodyIsInner(lines, groups, inner);
      GroupIsFull(lines, groups, 0);
      GroupIsFull(lines, groups, |groups| - 1);
      InnerEnds(lines, groups, inner);
      var trimmed, p, q := BodyOfTrimmed(inner);
      var shifted := Shifted(groups, f);
      TrimmedGroups(lines, groups, inner, trimmed, p, q);
      ParagraphsOfTrimmed(trimmed, shifted);
      forall k | 0 <= k < |groups|
        ensures Paragraphs(Strip(Join(lines, "\n")))[k] == Strip(Join(lines[groups[k].from..groups[k].to], "\n"))
      {
        SameGroup(lines, groups, inner, trimmed, p, q, k);
      }
    }
  }

  lemma AllBlank(lines: seq<string>, groups: seq<Span>)
    requires AreGroups(lines, groups) && groups == []
    ensures forall i :: 0 <= i < |lines| ==> IsBlank(lines[i])
  {
    forall i | 0 <= i < |lines|
      ensures IsBlank(lines[i])
    {
      BlankOutside(lines, groups, i);
    }
  }

  lemma InnerEnds(lines: seq<string>, groups: seq<Span>, inner: seq<string>)
    requires AreLines(lines) && AreGroups(lines, groups) && groups != []
    requires groups[0].from < groups[|groups| - 1].to <= |lines|
    requires inner == lines[groups[0].from..groups[|groups| - 1].to]
    ensures AreLines(inner) && inner != [] && !IsBlank(inner[0]) && !IsBlank(inner[|inner| - 1])
  {
    hide IsBlank;
    assert InSome(groups, groups[0].from) && InSome(groups, groups[|groups| - 1].to - 1);
  }

  lemma AllBlankOutside(lines: seq<string>, groups: seq<Span>)
    requires AreGroups(lines, groups) && groups != []
    requires SpanLines(lines, groups)
    ensures forall i :: 0 <= i < groups[0].from || groups[|groups| - 1].to <= i < |lines| ==> IsBlank(lines[i])
  {
    hide IsBlank, AreGroups;
    forall i | 0 <= i < groups[0].from || groups[|groups| - 1].to <= i < |lines|
      ensures IsBlank(lines[i])
    {
      BlankOutside(lines, groups, i);
    }
  }

  lemma ThreeParts<T>(s: seq<T>, a: nat, b: nat)
    requires a <= b <= |s|
    ensures s == s[..a] + s[a..b] + s[b..]
  {
  }

  lemma SliceOfSlice<T>(s: seq<T>, a: nat, b: nat, c: nat, d: nat)
    requires a <= b <= |s| && c <= d <= b - a
    ensures s[a..b][c..d] == s[a + c..a + d]
  {
    var x, y := s[a..b][c..d], s[a + c..a + d];
    assert |x| == |y| && forall i :: 0 <= i < |x| ==> x[i] == s[a..b][c + i] == s[a + c + i] == y[i];
  }

  lemma BodyOfParts(lines: seq<string>, before: seq<string>, inner: seq<string>, after: seq<string>)
    requires lines == before + inner + after
    requires (forall i :: 0 <= i < |before| ==> IsBlank(before[i]))
      && (forall i :: 0 <= i < |after| ==> IsBlank(after[i]))
    requires inner != [] && !IsBlank(inner[0])
    ensures Strip(Join(lines, "\n")) == Strip(Lined(inner))
  {
    hide IsBlank, Strip, Join;
    BodyIgnoresBlankLines(before, inner, after);
  }

  lemma BodyIsInner(lines: seq<string>, groups: seq<Span>, inner: seq<string>)
    requires AreLines(lines) && AreGroups(lines, groups) && groups != [] && SpanLines(lines, groups)
    requires groups[0].from < groups[|groups| - 1].to <= |lines|
    requires inner == lines[groups[0].from..groups[|groups| - 1].to]
    ensures Strip(Join(lines, "\n")) == Strip(Lined(inner))
  {
    hide IsBlank, Strip, AreGroups, SpanLines, AreLines, Join, Lined;
    var f, l := groups[0].from, groups[|groups| - 1].to;
    AllBlankOutside(lines, groups);
    InnerEnds(lines, groups, inner);
    ThreeParts(lines, f, l);
    BodyOfParts(lines, lines[..f], inner, lines[l..]);
  }

  lemma TrimmedGroups(lines: seq<string>, groups: seq<Span>, inner: seq<string>, trimmed: seq<string>, p: string,
                      q: string)
    requires AreGroups(lines, groups) && groups != []
    requires SpanLines(lines, groups)
    requires inner == lines[groups[0].from..groups[|groups| - 1].to] && AreTrimmed(inner, trimmed, p, q)
    ensures AreLines(trimmed) && AreGroups(trimmed, Shifted(groups, groups[0].from))
    ensures groups[|groups| - 1].to - groups[0].from == |trimmed|
  {
    hide IsBlank, AreGroups, Lined;
    ShiftedAreGroups(lines, groups, trimmed);
  }

  lemma TrimmedLine(lines: seq<string>, trimmed: seq<string>, p: string, q: string, i: nat)
    requires AreTrimmed(lines, trimmed, p, q) && i < |lines|
    ensures |trimmed| == |lines| && (IsBlank(trimmed[i]) <==> IsBlank(lines[i]))
  {
    hide IsBlank, Lined;
  }

  lemma SameGroup(lines: seq<string>, groups: seq<Span>, inner: seq<string>, trimmed: seq<string>, p: string, q: string,
                  k: nat)
    requires AreGroups(lines, groups) && k < |groups|
    requires SpanLines(lines, groups)
    requires inner == lines[groups[0].from..groups[|groups| - 1].to] && AreTrimmed(inner, trimmed, p, q)
    ensures Strip(Lined(GroupLines(trimmed, Shifted(groups, groups[0].from)[k])))
      == Strip(Join(lines[groups[k].from..groups[k].to], "\n"))
  {
    hide IsBlank, Strip, Join, AreTrimmed;
    var f, g := groups[0].from, groups[k];
    GroupIsFull(lines, groups, k);
    assert !IsBlank(lines[g.from]) by {
      assert GroupLines(lines, g)[0] == lines[g.from];
    }
    TrimmedLine(inner, trimmed, p, q, g.from - f);
    SameParagraph(inner, trimmed, p, q, Span(g.from - f, g.to - f));
    SliceOfSlice(lines, f, groups[|groups| - 1].to, g.from - f, g.to - f);
  }
}
