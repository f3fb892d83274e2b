// Splitting a Markdown document into sections by its headings: `_split_sections` of
// ingestion/chunker.py. A document is given as its lines.
module Sections {
  import opened Text

  datatype Heading = Heading(level: nat, title: string)

  datatype Section = Section(path: string, lines: seq<string>)

  // ---------------------------------------------------------------- headings

  function HashRun(s: string, n: nat): nat
    requires n <= |s|
    decreases |s| - n
  {
    if n < |s| && s[n] == '#' then HashRun(s, n + 1) else n
  }

  /** A line is the text of its section or a heading. */
  datatype Line = Plain(text: string) | Marked(heading: Heading)

  /** A heading: one to six '#' at the start of the stripped line, whitespace, and a title. */
  function ReadLine(line: string): Line {
    var s := Strip(line);
    var level := HashRun(s, 0);
    if 1 <= level <= 6 && level < |s| && IsSpace(s[level]) then Marked(Heading(level, Strip(s[level..])))
    else Plain(line)
  }

  function ReadLines(lines: seq<string>): (r: seq<Line>)
    ensures |r| == |lines| && forall i :: 0 <= i < |r| ==> r[i] == ReadLine(lines[i])
  {
    seq(|lines|, i requires 0 <= i < |lines| => ReadLine(lines[i]))
  }

  function Hashes(n: nat): string {
    if n == 0 then "" else Hashes(n - 1) + "#"
  }

  lemma {:induction false} HashesShape(n: nat)
    ensures |Hashes(n)| == n && forall i :: 0 <= i < n ==> Hashes(n)[i] == '#'
  {
    if n > 0 {
      HashesShape(n - 1);
    }
  }

  lemma {:induction false} HashRunAt(s: string, at: nat, end: nat)
    requires at <= end <= |s| && (forall i :: at <= i < end ==> s[i] == '#') && (end < |s| ==> s[end] != '#')
    ensures HashRun(s, at) == end
    decreases end - at
  {
    if at < end {
      HashRunAt(s, at + 1, end);
    }
  }

  lemma HashesEnd(level: nat, gap: string, title: string)
    requires IsBlank(gap) && gap != "" && level >= 1
    ensures var s := Hashes(level) + gap + title;
      level < |s| && HashRun(s, 0) == level && s[0] == '#' && IsSpace(s[level])
  {
    var s := Hashes(level) + gap + title;
    HashesShape(level);
    assert s[level] == gap[0];
    HashRunAt(s, 0, level);
  }

  lemma TitleIsLeft(level: nat, gap: string, title: string)
    requires IsBlank(gap) && IsTrimmed(title) && title != ""
    ensures var s := Hashes(level) + gap + title; level <= |s| && Strip(s[level..]) == title
  {
    HashesShape(level);
    var s := Hashes(level) + gap + title;
    assert s[level..] == gap + title + "";
    StripIsUnique(gap, title, "");
  }

  lemma HeadingStripped(before: string, level: nat, gap: string, title: string, after: string)
    requires IsBlank(before) && IsBlank(after) && IsTrimmed(title) && title != "" && level >= 1
    ensures Strip(before + (Hashes(level) + gap + title) + after) == Hashes(level) + gap + title
  {
    var s := Hashes(level) + gap + title;
    HashesShape(level);
    assert s[0] == '#' && s[|s| - 1] == title[|title| - 1];
    StripIsUnique(before, s, after);
  }

  lemma ReadStripped(line: string, s: string, level: nat, title: string)
    requires Strip(line) == s && 1 <= level <= 6 && level < |s|
    requires HashRun(s, 0) == level && IsSpace(s[level]) && Strip(s[level..]) == title
    ensures ReadLine(line) == Marked(Heading(level, title))
  {
  }

  /** Every heading is read back: up to six '#', whitespace and a title, with any blank ends. */
  lemma HeadingIsRead(before: string, level: nat, gap: string, title: string, after: string)
    requires IsBlank(before) && IsBlank(gap) && IsBlank(after) && 1 <= level <= 6 && gap != ""
    requires title != "" && IsTrimmed(title)
    ensures ReadLine(before + (Hashes(level) + gap + title) + after) == Marked(Heading(level, title))
  {
    hide Strip, HashRun, IsBlank, IsTrimmed, ReadLine;
    var s := Hashes(level) + gap + title;
    HashesEnd(level, gap, title);
    TitleIsLeft(level, gap, title);
    HeadingStripped(before, level, gap, title, after);
    ReadStripped(before + s + after, s, level, title);
  }

  lemma {:induction false} HashRunShape(s: string, at: nat)
    requires at <= |s|
    ensures at <= HashRun(s, at) <= |s| && forall i :: at <= i < HashRun(s, at) ==> s[i] == '#'
    decreases |s| - at
  {
    if at < |s| && s[at] == '#' {
      HashRunShape(s, at + 1);
    }
  }

  lemma BlankEnd(body: string, post: string)
    ensures IsBlank(post) && post != "" ==> IsSpace((body + post)[|body + post| - 1])
  {
    assert post != "" ==> (body + post)[|body + post| - 1] == post[|post| - 1];
  }

  /** A text that starts with whitespace and does not end with it: the whitespace and a title. */
  lemma GapAndTitle(rest: string) returns (gap: string, title: string)
    requires rest != "" && IsSpace(rest[0]) && !IsSpace(rest[|rest| - 1])
    ensures rest == gap + title && title == Strip(rest)
    ensures IsBlank(gap) && gap != "" && title != "" && IsTrimmed(title)
  {
    var post;
    gap, post := StripCutsWhitespaceEnds(rest);
    title := Strip(rest);
    BlankEnd(gap + title, post);
    assert rest == gap + title;
    BlankEnd("", gap);
    assert "" + gap == gap;
  }

  /** A trimmed text that starts like a heading: the '#', whitespace and a title. */
  lemma HeadingParts(s: string) returns (gap: string, title: string)
    requires IsTrimmed(s) && HashRun(s, 0) < |s| && IsSpace(s[HashRun(s, 0)])
    ensures s == Hashes(HashRun(s, 0)) + gap + title && title == Strip(s[HashRun(s, 0)..])
    ensures IsBlank(gap) && gap != "" && title != "" && IsTrimmed(title)
  {
    hide Strip, IsSpace;
    var level := HashRun(s, 0);
    HashRunShape(s, 0);
    HashesShape(level);
    assert s[level..][|s| - level - 1] == s[|s| - 1];
    gap, title := GapAndTitle(s[level..]);
    assert s == s[..level] + s[level..] && s[..level] == Hashes(level);
  }

  /** Between blank ends: up to six '#', whitespace and this title. */
  ghost predicate IsHeadingLine(line: string, level: nat, title: string) {
    && 1 <= level <= 6 && title != "" && IsTrimmed(title)
    && exists before, gap, after ::
         IsBlank(before) && IsBlank(gap) && IsBlank(after) && gap != ""
         && line == before + (Hashes(level) + gap + title) + after
  }

  lemma HeadingHasForm(line: string)
    requires ReadLine(line).Marked?
    ensures IsHeadingLine(line, ReadLine(line).heading.level, ReadLine(line).heading.title)
  {
    var before, after := StripCutsWhitespaceEnds(line);
    var gap, title := HeadingParts(Strip(line));
    assert line == before + (Hashes(HashRun(Strip(line), 0)) + gap + title) + after;
  }

  /** A line is read as the heading of this level and title exactly when it has that form. */
  lemma HeadingIsReadIff(line: string, level: nat, title: string)
    ensures ReadLine(line) == Marked(Heading(level, title)) <==> IsHeadingLine(line, level, title)
  {
    hide ReadLine, IsBlank, IsTrimmed;
    if IsHeadingLine(line, level, title) {
      var before, gap, after :| IsBlank(before) && IsBlank(gap) && IsBlank(after) && gap != ""
        && line == before + (Hashes(level) + gap + title) + after;
      HeadingIsRead(before, level, gap, title, after);
    } else if ReadLine(line) == Marked(Heading(level, title)) {
      HeadingHasForm(line);
    }
  }

  /** The heading at i is still open before line n: no heading in between has its level or a lower one. */
  predicate Open(lines: seq<Line>, i: nat, n: nat)
    requires i < n <= |lines|
  {
    lines[i].Marked?
    && forall k :: i < k < n && lines[k].Marked? ==> lines[k].heading.level > lines[i].heading.level
  }

  /** The headings before line m that are open before line n, in order. */
  function OpenHeadings(lines: seq<Line>, m: nat, n: nat): seq<Heading>
    requires m <= n <= |lines|
  {
    if m == 0 then []
    else OpenHeadings(lines, m - 1, n) + if Open(lines, m - 1, n) then [lines[m - 1].heading] else []
  }

  function Titles(stack: seq<Heading>): seq<string> {
    if stack == [] then [] else Titles(stack[..|stack| - 1]) + [stack[|stack| - 1].title]
  }

  // ---------------------------------------------------------------- sections

  /** A section starts at the top and after every heading. */
  predicate IsStart(lines: seq<Line>, h: nat)
    requires h <= |lines|
  {
    h == 0 || lines[h - 1].Marked?
  }

  /** The titles of the headings that are open where the section starts. */
  function PathAt(lines: seq<Line>, h: nat): string
    requires h <= |lines|
  {
    Join(Titles(OpenHeadings(lines, h, h)), " / ")
  }

  /** The lines from h up to the next heading. */
  function Body(lines: seq<Line>, h: nat): seq<string>
    requires h <= |lines|
    decreases |lines| - h
  {
    if h == |lines| || lines[h].Marked? then [] else [lines[h].text] + Body(lines, h + 1)
  }

  /** A section without lines is kept only if it has a path. */
  function Kept(s: Section): seq<Section> {
    if s.lines != [] || s.path != "" then [s] else []
  }

  /** The sections that start before h. */
  function StartedBefore(lines: seq<Line>, h: nat): seq<Section>
    requires h <= |lines| + 1
  {
    if h == 0 then []
    else
      StartedBefore(lines, h - 1) + if IsStart(lines, h - 1)
          then Kept(Section(PathAt(lines, h - 1), Body(lines, h - 1))) else []
  }

  function SectionsOf(lines: seq<Line>): seq<Section> {
    var sections := StartedBefore(lines, |lines| + 1);
    if sections == [] then [Section("", [])] else sections
  }

  // ---------------------------------------------------------------- the heading stack

  predicate LevelsIncrease(stack: seq<Heading>) {
    forall i, j :: 0 <= i < j < |stack| ==> stack[i].level < stack[j].level
  }

  lemma {:induction false} OpenHeadingsAreOpen(lines: seq<Line>, m: nat, n: nat, x: nat) returns (i: nat)
    requires m <= n <= |lines| && x < |OpenHeadings(lines, m, n)|
    ensures i < m && Open(lines, i, n) && lines[i].heading == OpenHeadings(lines, m, n)[x]
  {
    if x < |OpenHeadings(lines, m - 1, n)| {
      i := OpenHeadingsAreOpen(lines, m - 1, n, x);
    } else {
      i := m - 1;
    }
  }

  lemma {:induction false} OpenLevelsIncrease(lines: seq<Line>, m: nat, n: nat)
    requires m <= n <= |lines|
    ensures LevelsIncrease(OpenHeadings(lines, m, n))
  {
    if m > 0 {
      OpenLevelsIncrease(lines, m - 1, n);
      if Open(lines, m - 1, n) {
        var before := OpenHeadings(lines, m - 1, n);
        forall x | 0 <= x < |before|
          ensures before[x].level < lines[m - 1].heading.level
        {
          var i := OpenHeadingsAreOpen(lines, m - 1, n, x);
        }
      }
    }
  }

  function Below(stack: seq<Heading>, level: nat): seq<Heading> {
    if stack == [] then []
    else Below(stack[..|stack| - 1], level) + if stack[|stack| - 1].level < level then [stack[|stack| - 1]] else []
  }

  lemma {:induction false} BelowAll(stack: seq<Heading>, level: nat)
    requires LevelsIncrease(stack) && (stack != [] ==> stack[|stack| - 1].level < level)
    ensures Below(stack, level) == stack
  {
    if stack != [] {
      BelowAll(stack[..|stack| - 1], level);
    }
  }

  lemma BelowAppend(stack: seq<Heading>, h: Heading, level: nat)
    ensures Below(stack + [h], level) == Below(stack, level) + if h.level < level then [h] else []
  {
    assert (stack + [h])[..|stack|] == stack;
  }

  /** What a heading closes: of the open headings, those below its level stay open. */
  lemma {:induction false} HeadingCloses(lines: seq<Line>, m: nat, n: nat)
    requires m <= n < |lines| && lines[n].Marked?
    ensures OpenHeadings(lines, m, n + 1) == Below(OpenHeadings(lines, m, n), lines[n].heading.level)
  {
    if m > 0 {
      HeadingCloses(lines, m - 1, n);
      OpenAfterHeading(lines, m - 1, n);
      if Open(lines, m - 1, n) {
        BelowAppend(OpenHeadings(lines, m - 1, n), lines[m - 1].heading, lines[n].heading.level);
      } else {
        assert OpenHeadings(lines, m, n) == OpenHeadings(lines, m - 1, n);
        assert OpenHeadings(lines, m, n + 1) == OpenHeadings(lines, m - 1, n + 1);
      }
    }
  }

  lemma OpenAfterHeading(lines: seq<Line>, i: nat, n: nat)
    requires i < n < |lines| && lines[n].Marked?
    ensures Open(lines, i, n + 1) <==> Open(lines, i, n) && lines[i].heading.level < lines[n].heading.level
  {
  }

  lemma {:induction false} PlainLineCloses(lines: seq<Line>, m: nat, n: nat)
    requires m <= n < |lines| && lines[n].Plain?
    ensures OpenHeadings(lines, m, n + 1) == OpenHeadings(lines, m, n)
  {
    if m > 0 {
      PlainLineCloses(lines, m - 1, n);
      assert Open(lines, m - 1, n + 1) <==> Open(lines, m - 1, n);
    }
  }

  lemma StackAfterHeading(lines: seq<Line>, n: nat)
    requires n < |lines| && lines[n].Marked?
    ensures OpenHeadings(lines, n + 1, n + 1)
      == Below(OpenHeadings(lines, n, n), lines[n].heading.level) + [lines[n].heading]
  {
    HeadingCloses(lines, n, n);
  }

  lemma StackAfterPlain(lines: seq<Line>, n: nat)
    requires n < |lines| && lines[n].Plain?
    ensures OpenHeadings(lines, n + 1, n + 1) == OpenHeadings(lines, n, n)
  {
    PlainLineCloses(lines, n, n);
  }

  lemma {:induction false} BelowTwice(stack: seq<Heading>, low: nat, high: nat)
    requires low <= high
    ensures Below(Below(stack, high), low) == Below(stack, low)
  {
    if stack != [] {
      var front, last := stack[..|stack| - 1], stack[|stack| - 1];
      BelowTwice(front, low, high);
      BelowAppend(Below(front, high), last, low);
      assert Below(front, high) + [] == Below(front, high);
    }
  }

  lemma DeeperLine(lines: seq<Line>, n: nat, level: nat)
    requires n < |lines| && (lines[n].Marked? ==> lines[n].heading.level >= level)
    ensures Below(OpenHeadings(lines, n + 1, n + 1), level) == Below(OpenHeadings(lines, n, n), level)
  {
    hide OpenHeadings, Below;
    var before := OpenHeadings(lines, n, n);
    if lines[n].Marked? {
      var h := lines[n].heading;
      StackAfterHeading(lines, n);
      BelowAppend(Below(before, h.level), h, level);
      BelowTwice(before, level, h.level);
      assert Below(before, level) + [] == Below(before, level);
    } else {
      StackAfterPlain(lines, n);
    }
  }

  /** Headings of this level or deeper leave what is open below the level as it is. */
  lemma {:induction false} DeeperHeadings(lines: seq<Line>, m: nat, n: nat, level: nat)
    requires m <= n <= |lines| && Below(OpenHeadings(lines, m, m), level) == OpenHeadings(lines, m, m)
    requires forall k :: m <= k < n && lines[k].Marked? ==> lines[k].heading.level >= level
    ensures Below(OpenHeadings(lines, n, n), level) == OpenHeadings(lines, m, m)
  {
    hide OpenHeadings, Below;
    if m < n {
      DeeperHeadings(lines, m, n - 1, level);
      DeeperLine(lines, n - 1, level);
    }
  }

  /** The path of a section is a breadcrumb: the path of the section of the heading that encloses it,
      which is the last one before of a lower level, then " / " and its own title; and its own title
      alone where no heading encloses it. */
  lemma PathIsBreadcrumb(lines: seq<Line>, m: nat, h: nat)
    requires m <= h < |lines| && lines[h].Marked?
    requires forall k :: m <= k < h && lines[k].Marked? ==> lines[k].heading.level >= lines[h].heading.level
    requires m > 0 ==> lines[m - 1].Marked? && lines[m - 1].heading.level < lines[h].heading.level
    ensures PathAt(lines, 0) == ""
    ensures PathAt(lines, h + 1)
      == if m == 0 then lines[h].heading.title else PathAt(lines, m) + " / " + lines[h].heading.title
  {
    var stack, own := OpenHeadings(lines, m, m), lines[h].heading;
    if m > 0 {
      StackAfterHeading(lines, m - 1);
      OpenLevelsIncrease(lines, m, m);
    }
    BelowAll(stack, own.level);
    DeeperHeadings(lines, m, h, own.level);
    StackAfterHeading(lines, h);
    assert (stack + [own])[..|stack|] == stack;
    TitlesCount(stack);
    assert (Titles(stack) + [own.title])[..|stack|] == Titles(stack);
  }

  lemma {:induction false} TitlesCount(stack: seq<Heading>)
    ensures |Titles(stack)| == |stack|
  {
    if stack != [] {
      TitlesCount(stack[..|stack| - 1]);
    }
  }

  /** The pop loop of the splitter. */
  method Push(stack: seq<Heading>, h: Heading) returns (r: seq<Heading>)
    requires LevelsIncrease(stack)
    ensures r == Below(stack, h.level) + [h]
  {
    r := stack;
    while r != [] && r[|r| - 1].level >= h.level
      invariant LevelsIncrease(r) && Below(r, h.level) == Below(stack, h.level)
    {
      r := r[..|r| - 1];
    }
    BelowAll(r, h.level);
    r := r + [h];
  }

  lemma {:induction false} NoStarts(lines: seq<Line>, a: nat, b: nat)
    requires a <= b <= |lines| + 1 && forall h :: a <= h < b ==> !IsStart(lines, h)
    ensures StartedBefore(lines, a) == StartedBefore(lines, b)
  {
    if a < b {
      NoStarts(lines, a, b - 1);
    }
  }

  /** The section that starts at `start` is the last one before the next heading. */
  lemma SectionCloses(lines: seq<Line>, start: nat, end: nat)
    requires start < end <= |lines| + 1 && IsStart(lines, start)
    requires forall h :: start < h < end ==> !IsStart(lines, h)
    ensures StartedBefore(lines, end)
         == StartedBefore(lines, start) + Kept(Section(PathAt(lines, start), Body(lines, start)))
  {
    NoStarts(lines, start + 1, end);
  }

  method JoinTitles(stack: seq<Heading>) returns (path: string)
    ensures path == Join(Titles(stack), " / ")
  {
    var titles := [];
    for i := 0 to |stack|
      invariant titles == Titles(stack[..i])
    {
      assert stack[..i + 1][..i] == stack[..i];
      titles := titles + [stack[i].title];
    }
    assert stack[..|stack|] == stack;
    path := Join(titles, " / ");
  }

  lemma MoveFirst<T>(a: seq<T>, x: T, b: seq<T>)
    ensures a + ([x] + b) == (a + [x]) + b
  {
  }

  /** `current` is appended unless it has neither lines nor a path. */
  method Close(sections: seq<Section>, current: Section) returns (r: seq<Section>)
    ensures r == sections + Kept(current)
  {
    r := sections;
    if current.lines != [] || current.path != "" {
      r := r + [current];
    }
  }

  /** The section from `start` on, of which the lines before i are read. */
  predicate Reading(lines: seq<Line>, start: nat, i: nat, current: Section)
    requires start <= i <= |lines|
  {
    && IsStart(lines, start)
    && (forall h :: start < h <= i ==> !IsStart(lines, h))
    && current.path == PathAt(lines, start)
    && current.lines + Body(lines, i) == Body(lines, start)
  }

  lemma ReadOn(lines: seq<Line>, start: nat, i: nat, current: Section)
    requires start <= i < |lines| && Reading(lines, start, i, current) && lines[i].Plain?
    ensures Reading(lines, start, i + 1, current.(lines := current.lines + [lines[i].text]))
  {
    MoveFirst(current.lines, lines[i].text, Body(lines, i + 1));
  }

  lemma ReadDone(lines: seq<Line>, start: nat, i: nat, current: Section)
    requires start <= i <= |lines| && Reading(lines, start, i, current) && (i < |lines| ==> lines[i].Marked?)
    ensures StartedBefore(lines, i + 1) == StartedBefore(lines, start) + Kept(current)
  {
    assert Body(lines, i) == [];
    assert current == Section(PathAt(lines, start), Body(lines, start));
    SectionCloses(lines, start, i + 1);
  }

  lemma ReadHeading(lines: seq<Line>, i: nat, stack: seq<Heading>)
    requires i < |lines| && lines[i].Marked? && stack == OpenHeadings(lines, i + 1, i + 1)
    ensures Reading(lines, i + 1, i + 1, Section(Join(Titles(stack), " / "), []))
  {
  }

  method SplitSections(lines: seq<Line>) returns (sections: seq<Section>)
    ensures sections == SectionsOf(lines)
  {
    sections := [];
    var stack: seq<Heading> := [];
    var current := Section("", []);
    ghost var start := 0;
    for i := 0 to |lines|
      invariant start <= i && Reading(lines, start, i, current)
      invariant stack == OpenHeadings(lines, i, i)
      invariant sections == StartedBefore(lines, start)
    {
      var line := lines[i];
      if line.Plain? {
        StackAfterPlain(lines, i);
        ReadOn(lines, start, i, current);
        current := current.(lines := current.lines + [line.text]);
      } else {
        ReadDone(lines, start, i, current);
        sections := Close(sections, current);
        OpenLevelsIncrease(lines, i, i);
        StackAfterHeading(lines, i);
        stack := Push(stack, line.heading);
        var path := JoinTitles(stack);
        ReadHeading(lines, i, stack);
        current := Section(path, []);
        start := i + 1;
      }
    }
    ReadDone(lines, start, |lines|, current);
    sections := Close(sections, current);
    if sections == [] {
      sections := [Section("", [])];
    }
  }

  // ---------------------------------------------------------------- what the sections hold

  function PlainLines(lines: seq<Line>, n: nat): seq<string>
    requires n <= |lines|
  {
    if n == 0 then [] else PlainLines(lines, n - 1) + if lines[n - 1].Marked? then [] else [lines[n - 1].text]
  }

  function LinesOf(sections: seq<Section>): seq<string> {
    if sections == [] then [] else LinesOf(sections[..|sections| - 1]) + sections[|sections| - 1].lines
  }

  lemma LinesOfKept(sections: seq<Section>, s: Section)
    ensures LinesOf(sections + Kept(s)) == LinesOf(sections) + s.lines
  {
    if Kept(s) == [s] {
      assert (sections + [s])[..|sections|] == sections;
    } else {
      assert sections + Kept(s) == sections;
    }
  }

  lemma {:induction false} LinesStartedBefore(lines: seq<Line>, h: nat)
    requires h <= |lines|
    ensures LinesOf(StartedBefore(lines, h + 1)) == PlainLines(lines, h) + Body(lines, h)
  {
    if h > 0 {
      LinesStartedBefore(lines, h - 1);
    }
    if IsStart(lines, h) {
      LinesOfKept(StartedBefore(lines, h), Section(PathAt(lines, h), Body(lines, h)));
      assert h > 0 ==> Body(lines, h - 1) == [] && PlainLines(lines, h) == PlainLines(lines, h - 1) + [];
    } else {
      assert StartedBefore(lines, h + 1) == StartedBefore(lines, h);
      MoveFirst(PlainLines(lines, h - 1), lines[h - 1].text, Body(lines, h));
    }
  }

  /** The lines of the sections, one after the other, are the lines that are not headings. */
  lemma SectionsConserveLines(lines: seq<Line>)
    ensures LinesOf(SectionsOf(lines)) == PlainLines(lines, |lines|)
  {
    LinesStartedBefore(lines, |lines|);
    assert [Section("", [])][..0] == [];
  }
}
