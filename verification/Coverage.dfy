// What the chunks keep of a document, and how long they are.
module Coverage {
  import opened Entities
  import opened Text
  import opened VisibleText
  import opened Spans
  import opened Sections
  import opened Chunker
  import opened Documents

  // ---------------------------------------------------------------- parents

  lemma VisibleOne(s: string)
    ensures VisibleAll([s]) == Visible(s)
  {
    assert [s][..0] == [];
  }

  lemma VisibleCons(s: string, rest: seq<string>)
    ensures VisibleAll([s] + rest) == Visible(s) + VisibleAll(rest)
  {
    VisibleOne(s);
    VisibleAllConcat([s], rest);
  }

  /** Only whitespace lies between the pieces. */
  lemma {:induction false} PiecesConserve(text: string, start: nat, at: nat)
    requires start <= at <= |text|
    ensures VisibleAll(BetweenBlankLines(text, start, at)) == Visible(text[start..])
    decreases |text| - at
  {
    hide IsBlank, Visible;
    if at == |text| {
      VisibleOne(text[start..]);
    } else {
      LastBreakShape(text, at + 1, at + 1, None);
      var last := LastBreak(text, at + 1, None);
      if text[at] == '\n' && last.Some? {
        var next := last.value + 1;
        PiecesConserve(text, next, next);
        GapConserves(text, start, at, next, BetweenBlankLines(text, next, next));
      } else {
        PiecesConserve(text, start, at + 1);
      }
    }
  }

  lemma GapConserves(text: string, start: nat, at: nat, next: nat, rest: seq<string>)
    requires start <= at < next <= |text| && IsSpace(text[at]) && IsBlank(text[at + 1..next])
    requires VisibleAll(rest) == Visible(text[next..])
    ensures VisibleAll([text[start..at]] + rest) == Visible(text[start..])
  {
    VisibleCons(text[start..at], rest);
    GapIsBlank(text, start, at, next);
  }

  lemma GapIsBlank(text: string, start: nat, at: nat, next: nat)
    requires start <= at < next <= |text| && IsSpace(text[at]) && IsBlank(text[at + 1..next])
    ensures Visible(text[start..]) == Visible(text[start..at]) + Visible(text[next..])
  {
    var gap := text[at..next];
    assert gap == [text[at]] + text[at + 1..next];
    assert text[start..] == (text[start..at] + gap) + text[next..];
    VisibleConcat(text[start..at] + gap, text[next..]);
    VisibleConcat(text[start..at], gap);
    VisibleBlank(gap);
  }

  lemma {:induction false} StripAllConserves(parts: seq<string>)
    ensures VisibleAll(StripAll(parts)) == VisibleAll(parts)
  {
    if parts != [] {
      var front, last := parts[..|parts| - 1], parts[|parts| - 1];
      StripAllConserves(front);
      VisibleStrip(last);
      VisibleAllConcat(StripAll(front), [Strip(last)]);
      VisibleOne(Strip(last));
    }
  }

  lemma ParagraphsConserve(text: string)
    ensures VisibleAll(Paragraphs(text)) == Visible(text)
  {
    PiecesConserve(text, 0, 0);
    VisibleNonBlank(BetweenBlankLines(text, 0, 0));
    StripAllConserves(NonBlank(BetweenBlankLines(text, 0, 0)));
    assert text[0..] == text;
  }

  lemma {:induction false} BlockTextsCons(items: seq<string>, s: Span, rest: seq<Span>)
    ensures BlockTexts(items, [s] + rest) == [TextOf(items, s, "\n\n")] + BlockTexts(items, rest)
  {
    if rest == [] {
      assert [s] + rest == [s] && [s][..0] == [];
    } else {
      BlockTextsCons(items, s, rest[..|rest| - 1]);
      assert ([s] + rest)[..|[s] + rest| - 1] == [s] + rest[..|rest| - 1];
    }
  }

  lemma FirstBlockConserves(items: seq<string>, from: nat, to: nat, rest: seq<Span>)
    requires from <= to <= |items|
    ensures VisibleAll(BlockTexts(items, [Span(from, to)] + rest))
         == VisibleAll(items[from..to]) + VisibleAll(BlockTexts(items, rest))
  {
    var first := Join(items[from..to], "\n\n");
    BlockTextsCons(items, Span(from, to), rest);
    assert BlockTexts(items, [Span(from, to)] + rest) == [first] + BlockTexts(items, rest);
    VisibleCons(first, BlockTexts(items, rest));
    VisibleJoin(items[from..to], "\n\n");
  }

  lemma VisibleTail(items: seq<string>, from: nat, to: nat)
    requires from <= to <= |items|
    ensures VisibleAll(items[from..]) == VisibleAll(items[from..to]) + VisibleAll(items[to..])
  {
    VisibleAllConcat(items[from..to], items[to..]);
    assert items[from..] == items[from..to] + items[to..];
  }

  lemma {:induction false} PackConserves(items: seq<string>, from: nat, max: int)
    requires from <= |items|
    ensures VisibleAll(BlockTexts(items, SpansFrom(items, from, from, max, 0))) == VisibleAll(items[from..])
    decreases |items| - from
  {
    if from < |items| {
      var to := Grow(items, from, from + 1, max);
      NothingCarried(items, from, to);
      PackConserves(items, to, max);
      FirstBlockConserves(items, from, to, SpansFrom(items, to, to, max, 0));
      VisibleTail(items, from, to);
    }
  }

  lemma BlocksConserve(text: string, max: int)
    ensures VisibleAll(Blocks(text, max)) == Visible(text)
  {
    ParagraphsConserve(text);
    PackConserves(Paragraphs(text), 0, max);
    assert Paragraphs(text)[0..] == Paragraphs(text);
  }

  function TextsOf(blocks: seq<Block>): seq<string> {
    if blocks == [] then [] else TextsOf(blocks[..|blocks| - 1]) + [blocks[|blocks| - 1].text]
  }

  function ParentTexts(parents: seq<ParentChunk>): seq<string> {
    if parents == [] then [] else ParentTexts(parents[..|parents| - 1]) + [parents[|parents| - 1].text]
  }

  lemma {:induction false} TextsOfConcat(a: seq<Block>, b: seq<Block>)
    ensures TextsOf(a + b) == TextsOf(a) + TextsOf(b)
  {
    if b == [] {
      assert a + b == a;
    } else {
      TextsOfConcat(a, b[..|b| - 1]);
      assert (a + b)[..|a + b| - 1] == a + b[..|b| - 1];
    }
  }

  lemma {:induction false} TextsOfTagged(path: string, texts: seq<string>)
    ensures TextsOf(Tagged(path, texts)) == texts
  {
    if texts != [] {
      TextsOfTagged(path, texts[..|texts| - 1]);
      var front := Tagged(path, texts[..|texts| - 1]);
      assert (front + [Block(path, texts[|texts| - 1])])[..|front|] == front;
    }
  }

  lemma SectionConserves(cfg: ChunkingConfig, s: Section)
    ensures VisibleAll(TextsOf(BlocksOf(cfg, s))) == VisibleAll(s.lines)
  {
    VisibleJoin(s.lines, "\n");
    VisibleStrip(Join(s.lines, "\n"));
    if BodyOf(s) != "" {
      TextsOfTagged(s.path, Blocks(BodyOf(s), cfg.parentMax));
      BlocksConserve(BodyOf(s), cfg.parentMax);
    }
  }

  lemma {:induction false} SectionsConserve(cfg: ChunkingConfig, sections: seq<Section>)
    ensures VisibleAll(TextsOf(AllBlocks(cfg, sections))) == VisibleAll(LinesOf(sections))
  {
    if sections != [] {
      var front, last := sections[..|sections| - 1], sections[|sections| - 1];
      SectionsConserve(cfg, front);
      SectionConserves(cfg, last);
      TextsOfConcat(AllBlocks(cfg, front), BlocksOf(cfg, last));
      VisibleAllConcat(TextsOf(AllBlocks(cfg, front)), TextsOf(BlocksOf(cfg, last)));
      VisibleAllConcat(LinesOf(front), last.lines);
    }
  }

  lemma {:induction false} ParentTextsAre(cfg: ChunkingConfig, version: string, blocks: seq<Block>)
    ensures ParentTexts(NumberParents(cfg, version, blocks)) == TextsOf(blocks)
  {
    if blocks != [] {
      var front, last := blocks[..|blocks| - 1], blocks[|blocks| - 1];
      ParentTextsAre(cfg, version, front);
      var parents := NumberParents(cfg, version, front);
      assert (parents + [ParentOf(cfg, version, |front|, last)])[..|parents|] == parents;
    }
  }

  /** No visible character is lost or repeated: the parents' texts, one after the other, show what
      the lines of the document show that are not headings. */
  lemma ParentsConserveText(cfg: ChunkingConfig, version: string, text: seq<string>)
    ensures VisibleAll(ParentTexts(Chunks(cfg, version, text))) == VisibleAll(PlainLines(ReadLines(text), |text|))
  {
    var lines := ReadLines(text);
    SectionsConserveLines(lines);
    SectionsConserve(cfg, SectionsOf(lines));
    ParentTextsAre(cfg, version, AllBlocks(cfg, SectionsOf(lines)));
  }

  // ---------------------------------------------------------------- children

  /** The new items of the spans, one after the other. */
  function NewItems(items: seq<string>, spans: seq<Span>, next: nat): seq<string> {
    if spans == [] then []
    else if next <= spans[0].to <= |items| then items[next..spans[0].to] + NewItems(items, spans[1..], spans[0].to)
    else []
  }

  /** The new items are all items, each once, in order. */
  lemma {:induction false} NewItemsAreAll(items: seq<string>, from: nat, next: nat, max: int, overlap: int)
    requires from <= next <= |items|
    ensures NewItems(items, SpansFrom(items, from, next, max, overlap), next) == items[next..]
    decreases |items| - next
  {
    if next < |items| {
      var to := Grow(items, from, next + 1, max);
      var carried := Carry(items, from, to, to, overlap);
      NewItemsAreAll(items, carried, to, max, overlap);
      var rest := SpansFrom(items, carried, to, max, overlap);
      assert ([Span(from, to)] + rest)[1..] == rest;
      assert items[next..] == items[next..to] + items[to..];
    }
  }

  lemma JoinLast(parts: seq<string>, last: string)
    ensures Join(parts + [last], "") == Join(parts, "") + last
  {
    assert (parts + [last])[..|parts|] == parts;
  }

  lemma Associates(a: string, b: string, c: string)
    ensures a + (b + c) == (a + b) + c
  {
  }

  lemma JoinLonger(front: seq<string>, last: string, c: char)
    ensures Join(front + [last + [c]], "") == Join(front + [last], "") + [c]
  {
    JoinLast(front, last);
    JoinLast(front, last + [c]);
    Associates(Join(front, ""), last, [c]);
  }

  lemma {:induction false} CutConserves(text: string)
    ensures Join(CutSentences(text), "") == text
  {
    if text != "" {
      var cut, c := CutSentences(text[..|text| - 1]), text[|text| - 1];
      CutConserves(text[..|text| - 1]);
      JoinLonger(cut[..|cut| - 1], cut[|cut| - 1], c);
      assert cut == cut[..|cut| - 1] + [cut[|cut| - 1]];
      var longer := cut[..|cut| - 1] + [cut[|cut| - 1] + [c]];
      assert Join(longer, "") == text;
      if IsTerminator(c) {
        JoinLast(longer, "");
        assert CutSentences(text) == longer + [""];
      } else {
        assert CutSentences(text) == longer + [] == longer;
      }
    }
  }

  /** The windows of a block: their new sentences, one after the other, are the sentences of the
      block, which show what the block shows. */
  lemma WindowsCoverBlock(text: string, max: int, overlap: int)
    ensures var sentences := Sentences(text);
      && NewItems(sentences, AllSpans(sentences, max, overlap), 0) == sentences
      && Visible(Join(sentences, "")) == Visible(text)
  {
    var sentences := Sentences(text);
    NewItemsAreAll(sentences, 0, 0, max, overlap);
    assert sentences[0..] == sentences;
    CutConserves(text);
    VisibleJoin(sentences, "");
    VisibleNonBlank(CutSentences(text));
    VisibleJoin(CutSentences(text), "");
  }

  lemma {:induction false} JoinWithin(items: seq<string>, from: nat, to: nat)
    requires from <= to <= |items| && forall i :: from <= i < to ==> items[i] != ""
    ensures |Join(items[from..to], "")| <= 2 * Tokens(items, from, to)
  {
    if from < to {
      JoinWithin(items, from, to - 1);
      EstimateBounds(items[to - 1]);
      JoinLast(items[from..to - 1], items[to - 1]);
      assert items[from..to] == items[from..to - 1] + [items[to - 1]];
    }
  }

  lemma StripIsShorter(s: string)
    ensures |Strip(s)| <= |s|
  {
    var pre, post := StripCutsWhitespaceEnds(s);
  }

  /** Every child of a text that is not blank is not empty, and at most twice as long as its bound in
      tokens: the child budget, or what is carried over and one sentence. */
  lemma ChildrenAreBounded(text: string, max: int, overlap: int, k: nat)
    requires Strip(text) != "" && k < |Children(text, max, overlap)|
    ensures Children(text, max, overlap)[k] != ""
    ensures |Children(text, max, overlap)[k]|
         <= 2 * if EstimateTokens(text) <= max then max else Bound(Sentences(text), max, overlap)
  {
    if EstimateTokens(text) <= max {
      EstimateBounds(text);
    } else {
      WindowIsBounded(text, max, overlap, k);
    }
  }

  lemma WindowIsBounded(text: string, max: int, overlap: int, k: nat)
    requires k < |WindowTexts(Sentences(text), AllSpans(Sentences(text), max, overlap))|
    ensures var windows := WindowTexts(Sentences(text), AllSpans(Sentences(text), max, overlap));
      windows[k] != "" && |windows[k]| <= 2 * Bound(Sentences(text), max, overlap)
  {
    var sentences, spans := Sentences(text), AllSpans(Sentences(text), max, overlap);
    WindowCount(sentences, spans);
    WindowTextAt(sentences, spans, k);
    SpanWithinBound(sentences, max, overlap, k);
    var s := spans[k];
    forall i | s.from <= i < s.to
      ensures sentences[i] != ""
    {
      NonBlankParts(CutSentences(text), i);
    }
    JoinWithin(sentences, s.from, s.to);
    StripIsShorter(Join(sentences[s.from..s.to], ""));
    NoWindowIsEmpty(text, max, overlap);
  }

  /** A text that is not blank has at least one child. */
  lemma SomeChild(text: string, max: int, overlap: int)
    requires Strip(text) != ""
    ensures Children(text, max, overlap) != []
  {
    if EstimateTokens(text) > max {
      var sentences, spans := Sentences(text), AllSpans(Sentences(text), max, overlap);
      WindowsCoverBlock(text, max, overlap);
      VisibleIsNotBlank(text);
      WindowCount(sentences, spans);
    }
  }

  // ---------------------------------------------------------------- where texts are cut

  /** Sentences end at terminators and only there: every piece but the last ends with its only
      terminator, and the last one has none. */
  lemma {:induction false} SentencesEndAtTerminators(text: string, k: nat, i: nat)
    requires k < |CutSentences(text)| && i < |CutSentences(text)[k]|
    ensures CutSentences(text)[k][i] in "。！？.!?\n"
      <==> k < |CutSentences(text)| - 1 && i == |CutSentences(text)[k]| - 1
  {
    if text != "" {
      var cut, c := CutSentences(text[..|text| - 1]), text[|text| - 1];
      if k < |cut| - 1 {
        SentencesEndAtTerminators(text[..|text| - 1], k, i);
      } else if k == |cut| - 1 && i < |cut[k]| {
        SentencesEndAtTerminators(text[..|text| - 1], k, i);
      }
    }
  }

  /** A separator: whitespace from one line break to another one. */
  predicate GapAt(text: string, at: nat, next: nat) {
    at + 2 <= next <= |text| && text[at] == '\n' && text[next - 1] == '\n' && IsBlank(text[at..next])
  }

  /** The longest separator that starts at `at`. */
  ghost predicate LongestGapAt(text: string, at: nat, next: nat) {
    GapAt(text, at, next) && forall j: nat :: GapAt(text, at, j) ==> j <= next
  }

  ghost predicate NoGapStarts(text: string, start: nat, end: nat) {
    forall i: nat, j: nat :: start <= i < end ==> !GapAt(text, i, j)
  }

  lemma {:induction false} LastBreakBeyond(text: string, at: nat, found: Option<nat>)
    requires at <= |text| && found.Some? && found.value < at
    ensures LastBreak(text, at, found).Some? && LastBreak(text, at, found).value >= found.value
    decreases |text| - at
  {
    if at < |text| && IsSpace(text[at]) {
      LastBreakBeyond(text, at + 1, if text[at] == '\n' then Some(at) else found);
    }
  }

  /** No line break that whitespace leads to lies behind the last one. */
  lemma {:induction false} LastBreakIsLast(text: string, at: nat, j: nat, found: Option<nat>)
    requires at <= j < |text| && text[j] == '\n' && IsBlank(text[at..j])
    ensures LastBreak(text, at, found).Some? && LastBreak(text, at, found).value >= j
    decreases j - at
  {
    if at == j {
      LastBreakBeyond(text, at + 1, Some(at));
    } else {
      assert text[at..j][0] == text[at];
      assert text[at + 1..j] == text[at..j][1..];
      LastBreakIsLast(text, at + 1, j, if text[at] == '\n' then Some(at) else found);
    }
  }

  lemma GapInner(text: string, at: nat, j: nat)
    requires GapAt(text, at, j)
    ensures IsBlank(text[at + 1..j - 1])
  {
    var gap, inner := text[at..j], text[at + 1..j - 1];
    assert forall k :: 0 <= k < |inner| ==> inner[k] == gap[k + 1];
  }

  lemma NoGapFound(text: string, at: nat)
    requires at < |text| && (text[at] == '\n' ==> LastBreak(text, at + 1, None).None?)
    ensures NoGapStarts(text, at, at + 1)
  {
    forall j: nat | GapAt(text, at, j)
      ensures false
    {
      GapInner(text, at, j);
      LastBreakIsLast(text, at + 1, j - 1, None);
    }
  }

  /** `pieces` are text[start..] cut at its separators: a piece goes on until a separator starts, the
      next piece starts behind the longest separator there, and no separator starts in the last piece. */
  ghost predicate IsCut(text: string, start: nat, pieces: seq<string>)
    requires start <= |text|
    decreases |pieces|
  {
    pieces != []
    && if |pieces| == 1 then pieces[0] == text[start..] && NoGapStarts(text, start, |text|)
       else
         var at := start + |pieces[0]|;
         at <= |text| && pieces[0] == text[start..at] && NoGapStarts(text, start, at)
         && exists next: nat :: LongestGapAt(text, at, next) && IsCut(text, next, pieces[1..])
  }

  lemma GapFound(text: string, at: nat)
    requires at < |text| && text[at] == '\n' && LastBreak(text, at + 1, None).Some?
    ensures LongestGapAt(text, at, LastBreak(text, at + 1, None).value + 1)
  {
    LastBreakShape(text, at + 1, at + 1, None);
    var next := LastBreak(text, at + 1, None).value + 1;
    LastBreakIsBreak(text, at + 1, None);
    assert text[at..next] == [text[at]] + text[at + 1..next];
    forall j: nat | GapAt(text, at, j)
      ensures j <= next
    {
      GapInner(text, at, j);
      LastBreakIsLast(text, at + 1, j - 1, None);
    }
  }

  lemma CutAtGap(text: string, start: nat, at: nat, next: nat, rest: seq<string>)
    requires start <= at <= |text| && NoGapStarts(text, start, at) && LongestGapAt(text, at, next)
    requires next <= |text| && IsCut(text, next, rest)
    ensures IsCut(text, start, [text[start..at]] + rest)
  {
    var pieces := [text[start..at]] + rest;
    assert pieces[1..] == rest && |text[start..at]| == at - start;
  }

  lemma OnePieceIff(text: string, start: nat, pieces: seq<string>)
    requires start <= |text|
    ensures IsCut(text, start, pieces) ==> (|pieces| == 1 <==> NoGapStarts(text, start, |text|))
  {
    if IsCut(text, start, pieces) && |pieces| > 1 {
      var at := start + |pieces[0]|;
      var next: nat :| LongestGapAt(text, at, next) && IsCut(text, next, pieces[1..]);
      assert GapAt(text, at, next);
    }
  }

  /** The first piece, the separator behind it, and the rest. */
  lemma FirstPiece(text: string, start: nat, pieces: seq<string>) returns (at: nat, next: nat)
    requires start <= |text| && IsCut(text, start, pieces) && |pieces| > 1
    ensures start <= at <= |text| && next <= |text| && pieces[0] == text[start..at] && NoGapStarts(text, start, at)
    ensures LongestGapAt(text, at, next) && IsCut(text, next, pieces[1..])
  {
    at := start + |pieces[0]|;
    next :| LongestGapAt(text, at, next) && IsCut(text, next, pieces[1..]);
  }

  lemma FirstGapIsUnique(text: string, start: nat, x: nat, next: nat, y: nat, other: nat)
    requires start <= x && NoGapStarts(text, start, x) && LongestGapAt(text, x, next)
    requires start <= y && NoGapStarts(text, start, y) && LongestGapAt(text, y, other)
    ensures x == y && next == other
  {
    assert GapAt(text, x, next) && GapAt(text, y, other);
  }

  /** There is only one way to cut a text like this. */
  lemma {:induction false} CutIsUnique(text: string, start: nat, a: seq<string>, b: seq<string>)
    requires start <= |text| && IsCut(text, start, a) && IsCut(text, start, b)
    ensures a == b
    decreases |a|
  {
    OnePieceIff(text, start, a);
    OnePieceIff(text, start, b);
    if |a| == 1 {
      SinglePiece(text, start, a);
      SinglePiece(text, start, b);
    } else {
      hide NoGapStarts, LongestGapAt;
      var x, next := FirstPiece(text, start, a);
      var y, other := FirstPiece(text, start, b);
      FirstGapIsUnique(text, start, x, next, y, other);
      CutIsUnique(text, next, a[1..], b[1..]);
      assert a == [a[0]] + a[1..] && b == [b[0]] + b[1..];
    }
  }

  lemma SinglePiece(text: string, start: nat, pieces: seq<string>)
    requires start <= |text| && IsCut(text, start, pieces) && |pieces| == 1
    ensures pieces == [text[start..]]
  {
  }

  /** The paragraphs are what lies between blank lines. */
  lemma {:induction false} BlankLinesSeparate(text: string, start: nat, at: nat)
    requires start <= at <= |text| && NoGapStarts(text, start, at)
    ensures IsCut(text, start, BetweenBlankLines(text, start, at))
    decreases |text| - at
  {
    if at < |text| {
      LastBreakShape(text, at + 1, at + 1, None);
      var last := LastBreak(text, at + 1, None);
      if text[at] == '\n' && last.Some? {
        var next := last.value + 1;
        GapFound(text, at);
        BlankLinesSeparate(text, next, next);
        CutAtGap(text, start, at, next, BetweenBlankLines(text, next, next));
      } else {
        NoGapFound(text, at);
        BlankLinesSeparate(text, start, at + 1);
      }
    }
  }

  lemma {:induction false} LastBreakIsBreak(text: string, at: nat, found: Option<nat>)
    requires at <= |text| && (found.Some? ==> found.value < at && text[found.value] == '\n')
    ensures var r := LastBreak(text, at, found); r.Some? ==> r.value < |text| && text[r.value] == '\n'
    decreases |text| - at
  {
    if at < |text| && IsSpace(text[at]) {
      LastBreakIsBreak(text, at + 1, if text[at] == '\n' then Some(at) else found);
    }
  }
}
