// Cutting a document into parent blocks and child windows: ingestion/chunker.py from
// `_pack_paragraphs` on.
module Chunker {
  import opened Entities
  import opened Text
  import opened VisibleText
  import opened Spans

  // ---------------------------------------------------------------- paragraphs and sentences

  /** The last line break from `at` on that is reached over whitespace only. */
  function LastBreak(text: string, at: nat, found: Option<nat>): Option<nat>
    requires at <= |text|
    decreases |text| - at
  {
    if at == |text| || !IsSpace(text[at]) then found
    else LastBreak(text, at + 1, if text[at] == '\n' then Some(at) else found)
  }

  lemma {:induction false} LastBreakShape(text: string, from: nat, at: nat, found: Option<nat>)
    requires from <= at <= |text| && IsBlank(text[from..at])
    requires found.Some? ==> from <= found.value < at
    ensures var r := LastBreak(text, at, found);
      r.Some? ==> from <= r.value < |text| && IsBlank(text[from..r.value + 1])
    decreases |text| - at
  {
    if at < |text| && IsSpace(text[at]) {
      assert text[from..at + 1] == text[from..at] + [text[at]];
      LastBreakShape(text, from, at + 1, if text[at] == '\n' then Some(at) else found);
    } else if found.Some? {
      assert text[from..found.value + 1] == text[from..at][..found.value + 1 - from];
    }
  }

  /** The pieces of text[start..] between blank lines, when no separator starts in start..at. A
      separator is a line break, whitespace, and a line break, as long as possible. */
  function BetweenBlankLines(text: string, start: nat, at: nat): seq<string>
    requires start <= at <= |text|
    decreases |text| - at
  {
    if at == |text| then [text[start..]]
    else if text[at] != '\n' then BetweenBlankLines(text, start, at + 1)
    else
      LastBreakShape(text, at + 1, at + 1, None);
      var last := LastBreak(text, at + 1, None);
      if last.None? then BetweenBlankLines(text, start, at + 1)
      else [text[start..at]] + BetweenBlankLines(text, last.value + 1, last.value + 1)
  }

  function StripAll(parts: seq<string>): seq<string> {
    if parts == [] then [] else StripAll(parts[..|parts| - 1]) + [Strip(parts[|parts| - 1])]
  }

  function Paragraphs(text: string): seq<string> {
    StripAll(NonBlank(BetweenBlankLines(text, 0, 0)))
  }

  /** The characters that end a sentence. */
  predicate IsTerminator(c: char) {
    c == '\U{3002}' || c == '\U{ff01}' || c == '\U{ff1f}' || c == '.' || c == '!' || c == '?' || c == '\n'
  }

  /** The text cut after every terminator. */
  function CutSentences(text: string): (r: seq<string>)
    ensures r != []
  {
    if text == "" then [""]
    else
      var cut, c := CutSentences(text[..|text| - 1]), text[|text| - 1];
      cut[..|cut| - 1] + [cut[|cut| - 1] + [c]] + if IsTerminator(c) then [""] else []
  }

  function Sentences(text: string): seq<string> {
    NonBlank(CutSentences(text))
  }

  // ---------------------------------------------------------------- blocks and windows

  function TextOf(items: seq<string>, s: Span, separator: string): string {
    if s.from <= s.to <= |items| then Join(items[s.from..s.to], separator) else ""
  }

  function BlockTexts(paragraphs: seq<string>, spans: seq<Span>): seq<string> {
    if spans == [] then []
    else BlockTexts(paragraphs, spans[..|spans| - 1]) + [TextOf(paragraphs, spans[|spans| - 1], "\n\n")]
  }

  /** `_pack_paragraphs` */
  function Blocks(text: string, max: int): seq<string> {
    BlockTexts(Paragraphs(text), AllSpans(Paragraphs(text), max, 0))
  }

  function WindowText(sentences: seq<string>, s: Span): string {
    Strip(TextOf(sentences, s, ""))
  }

  function WindowTexts(sentences: seq<string>, spans: seq<Span>): seq<string> {
    if spans == [] then []
    else WindowTexts(sentences, spans[..|spans| - 1]) + [WindowText(sentences, spans[|spans| - 1])]
  }

  /** `_split_child`: no window is empty, so none is dropped. */
  function Children(text: string, max: int, overlap: int): seq<string> {
    if EstimateTokens(text) <= max then [text]
    else WindowTexts(Sentences(text), AllSpans(Sentences(text), max, overlap))
  }

  // ---------------------------------------------------------------- texts of spans

  lemma {:induction false} WindowTextAt(sentences: seq<string>, spans: seq<Span>, k: nat)
    requires k < |spans| == |WindowTexts(sentences, spans)|
    ensures WindowTexts(sentences, spans)[k] == WindowText(sentences, spans[k])
  {
    WindowCount(sentences, spans[..|spans| - 1]);
    if k < |spans| - 1 {
      WindowTextAt(sentences, spans[..|spans| - 1], k);
    }
  }

  lemma {:induction false} WindowCount(sentences: seq<string>, spans: seq<Span>)
    ensures |WindowTexts(sentences, spans)| == |spans|
  {
    if spans != [] {
      WindowCount(sentences, spans[..|spans| - 1]);
    }
  }

  lemma SomethingVisible(parts: seq<string>, separator: string)
    requires parts != [] && IsBlank(separator) && Strip(parts[0]) != ""
    ensures Strip(Join(parts, separator)) != ""
  {
    VisibleJoin(parts, separator);
    VisibleIsNotBlank(parts[0]);
    VisibleIsNotBlank(Join(parts, separator));
    assert parts == [parts[0]] + parts[1..];
    VisibleAllConcat([parts[0]], parts[1..]);
    assert VisibleAll([parts[0]]) == VisibleAll([]) + Visible(parts[0]) by {
      assert [parts[0]][..0] == [];
    }
  }

  /** The filter at the end of the child splitter drops nothing. */
  lemma NoWindowIsEmpty(text: string, max: int, overlap: int)
    ensures var windows := WindowTexts(Sentences(text), AllSpans(Sentences(text), max, overlap));
      forall k :: 0 <= k < |windows| ==> windows[k] != ""
  {
    var sentences, spans := Sentences(text), AllSpans(Sentences(text), max, overlap);
    var windows := WindowTexts(sentences, spans);
    WindowCount(sentences, spans);
    forall k | 0 <= k < |windows|
      ensures windows[k] != ""
    {
      WindowTextAt(sentences, spans, k);
      SpanWithinBound(sentences, max, overlap, k);
      NonBlankParts(CutSentences(text), spans[k].from);
      SomethingVisible(sentences[spans[k].from..spans[k].to], "");
    }
  }

  // ---------------------------------------------------------------- the loops

  lemma StripAllAppend(parts: seq<string>, p: string)
    ensures StripAll(parts + [p]) == StripAll(parts) + [Strip(p)]
  {
    assert (parts + [p])[..|parts|] == parts;
  }

  lemma ParagraphStep(pieces: seq<string>, i: nat)
    requires i < |pieces|
    ensures StripAll(NonBlank(pieces[..i + 1]))
         == StripAll(NonBlank(pieces[..i])) + if Strip(pieces[i]) != "" then [Strip(pieces[i])] else []
  {
    assert pieces[..i + 1][..i] == pieces[..i];
    if Strip(pieces[i]) != "" {
      StripAllAppend(NonBlank(pieces[..i]), pieces[i]);
    } else {
      assert NonBlank(pieces[..i + 1]) == NonBlank(pieces[..i]);
    }
  }

  /** The paragraphs of a text: stripped, without the blank ones. */
  method ReadParagraphs(pieces: seq<string>) returns (paragraphs: seq<string>)
    ensures paragraphs == StripAll(NonBlank(pieces))
  {
    paragraphs := [];
    for i := 0 to |pieces|
      invariant paragraphs == StripAll(NonBlank(pieces[..i]))
    {
      ParagraphStep(pieces, i);
      var p := Strip(pieces[i]);
      if p != "" {
        paragraphs := paragraphs + [p];
      }
    }
    assert pieces[..|pieces|] == pieces;
  }

  /** What the open span has taken. */
  predicate Holding(items: seq<string>, from: nat, i: nat, buf: seq<string>, bufTokens: int) {
    from <= i <= |items| && buf == items[from..i] && bufTokens == Tokens(items, from, i)
  }

  lemma HoldMore(items: seq<string>, from: nat, i: nat, buf: seq<string>, bufTokens: int)
    requires Holding(items, from, i, buf, bufTokens) && i < |items|
    ensures Holding(items, from, i + 1, buf + [items[i]], bufTokens + EstimateTokens(items[i]))
  {
  }

  lemma HoldEarlier(items: seq<string>, f: nat, to: nat, buf: seq<string>, bufTokens: int)
    requires Holding(items, f, to, buf, bufTokens) && f > 0
    ensures Holding(items, f - 1, to, [items[f - 1]] + buf, bufTokens + EstimateTokens(items[f - 1]))
  {
    TokensSplit(items, f - 1, f, to);
    assert Tokens(items, f - 1, f) == EstimateTokens(items[f - 1]);
  }

  /** The state of a greedy loop before item i: it has the items of span k before i in its buffer. */
  predicate InSpan(items: seq<string>, spans: seq<Span>, k: nat, i: nat, buf: seq<string>, bufTokens: int) {
    if i == 0 then k == 0 && buf == [] && bufTokens == 0
    else k < |spans| && NewFrom(spans, 0, k) < i <= spans[k].to && Holding(items, spans[k].from, i, buf, bufTokens)
  }

  /** The loop closes its buffer exactly at the end of a span. */
  lemma ClosesAtEnd(items: seq<string>, spans: seq<Span>, max: int, overlap: int, k: nat, i: nat, buf: seq<string>,
                    bufTokens: int)
    requires SpansOk(items, spans, 0, 0, max, overlap) && InSpan(items, spans, k, i, buf, bufTokens) && i < |items|
    ensures buf != [] && bufTokens + EstimateTokens(items[i]) > max <==> i > 0 && i == spans[k].to
  {
    if i > 0 {
      assert SpanOk(items, spans, k, 0, 0, max, overlap);
    }
  }

  lemma TakesItem(items: seq<string>, spans: seq<Span>, max: int, overlap: int, k: nat, i: nat, buf: seq<string>,
                  bufTokens: int)
    requires SpansOk(items, spans, 0, 0, max, overlap) && InSpan(items, spans, k, i, buf, bufTokens) && i < |items|
    requires i > 0 ==> i < spans[k].to
    ensures InSpan(items, spans, k, i + 1, buf + [items[i]], bufTokens + EstimateTokens(items[i]))
  {
    assert SpanOk(items, spans, k, 0, 0, max, overlap);
    HoldMore(items, spans[k].from, i, buf, bufTokens);
  }

  /** The tail within the overlap budget is where the next span starts. */
  lemma NextSpanStarts(items: seq<string>, spans: seq<Span>, max: int, overlap: int, k: nat, i: nat, f: nat,
                       carried: seq<string>, carriedTokens: int)
    requires SpansOk(items, spans, 0, 0, max, overlap) && k < |spans| && 0 < i < |items| && i == spans[k].to
    requires spans[k].from <= f <= i && IsLongestTail(items, spans[k].from, f, i, overlap)
    requires Holding(items, f, i, carried, carriedTokens)
    ensures k + 1 < |spans|
    ensures InSpan(items, spans, k + 1, i + 1, carried + [items[i]], carriedTokens + EstimateTokens(items[i]))
  {
    assert k + 1 < |spans|;
    assert SpanOk(items, spans, k + 1, 0, 0, max, overlap);
    LongestTailIsUnique(items, spans[k].from, f, spans[k + 1].from, i, overlap);
    HoldMore(items, f, i, carried, carriedTokens);
  }

  lemma LongestTailIsUnique(items: seq<string>, from: nat, f: nat, g: nat, to: nat, overlap: int)
    requires from <= f <= to <= |items| && from <= g <= to
    requires IsLongestTail(items, from, f, to, overlap) && IsLongestTail(items, from, g, to, overlap)
    ensures f == g
  {
  }

  lemma NothingFits(items: seq<string>, from: nat, to: nat)
    requires from <= to <= |items|
    ensures IsLongestTail(items, from, to, to, 0) && Holding(items, to, to, [], 0)
  {
    forall g | from <= g < to
      ensures Tokens(items, g, to) > 0
    {
      TokensSplit(items, g, g + 1, to);
    }
  }

  lemma SpansNeedItems(items: seq<string>, spans: seq<Span>, max: int, overlap: int)
    requires SpansOk(items, spans, 0, 0, max, overlap) && spans != []
    ensures items != []
  {
    assert SpanOk(items, spans, 0, 0, 0, max, overlap);
  }

  /** After the last item the buffer holds the last span. */
  lemma LastSpan(items: seq<string>, spans: seq<Span>, max: int, overlap: int, k: nat, buf: seq<string>, bufTokens: int)
    requires SpansOk(items, spans, 0, 0, max, overlap) && InSpan(items, spans, k, |items|, buf, bufTokens)
    ensures if items == [] then spans == [] && k == 0 && buf == []
            else k == |spans| - 1 && spans[k].to == |items| && buf == items[spans[k].from..spans[k].to] && buf != []
  {
    if items == [] {
      if spans != [] {
        SpansNeedItems(items, spans, max, overlap);
      }
    } else {
      assert SpanOk(items, spans, k, 0, 0, max, overlap);
      assert k + 1 < |spans| ==> SpanOk(items, spans, k + 1, 0, 0, max, overlap);
    }
  }

  method AddBlock(blocks: seq<string>, buf: seq<string>, ghost items: seq<string>, ghost spans: seq<Span>, ghost k: nat)
    returns (r: seq<string>)
    requires k < |spans| && blocks == BlockTexts(items, spans[..k])
    requires spans[k].from <= spans[k].to <= |items| && buf == items[spans[k].from..spans[k].to]
    ensures r == BlockTexts(items, spans[..k + 1])
  {
    r := blocks + [Join(buf, "\n\n")];
    assert spans[..k + 1][..k] == spans[..k];
  }

  /** `spans` describes the result: the loop is proved to follow any spans that are right. */
  method Pack(paragraphs: seq<string>, maxTokens: int, ghost spans: seq<Span>) returns (blocks: seq<string>)
    requires SpansOk(paragraphs, spans, 0, 0, maxTokens, 0)
    ensures blocks == BlockTexts(paragraphs, spans)
  {
    blocks := [];
    var buf: seq<string> := [];
    var bufTokens := 0;
    ghost var k: nat := 0;
    for i := 0 to |paragraphs|
      invariant k <= |spans| && InSpan(paragraphs, spans, k, i, buf, bufTokens)
      invariant blocks == BlockTexts(paragraphs, spans[..k])
    {
      var paraTokens := EstimateTokens(paragraphs[i]);
      ClosesAtEnd(paragraphs, spans, maxTokens, 0, k, i, buf, bufTokens);
      if buf != [] && bufTokens + paraTokens > maxTokens {
        blocks := AddBlock(blocks, buf, paragraphs, spans, k);
        buf, bufTokens := [], 0;
        NothingFits(paragraphs, spans[k].from, i);
        NextSpanStarts(paragraphs, spans, maxTokens, 0, k, i, i, buf, bufTokens);
        k := k + 1;
      } else {
        TakesItem(paragraphs, spans, maxTokens, 0, k, i, buf, bufTokens);
      }
      buf := buf + [paragraphs[i]];
      bufTokens := bufTokens + paraTokens;
    }
    LastSpan(paragraphs, spans, maxTokens, 0, k, buf, bufTokens);
    if buf != [] {
      blocks := AddBlock(blocks, buf, paragraphs, spans, k);
      assert spans[..k + 1] == spans;
    }
  }

  method PackParagraphs(text: string, maxTokens: int) returns (blocks: seq<string>)
    ensures blocks == Blocks(text, maxTokens)
  {
    var paragraphs := ReadParagraphs(BetweenBlankLines(text, 0, 0));
    SpansAreOk(paragraphs, 0, 0, maxTokens, 0);
    blocks := Pack(paragraphs, maxTokens, AllSpans(paragraphs, maxTokens, 0));
  }

  /** The inner loop of the child splitter: the longest tail of `buf` within the overlap budget. */
  method TailWithin(buf: seq<string>, overlapTokens: int) returns (overlap: seq<string>, otoks: nat)
    ensures |overlap| <= |buf| && overlap == buf[|buf| - |overlap|..]
    ensures otoks == Tokens(buf, |buf| - |overlap|, |buf|)
    ensures IsLongestTail(buf, 0, |buf| - |overlap|, |buf|, overlapTokens)
  {
    overlap, otoks := [], 0;
    var k: nat := |buf|;
    while k > 0
      invariant k == |buf| - |overlap| && Holding(buf, k, |buf|, overlap, otoks)
      invariant k < |buf| ==> otoks <= overlapTokens
    {
      var prev := buf[k - 1];
      var ptoks := EstimateTokens(prev);
      if otoks + ptoks > overlapTokens {
        TooLong(buf, 0, k, |buf|, overlapTokens);
        return;
      }
      HoldEarlier(buf, k, |buf|, overlap, otoks);
      overlap := [prev] + overlap;
      otoks := otoks + ptoks;
      k := k - 1;
    }
  }

  lemma TooLong(items: seq<string>, from: nat, f: nat, to: nat, overlap: int)
    requires from < f <= to <= |items| && Tokens(items, f, to) + EstimateTokens(items[f - 1]) > overlap
    requires f < to ==> Tokens(items, f, to) <= overlap
    ensures IsLongestTail(items, from, f, to, overlap)
  {
    forall g | from <= g < f
      ensures Tokens(items, g, to) > overlap
    {
      TokensSplit(items, g, f, to);
      assert Tokens(items, g, f) == Tokens(items, g, f - 1) + EstimateTokens(items[f - 1]);
    }
  }

  lemma {:induction false} TokensOfSlice(items: seq<string>, from: nat, buf: seq<string>, a: nat, b: nat)
    requires a <= b <= |buf| && from + |buf| <= |items| && buf == items[from..from + |buf|]
    ensures Tokens(buf, a, b) == Tokens(items, from + a, from + b)
  {
    if a < b {
      TokensOfSlice(items, from, buf, a, b - 1);
    }
  }

  lemma TailOfSlice<T>(items: seq<T>, from: nat, to: nat, f: nat)
    requires from + f <= to <= |items|
    ensures items[from..to][f..] == items[from + f..to]
  {
  }

  /** The tail of the buffer, seen in the list of all items. */
  lemma TailIsHeld(items: seq<string>, from: nat, to: nat, f: nat)
    requires from + f <= to <= |items|
    ensures Holding(items, from + f, to, items[from..to][f..], Tokens(items[from..to], f, to - from))
  {
    TokensOfSlice(items, from, items[from..to], f, to - from);
    TailOfSlice(items, from, to, f);
  }

  lemma TailIsLongest(items: seq<string>, from: nat, to: nat, buf: seq<string>, f: nat, budget: int)
    requires from <= to <= |items| && buf == items[from..to] && f <= |buf| && IsLongestTail(buf, 0, f, |buf|, budget)
    ensures IsLongestTail(items, from, from + f, to, budget)
  {
    TokensOfSlice(items, from, buf, f, |buf|);
    forall g | from <= g < from + f
      ensures Tokens(items, g, to) > budget
    {
      TokensOfSlice(items, from, buf, g - from, |buf|);
      assert Tokens(buf, g - from, |buf|) > budget;
    }
  }

  method AddWindow(children: seq<string>, buf: seq<string>, ghost items: seq<string>, ghost spans: seq<Span>,
                   ghost k: nat)
    returns (r: seq<string>)
    requires k < |spans| && children == WindowTexts(items, spans[..k])
    requires spans[k].from <= spans[k].to <= |items| && buf == items[spans[k].from..spans[k].to]
    ensures r == WindowTexts(items, spans[..k + 1])
  {
    r := children + [Strip(Join(buf, ""))];
    assert spans[..k + 1][..k] == spans[..k];
  }

  /** The buffer after a window is closed: the tail within the overlap budget. */
  method StartNext(buf: seq<string>, overlapTokens: int,
                   ghost items: seq<string>, ghost spans: seq<Span>, ghost max: int, ghost k: nat, ghost i: nat,
                   ghost bufTokens: int)
    returns (carried: seq<string>, carriedTokens: nat)
    requires SpansOk(items, spans, 0, 0, max, overlapTokens) && InSpan(items, spans, k, i, buf, bufTokens)
    requires 0 < i < |items| && i == spans[k].to
    ensures k + 1 < |spans|
    ensures InSpan(items, spans, k + 1, i + 1, carried + [items[i]], carriedTokens + EstimateTokens(items[i]))
  {
    carried, carriedTokens := TailWithin(buf, overlapTokens);
    TailIsHeld(items, spans[k].from, i, |buf| - |carried|);
    TailIsLongest(items, spans[k].from, i, buf, |buf| - |carried|, overlapTokens);
    NextSpanStarts(items, spans, max, overlapTokens, k, i, i - |carried|, carried, carriedTokens);
  }

  /** What happens when the next sentence does not fit. */
  method CloseWindow(children: seq<string>, buf: seq<string>, overlapTokens: int,
                     ghost items: seq<string>, ghost spans: seq<Span>, ghost max: int, ghost k: nat, ghost i: nat,
                     ghost bufTokens: int)
    returns (r: seq<string>, carried: seq<string>, carriedTokens: nat)
    requires SpansOk(items, spans, 0, 0, max, overlapTokens) && InSpan(items, spans, k, i, buf, bufTokens)
    requires 0 < i < |items| && i == spans[k].to && children == WindowTexts(items, spans[..k])
    ensures k + 1 < |spans| && r == WindowTexts(items, spans[..k + 1])
    ensures InSpan(items, spans, k + 1, i + 1, carried + [items[i]], carriedTokens + EstimateTokens(items[i]))
  {
    r := AddWindow(children, buf, items, spans, k);
    carried, carriedTokens := StartNext(buf, overlapTokens, items, spans, max, k, i, bufTokens);
  }

  /** What happens behind the last sentence. */
  method CloseLast(children: seq<string>, buf: seq<string>,
                   ghost items: seq<string>, ghost spans: seq<Span>, ghost max: int, ghost overlap: int, ghost k: nat,
                   ghost bufTokens: int)
    returns (r: seq<string>)
    requires SpansOk(items, spans, 0, 0, max, overlap) && k <= |spans|
    requires InSpan(items, spans, k, |items|, buf, bufTokens)
    requires children == WindowTexts(items, spans[..k])
    ensures r == WindowTexts(items, spans)
  {
    LastSpan(items, spans, max, overlap, k, buf, bufTokens);
    r := children;
    if buf != [] {
      r := AddWindow(children, buf, items, spans, k);
      assert spans[..k + 1] == spans;
    }
  }

  method CutWindows(sentences: seq<string>, maxTokens: int, overlapTokens: int, ghost spans: seq<Span>)
    returns (children: seq<string>)
    requires SpansOk(sentences, spans, 0, 0, maxTokens, overlapTokens)
    ensures children == WindowTexts(sentences, spans)
  {
    children := [];
    var buf: seq<string> := [];
    var bufTokens := 0;
    ghost var k: nat := 0;
    for i := 0 to |sentences|
      invariant k <= |spans| && InSpan(sentences, spans, k, i, buf, bufTokens)
      invariant children == WindowTexts(sentences, spans[..k])
    {
      var stoks := EstimateTokens(sentences[i]);
      ClosesAtEnd(sentences, spans, maxTokens, overlapTokens, k, i, buf, bufTokens);
      if buf != [] && bufTokens + stoks > maxTokens {
        children, buf, bufTokens :=
          CloseWindow(children, buf, overlapTokens, sentences, spans, maxTokens, k, i, bufTokens);
        k := k + 1;
      } else {
        TakesItem(sentences, spans, maxTokens, overlapTokens, k, i, buf, bufTokens);
      }
      buf := buf + [sentences[i]];
      bufTokens := bufTokens + stoks;
    }
    children := CloseLast(children, buf, sentences, spans, maxTokens, overlapTokens, k, bufTokens);
  }

  method SplitChild(text: string, maxTokens: int, overlapTokens: int) returns (children: seq<string>)
    ensures children == Children(text, maxTokens, overlapTokens)
  {
    if EstimateTokens(text) <= maxTokens {
      return [text];
    }
    var sentences := Sentences(text);
    SpansAreOk(sentences, 0, 0, maxTokens, overlapTokens);
    children := CutWindows(sentences, maxTokens, overlapTokens, AllSpans(sentences, maxTokens, overlapTokens));
    NoWindowIsEmpty(text, maxTokens, overlapTokens);
    children := DropEmpty(children);
  }

  method DropEmpty(children: seq<string>) returns (r: seq<string>)
    requires forall i :: 0 <= i < |children| ==> children[i] != ""
    ensures r == children
  {
    r := [];
    for i := 0 to |children|
      invariant r == children[..i]
    {
      if children[i] != "" {
        r := r + [children[i]];
      }
    }
  }
}
