// How a document is laid out in its chunks: parents are runs of paragraphs, and children are windows of
// their parent.
module Layout {
  import opened Text
  import opened Spans
  import opened Sections
  import opened Chunker
  import opened Documents
  import opened LineGroups

  // ---------------------------------------------------------------- parents

  /** Where a parent comes from: the paragraphs from..to of a section. */
  datatype Place = Place(section: nat, from: nat, to: nat)

  /** The block is these paragraphs of that section, joined by blank lines, with the path of the
      section: one paragraph, or several within the budget, and one more would not fit. */
  predicate IsBlockAt(sections: seq<Section>, paragraphs: seq<seq<string>>, p: Place, path: string, text: string,
                      max: int)
  {
    && p.section < |sections| == |paragraphs| && p.from < p.to <= |paragraphs[p.section]|
    && var texts := paragraphs[p.section];
      && path == sections[p.section].path && text == Join(texts[p.from..p.to], "\n\n")
      && (p.to == p.from + 1 || Tokens(texts, p.from, p.to) <= max)
      && (p.to < |texts| ==> Tokens(texts, p.from, p.to) + EstimateTokens(texts[p.to]) > max)
  }

  /** The places stand in the order of the document and do not overlap. */
  predicate InOrder(places: seq<Place>) {
    forall i, j :: 0 <= i < j < |places| ==>
      places[i].section < places[j].section
      || (places[i].section == places[j].section && places[i].to <= places[j].from)
  }

  predicate HeldSomewhere(places: seq<Place>, section: nat, paragraph: nat) {
    exists i :: 0 <= i < |places| && places[i].section == section && places[i].from <= paragraph < places[i].to
  }

  /** Every paragraph of every section is in some place. */
  predicate AllHeld(paragraphs: seq<seq<string>>, places: seq<Place>) {
    forall s, p :: 0 <= s < |paragraphs| && 0 <= p < |paragraphs[s]| ==> HeldSomewhere(places, s, p)
  }

  lemma {:induction false} BlockTextsAt(paragraphs: seq<string>, spans: seq<Span>)
    ensures |BlockTexts(paragraphs, spans)| == |spans|
    ensures forall k :: 0 <= k < |spans| ==> BlockTexts(paragraphs, spans)[k] == TextOf(paragraphs, spans[k], "\n\n")
  {
    hide TextOf;
    if spans != [] {
      BlockTextsAt(paragraphs, spans[..|spans| - 1]);
    }
  }

  lemma {:induction false} TaggedAt(path: string, texts: seq<string>)
    ensures |Tagged(path, texts)| == |texts|
    ensures forall k :: 0 <= k < |texts| ==> Tagged(path, texts)[k] == Block(path, texts[k])
  {
    if texts != [] {
      TaggedAt(path, texts[..|texts| - 1]);
    }
  }

  /** Without overlap a span starts where the last one ended. */
  lemma SpansAdjoin(items: seq<string>, max: int, k: nat)
    requires k < |AllSpans(items, max, 0)|
    ensures var spans := AllSpans(items, max, 0);
      && spans[k].from == NewFrom(spans, 0, k) < spans[k].to <= |items|
      && (spans[k].to == spans[k].from + 1 || Tokens(items, spans[k].from, spans[k].to) <= max)
      && (spans[k].to < |items| ==>
        Tokens(items, spans[k].from, spans[k].to) + EstimateTokens(items[spans[k].to]) > max)
  {
    var spans := AllSpans(items, max, 0);
    SpansAreOk(items, 0, 0, max, 0);
    assert SpanOk(items, spans, k, 0, 0, max, 0);
    if k > 0 {
      var s := spans[k - 1];
      NothingFits(items, s.from, s.to);
      LongestTailIsUnique(items, s.from, spans[k].from, s.to, s.to, 0);
    }
    OverBudgetIff(items, max, 0, k);
  }

  /** The spans as places of one section. */
  function PlacesIn(section: nat, spans: seq<Span>): (r: seq<Place>)
    ensures |r| == |spans|
    ensures forall k :: 0 <= k < |r| ==> r[k] == Place(section, spans[k].from, spans[k].to)
  {
    seq(|spans|, k requires 0 <= k < |spans| => Place(section, spans[k].from, spans[k].to))
  }

  lemma {:induction false} SpansRise(items: seq<string>, max: int, j: nat, k: nat)
    requires j < k < |AllSpans(items, max, 0)|
    ensures AllSpans(items, max, 0)[j].to <= AllSpans(items, max, 0)[k].from
  {
    SpansAdjoin(items, max, k);
    if j < k - 1 {
      SpansRise(items, max, j, k - 1);
      SpansAdjoin(items, max, k - 1);
    }
  }

  /** Some span holds each item. */
  lemma {:induction false} SpanHolds(items: seq<string>, max: int, n: nat, p: nat) returns (k: nat)
    requires 0 < n <= |AllSpans(items, max, 0)| && p < AllSpans(items, max, 0)[n - 1].to
    ensures k < n && AllSpans(items, max, 0)[k].from <= p < AllSpans(items, max, 0)[k].to
  {
    SpansAdjoin(items, max, n - 1);
    if p >= AllSpans(items, max, 0)[n - 1].from {
      k := n - 1;
    } else {
      k := SpanHolds(items, max, n - 1, p);
    }
  }

  predicate BlocksAt(sections: seq<Section>, paragraphs: seq<seq<string>>, places: seq<Place>, blocks: seq<Block>,
                     max: int)
  {
    |places| == |blocks| && forall i :: 0 <= i < |blocks| ==>
      IsBlockAt(sections, paragraphs, places[i], blocks[i].path, blocks[i].text, max)
  }

  ghost predicate AllParagraphs(sections: seq<Section>, paragraphs: seq<seq<string>>) {
    |paragraphs| == |sections| && forall s :: 0 <= s < |sections| ==> AreParagraphs(sections[s].lines, paragraphs[s])
  }

  /** The blocks of one section, the last of those given. */
  lemma SectionBlocks(cfg: ChunkingConfig, sections: seq<Section>, paragraphs: seq<seq<string>>)
    requires |sections| == |paragraphs| > 0
    requires var s := sections[|sections| - 1]; paragraphs[|sections| - 1] == Paragraphs(Strip(Join(s.lines, "\n")))
    ensures var n, texts := |sections| - 1, paragraphs[|sections| - 1];
      BlocksAt(sections, paragraphs, PlacesIn(n, AllSpans(texts, cfg.parentMax, 0)), BlocksOf(cfg, sections[n]),
               cfg.parentMax)
  {
    hide Strip, Paragraphs, AllSpans, Join, IsBlockAt, TextOf;
    var n, texts := |sections| - 1, paragraphs[|sections| - 1];
    var spans := AllSpans(texts, cfg.parentMax, 0);
    BlankHasNoSpans(cfg);
    BlockTextsAt(texts, spans);
    TaggedAt(sections[n].path, BlockTexts(texts, spans));
    forall k | 0 <= k < |spans|
      ensures IsBlockAt(sections, paragraphs, Place(n, spans[k].from, spans[k].to), sections[n].path,
                        TextOf(texts, spans[k], "\n\n"), cfg.parentMax)
    {
      SpanIsBlock(sections, paragraphs, n, cfg.parentMax, k);
    }
  }

  lemma SpanIsBlock(sections: seq<Section>, paragraphs: seq<seq<string>>, n: nat, max: int, k: nat)
    requires n < |sections| == |paragraphs| && k < |AllSpans(paragraphs[n], max, 0)|
    ensures var s := AllSpans(paragraphs[n], max, 0)[k];
      IsBlockAt(sections, paragraphs, Place(n, s.from, s.to), sections[n].path, TextOf(paragraphs[n], s, "\n\n"), max)
  {
    hide AllSpans, Join;
    SpansAdjoin(paragraphs[n], max, k);
  }

  lemma BlankHasNoSpans(cfg: ChunkingConfig)
    ensures Paragraphs("") == [] && AllSpans([], cfg.parentMax, 0) == []
  {
    BlankBody([]);
  }

  lemma BlockStaysAt(sections: seq<Section>, paragraphs: seq<seq<string>>, s: Section, texts: seq<string>, p: Place,
                     path: string, text: string, max: int)
    requires IsBlockAt(sections, paragraphs, p, path, text, max)
    ensures IsBlockAt(sections + [s], paragraphs + [texts], p, path, text, max)
  {
    assert (paragraphs + [texts])[p.section] == paragraphs[p.section];
  }

  lemma BlocksAtMore(sections: seq<Section>, paragraphs: seq<seq<string>>, s: Section, texts: seq<string>,
                     before: seq<Place>, a: seq<Block>, more: seq<Place>, b: seq<Block>, max: int)
    requires BlocksAt(sections, paragraphs, before, a, max)
    requires BlocksAt(sections + [s], paragraphs + [texts], more, b, max)
    ensures BlocksAt(sections + [s], paragraphs + [texts], before + more, a + b, max)
  {
    hide IsBlockAt;
    forall i | 0 <= i < |a|
      ensures IsBlockAt(sections + [s], paragraphs + [texts], before[i], a[i].path, a[i].text, max)
    {
      BlockStaysAt(sections, paragraphs, s, texts, before[i], a[i].path, a[i].text, max);
    }
  }

  /** The places of the earlier sections and then those of the last one. */
  lemma PlacesMore(paragraphs: seq<seq<string>>, texts: seq<string>, before: seq<Place>, max: int)
    requires InOrder(before) && AllHeld(paragraphs, before)
    requires forall i :: 0 <= i < |before| ==> before[i].section < |paragraphs|
    ensures var places := before + PlacesIn(|paragraphs|, AllSpans(texts, max, 0));
      InOrder(places) && AllHeld(paragraphs + [texts], places)
  {
    hide AllSpans, PlacesIn;
    var spans := AllSpans(texts, max, 0);
    var n, more := |paragraphs|, PlacesIn(|paragraphs|, spans);
    forall j, k | 0 <= j < k < |spans|
      ensures more[j].to <= more[k].from
    {
      SpansRise(texts, max, j, k);
    }
    forall s, p | 0 <= s < |paragraphs + [texts]| && 0 <= p < |(paragraphs + [texts])[s]|
      ensures HeldSomewhere(before + more, s, p)
    {
      if s < n {
        HeldBefore(before, more, s, p);
      } else {
        HeldInLast(texts, max, n, before, p);
      }
    }
  }

  lemma HeldBefore(before: seq<Place>, more: seq<Place>, section: nat, p: nat)
    requires HeldSomewhere(before, section, p)
    ensures HeldSomewhere(before + more, section, p)
  {
    var i :| 0 <= i < |before| && before[i].section == section && before[i].from <= p < before[i].to;
    assert (before + more)[i] == before[i];
  }

  lemma HeldInLast(texts: seq<string>, max: int, n: nat, before: seq<Place>, p: nat)
    requires p < |texts|
    ensures HeldSomewhere(before + PlacesIn(n, AllSpans(texts, max, 0)), n, p)
  {
    hide AllSpans;
    var spans := AllSpans(texts, max, 0);
    SpansAreOk(texts, 0, 0, max, 0);
    AllSpansEnd(texts, max);
    var k := SpanHolds(texts, max, |spans|, p);
    assert (before + PlacesIn(n, spans))[|before| + k] == Place(n, spans[k].from, spans[k].to);
  }

  lemma AllSpansEnd(texts: seq<string>, max: int)
    requires texts != []
    ensures AllSpans(texts, max, 0) != []
    ensures AllSpans(texts, max, 0)[|AllSpans(texts, max, 0)| - 1].to == |texts|
  {
    SpansAreOk(texts, 0, 0, max, 0);
  }

  /** The blocks of these sections are at these places among their paragraphs. */
  ghost predicate ArePlaced(cfg: ChunkingConfig, sections: seq<Section>, paragraphs: seq<seq<string>>,
                            places: seq<Place>)
  {
    && AllParagraphs(sections, paragraphs) && InOrder(places) && AllHeld(paragraphs, places)
    && BlocksAt(sections, paragraphs, places, AllBlocks(cfg, sections), cfg.parentMax)
    && forall i :: 0 <= i < |places| ==> places[i].section < |sections|
  }

  lemma OneMoreSection(cfg: ChunkingConfig, sections: seq<Section>, s: Section, before: seq<seq<string>>,
                       earlier: seq<Place>)
    returns (paragraphs: seq<seq<string>>, places: seq<Place>)
    requires ArePlaced(cfg, sections, before, earlier) && AreLines(s.lines)
    ensures ArePlaced(cfg, sections + [s], paragraphs, places)
  {
    hide Strip, Join, Paragraphs, AreLines, IsBlockAt, AllSpans, BlocksOf, AreParagraphs, BlocksAt, AllHeld, InOrder;
    var texts := Paragraphs(Strip(Join(s.lines, "\n")));
    var more := PlacesIn(|before|, AllSpans(texts, cfg.parentMax, 0));
    SectionBlocks(cfg, sections + [s], before + [texts]);
    BlocksAtMore(sections, before, s, texts, earlier, AllBlocks(cfg, sections), more, BlocksOf(cfg, s), cfg.parentMax);
    assert (sections + [s])[..|sections|] == sections;
    PlacesMore(before, texts, earlier, cfg.parentMax);
    TextsAreParagraphs(s.lines);
    paragraphs, places := before + [texts], earlier + more;
  }

  /** The blocks of a document. */
  lemma {:induction false} BlocksPlaced(cfg: ChunkingConfig, sections: seq<Section>)
    returns (paragraphs: seq<seq<string>>, places: seq<Place>)
    requires forall s :: 0 <= s < |sections| ==> AreLines(sections[s].lines)
    ensures ArePlaced(cfg, sections, paragraphs, places)
  {
    paragraphs, places := [], [];
    if sections != [] {
      hide AreLines, ArePlaced;
      var n := |sections| - 1;
      var before, earlier := BlocksPlaced(cfg, sections[..n]);
      assert sections == sections[..n] + [sections[n]];
      paragraphs, places := OneMoreSection(cfg, sections[..n], sections[n], before, earlier);
    } else {
      NothingPlaced(cfg);
    }
  }

  lemma NothingPlaced(cfg: ChunkingConfig)
    ensures ArePlaced(cfg, [], [], [])
  {
  }

  lemma TextsAreParagraphs(lines: seq<string>)
    requires AreLines(lines)
    ensures AreParagraphs(lines, Paragraphs(Strip(Join(lines, "\n"))))
  {
    var groups := GroupsExist(lines);
    BodyParagraphs(lines, groups);
  }

  lemma {:induction false} PlainAreLines(lines: seq<Line>, n: nat)
    requires n <= |lines| && forall i :: 0 <= i < |lines| && lines[i].Plain? ==> '\n' !in lines[i].text
    ensures AreLines(PlainLines(lines, n))
  {
    if n > 0 {
      PlainAreLines(lines, n - 1);
    }
  }

  lemma {:induction false} SectionsAreLines(sections: seq<Section>, s: nat)
    requires AreLines(LinesOf(sections)) && s < |sections|
    ensures AreLines(sections[s].lines)
  {
    var front, last := sections[..|sections| - 1], sections[|sections| - 1];
    AreLinesParts(LinesOf(front), last.lines);
    if s < |front| {
      SectionsAreLines(front, s);
    }
  }

  lemma AreLinesParts(a: seq<string>, b: seq<string>)
    requires AreLines(a + b)
    ensures AreLines(a) && AreLines(b)
  {
    assert forall i :: 0 <= i < |a| ==> (a + b)[i] == a[i];
    assert forall i :: 0 <= i < |b| ==> (a + b)[|a| + i] == b[i];
  }

  /** The parents of a document, for a text given as its lines: each is one paragraph of one section, or
      consecutive ones within the budget that leave no room for the next, joined by blank lines; their
      order is that of the document, and every paragraph of every section is in exactly one parent. The
      paragraphs of a section are its maximal runs of lines that are not blank. */
  lemma ParentsAreParagraphs(cfg: ChunkingConfig, version: string, text: seq<string>)
    returns (paragraphs: seq<seq<string>>, places: seq<Place>)
    requires AreLines(text)
    ensures var sections, parents := SectionsOf(ReadLines(text)), Chunks(cfg, version, text);
      && AllParagraphs(sections, paragraphs)
      && |places| == |parents|
      && (forall i :: 0 <= i < |parents| ==>
        parents[i].id == version + ":p" + Decimal(i)
        && IsBlockAt(sections, paragraphs, places[i], parents[i].path, parents[i].text, cfg.parentMax))
      && InOrder(places) && AllHeld(paragraphs, places)
  {
    hide IsBlockAt, AreParagraphs, InOrder, AllHeld;
    var lines := ReadLines(text);
    var sections := SectionsOf(lines);
    SectionsConserveLines(lines);
    PlainAreLines(lines, |lines|);
    forall s | 0 <= s < |sections|
      ensures AreLines(sections[s].lines)
    {
      SectionsAreLines(sections, s);
    }
    paragraphs, places := BlocksPlaced(cfg, sections);
    NumberedAll(cfg, version, AllBlocks(cfg, sections));
  }

  // ---------------------------------------------------------------- children

  /** These consecutive sentences, stripped, within the budget or what is carried over and one sentence. */
  predicate IsWindow(sentences: seq<string>, w: Span, text: string, max: int, overlap: int) {
    && w.from < w.to <= |sentences| && text == Strip(Join(sentences[w.from..w.to], ""))
    && Tokens(sentences, w.from, w.to) <= Bound(sentences, max, overlap)
  }

  function ChildTexts(children: seq<ChildChunk>): (r: seq<string>)
    ensures |r| == |children| && forall j :: 0 <= j < |r| ==> r[j] == children[j].text
  {
    seq(|children|, j requires 0 <= j < |children| => children[j].text)
  }

  /** The texts of the children of this text: the text itself within the budget, and otherwise windows
      of its sentences, each within its bound. */
  predicate AreWindows(text: string, max: int, overlap: int, windows: seq<Span>, texts: seq<string>) {
    if EstimateTokens(text) <= max then texts == [text]
    else
      SpansOk(Sentences(text), windows, 0, 0, max, overlap) && |windows| == |texts|
      && forall j :: 0 <= j < |texts| ==> IsWindow(Sentences(text), windows[j], texts[j], max, overlap)
  }

  lemma WindowsOfText(text: string, max: int, overlap: int) returns (windows: seq<Span>)
    ensures AreWindows(text, max, overlap, windows, Children(text, max, overlap))
  {
    hide IsWindow, Sentences, AllSpans, SpansOk;
    windows := AllSpans(Sentences(text), max, overlap);
    AllSpansOk(Sentences(text), max, overlap);
    WindowCount(Sentences(text), windows);
    forall j | 0 <= j < |windows|
      ensures IsWindow(Sentences(text), windows[j], WindowTexts(Sentences(text), windows)[j], max, overlap)
    {
      WindowIsWindow(Sentences(text), max, overlap, j);
    }
  }

  lemma AllSpansOk(items: seq<string>, max: int, overlap: int)
    ensures SpansOk(items, AllSpans(items, max, overlap), 0, 0, max, overlap)
  {
    SpansAreOk(items, 0, 0, max, overlap);
  }

  lemma WindowIsWindow(sentences: seq<string>, max: int, overlap: int, j: nat)
    requires j < |AllSpans(sentences, max, overlap)|
    ensures var spans := AllSpans(sentences, max, overlap);
      j < |WindowTexts(sentences, spans)|
        && IsWindow(sentences, spans[j], WindowTexts(sentences, spans)[j], max, overlap)
  {
    hide Join, Strip, AllSpans, Bound;
    var spans := AllSpans(sentences, max, overlap);
    WindowCount(sentences, spans);
    SpanWithinBound(sentences, max, overlap, j);
    WindowTextAt(sentences, spans, j);
  }

  lemma ChildrenNumbered(id: string, path: string, texts: seq<string>)
    ensures var children := NumberChildren(id, path, texts);
      |children| == |texts| && forall j :: 0 <= j < |texts| ==>
        children[j] == ChildChunk(id + ":c" + Decimal(j), id, texts[j], path)
  {
    ChildCount(id, path, texts);
    forall j | 0 <= j < |texts|
      ensures NumberChildren(id, path, texts)[j] == ChildChunk(id + ":c" + Decimal(j), id, texts[j], path)
    {
      NumberChildrenAt(id, path, texts, j);
    }
  }

  /** The children of a parent: the parent's own text within the budget, and otherwise the windows of its
      sentences, which start with the longest tail of the one before that fits the overlap, are greedy,
      take every sentence once as a new one, and stay within their bound. They carry the parent's id and
      path and are numbered in order. */
  lemma ChildrenAreWindows(cfg: ChunkingConfig, version: string, text: seq<string>, i: nat)
    returns (windows: seq<Span>)
    requires i < |Chunks(cfg, version, text)|
    ensures var parent := Chunks(cfg, version, text)[i];
      && AreWindows(parent.text, cfg.childMax, cfg.childOverlap, windows, ChildTexts(parent.children))
      && forall j :: 0 <= j < |parent.children| ==>
        parent.children[j].parent == parent.id && parent.children[j].path == parent.path
        && parent.children[j].id == parent.id + ":c" + Decimal(j)
  {
    hide AreWindows, Children;
    var blocks := AllBlocks(cfg, SectionsOf(ReadLines(text)));
    NumberedAll(cfg, version, blocks);
    var b, id := blocks[i], ParentId(version, i);
    windows := WindowsOfText(b.text, cfg.childMax, cfg.childOverlap);
    ChildrenNumbered(id, b.path, Children(b.text, cfg.childMax, cfg.childOverlap));
    assert ChildTexts(ParentOf(cfg, version, i, b).children) == Children(b.text, cfg.childMax, cfg.childOverlap);
  }
}
