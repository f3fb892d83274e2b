// `ParentChildChunker.chunk` of ingestion/chunker.py as a whole, and what its chunks keep of the
// document.
module Documents {
  import opened Text
  import opened Sections
  import opened Chunker

  datatype ChunkingConfig = ChunkingConfig(parentMax: int, childMax: int, childOverlap: int)

  datatype ChildChunk = ChildChunk(id: string, parent: string, text: string, path: string)

  datatype ParentChunk = ParentChunk(id: string, text: string, path: string, children: seq<ChildChunk>)

  datatype Block = Block(path: string, text: string)

  function ParentId(version: string, i: nat): string {
    version + ":p" + Decimal(i)
  }

  function ChildId(parent: string, j: nat): string {
    parent + ":c" + Decimal(j)
  }

  function Tagged(path: string, texts: seq<string>): seq<Block> {
    if texts == [] then [] else Tagged(path, texts[..|texts| - 1]) + [Block(path, texts[|texts| - 1])]
  }

  function BodyOf(s: Section): string {
    Strip(Join(s.lines, "\n"))
  }

  /** The blocks of a section; a section whose body is blank is skipped. */
  function BlocksOf(cfg: ChunkingConfig, s: Section): seq<Block> {
    if BodyOf(s) == "" then [] else Tagged(s.path, Blocks(BodyOf(s), cfg.parentMax))
  }

  function AllBlocks(cfg: ChunkingConfig, sections: seq<Section>): seq<Block> {
    if sections == [] then []
    else AllBlocks(cfg, sections[..|sections| - 1]) + BlocksOf(cfg, sections[|sections| - 1])
  }

  function NumberChildren(parent: string, path: string, texts: seq<string>): seq<ChildChunk> {
    if texts == [] then []
    else
      NumberChildren(parent, path, texts[..|texts| - 1])
      + [ChildChunk(ChildId(parent, |texts| - 1), parent, texts[|texts| - 1], path)]
  }

  function ParentOf(cfg: ChunkingConfig, version: string, i: nat, b: Block): ParentChunk {
    var id := ParentId(version, i);
    ParentChunk(id, b.text, b.path, NumberChildren(id, b.path, Children(b.text, cfg.childMax, cfg.childOverlap)))
  }

  function NumberParents(cfg: ChunkingConfig, version: string, blocks: seq<Block>): seq<ParentChunk> {
    if blocks == [] then []
    else
      NumberParents(cfg, version, blocks[..|blocks| - 1]) + [ParentOf(cfg, version, |blocks| - 1, blocks[|blocks| - 1])]
  }

  function Chunks(cfg: ChunkingConfig, version: string, text: seq<string>): seq<ParentChunk> {
    NumberParents(cfg, version, AllBlocks(cfg, SectionsOf(ReadLines(text))))
  }

  // ---------------------------------------------------------------- the loops

  method Enumerate(parent: string, path: string, texts: seq<string>) returns (children: seq<ChildChunk>)
    ensures children == NumberChildren(parent, path, texts)
  {
    children := [];
    for j := 0 to |texts|
      invariant children == NumberChildren(parent, path, texts[..j])
    {
      assert texts[..j + 1][..j] == texts[..j];
      children := children + [ChildChunk(ChildId(parent, j), parent, texts[j], path)];
    }
    assert texts[..|texts|] == texts;
  }

  method ChunkChildren(cfg: ChunkingConfig, parent: string, path: string, block: string)
    returns (children: seq<ChildChunk>)
    ensures children == NumberChildren(parent, path, Children(block, cfg.childMax, cfg.childOverlap))
  {
    var texts := SplitChild(block, cfg.childMax, cfg.childOverlap);
    children := Enumerate(parent, path, texts);
  }

  lemma NumberAppend(cfg: ChunkingConfig, version: string, blocks: seq<Block>, b: Block)
    ensures NumberParents(cfg, version, blocks + [b])
      == NumberParents(cfg, version, blocks) + [ParentOf(cfg, version, |blocks|, b)]
  {
    assert (blocks + [b])[..|blocks|] == blocks;
  }

  lemma AppendTagged(before: seq<Block>, path: string, texts: seq<string>, j: nat)
    requires j < |texts|
    ensures before + Tagged(path, texts[..j + 1]) == (before + Tagged(path, texts[..j])) + [Block(path, texts[j])]
  {
    assert texts[..j + 1][..j] == texts[..j];
  }

  /** The inner loop over the blocks of a section. */
  method ChunkSection(cfg: ChunkingConfig, version: string, parents: seq<ParentChunk>, s: Section,
                      ghost before: seq<Block>)
    returns (r: seq<ParentChunk>)
    requires parents == NumberParents(cfg, version, before) && |parents| == |before|
    ensures r == NumberParents(cfg, version, before + BlocksOf(cfg, s)) && |r| == |before + BlocksOf(cfg, s)|
  {
    var body := Strip(Join(s.lines, "\n"));
    if body == "" {
      assert before + BlocksOf(cfg, s) == before;
      return parents;
    }
    r := parents;
    var blocks := PackParagraphs(body, cfg.parentMax);
    ghost var done := before;
    for j := 0 to |blocks|
      invariant done == before + Tagged(s.path, blocks[..j])
      invariant r == NumberParents(cfg, version, done) && |r| == |done|
    {
      ghost var b := Block(s.path, blocks[j]);
      AppendTagged(before, s.path, blocks, j);
      NumberAppend(cfg, version, done, b);
      var id := ParentId(version, |r|);
      var children := ChunkChildren(cfg, id, s.path, blocks[j]);
      r := r + [ParentChunk(id, blocks[j], s.path, children)];
      done := done + [b];
    }
    assert blocks[..|blocks|] == blocks;
  }

  lemma AllBlocksStep(cfg: ChunkingConfig, sections: seq<Section>, k: nat)
    requires k < |sections|
    ensures AllBlocks(cfg, sections[..k + 1]) == AllBlocks(cfg, sections[..k]) + BlocksOf(cfg, sections[k])
  {
    assert sections[..k + 1][..k] == sections[..k];
  }

  method ChunkSections(cfg: ChunkingConfig, version: string, sections: seq<Section>) returns (parents: seq<ParentChunk>)
    ensures parents == NumberParents(cfg, version, AllBlocks(cfg, sections))
  {
    parents := [];
    ghost var done: seq<Block> := [];
    for k := 0 to |sections|
      invariant done == AllBlocks(cfg, sections[..k])
      invariant parents == NumberParents(cfg, version, done) && |parents| == |done|
    {
      AllBlocksStep(cfg, sections, k);
      parents := ChunkSection(cfg, version, parents, sections[k], done);
      done := done + BlocksOf(cfg, sections[k]);
    }
    assert sections[..|sections|] == sections;
  }

  /** `chunk`, for a text given as its lines. The parent index of the code is the number of parents
      made so far. */
  method Chunk(cfg: ChunkingConfig, version: string, text: seq<string>) returns (parents: seq<ParentChunk>)
    ensures parents == Chunks(cfg, version, text)
  {
    var sections := SplitSections(ReadLines(text));
    parents := ChunkSections(cfg, version, sections);
  }

  // ---------------------------------------------------------------- ids

  lemma {:induction false} ParentCount(cfg: ChunkingConfig, version: string, blocks: seq<Block>)
    ensures |NumberParents(cfg, version, blocks)| == |blocks|
  {
    if blocks != [] {
      ParentCount(cfg, version, blocks[..|blocks| - 1]);
    }
  }

  lemma {:induction false} NumberParentsAt(cfg: ChunkingConfig, version: string, blocks: seq<Block>, i: nat)
    requires i < |blocks| == |NumberParents(cfg, version, blocks)|
    ensures NumberParents(cfg, version, blocks)[i] == ParentOf(cfg, version, i, blocks[i])
  {
    ParentCount(cfg, version, blocks[..|blocks| - 1]);
    if i < |blocks| - 1 {
      NumberParentsAt(cfg, version, blocks[..|blocks| - 1], i);
    }
  }

  lemma {:induction false} ChildCount(parent: string, path: string, texts: seq<string>)
    ensures |NumberChildren(parent, path, texts)| == |texts|
  {
    if texts != [] {
      ChildCount(parent, path, texts[..|texts| - 1]);
    }
  }

  lemma {:induction false} NumberChildrenAt(parent: string, path: string, texts: seq<string>, j: nat)
    requires j < |texts| == |NumberChildren(parent, path, texts)|
    ensures NumberChildren(parent, path, texts)[j] == ChildChunk(ChildId(parent, j), parent, texts[j], path)
  {
    ChildCount(parent, path, texts[..|texts| - 1]);
    if j < |texts| - 1 {
      NumberChildrenAt(parent, path, texts[..|texts| - 1], j);
    }
  }

  /** Digits up to a colon are determined by the text. */
  lemma DigitsBeforeColon(a: string, x: string, b: string, y: string)
    requires forall k :: 0 <= k < |a| ==> IsDigit(a[k])
    requires forall k :: 0 <= k < |b| ==> IsDigit(b[k])
    requires a + ":c" + x == b + ":c" + y
    ensures a == b && x == y
  {
    var s, t := a + ":c" + x, b + ":c" + y;
    assert s[|a|] == ':' && t[|b|] == ':';
    assert forall k :: 0 <= k < |a| ==> s[k] == a[k];
    assert forall k :: 0 <= k < |b| ==> t[k] == b[k];
    assert |a| == |b|;
    assert s[..|a|] == a && t[..|b|] == b;
    assert s[|a| + 2..] == x && t[|b| + 2..] == y;
  }

  lemma DropFront(front: string, a: string, b: string)
    requires front + a == front + b
    ensures a == b
  {
    assert (front + a)[|front|..] == a && (front + b)[|front|..] == b;
  }

  lemma ParentIdsDiffer(version: string, i: nat, k: nat)
    requires ParentId(version, i) == ParentId(version, k)
    ensures i == k
  {
    DropFront(version + ":p", Decimal(i), Decimal(k));
    DecimalInjective(i, k);
  }

  lemma ChildIdsDiffer(version: string, i: nat, j: nat, k: nat, l: nat)
    requires ChildId(ParentId(version, i), j) == ChildId(ParentId(version, k), l)
    ensures i == k && j == l
  {
    var front := version + ":p";
    assert ChildId(ParentId(version, i), j) == front + (Decimal(i) + ":c" + Decimal(j));
    assert ChildId(ParentId(version, k), l) == front + (Decimal(k) + ":c" + Decimal(l));
    DropFront(front, Decimal(i) + ":c" + Decimal(j), Decimal(k) + ":c" + Decimal(l));
    DigitsBeforeColon(Decimal(i), Decimal(j), Decimal(k), Decimal(l));
    DecimalInjective(i, k);
    DecimalInjective(j, l);
  }

  lemma ParentIsNoChild(version: string, i: nat, k: nat, l: nat)
    ensures ParentId(version, i) != ChildId(ParentId(version, k), l)
  {
    var front, rest := version + ":p", Decimal(k) + ":c" + Decimal(l);
    assert ChildId(ParentId(version, k), l) == front + rest;
    assert rest[|Decimal(k)|] == ':';
    if ParentId(version, i) == ChildId(ParentId(version, k), l) {
      DropFront(front, Decimal(i), rest);
    }
  }

  /** All ids of a document are distinct: those of two parents, of two children anywhere, and of a
      parent and a child. */
  lemma IdsAreDistinct(cfg: ChunkingConfig, version: string, text: seq<string>, i: nat, k: nat)
    requires var parents := Chunks(cfg, version, text); i < |parents| && k < |parents|
    ensures var parents := Chunks(cfg, version, text);
      && (parents[i].id == parents[k].id ==> i == k)
      && (forall j, l ::
            (0 <= j < |parents[i].children| && 0 <= l < |parents[k].children|
             && parents[i].children[j].id == parents[k].children[l].id) ==> i == k && j == l)
      && (forall l :: 0 <= l < |parents[k].children| ==> parents[k].children[l].id != parents[i].id)
  {
    var blocks := AllBlocks(cfg, SectionsOf(ReadLines(text)));
    var parents := Chunks(cfg, version, text);
    NumberedAll(cfg, version, blocks);
    forall j, l | 0 <= j < |parents[i].children| && 0 <= l < |parents[k].children|
      && parents[i].children[j].id == parents[k].children[l].id
      ensures i == k && j == l
    {
      ChildAt(cfg, version, i, blocks[i], j);
      ChildAt(cfg, version, k, blocks[k], l);
      ChildIdsDiffer(version, i, j, k, l);
    }
    forall l | 0 <= l < |parents[k].children|
      ensures parents[k].children[l].id != parents[i].id
    {
      ChildAt(cfg, version, k, blocks[k], l);
      ParentIsNoChild(version, i, k, l);
    }
    if parents[i].id == parents[k].id {
      ParentIdsDiffer(version, i, k);
    }
  }

  lemma NumberedAll(cfg: ChunkingConfig, version: string, blocks: seq<Block>)
    ensures |NumberParents(cfg, version, blocks)| == |blocks|
    ensures forall i :: 0 <= i < |blocks| ==>
      NumberParents(cfg, version, blocks)[i] == ParentOf(cfg, version, i, blocks[i])
  {
    ParentCount(cfg, version, blocks);
    forall i | 0 <= i < |blocks|
      ensures NumberParents(cfg, version, blocks)[i] == ParentOf(cfg, version, i, blocks[i])
    {
      NumberParentsAt(cfg, version, blocks, i);
    }
  }

  lemma ChildAt(cfg: ChunkingConfig, version: string, i: nat, b: Block, j: nat)
    requires j < |ParentOf(cfg, version, i, b).children|
    ensures ParentOf(cfg, version, i, b).children[j].id == ChildId(ParentId(version, i), j)
  {
    var texts := Children(b.text, cfg.childMax, cfg.childOverlap);
    ChildCount(ParentId(version, i), b.path, texts);
    NumberChildrenAt(ParentId(version, i), b.path, texts, j);
  }
}
