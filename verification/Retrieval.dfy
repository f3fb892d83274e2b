// The retrieval pipeline of application/retrieval_service.py over the in-memory index of
// infrastructure/milvus/memory.py.
module Retrieval {
  import opened Entities
  import opened Lists
  import opened Fusion

  datatype IndexedChunk = IndexedChunk(
    chunkId: string, version: string, parent: string, text: string, tenant: Id, acl: seq<string>, level: string,
    title: Option<string>, path: Option<string>, page: Option<int>)

  datatype Evidence = Evidence(
    chunkId: string, version: string, text: string, score: real, title: Option<string>, path: Option<string>,
    page: Option<int>)

  datatype RetrievalConfig = RetrievalConfig(
    rrfK: nat, weightDense: real, weightBm25: real, recallTopK: nat, rerankInput: nat, finalEvidence: nat)

  datatype RetrievalResult = RetrievalResult(evidence: seq<Evidence>, denseCount: nat, bm25Count: nat, fusedCount: nat,
                                             reranked: bool)

  /** Who asks: the tenant, the caller's ACL tokens and the highest security level. */
  datatype Reader = Reader(tenant: Id, acl: seq<string>, level: string)

  /** A reranker: the order it returns for a query and texts, or none where it raises. */
  type Reranker = (string, seq<string>, nat) -> Option<seq<int>>

  // ---------------------------------------------------------------- the permission filter

  function SecurityOrder(level: string): nat {
    if level == "confidential" then 1 else if level == "restricted" then 2 else 0
  }

  predicate MayRead(reader: Reader, c: IndexedChunk) {
    c.tenant == reader.tenant
    && SecurityOrder(c.level) <= SecurityOrder(reader.level)
    && (c.acl == [] || exists token :: token in c.acl && token in reader.acl)
  }

  function Visible(chunks: seq<IndexedChunk>, reader: Reader): seq<IndexedChunk> {
    if chunks == [] then []
    else
      Visible(chunks[..|chunks| - 1], reader)
      + if MayRead(reader, chunks[|chunks| - 1]) then [chunks[|chunks| - 1]] else []
  }

  // ---------------------------------------------------------------- recall

  function CandidateOf(c: IndexedChunk, score: real, source: RecallSource): Candidate {
    Candidate(c.chunkId, c.version, c.parent, c.text, score, source, c.title, c.path, c.page)
  }

  function ByLength(chunks: seq<IndexedChunk>): seq<Scored<IndexedChunk>> {
    if chunks == [] then []
    else
      var last := chunks[|chunks| - 1];
      ByLength(chunks[..|chunks| - 1]) + [Scored(last, |last.text| as real)]
  }

  function Characters(s: string): set<char> {
    set c | c in s
  }

  /** How many of the query's characters the text has. */
  function Shared(query: string, c: IndexedChunk): nat {
    |Characters(query) * Characters(c.text)|
  }

  /** The chunks that share a character with the query, each with how many it shares. */
  function ByOverlap(chunks: seq<IndexedChunk>, query: string): seq<Scored<IndexedChunk>> {
    if chunks == [] then []
    else
      var last := chunks[|chunks| - 1];
      var overlap := Shared(query, last);
      ByOverlap(chunks[..|chunks| - 1], query) + if overlap > 0 then [Scored(last, overlap as real)] else []
  }

  function DenseCandidates(ranked: seq<Scored<IndexedChunk>>): seq<Candidate> {
    if ranked == [] then []
    else
      DenseCandidates(ranked[..|ranked| - 1]) + [CandidateOf(ranked[|ranked| - 1].item, 1.0 / |ranked| as real, Dense)]
  }

  function Bm25Candidates(ranked: seq<Scored<IndexedChunk>>): seq<Candidate> {
    if ranked == [] then []
    else
      Bm25Candidates(ranked[..|ranked| - 1]) + [CandidateOf(ranked[|ranked| - 1].item, ranked[|ranked| - 1].key, Bm25)]
  }

  function DenseRecall(visible: seq<IndexedChunk>, topK: nat): seq<Candidate> {
    DenseCandidates(Take(Sorted(ByLength(visible)), topK))
  }

  function Bm25Recall(visible: seq<IndexedChunk>, query: string, topK: nat): seq<Candidate> {
    Bm25Candidates(Take(Sorted(ByOverlap(visible, query)), topK))
  }

  // ---------------------------------------------------------------- the pipeline

  function Items<T>(fused: seq<Scored<T>>): seq<T> {
    if fused == [] then [] else Items(fused[..|fused| - 1]) + [fused[|fused| - 1].item]
  }

  function TextsOf(candidates: seq<Candidate>): seq<string> {
    if candidates == [] then [] else TextsOf(candidates[..|candidates| - 1]) + [candidates[|candidates| - 1].text]
  }

  /** A list index as Python takes it: negative ones count from the end. */
  function Position(index: int, n: nat): Option<nat> {
    if 0 <= index < n then Some(index) else if index < 0 <= n + index then Some(n + index) else None
  }

  /** The candidates at the given indices; none if an index is out of range. */
  function Pick(candidates: seq<Candidate>, order: seq<int>): Option<seq<Candidate>> {
    if order == [] then Some([])
    else
      var front, p := Pick(candidates, order[..|order| - 1]), Position(order[|order| - 1], |candidates|);
      if front.None? || p.None? then None else Some(front.value + [candidates[p.value]])
  }

  function EvidenceOf(c: Candidate): Evidence {
    Evidence(c.chunkId, c.version, c.text, c.score, c.title, c.path, c.page)
  }

  function Pack(candidates: seq<Candidate>): seq<Evidence> {
    if candidates == [] then [] else Pack(candidates[..|candidates| - 1]) + [EvidenceOf(candidates[|candidates| - 1])]
  }

  /** The two recall lists, weighted. */
  function RecallLists(visible: seq<IndexedChunk>, query: string, cfg: RetrievalConfig): seq<RankedList> {
    [RankedList(DenseRecall(visible, cfg.recallTopK), cfg.weightDense),
     RankedList(Bm25Recall(visible, query, cfg.recallTopK), cfg.weightBm25)]
  }

  /** What goes to the reranker. */
  function RerankInput(visible: seq<IndexedChunk>, query: string, cfg: RetrievalConfig): seq<Candidate> {
    Items(Take(Fused(RecallLists(visible, query, cfg), cfg.rrfK), cfg.rerankInput))
  }

  /** The reranked candidates, or none on the degraded branch. */
  function Reranked(candidates: seq<Candidate>, query: string, cfg: RetrievalConfig,
                    rerank: Reranker): Option<seq<Candidate>>
  {
    if candidates == [] then None
    else
      var order := rerank(query, TextsOf(candidates), cfg.finalEvidence);
      if order.None? then None else Pick(candidates, order.value)
  }

  function Retrieved(visible: seq<IndexedChunk>, query: string, cfg: RetrievalConfig, rerank: Reranker): RetrievalResult
  {
    var lists := RecallLists(visible, query, cfg);
    var candidates := RerankInput(visible, query, cfg);
    var reranked := Reranked(candidates, query, cfg, rerank);
    RetrievalResult(
      Pack(Take(if reranked.Some? then reranked.value else candidates, cfg.finalEvidence)),
      |lists[0].candidates|, |lists[1].candidates|, |Fused(lists, cfg.rrfK)|, reranked.Some?)
  }

  // ---------------------------------------------------------------- the objects

  class InMemoryRetriever {
    var chunks: seq<IndexedChunk>

    constructor ()
      ensures chunks == []
    {
      chunks := [];
    }

    method Add(chunk: IndexedChunk)
      modifies this
      ensures chunks == old(chunks) + [chunk]
    {
      chunks := chunks + [chunk];
    }

    method FindVisible(reader: Reader) returns (result: seq<IndexedChunk>)
      ensures result == Visible(chunks, reader)
    {
      var allowed := SecurityOrder(reader.level);
      result := [];
      for i := 0 to |chunks|
        invariant result == Visible(chunks[..i], reader)
      {
        assert chunks[..i + 1][..i] == chunks[..i];
        var chunk := chunks[i];
        if chunk.tenant != reader.tenant {
          continue;
        }
        if SecurityOrder(chunk.level) > allowed {
          continue;
        }
        if chunk.acl != [] && !(exists token :: token in chunk.acl && token in reader.acl) {
          continue;
        }
        result := result + [chunk];
      }
      assert chunks[..|chunks|] == chunks;
    }

    method RecallDense(reader: Reader, topK: nat) returns (candidates: seq<Candidate>)
      ensures candidates == DenseRecall(Visible(chunks, reader), topK)
    {
      var visible := FindVisible(reader);
      var ranked := Take(Sorted(ByLength(visible)), topK);
      candidates := [];
      for i := 0 to |ranked|
        invariant candidates == DenseCandidates(ranked[..i])
      {
        assert ranked[..i + 1][..i] == ranked[..i];
        candidates := candidates + [CandidateOf(ranked[i].item, 1.0 / (i + 1) as real, Dense)];
      }
      assert ranked[..|ranked|] == ranked;
    }

    method RecallBm25(reader: Reader, query: string, topK: nat) returns (candidates: seq<Candidate>)
      ensures candidates == Bm25Recall(Visible(chunks, reader), query, topK)
    {
      var visible := FindVisible(reader);
      var ranked := Take(Sorted(ByOverlap(visible, query)), topK);
      candidates := [];
      for i := 0 to |ranked|
        invariant candidates == Bm25Candidates(ranked[..i])
      {
        assert ranked[..i + 1][..i] == ranked[..i];
        candidates := candidates + [CandidateOf(ranked[i].item, ranked[i].key, Bm25)];
      }
      assert ranked[..|ranked|] == ranked;
    }
  }

  /** The chunks that are not of this document version. */
  function Without(chunks: seq<IndexedChunk>, tenant: Id, version: string): seq<IndexedChunk> {
    if chunks == [] then []
    else
      var last := chunks[|chunks| - 1];
      Without(chunks[..|chunks| - 1], tenant, version) + if last.tenant == tenant && last.version == version then []
          else [last]
  }

  class InMemoryKnowledgeIndexer {
    const retriever: InMemoryRetriever

    constructor (retriever: InMemoryRetriever)
      ensures this.retriever == retriever
    {
      this.retriever := retriever;
    }

    method IndexChunks(chunks: seq<IndexedChunk>) returns (count: nat)
      modifies retriever
      ensures retriever.chunks == old(retriever.chunks) + chunks && count == |chunks|
    {
      for i := 0 to |chunks|
        invariant retriever.chunks == old(retriever.chunks) + chunks[..i]
      {
        retriever.Add(chunks[i]);
      }
      count := |chunks|;
    }

    method DeleteDocumentVersion(tenant: Id, version: string)
      modifies retriever
      ensures retriever.chunks == Without(old(retriever.chunks), tenant, version)
    {
      var kept: seq<IndexedChunk> := [];
      for i := 0 to |retriever.chunks|
        invariant retriever.chunks == old(retriever.chunks)
        invariant kept == Without(retriever.chunks[..i], tenant, version)
      {
        assert retriever.chunks[..i + 1][..i] == retriever.chunks[..i];
        var c := retriever.chunks[i];
        if !(c.tenant == tenant && c.version == version) {
          kept := kept + [c];
        }
      }
      assert retriever.chunks[..|retriever.chunks|] == retriever.chunks;
      retriever.chunks := kept;
    }
  }

  class RetrievalService {
    const retriever: InMemoryRetriever
    const cfg: RetrievalConfig
    const rerank: Reranker

    constructor (retriever: InMemoryRetriever, cfg: RetrievalConfig, rerank: Reranker)
      ensures this.retriever == retriever && this.cfg == cfg && this.rerank == rerank
    {
      this.retriever, this.cfg, this.rerank := retriever, cfg, rerank;
    }

    /** The candidates in the order of the reranker; none where the code takes the exception branch. */
    method Reorder(candidates: seq<Candidate>, order: seq<int>) returns (r: Option<seq<Candidate>>)
      ensures r == Pick(candidates, order)
    {
      var picked: seq<Candidate> := [];
      for i := 0 to |order|
        invariant Pick(candidates, order[..i]) == Some(picked)
      {
        assert order[..i + 1][..i] == order[..i];
        var p := Position(order[i], |candidates|);
        if p.None? {
          PickFails(candidates, order, i + 1);
          return None;
        }
        picked := picked + [candidates[p.value]];
      }
      assert order[..|order|] == order;
      return Some(picked);
    }

    /** The call of the reranker with the reordering, inside its exception handler. */
    method TryRerank(candidates: seq<Candidate>, query: string) returns (picked: Option<seq<Candidate>>)
      requires candidates != []
      ensures picked == Reranked(candidates, query, cfg, rerank)
    {
      var order := rerank(query, TextsOf(candidates), cfg.finalEvidence);
      picked := None;
      if order.Some? {
        picked := Reorder(candidates, order.value);
      }
    }

    /** Both recalls and their fusion. */
    method RecallAndFuse(reader: Reader, query: string)
      returns (fused: seq<Scored<Candidate>>, denseCount: nat, bm25Count: nat)
      ensures var lists := RecallLists(Visible(retriever.chunks, reader), query, cfg);
        fused == Fused(lists, cfg.rrfK) && denseCount == |lists[0].candidates| && bm25Count == |lists[1].candidates|
    {
      var dense := retriever.RecallDense(reader, cfg.recallTopK);
      var bm25 := retriever.RecallBm25(reader, query, cfg.recallTopK);
      fused := ReciprocalRankFusion([RankedList(dense, cfg.weightDense), RankedList(bm25, cfg.weightBm25)], cfg.rrfK);
      denseCount, bm25Count := |dense|, |bm25|;
    }

    /** The result is a function of the visible chunks alone. */
    method Retrieve(reader: Reader, query: string) returns (result: RetrievalResult)
      ensures result == Retrieved(Visible(retriever.chunks, reader), query, cfg, rerank)
    {
      var fused, denseCount, bm25Count := RecallAndFuse(reader, query);
      var candidates := Items(Take(fused, cfg.rerankInput));
      var reranked := false;
      if candidates != [] {
        var picked := TryRerank(candidates, query);
        if picked.Some? {
          candidates := picked.value;
          reranked := true;
        } else {
          candidates := Take(candidates, cfg.finalEvidence);
        }
      }
      result := RetrievalResult(Pack(Take(candidates, cfg.finalEvidence)), denseCount, bm25Count, |fused|, reranked);
    }
  }

  lemma {:induction false} PickFails(candidates: seq<Candidate>, order: seq<int>, n: nat)
    requires n <= |order| && Pick(candidates, order[..n]).None?
    ensures Pick(candidates, order).None?
    decreases |order| - n
  {
    if n < |order| {
      assert order[..n + 1][..n] == order[..n];
      PickFails(candidates, order, n + 1);
    } else {
      assert order[..n] == order;
    }
  }
}
