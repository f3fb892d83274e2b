// What retrieval guarantees to a reader.
module RetrievalLaws {
  import opened Entities
  import opened Lists
  import opened Fusion
  import opened FusionLaws
  import opened Retrieval

  // ---------------------------------------------------------------- only what is visible matters

  lemma {:induction false} VisibleConcat(a: seq<IndexedChunk>, b: seq<IndexedChunk>, reader: Reader)
    ensures Visible(a + b, reader) == Visible(a, reader) + Visible(b, reader)
  {
    if b == [] {
      assert a + b == a;
    } else {
      VisibleConcat(a, b[..|b| - 1], reader);
      assert (a + b)[..|a + b| - 1] == a + b[..|b| - 1];
    }
  }

  /** A chunk that the reader may not read changes nothing, wherever it is stored. */
  lemma HiddenChunkChangesNothing(a: seq<IndexedChunk>, hidden: IndexedChunk, b: seq<IndexedChunk>, reader: Reader,
                                  query: string, cfg: RetrievalConfig, rerank: Reranker)
    requires !MayRead(reader, hidden)
    ensures Retrieved(Visible(a + [hidden] + b, reader), query, cfg, rerank)
         == Retrieved(Visible(a + b, reader), query, cfg, rerank)
  {
    VisibleConcat(a + [hidden], b, reader);
    VisibleConcat(a, [hidden], reader);
    VisibleConcat(a, b, reader);
    assert [hidden][..0] == [];
    assert Visible([hidden], reader) == [];
    assert Visible(a, reader) + [] == Visible(a, reader);
  }

  lemma {:induction false} VisibleAreReadable(chunks: seq<IndexedChunk>, reader: Reader, c: IndexedChunk)
    ensures c in Visible(chunks, reader) <==> c in chunks && MayRead(reader, c)
  {
    if chunks != [] {
      var front, last := chunks[..|chunks| - 1], chunks[|chunks| - 1];
      VisibleAreReadable(front, reader, c);
      assert chunks == front + [last];
    }
  }

  /** The permission rule itself: the same tenant; a restricted chunk for restricted readers only, a
      confidential one for confidential and restricted readers, any other level for everybody; and a
      common ACL token, unless the chunk lists none. */
  predicate IsAllowed(reader: Reader, c: IndexedChunk) {
    && c.tenant == reader.tenant
    && (c.level == "restricted" ==> reader.level == "restricted")
    && (c.level == "confidential" ==> reader.level == "confidential" || reader.level == "restricted")
    && (|c.acl| > 0 ==> exists i, j :: 0 <= i < |c.acl| && 0 <= j < |reader.acl| && c.acl[i] == reader.acl[j])
  }

  lemma AllowedIsReadable(reader: Reader, c: IndexedChunk)
    ensures MayRead(reader, c) <==> IsAllowed(reader, c)
  {
    if token :| token in c.acl && token in reader.acl {
      var i :| 0 <= i < |c.acl| && c.acl[i] == token;
      var j :| 0 <= j < |reader.acl| && reader.acl[j] == token;
    }
    if i, j :| 0 <= i < |c.acl| && 0 <= j < |reader.acl| && c.acl[i] == reader.acl[j] {
      assert c.acl[i] in c.acl && c.acl[i] in reader.acl;
    }
  }

  /** The filter keeps exactly the chunks that the rule allows, each at its place in the order. */
  lemma {:induction false} VisibleExactly(chunks: seq<IndexedChunk>, reader: Reader) returns (places: seq<nat>)
    ensures |places| == |Visible(chunks, reader)|
    ensures forall i :: 0 <= i < |places| ==> places[i] < |chunks| && Visible(chunks, reader)[i] == chunks[places[i]]
    ensures forall i, j :: 0 <= i < j < |places| ==> places[i] < places[j]
    ensures forall k :: 0 <= k < |chunks| ==> (k in places <==> IsAllowed(reader, chunks[k]))
  {
    places := [];
    if chunks != [] {
      var n := |chunks| - 1;
      places := VisibleExactly(chunks[..n], reader);
      AllowedIsReadable(reader, chunks[n]);
      if MayRead(reader, chunks[n]) {
        places := places + [n];
      }
    }
  }

  // ---------------------------------------------------------------- where evidence comes from

  /** The candidate is a recalled form of a chunk. */
  predicate Recalled(chunks: seq<IndexedChunk>, c: Candidate) {
    exists chunk :: chunk in chunks && c == CandidateOf(chunk, c.score, c.source)
  }

  predicate AllRecalled(chunks: seq<IndexedChunk>, candidates: seq<Candidate>) {
    forall i :: 0 <= i < |candidates| ==> Recalled(chunks, candidates[i])
  }

  lemma {:induction false} ByLengthItems(chunks: seq<IndexedChunk>, x: Scored<IndexedChunk>)
    requires x in ByLength(chunks)
    ensures x.item in chunks
  {
    var front, last := chunks[..|chunks| - 1], chunks[|chunks| - 1];
    assert chunks == front + [last];
    if x in ByLength(front) {
      ByLengthItems(front, x);
    }
  }

  lemma {:induction false} ByOverlapItems(chunks: seq<IndexedChunk>, query: string, x: Scored<IndexedChunk>)
    requires x in ByOverlap(chunks, query)
    ensures x.item in chunks
  {
    var front, last := chunks[..|chunks| - 1], chunks[|chunks| - 1];
    assert chunks == front + [last];
    if x in ByOverlap(front, query) {
      ByOverlapItems(front, query, x);
    }
  }

  predicate ItemsAmong(chunks: seq<IndexedChunk>, ranked: seq<Scored<IndexedChunk>>) {
    forall i :: 0 <= i < |ranked| ==> ranked[i].item in chunks
  }

  lemma {:induction false} DenseAreRecalled(chunks: seq<IndexedChunk>, ranked: seq<Scored<IndexedChunk>>)
    requires ItemsAmong(chunks, ranked)
    ensures AllRecalled(chunks, DenseCandidates(ranked))
  {
    if ranked != [] {
      DenseAreRecalled(chunks, ranked[..|ranked| - 1]);
      var last := ranked[|ranked| - 1].item;
      assert last in chunks;
      assert Recalled(chunks, CandidateOf(last, 1.0 / |ranked| as real, Dense));
    }
  }

  lemma {:induction false} Bm25AreRecalled(chunks: seq<IndexedChunk>, ranked: seq<Scored<IndexedChunk>>)
    requires ItemsAmong(chunks, ranked)
    ensures AllRecalled(chunks, Bm25Candidates(ranked))
  {
    if ranked != [] {
      Bm25AreRecalled(chunks, ranked[..|ranked| - 1]);
      var last := ranked[|ranked| - 1];
      assert last.item in chunks;
      assert Recalled(chunks, CandidateOf(last.item, last.key, Bm25));
    }
  }

  lemma RecallIsRecalled(visible: seq<IndexedChunk>, query: string, topK: nat)
    ensures AllRecalled(visible, DenseRecall(visible, topK))
    ensures AllRecalled(visible, Bm25Recall(visible, query, topK))
  {
    var dense, bm25 := Take(Sorted(ByLength(visible)), topK), Take(Sorted(ByOverlap(visible, query)), topK);
    forall i | 0 <= i < |dense|
      ensures dense[i].item in visible
    {
      SortedMembers(ByLength(visible), dense[i]);
      ByLengthItems(visible, dense[i]);
    }
    forall i | 0 <= i < |bm25|
      ensures bm25[i].item in visible
    {
      SortedMembers(ByOverlap(visible, query), bm25[i]);
      ByOverlapItems(visible, query, bm25[i]);
    }
    DenseAreRecalled(visible, dense);
    Bm25AreRecalled(visible, bm25);
  }

  lemma EveryoneOfTwo(a: RankedList, b: RankedList)
    ensures Everyone([a, b]) == a.candidates + b.candidates
  {
    assert [a, b][..1] == [a] && [a][..0] == [];
    assert Everyone([a]) == a.candidates;
  }

  lemma FusedAreRecalled(visible: seq<IndexedChunk>, query: string, cfg: RetrievalConfig, i: nat)
    requires i < |Fused(RecallLists(visible, query, cfg), cfg.rrfK)|
    ensures Recalled(visible, Fused(RecallLists(visible, query, cfg), cfg.rrfK)[i].item)
  {
    var lists := RecallLists(visible, query, cfg);
    RecallIsRecalled(visible, query, cfg.recallTopK);
    EveryoneOfTwo(lists[0], lists[1]);
    var p := FusedEntry(lists, cfg.rrfK, i);
    assert Everyone(lists)[p] in lists[0].candidates + lists[1].candidates;
  }

  // ---------------------------------------------------------------- through the pipeline

  predicate DistinctCandidates(candidates: seq<Candidate>) {
    forall i, j :: 0 <= i < j < |candidates| ==> candidates[i].chunkId != candidates[j].chunkId
  }

  lemma {:induction false} ItemsAt<T>(fused: seq<Scored<T>>)
    ensures |Items(fused)| == |fused| && forall i :: 0 <= i < |fused| ==> Items(fused)[i] == fused[i].item
  {
    if fused != [] {
      ItemsAt(fused[..|fused| - 1]);
    }
  }

  lemma {:induction false} PackAt(candidates: seq<Candidate>)
    ensures |Pack(candidates)| == |candidates|
    ensures forall i :: 0 <= i < |candidates| ==> Pack(candidates)[i] == EvidenceOf(candidates[i])
  {
    if candidates != [] {
      PackAt(candidates[..|candidates| - 1]);
    }
  }

  /** What goes to the reranker: distinct ids of visible chunks. */
  lemma RerankInputIsSound(visible: seq<IndexedChunk>, query: string, cfg: RetrievalConfig)
    ensures var candidates := RerankInput(visible, query, cfg);
      DistinctCandidates(candidates) && AllRecalled(visible, candidates) && |candidates| <= cfg.rerankInput
  {
    var lists := RecallLists(visible, query, cfg);
    var fused := Fused(lists, cfg.rrfK);
    FusedIds(lists, cfg.rrfK, "");
    ItemsAt(Take(fused, cfg.rerankInput));
    forall i | 0 <= i < |Take(fused, cfg.rerankInput)|
      ensures Recalled(visible, fused[i].item)
    {
      FusedAreRecalled(visible, query, cfg, i);
    }
  }

  /** The positions that an order names are distinct. */
  predicate DistinctPositions(order: seq<int>, n: nat) {
    forall i, j :: 0 <= i < j < |order| ==> Position(order[i], n) != Position(order[j], n)
  }

  lemma {:induction false} PickAt(candidates: seq<Candidate>, order: seq<int>)
    requires Pick(candidates, order).Some?
    ensures var r := Pick(candidates, order).value;
      && |r| == |order|
      && forall i :: 0 <= i < |order| ==>
           Position(order[i], |candidates|).Some? && r[i] == candidates[Position(order[i], |candidates|).value]
  {
    if order != [] {
      PickAt(candidates, order[..|order| - 1]);
    }
  }

  lemma PickIsRecalled(visible: seq<IndexedChunk>, candidates: seq<Candidate>, order: seq<int>)
    requires AllRecalled(visible, candidates) && Pick(candidates, order).Some?
    ensures AllRecalled(visible, Pick(candidates, order).value)
  {
    PickAt(candidates, order);
  }

  /** What is packed into evidence, before it is cut to `final_evidence`. */
  function Final(visible: seq<IndexedChunk>, query: string, cfg: RetrievalConfig, rerank: Reranker): seq<Candidate> {
    var candidates := RerankInput(visible, query, cfg);
    var reranked := Reranked(candidates, query, cfg, rerank);
    if reranked.Some? then reranked.value else candidates
  }

  lemma FinalIsRecalled(visible: seq<IndexedChunk>, query: string, cfg: RetrievalConfig, rerank: Reranker)
    ensures AllRecalled(visible, Final(visible, query, cfg, rerank))
  {
    var candidates := RerankInput(visible, query, cfg);
    RerankInputIsSound(visible, query, cfg);
    if Reranked(candidates, query, cfg, rerank).Some? {
      PickIsRecalled(visible, candidates, rerank(query, TextsOf(candidates), cfg.finalEvidence).value);
    }
  }

  /** The evidence is a chunk that the reader may read, unchanged. */
  predicate IsEvidenceOf(e: Evidence, chunk: IndexedChunk) {
    e.chunkId == chunk.chunkId && e.version == chunk.version && e.text == chunk.text
    && e.title == chunk.title && e.path == chunk.path && e.page == chunk.page
  }

  predicate Readable(chunks: seq<IndexedChunk>, reader: Reader, e: Evidence) {
    exists chunk :: chunk in chunks && MayRead(reader, chunk) && IsEvidenceOf(e, chunk)
  }

  predicate DistinctEvidence(evidence: seq<Evidence>) {
    forall i, j :: 0 <= i < j < |evidence| ==> evidence[i].chunkId != evidence[j].chunkId
  }

  lemma RecalledIsReadable(chunks: seq<IndexedChunk>, reader: Reader, c: Candidate)
    requires Recalled(Visible(chunks, reader), c)
    ensures Readable(chunks, reader, EvidenceOf(c))
  {
    var chunk :| chunk in Visible(chunks, reader) && c == CandidateOf(chunk, c.score, c.source);
    VisibleAreReadable(chunks, reader, chunk);
    assert IsEvidenceOf(EvidenceOf(c), chunk);
  }

  lemma PackIsReadable(chunks: seq<IndexedChunk>, reader: Reader, final: seq<Candidate>, limit: nat)
    requires AllRecalled(Visible(chunks, reader), final)
    ensures var evidence := Pack(Take(final, limit));
      |evidence| <= limit && forall i :: 0 <= i < |evidence| ==> Readable(chunks, reader, evidence[i])
  {
    var packed := Take(final, limit);
    PackAt(packed);
    forall i | 0 <= i < |packed|
      ensures Readable(chunks, reader, Pack(packed)[i])
    {
      assert Recalled(Visible(chunks, reader), final[i]);
      RecalledIsReadable(chunks, reader, final[i]);
    }
  }

  /** Whatever the reranker does: at most `final_evidence` pieces of evidence, each of them a stored
      chunk that the reader may read. */
  lemma EvidenceIsSound(chunks: seq<IndexedChunk>, reader: Reader, query: string, cfg: RetrievalConfig,
                        rerank: Reranker)
    ensures var evidence := Retrieved(Visible(chunks, reader), query, cfg, rerank).evidence;
      |evidence| <= cfg.finalEvidence && forall i :: 0 <= i < |evidence| ==> Readable(chunks, reader, evidence[i])
  {
    FinalIsRecalled(Visible(chunks, reader), query, cfg, rerank);
    PackIsReadable(chunks, reader, Final(Visible(chunks, reader), query, cfg, rerank), cfg.finalEvidence);
  }

  lemma PackIsDistinctIff(candidates: seq<Candidate>)
    ensures DistinctEvidence(Pack(candidates)) <==> DistinctCandidates(candidates)
  {
    PackAt(candidates);
    if DistinctEvidence(Pack(candidates)) {
      forall i, j | 0 <= i < j < |candidates|
        ensures candidates[i].chunkId != candidates[j].chunkId
      {
        assert Pack(candidates)[i].chunkId != Pack(candidates)[j].chunkId;
      }
    }
  }

  /** Picking from distinct candidates repeats an id exactly where the order repeats a position. */
  lemma PickIsDistinctIff(candidates: seq<Candidate>, order: seq<int>, limit: nat)
    requires DistinctCandidates(candidates) && Pick(candidates, order).Some?
    ensures DistinctCandidates(Take(Pick(candidates, order).value, limit))
      <==> DistinctPositions(Take(order, limit), |candidates|)
  {
    PickAt(candidates, order);
    var picked, named := Take(Pick(candidates, order).value, limit), Take(order, limit);
    assert |picked| == |named|;
    forall i, j | 0 <= i < j < |named|
      ensures picked[i].chunkId != picked[j].chunkId
        <==> Position(named[i], |candidates|) != Position(named[j], |candidates|)
    {
      var x, y := Position(named[i], |candidates|).value, Position(named[j], |candidates|).value;
      assert picked[i] == candidates[x] && picked[j] == candidates[y];
    }
    if DistinctPositions(named, |candidates|) {
      forall i, j | 0 <= i < j < |picked|
        ensures picked[i].chunkId != picked[j].chunkId
      {
        assert Position(named[i], |candidates|) != Position(named[j], |candidates|);
      }
    }
  }

  /** For every reranker: the evidence has distinct ids exactly when the first `final_evidence`
      positions that the reranker names in this call are distinct, and always on the degraded branch. */
  lemma EvidenceIsDistinctIff(visible: seq<IndexedChunk>, query: string, cfg: RetrievalConfig, rerank: Reranker)
    ensures var r, candidates := Retrieved(visible, query, cfg, rerank), RerankInput(visible, query, cfg);
      var order := rerank(query, TextsOf(candidates), cfg.finalEvidence);
      if r.reranked then
        order.Some?
        && (DistinctEvidence(r.evidence) <==> DistinctPositions(Take(order.value, cfg.finalEvidence), |candidates|))
      else DistinctEvidence(r.evidence)
  {
    hide RerankInput, Reranked, Pack, DistinctPositions, DistinctEvidence, DistinctCandidates, AllRecalled;
    RerankInputIsSound(visible, query, cfg);
    DistinctFrom(RerankInput(visible, query, cfg), query, cfg, rerank);
  }

  lemma DistinctFrom(candidates: seq<Candidate>, query: string, cfg: RetrievalConfig, rerank: Reranker)
    requires DistinctCandidates(candidates)
    ensures var order := rerank(query, TextsOf(candidates), cfg.finalEvidence);
      var reranked := Reranked(candidates, query, cfg, rerank);
      var evidence := Pack(Take(if reranked.Some? then reranked.value else candidates, cfg.finalEvidence));
      if reranked.Some? then
        order.Some?
        && (DistinctEvidence(evidence) <==> DistinctPositions(Take(order.value, cfg.finalEvidence), |candidates|))
      else DistinctEvidence(evidence)
  {
    hide Pack, Pick, DistinctPositions, DistinctEvidence, TextsOf;
    var reranked := Reranked(candidates, query, cfg, rerank);
    if reranked.Some? {
      PickIsDistinctIff(candidates, rerank(query, TextsOf(candidates), cfg.finalEvidence).value, cfg.finalEvidence);
      PackIsDistinctIff(Take(reranked.value, cfg.finalEvidence));
    } else {
      PackIsDistinctIff(Take(candidates, cfg.finalEvidence));
    }
  }

  /** A reranker that names the first candidate twice: as soon as there is a candidate, and room for two
      pieces of evidence, one chunk is given twice. */
  lemma EvidenceCanRepeat(visible: seq<IndexedChunk>, query: string, cfg: RetrievalConfig, rerank: Reranker)
    requires RerankInput(visible, query, cfg) != [] && cfg.finalEvidence >= 2
    requires rerank(query, TextsOf(RerankInput(visible, query, cfg)), cfg.finalEvidence) == Some([0, 0])
    ensures !DistinctEvidence(Retrieved(visible, query, cfg, rerank).evidence)
  {
    var candidates := RerankInput(visible, query, cfg);
    PickTwice(candidates);
    EvidenceIsDistinctIff(visible, query, cfg, rerank);
    assert !DistinctPositions([0, 0], |candidates|) by {
      assert [0, 0][0] == [0, 0][1];
    }
  }

  lemma PickTwice(candidates: seq<Candidate>)
    requires candidates != []
    ensures Pick(candidates, [0, 0]).Some?
  {
    assert [0, 0][..1] == [0] && [0][..0] == [];
    assert Pick(candidates, [0]).Some?;
  }

  // ---------------------------------------------------------------- what is recalled, and in which order

  lemma {:induction false} ItemsConcat<T>(a: seq<Scored<T>>, b: seq<Scored<T>>)
    ensures Items(a + b) == Items(a) + Items(b)
  {
    if b == [] {
      assert a + b == a;
    } else {
      assert (a + b)[..|a + b| - 1] == a + b[..|b| - 1];
      ItemsConcat(a, b[..|b| - 1]);
    }
  }

  lemma ItemsOne<T>(x: Scored<T>)
    ensures Items([x]) == [x.item]
  {
    assert [x][..0] == [];
  }

  lemma ItemsAround<T>(a: seq<Scored<T>>, x: Scored<T>, b: seq<Scored<T>>)
    ensures Items(a + [x] + b) == Items(a) + [x.item] + Items(b)
  {
    ItemsConcat(a + [x], b);
    ItemsConcat(a, [x]);
    ItemsOne(x);
  }

  lemma SplitPermutes<T>(a: seq<T>, x: T, b: seq<T>)
    ensures multiset(a + [x] + b) == multiset(a + b) + multiset{x}
  {
  }

  lemma InsertPermutes<T>(sorted: seq<Scored<T>>, x: Scored<T>)
    requires Descending(sorted)
    ensures multiset(Items(Fusion.Insert(sorted, x))) == multiset(Items(sorted)) + multiset{x.item}
  {
    var p := InsertIsSplit(sorted, x);
    var a, b := sorted[..p], sorted[p..];
    ItemsAround(a, x, b);
    ItemsConcat(a, b);
    assert sorted == a + b;
    SplitPermutes(Items(a), x.item, Items(b));
  }

  /** Sorting keeps the items, as often as they occur. */
  lemma {:induction false} SortedPermutes<T>(xs: seq<Scored<T>>)
    ensures multiset(Items(Sorted(xs))) == multiset(Items(xs))
  {
    if xs != [] {
      SortedPermutes(xs[..|xs| - 1]);
      SortedDescends(xs[..|xs| - 1]);
      InsertPermutes(Sorted(xs[..|xs| - 1]), xs[|xs| - 1]);
    }
  }

  predicate AllAbove<T>(top: seq<Scored<T>>, rest: seq<Scored<T>>) {
    forall i, j :: 0 <= i < |top| && 0 <= j < |rest| ==> top[i].key >= rest[j].key
  }

  predicate AllFrom<T(==)>(part: seq<Scored<T>>, xs: seq<Scored<T>>) {
    forall i :: 0 <= i < |part| ==> part[i] in xs
  }

  lemma CutDescends<T>(all: seq<Scored<T>>, cut: nat)
    requires Descending(all) && cut <= |all|
    ensures Descending(all[..cut]) && AllAbove(all[..cut], all[cut..])
  {
  }

  lemma PartsFromSorted<T>(xs: seq<Scored<T>>, cut: nat)
    requires cut <= |Sorted(xs)|
    ensures AllFrom(Sorted(xs)[..cut], xs) && AllFrom(Sorted(xs)[cut..], xs)
  {
    forall i | 0 <= i < |Sorted(xs)|
      ensures Sorted(xs)[i] in xs
    {
      SortedMembers(xs, Sorted(xs)[i]);
    }
  }

  /** The first n of a sorted list: the items with the greatest keys, each as often as it occurs. */
  lemma TopOfSorted<T>(xs: seq<Scored<T>>, n: nat) returns (top: seq<Scored<T>>, rest: seq<Scored<T>>)
    ensures top == Take(Sorted(xs), n) && |top| == (if |xs| <= n then |xs| else n)
    ensures Descending(top) && AllAbove(top, rest) && AllFrom(top, xs) && AllFrom(rest, xs)
    ensures multiset(Items(top)) + multiset(Items(rest)) == multiset(Items(xs))
  {
    SortedDescends(xs);
    var cut := if |xs| <= n then |xs| else n;
    top, rest := Sorted(xs)[..cut], Sorted(xs)[cut..];
    CutDescends(Sorted(xs), cut);
    PartsFromSorted(xs, cut);
    CutPermutes(xs, cut);
  }

  lemma CutPermutes<T>(xs: seq<Scored<T>>, cut: nat)
    requires cut <= |Sorted(xs)|
    ensures multiset(Items(Sorted(xs)[..cut])) + multiset(Items(Sorted(xs)[cut..])) == multiset(Items(xs))
  {
    SortedPermutes(xs);
    assert Sorted(xs) == Sorted(xs)[..cut] + Sorted(xs)[cut..];
    ItemsConcat(Sorted(xs)[..cut], Sorted(xs)[cut..]);
  }

  lemma {:induction false} DenseAt(ranked: seq<Scored<IndexedChunk>>)
    ensures |DenseCandidates(ranked)| == |ranked|
    ensures forall i :: 0 <= i < |ranked| ==>
      DenseCandidates(ranked)[i] == CandidateOf(ranked[i].item, 1.0 / (i + 1) as real, Dense)
  {
    if ranked != [] {
      DenseAt(ranked[..|ranked| - 1]);
    }
  }

  lemma {:induction false} Bm25At(ranked: seq<Scored<IndexedChunk>>)
    ensures |Bm25Candidates(ranked)| == |ranked|
    ensures forall i :: 0 <= i < |ranked| ==>
      Bm25Candidates(ranked)[i] == CandidateOf(ranked[i].item, ranked[i].key, Bm25)
  {
    if ranked != [] {
      Bm25At(ranked[..|ranked| - 1]);
    }
  }

  lemma {:induction false} ByLengthIs(chunks: seq<IndexedChunk>)
    ensures Items(ByLength(chunks)) == chunks
  {
    if chunks != [] {
      ByLengthIs(chunks[..|chunks| - 1]);
    }
  }

  lemma {:induction false} ByLengthKeys(chunks: seq<IndexedChunk>, x: Scored<IndexedChunk>)
    requires x in ByLength(chunks)
    ensures x.key == |x.item.text| as real
  {
    if x in ByLength(chunks[..|chunks| - 1]) {
      ByLengthKeys(chunks[..|chunks| - 1], x);
    }
  }

  predicate LengthKeys(xs: seq<Scored<IndexedChunk>>) {
    forall i :: 0 <= i < |xs| ==> xs[i].key == |xs[i].item.text| as real
  }

  lemma LengthKeysOf(chunks: seq<IndexedChunk>, part: seq<Scored<IndexedChunk>>)
    requires AllFrom(part, ByLength(chunks))
    ensures LengthKeys(part)
  {
    forall i | 0 <= i < |part|
      ensures part[i].key == |part[i].item.text| as real
    {
      ByLengthKeys(chunks, part[i]);
    }
  }

  /** Dense recall gives as many visible chunks as asked for, each as often as it is visible: the
      longest texts, longest first, with scores 1, 1/2, 1/3, ... */
  lemma DenseRecallIsLongest(visible: seq<IndexedChunk>, topK: nat)
    returns (chosen: seq<IndexedChunk>, left: seq<IndexedChunk>)
    ensures multiset(chosen) + multiset(left) == multiset(visible)
    ensures var r := DenseRecall(visible, topK);
      && |r| == |chosen| == (if |visible| <= topK then |visible| else topK)
      && (forall i :: 0 <= i < |r| ==> r[i] == CandidateOf(chosen[i], 1.0 / (i + 1) as real, Dense))
    ensures forall i, j :: 0 <= i < j < |chosen| ==> |chosen[i].text| >= |chosen[j].text|
    ensures forall i, j :: 0 <= i < |chosen| && 0 <= j < |left| ==> |chosen[i].text| >= |left[j].text|
  {
    var top, rest := TopOfSorted(ByLength(visible), topK);
    ByLengthIs(visible);
    LengthKeysOf(visible, top);
    LengthKeysOf(visible, rest);
    ItemsAt(ByLength(visible));
    ItemsAt(top);
    ItemsAt(rest);
    DenseAt(top);
    chosen, left := Items(top), Items(rest);
  }

  /** The chunks that share a character with the query. */
  function Sharing(chunks: seq<IndexedChunk>, query: string): seq<IndexedChunk> {
    if chunks == [] then []
    else
      Sharing(chunks[..|chunks| - 1], query) + if Shared(query, chunks[|chunks| - 1]) > 0 then [chunks[|chunks| - 1]]
          else []
  }

  /** What is shared is counted by distinct characters. */
  lemma SharedCounts(query: string, c: IndexedChunk)
    ensures Shared(query, c) == |set ch | ch in query && ch in c.text|
  {
    assert Characters(query) * Characters(c.text) == set ch | ch in query && ch in c.text;
  }

  lemma {:induction false} ByOverlapIs(chunks: seq<IndexedChunk>, query: string)
    ensures Items(ByOverlap(chunks, query)) == Sharing(chunks, query)
  {
    if chunks != [] {
      var front, last := chunks[..|chunks| - 1], chunks[|chunks| - 1];
      ByOverlapIs(front, query);
      if Shared(query, last) > 0 {
        ItemsConcat(ByOverlap(front, query), [Scored(last, Shared(query, last) as real)]);
        ItemsOne(Scored(last, Shared(query, last) as real));
      } else {
        assert ByOverlap(chunks, query) == ByOverlap(front, query);
      }
    }
  }

  lemma {:induction false} ByOverlapKeys(chunks: seq<IndexedChunk>, query: string, x: Scored<IndexedChunk>)
    requires x in ByOverlap(chunks, query)
    ensures x.key == Shared(query, x.item) as real > 0.0
  {
    if x in ByOverlap(chunks[..|chunks| - 1], query) {
      ByOverlapKeys(chunks[..|chunks| - 1], query, x);
    }
  }

  predicate SharedKeys(xs: seq<Scored<IndexedChunk>>, query: string) {
    forall i :: 0 <= i < |xs| ==> xs[i].key == Shared(query, xs[i].item) as real > 0.0
  }

  lemma SharedKeysOf(chunks: seq<IndexedChunk>, query: string, part: seq<Scored<IndexedChunk>>)
    requires AllFrom(part, ByOverlap(chunks, query))
    ensures SharedKeys(part, query)
  {
    forall i | 0 <= i < |part|
      ensures part[i].key == Shared(query, part[i].item) as real > 0.0
    {
      ByOverlapKeys(chunks, query, part[i]);
    }
  }

  /** Keyword recall gives as many chunks as asked for of those that share a character with the query,
      each as often as it is visible: those that share most, most shared first, scored by that. */
  lemma Bm25RecallIsRelevant(visible: seq<IndexedChunk>, query: string, topK: nat)
    returns (chosen: seq<IndexedChunk>, left: seq<IndexedChunk>)
    ensures multiset(chosen) + multiset(left) == multiset(Sharing(visible, query))
    ensures var r, n := Bm25Recall(visible, query, topK), |Sharing(visible, query)|;
      && |r| == |chosen| == (if n <= topK then n else topK)
      && (forall i :: 0 <= i < |r| ==>
        r[i] == CandidateOf(chosen[i], Shared(query, chosen[i]) as real, Bm25) && Shared(query, chosen[i]) > 0)
    ensures forall i, j :: 0 <= i < j < |chosen| ==> Shared(query, chosen[i]) >= Shared(query, chosen[j])
    ensures forall i, j :: 0 <= i < |chosen| && 0 <= j < |left| ==> Shared(query, chosen[i]) >= Shared(query, left[j])
  {
    var top, rest := TopOfSorted(ByOverlap(visible, query), topK);
    ByOverlapIs(visible, query);
    SharedKeysOf(visible, query, top);
    SharedKeysOf(visible, query, rest);
    ItemsAt(ByOverlap(visible, query));
    ItemsAt(top);
    ItemsAt(rest);
    Bm25At(top);
    chosen, left := Items(top), Items(rest);
  }

  /** The evidence comes in the order of the reranker; on the degraded branch, which an exception or
      an index out of range leads to, it is the head of the fused list. */
  lemma EvidenceOrder(visible: seq<IndexedChunk>, query: string, cfg: RetrievalConfig, rerank: Reranker, i: nat)
    requires i < |Retrieved(visible, query, cfg, rerank).evidence|
    ensures var r, candidates := Retrieved(visible, query, cfg, rerank), RerankInput(visible, query, cfg);
      var order := rerank(query, TextsOf(candidates), cfg.finalEvidence);
      if r.reranked then
        order.Some? && i < |order.value| && Position(order.value[i], |candidates|).Some?
        && r.evidence[i] == EvidenceOf(candidates[Position(order.value[i], |candidates|).value])
      else i < |candidates| && r.evidence[i] == EvidenceOf(candidates[i])
  {
    var candidates := RerankInput(visible, query, cfg);
    var reranked := Reranked(candidates, query, cfg, rerank);
    PackAt(Take(if reranked.Some? then reranked.value else candidates, cfg.finalEvidence));
    if reranked.Some? {
      PickAt(candidates, rerank(query, TextsOf(candidates), cfg.finalEvidence).value);
    }
  }

  // ---------------------------------------------------------------- the whole pipeline

  /** The fused list of a query: the dense recall with the dense weight, then the keyword recall with
      its own. */
  function FusedRecall(visible: seq<IndexedChunk>, query: string, cfg: RetrievalConfig): seq<Scored<Candidate>> {
    Fused([RankedList(DenseRecall(visible, cfg.recallTopK), cfg.weightDense),
           RankedList(Bm25Recall(visible, query, cfg.recallTopK), cfg.weightBm25)], cfg.rrfK)
  }

  function Min(a: nat, b: nat): nat {
    if a <= b then a else b
  }

  /** The first n fused candidates. */
  function Head(fused: seq<Scored<Candidate>>, n: nat): (r: seq<Candidate>)
    requires n <= |fused|
    ensures |r| == n && forall i :: 0 <= i < n ==> r[i] == fused[i].item
  {
    seq(n, i requires 0 <= i < n => fused[i].item)
  }

  function TextColumn(candidates: seq<Candidate>): (r: seq<string>)
    ensures |r| == |candidates| && forall i :: 0 <= i < |r| ==> r[i] == candidates[i].text
  {
    seq(|candidates|, i requires 0 <= i < |candidates| => candidates[i].text)
  }

  /** Evidence shows a candidate, column by column. */
  predicate Shows(e: Evidence, c: Candidate) {
    e.chunkId == c.chunkId && e.version == c.version && e.text == c.text && e.score == c.score
    && e.title == c.title && e.path == c.path && e.page == c.page
  }

  /** Every index names one of n elements, counted from the front or from the back. */
  predicate AllInRange(order: seq<int>, n: nat) {
    forall j :: 0 <= j < |order| ==> order[j] < n && n + order[j] >= 0
  }

  lemma {:induction false} PickSucceedsIff(candidates: seq<Candidate>, order: seq<int>)
    ensures Pick(candidates, order).Some? <==> AllInRange(order, |candidates|)
  {
    if order != [] {
      var front, last := order[..|order| - 1], order[|order| - 1];
      PickSucceedsIff(candidates, front);
      assert order == front + [last];
    }
  }

  lemma {:induction false} TextsOfAt(candidates: seq<Candidate>)
    ensures |TextsOf(candidates)| == |candidates|
    ensures forall i :: 0 <= i < |candidates| ==> TextsOf(candidates)[i] == candidates[i].text
  {
    if candidates != [] {
      TextsOfAt(candidates[..|candidates| - 1]);
    }
  }

  /** What goes to the reranker is the head of the fused list, best first. */
  lemma CandidatesAreFusedHead(visible: seq<IndexedChunk>, query: string, cfg: RetrievalConfig)
    ensures var fused := FusedRecall(visible, query, cfg);
      RerankInput(visible, query, cfg) == Head(fused, Min(cfg.rerankInput, |fused|))
  {
    ItemsAt(Take(FusedRecall(visible, query, cfg), cfg.rerankInput));
  }

  /** The number of fused entries is the number of distinct ids that the two recalls give. */
  lemma FusedCount(visible: seq<IndexedChunk>, query: string, cfg: RetrievalConfig)
    ensures var dense, bm25 := DenseRecall(visible, cfg.recallTopK), Bm25Recall(visible, query, cfg.recallTopK);
      |FusedRecall(visible, query, cfg)| == |set c: Candidate | c in dense + bm25 :: c.chunkId|
  {
    var dense, bm25 := DenseRecall(visible, cfg.recallTopK), Bm25Recall(visible, query, cfg.recallTopK);
    var a, b := RankedList(dense, cfg.weightDense), RankedList(bm25, cfg.weightBm25);
    var fused := FusedRecall(visible, query, cfg);
    EveryoneOfTwo(a, b);
    FusedIds([a, b], cfg.rrfK, "");
    IdsCounted(fused);
    var fusedIds, ids := set x | x in fused :: x.item.chunkId, set c: Candidate | c in dense + bm25 :: c.chunkId;
    forall id | id in fusedIds + ids
      ensures id in fusedIds && id in ids
    {
      FusedIds([a, b], cfg.rrfK, id);
    }
    assert fusedIds == ids;
  }

  lemma {:induction false} IdsCounted(fused: seq<Scored<Candidate>>)
    requires DistinctIds(fused)
    ensures |fused| == |set x | x in fused :: x.item.chunkId|
  {
    if fused != [] {
      var front, last := fused[..|fused| - 1], fused[|fused| - 1];
      IdsCounted(front);
      assert fused == front + [last];
      assert (set x | x in fused :: x.item.chunkId) == (set x | x in front :: x.item.chunkId) + {last.item.chunkId};
    }
  }

  /** The evidence shows what the order names, where negative indices count from the end, or without
      an order the candidates as they come. */
  predicate EvidenceShows(evidence: seq<Evidence>, candidates: seq<Candidate>, order: Option<seq<int>>) {
    forall i :: 0 <= i < |evidence| ==>
      (order.None? ==> i < |candidates| && Shows(evidence[i], candidates[i]))
      && (order.Some? ==>
        i < |order.value|
        && var at := if order.value[i] >= 0 then order.value[i] else |candidates| + order.value[i];
          0 <= at < |candidates| && Shows(evidence[i], candidates[at]))
  }

  lemma PackShows(packed: seq<Candidate>, candidates: seq<Candidate>, limit: nat)
    requires packed == Take(candidates, limit)
    ensures |Pack(packed)| == Min(limit, |candidates|) && EvidenceShows(Pack(packed), candidates, None)
  {
    PackAt(packed);
  }

  lemma PickedShows(candidates: seq<Candidate>, order: seq<int>, limit: nat)
    requires Pick(candidates, order).Some?
    ensures var evidence := Pack(Take(Pick(candidates, order).value, limit));
      |evidence| == Min(limit, |order|) && EvidenceShows(evidence, candidates, Some(order))
  {
    PickAt(candidates, order);
    PackAt(Take(Pick(candidates, order).value, limit));
  }

  /** The evidence that comes of these candidates. */
  lemma EvidenceFrom(candidates: seq<Candidate>, query: string, cfg: RetrievalConfig, rerank: Reranker)
    ensures var order := rerank(query, TextColumn(candidates), cfg.finalEvidence);
      var reranked := Reranked(candidates, query, cfg, rerank);
      var evidence := Pack(Take(if reranked.Some? then reranked.value else candidates, cfg.finalEvidence));
      && (reranked.Some? <==> |candidates| > 0 && order.Some? && AllInRange(order.value, |candidates|))
      && |evidence| == Min(cfg.finalEvidence, if reranked.Some? then |order.value| else |candidates|)
      && EvidenceShows(evidence, candidates, if reranked.Some? then order else None)
  {
    hide Pack, Pick, EvidenceShows, AllInRange, TextsOf, TextColumn, Min;
    TextsAreColumn(candidates);
    var order := rerank(query, TextsOf(candidates), cfg.finalEvidence);
    if order.Some? {
      PickSucceedsIff(candidates, order.value);
    }
    if Reranked(candidates, query, cfg, rerank).Some? {
      PickedShows(candidates, order.value, cfg.finalEvidence);
    } else {
      PackShows(Take(candidates, cfg.finalEvidence), candidates, cfg.finalEvidence);
    }
  }

  lemma TextsAreColumn(candidates: seq<Candidate>)
    ensures TextsOf(candidates) == TextColumn(candidates)
  {
    TextsOfAt(candidates);
  }

  /** The counts and the evidence of a retrieval, from the fused list alone. The first
      `rerank_input` fused candidates go to the reranker; if it answers with indices in range, the
      evidence is what it names, in its order, and otherwise the head of the fused list, best first;
      at most `final_evidence` pieces either way. */
  lemma RetrievedIs(visible: seq<IndexedChunk>, query: string, cfg: RetrievalConfig, rerank: Reranker)
    ensures var dense, bm25 := DenseRecall(visible, cfg.recallTopK), Bm25Recall(visible, query, cfg.recallTopK);
      var fused := Fused([RankedList(dense, cfg.weightDense), RankedList(bm25, cfg.weightBm25)], cfg.rrfK);
      var candidates := Head(fused, Min(cfg.rerankInput, |fused|));
      var order := rerank(query, TextColumn(candidates), cfg.finalEvidence);
      var r := Retrieved(visible, query, cfg, rerank);
      && r.denseCount == |dense| && r.bm25Count == |bm25| && r.fusedCount == |fused|
      && (r.reranked <==> |candidates| > 0 && order.Some? && AllInRange(order.value, |candidates|))
      && |r.evidence| == Min(cfg.finalEvidence, if r.reranked then |order.value| else |candidates|)
      && EvidenceShows(r.evidence, candidates, if r.reranked then order else None)
  {
    hide Fused, DenseRecall, Bm25Recall, Pack, EvidenceShows, AllInRange, Reranked, RerankInput, Head, TextColumn;
    CandidatesAreFusedHead(visible, query, cfg);
    EvidenceFrom(RerankInput(visible, query, cfg), query, cfg, rerank);
  }

  // ---------------------------------------------------------------- deleting a version

  lemma {:induction false} WithoutMembers(chunks: seq<IndexedChunk>, tenant: Id, version: string, c: IndexedChunk)
    ensures c in Without(chunks, tenant, version) <==> c in chunks && !(c.tenant == tenant && c.version == version)
  {
    if chunks != [] {
      var front, last := chunks[..|chunks| - 1], chunks[|chunks| - 1];
      WithoutMembers(front, tenant, version, c);
      assert chunks == front + [last];
    }
  }

  /** After a document version is deleted, no reader of its tenant is given evidence from it, whatever
      the reranker does. */
  lemma DeletedIsGone(chunks: seq<IndexedChunk>, reader: Reader, version: string, query: string,
                      cfg: RetrievalConfig, rerank: Reranker)
    ensures var evidence :=
      Retrieved(Visible(Without(chunks, reader.tenant, version), reader), query, cfg, rerank).evidence;
      forall i :: 0 <= i < |evidence| ==> evidence[i].version != version
  {
    var left := Without(chunks, reader.tenant, version);
    EvidenceIsSound(left, reader, query, cfg, rerank);
    var evidence := Retrieved(Visible(left, reader), query, cfg, rerank).evidence;
    forall i | 0 <= i < |evidence|
      ensures evidence[i].version != version
    {
      assert Readable(left, reader, evidence[i]);
      var chunk :| chunk in left && MayRead(reader, chunk) && IsEvidenceOf(evidence[i], chunk);
      WithoutMembers(chunks, reader.tenant, version, chunk);
    }
  }

  /** Readers of other tenants do not notice a deletion. */
  lemma {:induction false} OtherTenantsKeep(chunks: seq<IndexedChunk>, tenant: Id, version: string, reader: Reader)
    requires reader.tenant != tenant
    ensures Visible(Without(chunks, tenant, version), reader) == Visible(chunks, reader)
  {
    if chunks != [] {
      var front, last := chunks[..|chunks| - 1], chunks[|chunks| - 1];
      OtherTenantsKeep(front, tenant, version, reader);
      if last.tenant == tenant && last.version == version {
        assert Without(chunks, tenant, version) == Without(front, tenant, version);
      } else {
        assert (Without(front, tenant, version) + [last])[..|Without(front, tenant, version)|]
            == Without(front, tenant, version);
      }
    }
  }

  lemma {:induction false} WithoutConcat(a: seq<IndexedChunk>, b: seq<IndexedChunk>, tenant: Id, version: string)
    ensures Without(a + b, tenant, version) == Without(a, tenant, version) + Without(b, tenant, version)
  {
    if b == [] {
      assert a + b == a;
    } else {
      WithoutConcat(a, b[..|b| - 1], tenant, version);
      assert (a + b)[..|a + b| - 1] == a + b[..|b| - 1];
    }
  }

  lemma {:induction false} WithoutNone(chunks: seq<IndexedChunk>, tenant: Id, version: string)
    requires forall i :: 0 <= i < |chunks| ==> !(chunks[i].tenant == tenant && chunks[i].version == version)
    ensures Without(chunks, tenant, version) == chunks
  {
    if chunks != [] {
      WithoutNone(chunks[..|chunks| - 1], tenant, version);
    }
  }

  lemma {:induction false} WithoutAll(chunks: seq<IndexedChunk>, tenant: Id, version: string)
    requires forall i :: 0 <= i < |chunks| ==> chunks[i].tenant == tenant && chunks[i].version == version
    ensures Without(chunks, tenant, version) == []
  {
    if chunks != [] {
      WithoutAll(chunks[..|chunks| - 1], tenant, version);
    }
  }

  /** Deleting undoes indexing: a version that was not there before leaves the store as it was. */
  lemma DeleteUndoesIndex(chunks: seq<IndexedChunk>, added: seq<IndexedChunk>, tenant: Id, version: string)
    requires forall i :: 0 <= i < |chunks| ==> !(chunks[i].tenant == tenant && chunks[i].version == version)
    requires forall i :: 0 <= i < |added| ==> added[i].tenant == tenant && added[i].version == version
    ensures Without(chunks + added, tenant, version) == chunks
  {
    WithoutConcat(chunks, added, tenant, version);
    WithoutNone(chunks, tenant, version);
    WithoutAll(added, tenant, version);
  }
}
