// Reciprocal rank fusion: `reciprocal_rank_fusion` of application/retrieval_service.py, over exact
// reals.
module Fusion {
  import opened Entities

  datatype RecallSource = Dense | Bm25

  datatype Candidate = Candidate(
    chunkId: string, version: string, parent: string, text: string, score: real, source: RecallSource,
    title: Option<string>, path: Option<string>, page: Option<int>)

  /** One recall list with its weight. */
  datatype RankedList = RankedList(candidates: seq<Candidate>, weight: real)

  // ---------------------------------------------------------------- stable sorting

  datatype Scored<T> = Scored(item: T, key: real)

  /** Before the first element with a smaller key. */
  function Insert<T>(sorted: seq<Scored<T>>, x: Scored<T>): seq<Scored<T>> {
    if sorted == [] || sorted[|sorted| - 1].key >= x.key then sorted + [x]
    else Insert(sorted[..|sorted| - 1], x) + [sorted[|sorted| - 1]]
  }

  /** `sort(key=..., reverse=True)` */
  function Sorted<T>(xs: seq<Scored<T>>): seq<Scored<T>> {
    if xs == [] then [] else Insert(Sorted(xs[..|xs| - 1]), xs[|xs| - 1])
  }

  predicate Descending<T>(xs: seq<Scored<T>>) {
    forall i, j :: 0 <= i < j < |xs| ==> xs[i].key >= xs[j].key
  }

  function WithKey<T>(xs: seq<Scored<T>>, key: real): seq<Scored<T>> {
    if xs == [] then []
    else WithKey(xs[..|xs| - 1], key) + if xs[|xs| - 1].key == key then [xs[|xs| - 1]] else []
  }

  lemma WithKeyAppend<T>(xs: seq<Scored<T>>, x: Scored<T>, key: real)
    ensures WithKey(xs + [x], key) == WithKey(xs, key) + if x.key == key then [x] else []
  {
    assert (xs + [x])[..|xs|] == xs;
  }

  lemma {:induction false} InsertIsSplit<T>(sorted: seq<Scored<T>>, x: Scored<T>) returns (p: nat)
    requires Descending(sorted)
    ensures p <= |sorted| && Insert(sorted, x) == sorted[..p] + [x] + sorted[p..]
    ensures (forall i :: 0 <= i < p ==> sorted[i].key >= x.key)
      && (forall i :: p <= i < |sorted| ==> sorted[i].key < x.key)
  {
    if sorted == [] || sorted[|sorted| - 1].key >= x.key {
      p := |sorted|;
    } else {
      var front, last := sorted[..|sorted| - 1], sorted[|sorted| - 1];
      p := InsertIsSplit(front, x);
      assert front[..p] == sorted[..p] && front[p..] + [last] == sorted[p..];
      assert Insert(sorted, x) == (front[..p] + [x] + front[p..]) + [last];
    }
  }

  lemma InsertDescending<T>(sorted: seq<Scored<T>>, x: Scored<T>)
    requires Descending(sorted)
    ensures Descending(Insert(sorted, x))
  {
    var p := InsertIsSplit(sorted, x);
  }

  lemma {:induction false} InsertWithKey<T>(sorted: seq<Scored<T>>, x: Scored<T>, key: real)
    requires Descending(sorted)
    ensures WithKey(Insert(sorted, x), key) == WithKey(sorted, key) + if x.key == key then [x] else []
  {
    if sorted == [] || sorted[|sorted| - 1].key >= x.key {
      WithKeyAppend(sorted, x, key);
    } else {
      var front, last := sorted[..|sorted| - 1], sorted[|sorted| - 1];
      InsertWithKey(front, x, key);
      WithKeyAppend(Insert(front, x), last, key);
    }
  }

  /** Sorting is descending and stable: for every key, the elements with that key are the same, in
      the same order. */
  lemma {:induction false} SortedIsStable<T>(xs: seq<Scored<T>>, key: real)
    ensures Descending(Sorted(xs)) && WithKey(Sorted(xs), key) == WithKey(xs, key)
  {
    if xs != [] {
      var front, last := xs[..|xs| - 1], xs[|xs| - 1];
      SortedIsStable(front, key);
      InsertDescending(Sorted(front), last);
      InsertWithKey(Sorted(front), last, key);
    }
  }

  lemma {:induction false} SortedDescends<T>(xs: seq<Scored<T>>)
    ensures Descending(Sorted(xs)) && |Sorted(xs)| == |xs|
  {
    if xs != [] {
      SortedDescends(xs[..|xs| - 1]);
      InsertDescending(Sorted(xs[..|xs| - 1]), xs[|xs| - 1]);
      var p := InsertIsSplit(Sorted(xs[..|xs| - 1]), xs[|xs| - 1]);
    }
  }

  lemma {:induction false} SortedMembers<T>(xs: seq<Scored<T>>, x: Scored<T>)
    ensures x in Sorted(xs) <==> x in xs
  {
    if xs != [] {
      var front, last := xs[..|xs| - 1], xs[|xs| - 1];
      SortedMembers(front, x);
      SortedDescends(front);
      var p := InsertIsSplit(Sorted(front), last);
      assert Sorted(front) == Sorted(front)[..p] + Sorted(front)[p..];
      assert xs == front + [last];
    }
  }

  // ---------------------------------------------------------------- the declarative sum

  /** What a candidate at this rank contributes. */
  function Share(weight: real, k: nat, rank: nat): real {
    weight / (k + rank + 1) as real
  }

  /** The sum over the occurrences of an id in one list. */
  function ListScore(candidates: seq<Candidate>, weight: real, k: nat, id: string): real {
    if candidates == [] then 0.0
    else
      var rank := |candidates| - 1;
      ListScore(candidates[..rank], weight, k, id) + if candidates[rank].chunkId == id then Share(weight, k, rank)
          else 0.0
  }

  /** The score of an id: the sum of weight / (k + rank + 1) over all its occurrences. */
  function Score(lists: seq<RankedList>, k: nat, id: string): real {
    if lists == [] then 0.0
    else
      var last := lists[|lists| - 1];
      Score(lists[..|lists| - 1], k, id) + ListScore(last.candidates, last.weight, k, id)
  }

  /** All candidates, list by list. */
  function Everyone(lists: seq<RankedList>): seq<Candidate> {
    if lists == [] then [] else Everyone(lists[..|lists| - 1]) + lists[|lists| - 1].candidates
  }

  /** The ids in the order in which they are first seen. */
  function FirstSeen(candidates: seq<Candidate>): seq<string> {
    if candidates == [] then []
    else
      var before, last := FirstSeen(candidates[..|candidates| - 1]), candidates[|candidates| - 1];
      before + if last.chunkId in before then [] else [last.chunkId]
  }

  predicate Occurs(candidates: seq<Candidate>, id: string) {
    exists i :: 0 <= i < |candidates| && candidates[i].chunkId == id
  }

  /** The candidate at i has the longest text of its id, and is the first of those that have it. */
  predicate IsFirstLongest(candidates: seq<Candidate>, i: nat)
    requires i < |candidates|
  {
    forall j :: 0 <= j < |candidates| && candidates[j].chunkId == candidates[i].chunkId ==>
      |candidates[j].text| <= |candidates[i].text| && (j < i ==> |candidates[j].text| < |candidates[i].text|)
  }

  /** The position of the candidate that represents an id. */
  function FirstLongest(candidates: seq<Candidate>, id: string): (i: nat)
    requires Occurs(candidates, id)
    ensures i < |candidates| && candidates[i].chunkId == id && IsFirstLongest(candidates, i)
  {
    var last := |candidates| - 1;
    var before := candidates[..last];
    if !Occurs(before, id) then
      assert forall j :: 0 <= j < last ==> before[j] == candidates[j];
      last
    else
      var i := FirstLongest(before, id);
      assert forall j :: 0 <= j < last ==> before[j] == candidates[j];
      if candidates[last].chunkId == id && |candidates[last].text| > |before[i].text| then last else i
  }

  lemma {:induction false} FirstSeenIds(candidates: seq<Candidate>, id: string)
    ensures id in FirstSeen(candidates) <==> Occurs(candidates, id)
  {
    if candidates != [] {
      var front, last := candidates[..|candidates| - 1], candidates[|candidates| - 1];
      FirstSeenIds(front, id);
      assert candidates == front + [last];
      if Occurs(front, id) {
        var i :| 0 <= i < |front| && front[i].chunkId == id;
        assert candidates[i].chunkId == id;
      }
    }
  }

  lemma {:induction false} FirstSeenDistinct(candidates: seq<Candidate>, i: nat, j: nat)
    requires i < j < |FirstSeen(candidates)|
    ensures FirstSeen(candidates)[i] != FirstSeen(candidates)[j]
  {
    var before := FirstSeen(candidates[..|candidates| - 1]);
    if j < |before| {
      FirstSeenDistinct(candidates[..|candidates| - 1], i, j);
    } else {
      assert before[i] in before;
    }
  }

  lemma FirstSeenOccur(candidates: seq<Candidate>)
    ensures forall id :: id in FirstSeen(candidates) ==> Occurs(candidates, id)
  {
    forall id | id in FirstSeen(candidates)
      ensures Occurs(candidates, id)
    {
      FirstSeenIds(candidates, id);
    }
  }

  /** The representative and the score of every id. */
  function Scores(lists: seq<RankedList>, k: nat, ids: seq<string>): seq<Scored<Candidate>>
    requires forall id :: id in ids ==> Occurs(Everyone(lists), id)
  {
    if ids == [] then []
    else
      var id, all := ids[|ids| - 1], Everyone(lists);
      Scores(lists, k, ids[..|ids| - 1]) + [Scored(all[FirstLongest(all, id)], Score(lists, k, id))]
  }

  function Unsorted(lists: seq<RankedList>, k: nat): seq<Scored<Candidate>> {
    FirstSeenOccur(Everyone(lists));
    Scores(lists, k, FirstSeen(Everyone(lists)))
  }

  function Fused(lists: seq<RankedList>, k: nat): seq<Scored<Candidate>> {
    Sorted(Unsorted(lists, k))
  }

  // ---------------------------------------------------------------- the one-pass loop

  /** What the two dictionaries hold after the candidates `done`, with scores `score`. */
  ghost predicate Tallied(done: seq<Candidate>, keys: seq<string>, best: map<string, Candidate>) {
    && keys == FirstSeen(done)
    && (forall id :: id in best <==> Occurs(done, id))
    && (forall id :: id in best ==> best[id] == done[FirstLongest(done, id)])
  }

  lemma OccursAppend(done: seq<Candidate>, c: Candidate, id: string)
    ensures Occurs(done + [c], id) <==> Occurs(done, id) || c.chunkId == id
  {
    if Occurs(done, id) {
      var i :| 0 <= i < |done| && done[i].chunkId == id;
      assert (done + [c])[i].chunkId == id;
    }
    if c.chunkId == id {
      assert (done + [c])[|done|].chunkId == id;
    }
  }

  /** The representative of an id after one more candidate. */
  lemma FirstLongestAppend(done: seq<Candidate>, c: Candidate, id: string)
    requires Occurs(done + [c], id)
    ensures var all := done + [c];
      all[FirstLongest(all, id)]
      == if !Occurs(done, id) || (c.chunkId == id && |c.text| > |done[FirstLongest(done, id)].text|) then c
         else done[FirstLongest(done, id)]
  {
    assert (done + [c])[..|done|] == done;
  }

  lemma TallyStep(done: seq<Candidate>, c: Candidate, keys: seq<string>, best: map<string, Candidate>)
    requires Tallied(done, keys, best)
    ensures Tallied(done + [c],
                    if c.chunkId in best then keys else keys + [c.chunkId],
                    if c.chunkId !in best || |c.text| > |best[c.chunkId].text| then best[c.chunkId := c] else best)
  {
    var all := done + [c];
    var best' := if c.chunkId !in best || |c.text| > |best[c.chunkId].text| then best[c.chunkId := c] else best;
    assert all[..|done|] == done;
    FirstSeenIds(done, c.chunkId);
    forall id
      ensures id in best' <==> Occurs(all, id)
      ensures id in best' ==> best'[id] == all[FirstLongest(all, id)]
    {
      OccursAppend(done, c, id);
      if id in best' {
        FirstLongestAppend(done, c, id);
      }
    }
  }

  /** What the score dictionary holds inside a list. */
  ghost predicate Summed(before: seq<RankedList>, candidates: seq<Candidate>, weight: real, k: nat,
                         scores: map<string, real>)
  {
    && (forall id :: id in scores <==> Occurs(Everyone(before) + candidates, id))
    && (forall id :: id in scores ==> scores[id] == Score(before, k, id) + ListScore(candidates, weight, k, id))
  }

  lemma {:induction false} ListScoreOfAbsent(candidates: seq<Candidate>, weight: real, k: nat, id: string)
    requires !Occurs(candidates, id)
    ensures ListScore(candidates, weight, k, id) == 0.0
  {
    if candidates != [] {
      assert candidates[|candidates| - 1].chunkId != id;
      assert forall i :: 0 <= i < |candidates| - 1 ==> candidates[..|candidates| - 1][i] == candidates[i];
      ListScoreOfAbsent(candidates[..|candidates| - 1], weight, k, id);
    }
  }

  lemma OccursConcat(a: seq<Candidate>, b: seq<Candidate>, id: string)
    ensures Occurs(a + b, id) <==> Occurs(a, id) || Occurs(b, id)
  {
    if Occurs(a, id) {
      var i :| 0 <= i < |a| && a[i].chunkId == id;
      assert (a + b)[i].chunkId == id;
    }
    if Occurs(b, id) {
      var i :| 0 <= i < |b| && b[i].chunkId == id;
      assert (a + b)[|a| + i].chunkId == id;
    }
  }

  lemma {:induction false} ScoreOfAbsent(lists: seq<RankedList>, k: nat, id: string)
    requires !Occurs(Everyone(lists), id)
    ensures Score(lists, k, id) == 0.0
  {
    if lists != [] {
      var last := lists[|lists| - 1];
      OccursConcat(Everyone(lists[..|lists| - 1]), last.candidates, id);
      ScoreOfAbsent(lists[..|lists| - 1], k, id);
      ListScoreOfAbsent(last.candidates, last.weight, k, id);
    }
  }

  lemma SumStep(before: seq<RankedList>, candidates: seq<Candidate>, c: Candidate, weight: real, k: nat,
                scores: map<string, real>)
    requires Summed(before, candidates, weight, k, scores)
    ensures var previous := if c.chunkId in scores then scores[c.chunkId] else 0.0;
      Summed(before, candidates + [c], weight, k, scores[c.chunkId := previous + Share(weight, k, |candidates|)])
  {
    var all, more := Everyone(before) + candidates, candidates + [c];
    assert Everyone(before) + more == all + [c];
    assert more[..|candidates|] == candidates;
    OccursConcat(Everyone(before), candidates, c.chunkId);
    if c.chunkId !in scores {
      ScoreOfAbsent(before, k, c.chunkId);
      ListScoreOfAbsent(candidates, weight, k, c.chunkId);
    }
    forall id
      ensures Occurs(Everyone(before) + more, id) <==> id in scores || id == c.chunkId
    {
      OccursAppend(all, c, id);
    }
  }

  /** The insertion order of the score dictionary, and the representatives. */
  method Keep(c: Candidate, known: bool, ghost done: seq<Candidate>, keys0: seq<string>, best0: map<string, Candidate>)
    returns (keys: seq<string>, best: map<string, Candidate>)
    requires Tallied(done, keys0, best0) && known == (c.chunkId in best0)
    ensures Tallied(done + [c], keys, best)
  {
    TallyStep(done, c, keys0, best0);
    keys, best := keys0, best0;
    if !known {
      keys := keys + [c.chunkId];
    }
    if c.chunkId !in best || |c.text| > |best[c.chunkId].text| {
      best := best[c.chunkId := c];
    }
  }

  method AddShare(c: Candidate, rank: nat, weight: real, k: nat, ghost before: seq<RankedList>,
                  ghost candidates: seq<Candidate>,
                  scores0: map<string, real>)
    returns (scores: map<string, real>)
    requires rank == |candidates| && Summed(before, candidates, weight, k, scores0)
    ensures Summed(before, candidates + [c], weight, k, scores)
  {
    SumStep(before, candidates, c, weight, k, scores0);
    var score := if c.chunkId in scores0 then scores0[c.chunkId] else 0.0;
    scores := scores0[c.chunkId := score + weight / (k + rank + 1) as real];
  }

  /** The state of the loops after the candidates `done` of one list. */
  ghost predicate Fusing(before: seq<RankedList>, done: seq<Candidate>, weight: real, k: nat,
                         keys: seq<string>, scores: map<string, real>, best: map<string, Candidate>)
  {
    Tallied(Everyone(before) + done, keys, best) && Summed(before, done, weight, k, scores)
  }

  lemma SameKeys(before: seq<RankedList>, done: seq<Candidate>, weight: real, k: nat,
                 keys: seq<string>, scores: map<string, real>, best: map<string, Candidate>, id: string)
    requires Fusing(before, done, weight, k, keys, scores, best)
    ensures id in scores <==> id in best
  {
  }

  /** The body of the inner loop. */
  method Count(c: Candidate, rank: nat, weight: real, k: nat, ghost before: seq<RankedList>, ghost done: seq<Candidate>,
               keys0: seq<string>, scores0: map<string, real>, best0: map<string, Candidate>)
    returns (keys: seq<string>, scores: map<string, real>, best: map<string, Candidate>)
    requires rank == |done| && Fusing(before, done, weight, k, keys0, scores0, best0)
    ensures Fusing(before, done + [c], weight, k, keys, scores, best)
  {
    SameKeys(before, done, weight, k, keys0, scores0, best0, c.chunkId);
    keys, best := Keep(c, c.chunkId in scores0, Everyone(before) + done, keys0, best0);
    scores := AddShare(c, rank, weight, k, before, done, scores0);
    assert Everyone(before) + (done + [c]) == (Everyone(before) + done) + [c];
  }

  /** The loop over one list. */
  method FuseList(list: RankedList, k: nat, ghost before: seq<RankedList>,
                  keys0: seq<string>, scores0: map<string, real>, best0: map<string, Candidate>)
    returns (keys: seq<string>, scores: map<string, real>, best: map<string, Candidate>)
    requires Fusing(before, [], list.weight, k, keys0, scores0, best0)
    ensures Fusing(before, list.candidates, list.weight, k, keys, scores, best)
  {
    keys, scores, best := keys0, scores0, best0;
    for rank := 0 to |list.candidates|
      invariant Fusing(before, list.candidates[..rank], list.weight, k, keys, scores, best)
    {
      keys, scores, best :=
        Count(list.candidates[rank], rank, list.weight, k, before, list.candidates[..rank], keys, scores, best);
      assert list.candidates[..rank + 1] == list.candidates[..rank] + [list.candidates[rank]];
    }
    assert list.candidates[..|list.candidates|] == list.candidates;
  }

  /** Between two lists. */
  lemma StartList(lists: seq<RankedList>, k: nat, weight: real,
                  keys: seq<string>, scores: map<string, real>, best: map<string, Candidate>)
    requires Tallied(Everyone(lists), keys, best) && Summed(lists, [], 0.0, k, scores)
    ensures Fusing(lists, [], weight, k, keys, scores, best)
  {
    assert Everyone(lists) + [] == Everyone(lists);
  }

  lemma NextList(lists: seq<RankedList>, i: nat, k: nat,
                 keys: seq<string>, scores: map<string, real>, best: map<string, Candidate>)
    requires i < |lists| && Fusing(lists[..i], lists[i].candidates, lists[i].weight, k, keys, scores, best)
    ensures Tallied(Everyone(lists[..i + 1]), keys, best) && Summed(lists[..i + 1], [], 0.0, k, scores)
  {
    assert lists[..i + 1][..i] == lists[..i];
    assert Everyone(lists[..i + 1]) + [] == Everyone(lists[..i]) + lists[i].candidates;
  }

  ghost predicate FusedUpTo(lists: seq<RankedList>, k: nat, keys: seq<string>, scores: map<string, real>,
                            best: map<string, Candidate>)
  {
    Tallied(Everyone(lists), keys, best) && Summed(lists, [], 0.0, k, scores)
  }

  method ReciprocalRankFusion(lists: seq<RankedList>, k: nat) returns (fused: seq<Scored<Candidate>>)
    ensures fused == Fused(lists, k)
  {
    var keys: seq<string>, scores: map<string, real>, best: map<string, Candidate> := [], map[], map[];
    for i := 0 to |lists|
      invariant FusedUpTo(lists[..i], k, keys, scores, best)
    {
      StartList(lists[..i], k, lists[i].weight, keys, scores, best);
      keys, scores, best := FuseList(lists[i], k, lists[..i], keys, scores, best);
      NextList(lists, i, k, keys, scores, best);
    }
    assert lists[..|lists|] == lists;
    fused := Collect(lists, k, keys, scores, best);
    fused := Sorted(fused);
  }

  lemma ScoresStep(lists: seq<RankedList>, k: nat, keys: seq<string>, i: nat)
    requires (forall id :: id in keys ==> Occurs(Everyone(lists), id)) && i < |keys|
    ensures Scores(lists, k, keys[..i + 1])
         == Scores(lists, k, keys[..i])
             + [Scored(Everyone(lists)[FirstLongest(Everyone(lists), keys[i])], Score(lists, k, keys[i]))]
  {
    assert keys[..i + 1][..i] == keys[..i];
  }

  lemma Entries(lists: seq<RankedList>, k: nat, keys: seq<string>, scores: map<string, real>,
                best: map<string, Candidate>)
    requires Tallied(Everyone(lists), keys, best) && Summed(lists, [], 0.0, k, scores)
    ensures forall id :: id in keys ==> Occurs(Everyone(lists), id) && id in best && id in scores
    ensures forall id :: id in keys ==> best[id] == Everyone(lists)[FirstLongest(Everyone(lists), id)]
    ensures forall id :: id in keys ==> scores[id] == Score(lists, k, id)
  {
    FirstSeenOccur(Everyone(lists));
    assert Everyone(lists) + [] == Everyone(lists);
  }

  /** The list comprehension over the score dictionary. */
  method Collect(ghost lists: seq<RankedList>, ghost k: nat,
                 keys: seq<string>, scores: map<string, real>, best: map<string, Candidate>)
    returns (fused: seq<Scored<Candidate>>)
    requires Tallied(Everyone(lists), keys, best) && Summed(lists, [], 0.0, k, scores)
    ensures (forall id :: id in keys ==> Occurs(Everyone(lists), id)) && fused == Scores(lists, k, keys)
  {
    Entries(lists, k, keys, scores, best);
    fused := [];
    for i := 0 to |keys|
      invariant fused == Scores(lists, k, keys[..i])
    {
      ScoresStep(lists, k, keys, i);
      fused := fused + [Scored(best[keys[i]], scores[keys[i]])];
    }
    assert keys[..|keys|] == keys;
  }
}
