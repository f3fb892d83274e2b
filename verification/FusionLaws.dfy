// What reciprocal rank fusion guarantees, and two laws of its scores.
module FusionLaws {
  import opened Fusion

  // ---------------------------------------------------------------- the fused list

  predicate DistinctIds(xs: seq<Scored<Candidate>>) {
    forall i, j :: 0 <= i < j < |xs| ==> xs[i].item.chunkId != xs[j].item.chunkId
  }

  predicate HasId(xs: seq<Scored<Candidate>>, id: string) {
    exists i :: 0 <= i < |xs| && xs[i].item.chunkId == id
  }

  lemma {:induction false} ScoresAt(lists: seq<RankedList>, k: nat, ids: seq<string>, i: nat)
    requires (forall id :: id in ids ==> Occurs(Everyone(lists), id)) && i < |ids|
    ensures |Scores(lists, k, ids)| == |ids|
    ensures Scores(lists, k, ids)[i]
         == Scored(Everyone(lists)[FirstLongest(Everyone(lists), ids[i])], Score(lists, k, ids[i]))
  {
    var front := ids[..|ids| - 1];
    ScoresCount(lists, k, front);
    if i < |front| {
      ScoresAt(lists, k, front, i);
    }
  }

  lemma {:induction false} ScoresCount(lists: seq<RankedList>, k: nat, ids: seq<string>)
    requires forall id :: id in ids ==> Occurs(Everyone(lists), id)
    ensures |Scores(lists, k, ids)| == |ids|
  {
    if ids != [] {
      ScoresCount(lists, k, ids[..|ids| - 1]);
    }
  }

  lemma {:induction false} SortKeepsIds(xs: seq<Scored<Candidate>>)
    requires DistinctIds(xs)
    ensures DistinctIds(Sorted(xs))
  {
    if xs != [] {
      var front, last := xs[..|xs| - 1], xs[|xs| - 1];
      SortKeepsIds(front);
      SortedDescends(front);
      var sorted := Sorted(front);
      var p := InsertIsSplit(sorted, last);
      forall i | 0 <= i < |sorted|
        ensures sorted[i].item.chunkId != last.item.chunkId
      {
        SortedMembers(front, sorted[i]);
        var j :| 0 <= j < |front| && front[j] == sorted[i];
      }
      InsertKeepsIds(sorted, last, p);
    }
  }

  lemma InsertKeepsIds(sorted: seq<Scored<Candidate>>, x: Scored<Candidate>, p: nat)
    requires DistinctIds(sorted) && p <= |sorted|
    requires forall i :: 0 <= i < |sorted| ==> sorted[i].item.chunkId != x.item.chunkId
    ensures DistinctIds(sorted[..p] + [x] + sorted[p..])
  {
    var r := sorted[..p] + [x] + sorted[p..];
    assert forall i :: 0 <= i < |r| ==> r[i] == if i < p then sorted[i] else if i == p then x else sorted[i - 1];
  }

  /** Every fused entry carries the score of its id and the first of the longest candidates of that id. */
  lemma FusedEntry(lists: seq<RankedList>, k: nat, i: nat) returns (p: nat)
    requires i < |Fused(lists, k)|
    ensures var e, all := Fused(lists, k)[i], Everyone(lists);
      && e.key == Score(lists, k, e.item.chunkId)
      && p < |all| && e.item == all[p] && IsFirstLongest(all, p)
  {
    var all := Everyone(lists);
    FirstSeenOccur(all);
    var ids := FirstSeen(all);
    var unsorted := Unsorted(lists, k);
    ScoresCount(lists, k, ids);
    SortedMembers(unsorted, Fused(lists, k)[i]);
    var j :| 0 <= j < |unsorted| && unsorted[j] == Fused(lists, k)[i];
    ScoresAt(lists, k, ids, j);
    p := FirstLongest(all, ids[j]);
  }

  /** The fused list has every id that occurs in some recall list, each exactly once. */
  lemma FusedIds(lists: seq<RankedList>, k: nat, id: string)
    ensures DistinctIds(Fused(lists, k))
    ensures HasId(Fused(lists, k), id) <==> Occurs(Everyone(lists), id)
  {
    var all := Everyone(lists);
    FirstSeenOccur(all);
    var ids := FirstSeen(all);
    var unsorted := Unsorted(lists, k);
    UnsortedIds(lists, k);
    SortKeepsIds(unsorted);
    FirstSeenIds(all, id);
    if Occurs(all, id) {
      var j :| 0 <= j < |ids| && ids[j] == id;
      ScoresAt(lists, k, ids, j);
      SortedMembers(unsorted, unsorted[j]);
      var i :| 0 <= i < |Fused(lists, k)| && Fused(lists, k)[i] == unsorted[j];
    }
    if HasId(Fused(lists, k), id) {
      var i :| 0 <= i < |Fused(lists, k)| && Fused(lists, k)[i].item.chunkId == id;
      var p := FusedEntry(lists, k, i);
    }
  }

  lemma UnsortedIds(lists: seq<RankedList>, k: nat)
    ensures DistinctIds(Unsorted(lists, k))
  {
    FirstSeenOccur(Everyone(lists));
    var ids := FirstSeen(Everyone(lists));
    ScoresCount(lists, k, ids);
    forall i, j | 0 <= i < j < |ids|
      ensures Unsorted(lists, k)[i].item.chunkId != Unsorted(lists, k)[j].item.chunkId
    {
      ScoresAt(lists, k, ids, i);
      ScoresAt(lists, k, ids, j);
      FirstSeenDistinct(Everyone(lists), i, j);
    }
  }

  /** The fused list falls in score, and ids of equal score keep the order in which they were first
      seen: for every score it holds exactly the entries of that score, in that order. */
  lemma FusedOrder(lists: seq<RankedList>, k: nat, score: real)
    ensures Descending(Fused(lists, k))
    ensures WithKey(Fused(lists, k), score) == WithKey(Unsorted(lists, k), score)
  {
    SortedIsStable(Unsorted(lists, k), score);
  }

  // ---------------------------------------------------------------- the order of the lists

  /** Two elements with this key stand in the filtered list in the order of the list they come from. */
  lemma {:induction false} WithKeyFrom<T>(xs: seq<Scored<T>>, key: real, p: nat) returns (i: nat)
    requires p < |WithKey(xs, key)|
    ensures i < |xs| && xs[i] == WithKey(xs, key)[p] && xs[i].key == key && |WithKey(xs[..i], key)| == p
  {
    var front := xs[..|xs| - 1];
    if p < |WithKey(front, key)| {
      i := WithKeyFrom(front, key, p);
      assert xs[..i] == front[..i];
    } else {
      i := |front|;
    }
  }

  lemma {:induction false} WithKeyGrows<T>(xs: seq<Scored<T>>, key: real, i: nat, j: nat)
    requires i <= j <= |xs|
    ensures |WithKey(xs[..i], key)| <= |WithKey(xs[..j], key)|
    decreases j - i
  {
    if i < j {
      WithKeyGrows(xs, key, i, j - 1);
      assert xs[..j][..j - 1] == xs[..j - 1];
    }
  }

  lemma {:induction false} WithKeyPrefix<T>(xs: seq<Scored<T>>, i: nat, key: real)
    requires i < |xs| && xs[i].key == key
    ensures |WithKey(xs[..i], key)| < |WithKey(xs, key)| && WithKey(xs, key)[|WithKey(xs[..i], key)|] == xs[i]
  {
    if i < |xs| - 1 {
      WithKeyPrefix(xs[..|xs| - 1], i, key);
      assert xs[..|xs| - 1][..i] == xs[..i];
    }
  }

  /** The first candidate with the id at place i comes before every candidate with the id at place j. */
  lemma {:induction false} FirstSeenInOrder(candidates: seq<Candidate>, i: nat, j: nat) returns (a: nat)
    requires i < j < |FirstSeen(candidates)|
    ensures a < |candidates| && candidates[a].chunkId == FirstSeen(candidates)[i]
    ensures forall b :: 0 <= b <= a ==> candidates[b].chunkId != FirstSeen(candidates)[j]
  {
    var front := candidates[..|candidates| - 1];
    if j < |FirstSeen(front)| {
      a := FirstSeenInOrder(front, i, j);
    } else {
      FirstSeenIds(front, FirstSeen(candidates)[i]);
      a :| 0 <= a < |front| && front[a].chunkId == FirstSeen(candidates)[i];
      FirstSeenIds(front, FirstSeen(candidates)[j]);
    }
  }

  /** Entries of equal score stand in the order in which their ids first occur in the lists. */
  lemma TiesKeepOrder(lists: seq<RankedList>, k: nat, i: nat, j: nat) returns (a: nat)
    requires i < j < |Fused(lists, k)| && Fused(lists, k)[i].key == Fused(lists, k)[j].key
    ensures var fused, all := Fused(lists, k), Everyone(lists);
      && a < |all| && all[a].chunkId == fused[i].item.chunkId
      && forall b :: 0 <= b <= a ==> all[b].chunkId != fused[j].item.chunkId
  {
    var all, fused, unsorted := Everyone(lists), Fused(lists, k), Unsorted(lists, k);
    var key := fused[i].key;
    FusedOrder(lists, k, key);
    WithKeyPrefix(fused, i, key);
    WithKeyPrefix(fused, j, key);
    WithKeyGrows(fused, key, i + 1, j);
    WithKeyAppend(fused[..i], fused[i], key);
    assert fused[..i + 1] == fused[..i] + [fused[i]];
    var x := WithKeyFrom(unsorted, key, |WithKey(fused[..i], key)|);
    var y := WithKeyFrom(unsorted, key, |WithKey(fused[..j], key)|);
    if y <= x {
      WithKeyGrows(unsorted, key, y, x);
    }
    a := UnsortedInOrder(lists, k, x, y);
  }

  lemma UnsortedInOrder(lists: seq<RankedList>, k: nat, x: nat, y: nat) returns (a: nat)
    requires x < y < |Unsorted(lists, k)|
    ensures var all := Everyone(lists);
      && a < |all| && all[a].chunkId == Unsorted(lists, k)[x].item.chunkId
      && forall b :: 0 <= b <= a ==> all[b].chunkId != Unsorted(lists, k)[y].item.chunkId
  {
    var all := Everyone(lists);
    FirstSeenOccur(all);
    ScoresCount(lists, k, FirstSeen(all));
    ScoresAt(lists, k, FirstSeen(all), x);
    ScoresAt(lists, k, FirstSeen(all), y);
    a := FirstSeenInOrder(all, x, y);
  }

  /** How a score comes about: nothing from no lists and from an empty list, and weight / (k + rank)
      from each further candidate of the id, ranks counted from one. */
  lemma ScoreAddsUp(before: seq<RankedList>, candidates: seq<Candidate>, c: Candidate, weight: real, k: nat, id: string)
    ensures Score([], k, id) == 0.0 && Score(before + [RankedList([], weight)], k, id) == Score(before, k, id)
    ensures Score(before + [RankedList(candidates + [c], weight)], k, id)
         == Score(before + [RankedList(candidates, weight)], k, id)
            + if c.chunkId == id then weight / (k + |candidates + [c]|) as real else 0.0
  {
    assert (candidates + [c])[..|candidates|] == candidates;
    assert (before + [RankedList(candidates + [c], weight)])[..|before|] == before;
    assert (before + [RankedList(candidates, weight)])[..|before|] == before;
    assert (before + [RankedList([], weight)])[..|before|] == before;
  }

  lemma {:induction false} ScoreConcat(a: seq<RankedList>, b: seq<RankedList>, k: nat, id: string)
    ensures Score(a + b, k, id) == Score(a, k, id) + Score(b, k, id)
  {
    if b == [] {
      assert a + b == a;
    } else {
      ScoreConcat(a, b[..|b| - 1], k, id);
      assert (a + b)[..|a + b| - 1] == a + b[..|b| - 1];
    }
  }

  lemma ScoreOfRemoval(lists: seq<RankedList>, i: nat, k: nat, id: string)
    requires i < |lists|
    ensures Score(lists, k, id)
         == Score(lists[..i] + lists[i + 1..], k, id) + ListScore(lists[i].candidates, lists[i].weight, k, id)
  {
    assert lists == (lists[..i] + [lists[i]]) + lists[i + 1..];
    ScoreConcat(lists[..i] + [lists[i]], lists[i + 1..], k, id);
    ScoreConcat(lists[..i], [lists[i]], k, id);
    ScoreConcat(lists[..i], lists[i + 1..], k, id);
    assert [lists[i]][..0] == [];
  }

  lemma RemoveFromBoth<T>(front: seq<T>, last: T, b: seq<T>) returns (i: nat)
    requires multiset(front + [last]) == multiset(b)
    ensures i < |b| && b[i] == last && multiset(b[..i] + b[i + 1..]) == multiset(front)
  {
    assert last in multiset(b);
    i :| 0 <= i < |b| && b[i] == last;
    assert b == b[..i] + [b[i]] + b[i + 1..];
    assert multiset(b[..i] + b[i + 1..]) == multiset(b) - multiset{last} == multiset(front);
  }

  /** The order of the recall lists does not matter for any score. */
  lemma {:induction false} ScoreIgnoresListOrder(a: seq<RankedList>, b: seq<RankedList>, k: nat, id: string)
    requires multiset(a) == multiset(b)
    ensures Score(a, k, id) == Score(b, k, id)
    decreases |a|
  {
    if a == [] {
      assert |multiset(b)| == 0;
    } else {
      var front, last := a[..|a| - 1], a[|a| - 1];
      assert a == front + [last];
      var i := RemoveFromBoth(front, last, b);
      ScoreIgnoresListOrder(front, b[..i] + b[i + 1..], k, id);
      ScoreOfRemoval(b, i, k, id);
    }
  }

  lemma {:induction false} OccursSomewhere(lists: seq<RankedList>, id: string)
    ensures Occurs(Everyone(lists), id) <==> exists list :: list in lists && Occurs(list.candidates, id)
  {
    if lists != [] {
      var front, last := lists[..|lists| - 1], lists[|lists| - 1];
      OccursSomewhere(front, id);
      OccursConcat(Everyone(front), last.candidates, id);
      assert lists == front + [last];
      assert last in lists;
    }
  }

  /** Permuting the recall lists changes neither which ids are fused nor their scores. */
  lemma FusionIgnoresListOrder(a: seq<RankedList>, b: seq<RankedList>, k: nat, id: string)
    requires multiset(a) == multiset(b)
    ensures HasId(Fused(a, k), id) <==> HasId(Fused(b, k), id)
    ensures Score(a, k, id) == Score(b, k, id)
  {
    FusedIds(a, k, id);
    FusedIds(b, k, id);
    OccursSomewhere(a, id);
    OccursSomewhere(b, id);
    assert forall list :: list in a <==> list in multiset(a);
    assert forall list :: list in b <==> list in multiset(b);
    ScoreIgnoresListOrder(a, b, k, id);
  }

  // ---------------------------------------------------------------- dominance

  /** The id is ranked at most once. */
  predicate NoRepeats(candidates: seq<Candidate>, id: string) {
    forall i, j :: 0 <= i < j < |candidates| ==> !(candidates[i].chunkId == id && candidates[j].chunkId == id)
  }

  /** Wherever `e` is ranked, `d` is ranked no worse. */
  predicate RankedNoWorse(candidates: seq<Candidate>, d: string, e: string) {
    forall r :: 0 <= r < |candidates| && candidates[r].chunkId == e ==>
      exists s :: 0 <= s <= r && candidates[s].chunkId == d
  }

  lemma ShareFalls(weight: real, k: nat, s: nat, r: nat)
    requires weight >= 0.0 && s <= r
    ensures Share(weight, k, s) >= Share(weight, k, r) >= 0.0
  {
    var x, y := (k + s + 1) as real, (k + r + 1) as real;
    assert 0.0 < x <= y;
    QuotientFalls(weight, x, y);
  }

  lemma QuotientFalls(w: real, x: real, y: real)
    requires w >= 0.0 && 0.0 < x <= y
    ensures w / x >= w / y >= 0.0
  {
    var q := w / y;
    assert q * y == w;
    assert q >= 0.0;
    assert q * x <= q * y;
    assert (w / x) * x == w;
    if w / x < q {
      assert (w / x) * x < q * x;
    }
  }

  lemma {:induction false} ListScoreNonNegative(candidates: seq<Candidate>, weight: real, k: nat, id: string)
    requires weight >= 0.0
    ensures ListScore(candidates, weight, k, id) >= 0.0
  {
    if candidates != [] {
      ListScoreNonNegative(candidates[..|candidates| - 1], weight, k, id);
      ShareFalls(weight, k, |candidates| - 1, |candidates| - 1);
    }
  }

  /** An id at rank s contributes at least its share there. */
  lemma {:induction false} ListScoreAtLeast(candidates: seq<Candidate>, weight: real, k: nat, s: nat)
    requires weight >= 0.0 && s < |candidates|
    ensures ListScore(candidates, weight, k, candidates[s].chunkId) >= Share(weight, k, s)
  {
    var rank := |candidates| - 1;
    ListScoreNonNegative(candidates[..rank], weight, k, candidates[s].chunkId);
    ShareFalls(weight, k, rank, rank);
    if s < rank {
      ListScoreAtLeast(candidates[..rank], weight, k, s);
    }
  }

  /** An id that is ranked once contributes exactly its share. */
  lemma {:induction false} ListScoreExactly(candidates: seq<Candidate>, weight: real, k: nat, r: nat)
    requires r < |candidates| && NoRepeats(candidates, candidates[r].chunkId)
    ensures ListScore(candidates, weight, k, candidates[r].chunkId) == Share(weight, k, r)
  {
    var rank := |candidates| - 1;
    if r < rank {
      ListScoreExactly(candidates[..rank], weight, k, r);
    } else {
      ListScoreOfAbsent(candidates[..rank], weight, k, candidates[r].chunkId);
    }
  }

  lemma ListDominates(candidates: seq<Candidate>, weight: real, k: nat, d: string, e: string)
    requires weight >= 0.0 && NoRepeats(candidates, e) && RankedNoWorse(candidates, d, e)
    ensures ListScore(candidates, weight, k, d) >= ListScore(candidates, weight, k, e)
  {
    if Occurs(candidates, e) {
      var r :| 0 <= r < |candidates| && candidates[r].chunkId == e;
      var s :| 0 <= s <= r && candidates[s].chunkId == d;
      ListScoreExactly(candidates, weight, k, r);
      ListScoreAtLeast(candidates, weight, k, s);
      ShareFalls(weight, k, s, r);
    } else {
      ListScoreOfAbsent(candidates, weight, k, e);
      ListScoreNonNegative(candidates, weight, k, d);
    }
  }

  predicate Dominates(lists: seq<RankedList>, d: string, e: string) {
    forall i :: 0 <= i < |lists| ==>
      lists[i].weight >= 0.0 && NoRepeats(lists[i].candidates, e) && RankedNoWorse(lists[i].candidates, d, e)
  }

  /** With weights that are not negative: what is ranked no worse in every list than an id that no
      list repeats has no lower score. */
  lemma {:induction false} DominanceIsRespected(lists: seq<RankedList>, k: nat, d: string, e: string)
    requires Dominates(lists, d, e)
    ensures Score(lists, k, d) >= Score(lists, k, e)
  {
    if lists != [] {
      var last := lists[|lists| - 1];
      DominanceIsRespected(lists[..|lists| - 1], k, d, e);
      ListDominates(last.candidates, last.weight, k, d, e);
    }
  }
}
