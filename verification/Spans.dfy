// Token estimates and the two greedy loops of ingestion/chunker.py: packing paragraphs into blocks
// and cutting a block into overlapping windows of sentences.
module Spans {
  // ---------------------------------------------------------------- token estimates

  /** `round(numerator / 8)`: to the nearest integer, halves to the even one. */
  function RoundEighths(numerator: nat): nat {
    var whole, rest := numerator / 8, numerator % 8;
    if rest < 4 || (rest == 4 && whole % 2 == 0) then whole else whole + 1
  }

  /** Rounding gives the nearest integer, and the even one of two that are equally near. */
  lemma NearestEighths(numerator: nat, r: nat)
    ensures r == RoundEighths(numerator)
      <==> 8 * r - 4 <= numerator <= 8 * r + 4 && (numerator % 8 == 4 ==> r % 2 == 0)
  {
    var whole, rest := numerator / 8, numerator % 8;
    assert numerator == 8 * whole + rest;
    if 8 * r - 4 <= numerator <= 8 * r + 4 {
      assert whole <= r <= whole + 1;
    }
  }

  /** `estimate_tokens`: 1.6 characters are one token, that is 5 eighths of a token each. */
  function EstimateTokens(text: string): nat {
    var rounded := RoundEighths(5 * |text|);
    if rounded < 1 then 1 else rounded
  }

  /** An estimate is the nearest integer to the length divided by 1.6, the even one of two. A text is at
      most twice as long as its estimate, which is at most its length. */
  lemma EstimateBounds(text: string)
    requires text != ""
    ensures 8 * EstimateTokens(text) - 4 <= 5 * |text| <= 8 * EstimateTokens(text) + 4
    ensures 5 * |text| % 8 == 4 ==> EstimateTokens(text) % 2 == 0
    ensures 1 <= EstimateTokens(text) <= |text| <= 2 * EstimateTokens(text) && EstimateTokens("") == 1
  {
    var n := |text|;
    assert 5 * n == 8 * (5 * n / 8) + 5 * n % 8;
  }

  /** The estimates of items[from..to] added up. */
  function Tokens(items: seq<string>, from: nat, to: nat): nat
    requires from <= to <= |items|
  {
    if from == to then 0 else Tokens(items, from, to - 1) + EstimateTokens(items[to - 1])
  }

  lemma {:induction false} TokensSplit(items: seq<string>, from: nat, mid: nat, to: nat)
    requires from <= mid <= to <= |items|
    ensures Tokens(items, from, to) == Tokens(items, from, mid) + Tokens(items, mid, to)
  {
    if mid < to {
      TokensSplit(items, from, mid, to - 1);
    }
  }

  // ---------------------------------------------------------------- spans

  /** The items from..to, which make one block or window. */
  datatype Span = Span(from: nat, to: nat)

  /** The end of a span that starts at `from` and has taken the items before `to`: it takes the next
      item as long as the budget allows. */
  function Grow(items: seq<string>, from: nat, to: nat, max: int): (end: nat)
    requires from <= to <= |items|
    ensures to <= end <= |items|
    decreases |items| - to
  {
    if to < |items| && Tokens(items, from, to) + EstimateTokens(items[to]) <= max then Grow(items, from, to + 1, max)
    else to
  }

  /** The start of what the next span repeats of the span from..to, given that it repeats at least
      the items at `start` and later. */
  function Carry(items: seq<string>, from: nat, start: nat, to: nat, overlap: int): (f: nat)
    requires from <= start <= to <= |items|
    ensures from <= f <= start
  {
    if from < start && Tokens(items, start, to) + EstimateTokens(items[start - 1]) <= overlap
    then Carry(items, from, start - 1, to, overlap)
    else start
  }

  /** The spans of the items from `next` on, the first of which repeats the items from..next. */
  function SpansFrom(items: seq<string>, from: nat, next: nat, max: int, overlap: int): seq<Span>
    requires from <= next <= |items|
    decreases |items| - next
  {
    if next == |items| then []
    else
      var to := Grow(items, from, next + 1, max);
      [Span(from, to)] + SpansFrom(items, Carry(items, from, to, to, overlap), to, max, overlap)
  }

  function AllSpans(items: seq<string>, max: int, overlap: int): seq<Span> {
    SpansFrom(items, 0, 0, max, overlap)
  }

  // ---------------------------------------------------------------- what spans satisfy

  /** Where the new items of span k start. */
  function NewFrom(spans: seq<Span>, next: nat, k: nat): nat
    requires k < |spans|
  {
    if k == 0 then next else spans[k - 1].to
  }

  /** A span takes an item more than it has to only if it fits, and stops only when the next one
      does not. */
  predicate IsGreedy(items: seq<string>, from: nat, next: nat, end: nat, max: int)
    requires from <= next < end <= |items|
  {
    (forall i :: next < i < end ==> Tokens(items, from, i) + EstimateTokens(items[i]) <= max)
    && (end < |items| ==> Tokens(items, from, end) + EstimateTokens(items[end]) > max)
  }

  lemma {:induction false} GrowIsGreedy(items: seq<string>, from: nat, to: nat, max: int)
    requires from <= to <= |items|
    ensures var end := Grow(items, from, to, max);
      && (forall i :: to <= i < end ==> Tokens(items, from, i) + EstimateTokens(items[i]) <= max)
      && (end < |items| ==> Tokens(items, from, end) + EstimateTokens(items[end]) > max)
    decreases |items| - to
  {
    if to < |items| && Tokens(items, from, to) + EstimateTokens(items[to]) <= max {
      GrowIsGreedy(items, from, to + 1, max);
    }
  }

  /** `f` starts the longest tail of from..to within the budget. */
  predicate IsLongestTail(items: seq<string>, from: nat, f: nat, to: nat, overlap: int)
    requires from <= f <= to <= |items|
  {
    (f < to ==> Tokens(items, f, to) <= overlap)
    && (forall g :: from <= g < f ==> Tokens(items, g, to) > overlap)
  }

  lemma {:induction false} CarryIsLongestTail(items: seq<string>, from: nat, start: nat, to: nat, overlap: int)
    requires from <= start <= to <= |items| && (start < to ==> Tokens(items, start, to) <= overlap)
    ensures IsLongestTail(items, from, Carry(items, from, start, to, overlap), to, overlap)
  {
    if from < start {
      TokensSplit(items, start - 1, start, to);
      assert Tokens(items, start - 1, start) == EstimateTokens(items[start - 1]);
      if Tokens(items, start, to) + EstimateTokens(items[start - 1]) <= overlap {
        CarryIsLongestTail(items, from, start - 1, to, overlap);
      } else {
        forall g | from <= g < start
          ensures Tokens(items, g, to) > overlap
        {
          TokensSplit(items, g, start - 1, to);
        }
      }
    }
  }

  /** What one span of a list is: it starts with the longest tail of the span before it that fits
      the overlap budget, goes on with at least one new item, and is greedy. */
  predicate SpanOk(items: seq<string>, spans: seq<Span>, k: nat, from: nat, next: nat, max: int, overlap: int)
    requires k < |spans|
  {
    var s, start := spans[k], NewFrom(spans, next, k);
    && s.from <= start < s.to <= |items|
    && IsGreedy(items, s.from, start, s.to, max)
    && (if k == 0 then s.from == from
        else spans[k - 1].from <= s.from && IsLongestTail(items, spans[k - 1].from, s.from, start, overlap))
  }

  predicate SpansOk(items: seq<string>, spans: seq<Span>, from: nat, next: nat, max: int, overlap: int) {
    && (forall k :: 0 <= k < |spans| ==> SpanOk(items, spans, k, from, next, max, overlap))
    && (if spans == [] then next == |items| else spans[|spans| - 1].to == |items|)
  }

  /** The spans are contiguous, have strictly increasing ends, repeat the longest tail that fits, and
      together take every item exactly once as a new one. */
  lemma {:induction false} SpansAreOk(items: seq<string>, from: nat, next: nat, max: int, overlap: int)
    requires from <= next <= |items|
    ensures SpansOk(items, SpansFrom(items, from, next, max, overlap), from, next, max, overlap)
    decreases |items| - next
  {
    if next < |items| {
      var to := Grow(items, from, next + 1, max);
      GrowIsGreedy(items, from, next + 1, max);
      CarryIsLongestTail(items, from, to, to, overlap);
      var carried := Carry(items, from, to, to, overlap);
      SpansAreOk(items, carried, to, max, overlap);
      var rest := SpansFrom(items, carried, to, max, overlap);
      ConsSpansOk(items, Span(from, to), rest, carried, next, max, overlap);
    }
  }

  lemma ConsSpansOk(items: seq<string>, s: Span, rest: seq<Span>, carried: nat, next: nat, max: int, overlap: int)
    requires s.from <= next < s.to <= |items| && IsGreedy(items, s.from, next, s.to, max)
    requires s.from <= carried <= s.to && IsLongestTail(items, s.from, carried, s.to, overlap)
    requires SpansOk(items, rest, carried, s.to, max, overlap)
    ensures SpansOk(items, [s] + rest, s.from, next, max, overlap)
  {
    var spans := [s] + rest;
    forall k | 0 <= k < |spans|
      ensures SpanOk(items, spans, k, s.from, next, max, overlap)
    {
      if k > 0 {
        ConsSpanOk(items, s, rest, carried, next, max, overlap, k);
      }
    }
    assert rest != [] ==> spans[|spans| - 1] == rest[|rest| - 1];
  }

  lemma ConsSpanOk(items: seq<string>, s: Span, rest: seq<Span>, carried: nat, next: nat, max: int, overlap: int,
                   k: nat)
    requires 0 < k <= |rest| && s.from <= carried <= s.to <= |items|
    requires IsLongestTail(items, s.from, carried, s.to, overlap)
    requires SpanOk(items, rest, k - 1, carried, s.to, max, overlap)
    ensures SpanOk(items, [s] + rest, k, s.from, next, max, overlap)
  {
    var spans := [s] + rest;
    assert spans[k] == rest[k - 1];
    if k == 1 {
      assert spans[0] == s;
    } else {
      assert spans[k - 1] == rest[k - 2];
    }
  }

  // ---------------------------------------------------------------- how many tokens a span has

  function Longest(items: seq<string>): nat {
    if items == [] then 0
    else
      var rest, last := Longest(items[..|items| - 1]), EstimateTokens(items[|items| - 1]);
      if rest < last then last else rest
  }

  lemma {:induction false} LongestBounds(items: seq<string>, i: nat)
    requires i < |items|
    ensures EstimateTokens(items[i]) <= Longest(items)
  {
    if i < |items| - 1 {
      LongestBounds(items[..|items| - 1], i);
    }
  }

  /** The bound on a window: the budget, or what is carried over and one item, whichever is more. */
  function Bound(items: seq<string>, max: int, overlap: int): int {
    var carried := (if overlap > 0 then overlap else 0) + Longest(items);
    if max > carried then max else carried
  }

  lemma SpanWithinBound(items: seq<string>, max: int, overlap: int, k: nat)
    requires k < |AllSpans(items, max, overlap)|
    ensures var s := AllSpans(items, max, overlap)[k];
      s.from < s.to <= |items| && Tokens(items, s.from, s.to) <= Bound(items, max, overlap)
  {
    var spans := AllSpans(items, max, overlap);
    SpansAreOk(items, 0, 0, max, overlap);
    assert SpanOk(items, spans, k, 0, 0, max, overlap);
    LongestBounds(items, spans[k].to - 1);
  }

  /** The code does not check the carried items again: a window exceeds its budget if and only if
      its first new item already does, together with what is carried; it is then its only new item. */
  lemma OverBudgetIff(items: seq<string>, max: int, overlap: int, k: nat)
    requires k < |AllSpans(items, max, overlap)|
    ensures var spans := AllSpans(items, max, overlap);
      var s, start := spans[k], NewFrom(spans, 0, k);
      && s.from <= start < s.to <= |items|
      && (Tokens(items, s.from, s.to) > max <==> Tokens(items, s.from, start + 1) > max)
      && (Tokens(items, s.from, s.to) > max ==> s.to == start + 1)
  {
    var spans := AllSpans(items, max, overlap);
    SpansAreOk(items, 0, 0, max, overlap);
    assert SpanOk(items, spans, k, 0, 0, max, overlap);
    var s, start := spans[k], NewFrom(spans, 0, k);
    TokensSplit(items, s.from, start + 1, s.to);
  }

  // ---------------------------------------------------------------- packing is optimal

  /** `ends` cuts the items from `from` on into consecutive blocks, each of one item or within the
      budget. */
  predicate IsPacking(items: seq<string>, from: nat, ends: seq<nat>, max: int)
    decreases |ends|
  {
    from <= |items|
    && if ends == [] then from == |items|
       else from < ends[0] <= |items|
            && (ends[0] == from + 1 || Tokens(items, from, ends[0]) <= max)
            && IsPacking(items, ends[0], ends[1..], max)
  }

  function Ends(spans: seq<Span>): seq<nat> {
    if spans == [] then [] else [spans[0].to] + Ends(spans[1..])
  }

  /** Without overlap the next span starts where the last one ended. */
  lemma NothingCarried(items: seq<string>, from: nat, to: nat)
    requires from <= to <= |items|
    ensures Carry(items, from, to, to, 0) == to
  {
  }

  /** Packing gives a packing. */
  lemma {:induction false} PackIsPacking(items: seq<string>, from: nat, max: int)
    requires from <= |items|
    ensures IsPacking(items, from, Ends(SpansFrom(items, from, from, max, 0)), max)
    decreases |items| - from
  {
    if from < |items| {
      var to := Grow(items, from, from + 1, max);
      NothingCarried(items, from, to);
      GrowIsGreedy(items, from, from + 1, max);
      PackIsPacking(items, to, max);
      assert SpansFrom(items, from, from, max, 0)[1..] == SpansFrom(items, to, to, max, 0);
      if to > from + 1 {
        assert Tokens(items, from, to) == Tokens(items, from, to - 1) + EstimateTokens(items[to - 1]);
      }
    }
  }

  lemma {:induction false} GrowReaches(items: seq<string>, from: nat, to: nat, end: nat, max: int)
    requires from <= to <= end <= |items| && (to < end ==> Tokens(items, from, end) <= max)
    ensures Grow(items, from, to, max) >= end
    decreases end - to
  {
    if to < end {
      TokensSplit(items, from, to + 1, end);
      GrowReaches(items, from, to + 1, end, max);
    }
  }

  /** A packing that starts no later needs no fewer blocks. */
  lemma {:induction false} PackIsOptimal(items: seq<string>, from: nat, max: int, other: nat, ends: seq<nat>)
    requires other <= from <= |items| && IsPacking(items, other, ends, max)
    ensures |SpansFrom(items, from, from, max, 0)| <= |ends|
    decreases |ends|
  {
    if from < |items| {
      var end := ends[0];
      if end <= from {
        PackIsOptimal(items, from, max, end, ends[1..]);
      } else {
        var to := Grow(items, from, from + 1, max);
        if end > from + 1 {
          TokensSplit(items, other, from, end);
        }
        GrowReaches(items, from, from + 1, end, max);
        NothingCarried(items, from, to);
        PackIsOptimal(items, to, max, end, ends[1..]);
      }
    }
  }

  /** Greedy packing needs the fewest blocks: no other way to cut the paragraphs into consecutive
      blocks of one paragraph or within the budget has fewer. */
  lemma FewestBlocks(items: seq<string>, max: int, ends: seq<nat>)
    requires IsPacking(items, 0, ends, max)
    ensures IsPacking(items, 0, Ends(AllSpans(items, max, 0)), max)
    ensures |Ends(AllSpans(items, max, 0))| <= |ends|
  {
    PackIsPacking(items, 0, max);
    PackIsOptimal(items, 0, max, 0, ends);
    EndsCount(AllSpans(items, max, 0));
  }

  lemma {:induction false} EndsCount(spans: seq<Span>)
    ensures |Ends(spans)| == |spans|
  {
    if spans != [] {
      EndsCount(spans[1..]);
    }
  }
}
