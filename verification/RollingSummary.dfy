// The versioned summary chain, and exactly-once summarisation on top of the append order.
module RollingSummary {
  import opened Entities
  import opened Tables
  import opened Memory
  import opened Logs
  import opened Protocol
  import opened Invariants
  import opened Safety
  import opened SummaryPlan

  /** Under any interleaving of listings, model calls, checks and inserts: the stored versions of a
      conversation are exactly 1..n in order, coverage strictly increases, and each summary was
      built from the text of the one before it. */
  lemma VersionsFormChain(cfg: Config, steps: seq<Step>, c: Id, k: nat)
    requires c in Run(cfg, INITIAL, steps).tables.conversations
    requires k < |SummariesOf(Run(cfg, INITIAL, steps).tables.summaries, c)|
    ensures var rows := SummariesOf(Run(cfg, INITIAL, steps).tables.summaries, c);
      && rows[k].sourceVersion == k + 1
      && CoveredBefore(rows, k + 1) < rows[k].coveredThrough
      && rows[k].origin.prior == TextBefore(rows, k + 1)
      && HasSequence(Log(Run(cfg, INITIAL, steps).tables.messages, c), rows[k].coveredThrough)
  {
    ReachableInv(cfg, steps);
    var t := Run(cfg, INITIAL, steps).tables;
    assert ConversationOk(t, c, cfg.memory.Keep());
    assert ChainEntryOk(Log(t.messages, c), SummariesOf(t.summaries, c), k, cfg.memory.Keep());
  }

  /** Stored summaries are never changed or removed. */
  lemma SummariesAreImmutable(cfg: Config, steps: seq<Step>, more: seq<Step>)
    ensures Run(cfg, INITIAL, steps).tables.summaries <= Run(cfg, INITIAL, steps + more).tables.summaries
  {
    ReachableInv(cfg, steps);
    RunConcat(cfg, INITIAL, steps, more);
    RunKeepsInv(cfg, Run(cfg, INITIAL, steps), more);
  }

  /** Everything the model was shown for these summaries, in order. */
  function Shown(rows: seq<Summary>): seq<Message> {
    if rows == [] then [] else Shown(rows[..|rows| - 1]) + rows[|rows| - 1].origin.messages
  }

  /** No listing behind these summaries was cut off by its limit. */
  predicate ListingsComplete(rows: seq<Summary>) {
    forall k :: 0 <= k < |rows| ==> rows[k].origin.uncovered <= LISTING_LIMIT
  }

  function CoveredNow(rows: seq<Summary>): nat {
    if rows == [] then 0 else rows[|rows| - 1].coveredThrough
  }

  lemma ChainPrefix(log: seq<Message>, rows: seq<Summary>, n: nat, keep: nat)
    requires ChainOk(log, rows, keep) && n <= |rows|
    ensures ChainOk(log, rows[..n], keep)
  {
    forall k | 0 <= k < n
      ensures ChainEntryOk(log, rows[..n], k, keep)
    {
      assert ChainEntryOk(log, rows, k, keep);
      assert CoveredBefore(rows[..n], k + 1) == CoveredBefore(rows, k + 1);
      assert TextBefore(rows[..n], k + 1) == TextBefore(rows, k + 1);
    }
  }

  /** How many messages the listings behind these summaries were too short for. */
  function PassedOver(rows: seq<Summary>): nat {
    if rows == [] then 0
    else
      var uncovered := rows[|rows| - 1].origin.uncovered;
      PassedOver(rows[..|rows| - 1]) + uncovered - Listed(uncovered)
  }

  lemma {:induction false} NothingPassedOver(rows: seq<Summary>)
    ensures PassedOver(rows) == 0 <==> ListingsComplete(rows)
  {
    if rows != [] {
      NothingPassedOver(rows[..|rows| - 1]);
      assert ListingsComplete(rows)
          <==> ListingsComplete(rows[..|rows| - 1]) && rows[|rows| - 1].origin.uncovered <= LISTING_LIMIT;
    }
  }

  /** What one more summary adds to what was shown and to what is covered. */
  lemma OneMore(log: seq<Message>, prior: nat, text: string, s: Summary, keep: nat, shown: seq<Message>)
    requires Increasing(log) && EntryOk(log, prior, text, s, keep)
    ensures |UpTo(log, s.coveredThrough)|
      == |UpTo(log, prior)| + |s.origin.messages| + s.origin.uncovered - Listed(s.origin.uncovered)
    ensures shown == UpTo(log, prior) && s.origin.uncovered <= LISTING_LIMIT
      ==> shown + s.origin.messages == UpTo(log, s.coveredThrough)
  {
    var added := Added(log, prior, s.coveredThrough);
    UpToMonotone(log, prior, s.coveredThrough);
    assert UpTo(log, s.coveredThrough) == UpTo(log, prior) + added;
    if |s.origin.messages| == |added| {
      assert s.origin.messages == added[0..];
    }
  }

  /** The covered messages are those that the model was shown and those that were passed over. */
  lemma {:induction false} ShownAgainstCovered(log: seq<Message>, rows: seq<Summary>, keep: nat)
    requires Increasing(log) && ChainOk(log, rows, keep)
    requires forall i :: 0 <= i < |log| ==> log[i].sequence >= 1
    ensures |Shown(rows)| + PassedOver(rows) == |UpTo(log, CoveredNow(rows))|
    ensures ListingsComplete(rows) ==> Shown(rows) == UpTo(log, CoveredNow(rows))
    decreases |rows|
  {
    if rows == [] {
      AtCut(log, 1, 0);
    } else {
      var n := |rows| - 1;
      ChainPrefix(log, rows, n, keep);
      ShownAgainstCovered(log, rows[..n], keep);
      assert ChainEntryOk(log, rows, n, keep);
      assert CoveredNow(rows[..n]) == CoveredBefore(rows, n + 1);
      OneMore(log, CoveredBefore(rows, n + 1), TextBefore(rows, n + 1), rows[n], keep, Shown(rows[..n]));
    }
  }

  /** Exactly-once summarisation, with any number of concurrent writers and summarisers: what the
      model was shown for versions 1..n, put together, is exactly the log up to the covered
      sequence, in order, nothing skipped and nothing repeated, if and only if no listing behind a
      stored version was cut off at 1000 messages. */
  lemma SummarisedExactlyOnce(cfg: Config, steps: seq<Step>, c: Id)
    requires c in Run(cfg, INITIAL, steps).tables.conversations
    ensures var t := Run(cfg, INITIAL, steps).tables;
      var rows := SummariesOf(t.summaries, c);
      Shown(rows) == UpTo(Log(t.messages, c), CoveredNow(rows)) <==> ListingsComplete(rows)
  {
    ReachableInv(cfg, steps);
    var t := Run(cfg, INITIAL, steps).tables;
    assert ConversationOk(t, c, cfg.memory.Keep());
    TurnLogShape(Log(t.messages, c), t.conversations[c].version);
    ShownAgainstCovered(Log(t.messages, c), SummariesOf(t.summaries, c), cfg.memory.Keep());
    NothingPassedOver(SummariesOf(t.summaries, c));
  }

  /** The listing of a summariser holds all uncovered messages if and only if there are at most
      1000 of them; otherwise it lacks the oldest ones, which the next coverage then passes over. */
  lemma ListingCompleteIff(cfg: Config, steps: seq<Step>, tenant: Id, c: Id)
    requires Belongs(Run(cfg, INITIAL, steps).tables, tenant, c)
    ensures var t := Run(cfg, INITIAL, steps).tables;
      var rows := SummariesOf(t.summaries, c);
      var listed := WhereAfter(ListMessages(t, tenant, c, LISTING_LIMIT, None), CoveredNow(rows));
      var uncovered := WhereAfter(Log(t.messages, c), CoveredNow(rows));
      && listed == Newest(uncovered, LISTING_LIMIT)
      && (listed == uncovered <==> |uncovered| <= LISTING_LIMIT)
  {
    ReachableInv(cfg, steps);
    var t := Run(cfg, INITIAL, steps).tables;
    ListingIsTail(t, tenant, c, LISTING_LIMIT, cfg.memory.Keep());
    AfterOfNewest(Log(t.messages, c), LISTING_LIMIT, CoveredNow(SummariesOf(t.summaries, c)));
    NewestIsTail(WhereAfter(Log(t.messages, c), CoveredNow(SummariesOf(t.summaries, c))), LISTING_LIMIT);
  }

  /** The uncovered messages of the log start at `from`, the listing holds the newest 1000 of them, and
      a summary is planned exactly when the listing holds more than the window and more than the trigger:
      of all of it but the last window, and with the newest stored text. */
  predicate IsPlan(log: seq<Message>, rows: seq<Summary>, cfg: MemoryConfig, from: nat, plan: Option<Draft>) {
    && from <= |log|
    && (forall i :: 0 <= i < |log| ==>
      (i >= from <==> rows == [] || log[i].sequence > rows[|rows| - 1].coveredThrough))
    && var start, window := if |log| - from <= 1000 then from else |log| - 1000, cfg.recentTurns * 2;
      && (plan.Some? <==> |log| - start > window && |log| - start > cfg.triggerTurns)
      && (plan.Some? ==>
        plan.value.prior == (if rows == [] then None else Some(rows[|rows| - 1]))
        && plan.value.messages == log[start..|log| - window] && plan.value.uncovered == |log| - from)
  }

  /** When a summary is planned and what goes into it, in every reachable state. */
  lemma PlannedIff(cfg: Config, steps: seq<Step>, tenant: Id, c: Id) returns (from: nat)
    requires Belongs(Run(cfg, INITIAL, steps).tables, tenant, c)
    ensures var t := Run(cfg, INITIAL, steps).tables;
      IsPlan(Log(t.messages, c), SummariesOf(t.summaries, c), cfg.memory, from, PlanSummary(t, cfg.memory, tenant, c))
  {
    hide IsPlan, PlanSummary, TablesOk;
    ReachableInv(cfg, steps);
    from := SoundPlan(Run(cfg, INITIAL, steps).tables, cfg.memory, tenant, c);
  }

  lemma SoundPlan(t: Tables, cfg: MemoryConfig, tenant: Id, c: Id) returns (from: nat)
    requires TablesOk(t, cfg.Keep()) && Belongs(t, tenant, c)
    ensures IsPlan(Log(t.messages, c), SummariesOf(t.summaries, c), cfg, from, PlanSummary(t, cfg, tenant, c))
  {
    hide TablesOk, ListMessages, LatestSummary, IsCut;
    var log, rows := Log(t.messages, c), SummariesOf(t.summaries, c);
    SoundLog(t, tenant, c, cfg.Keep());
    LatestIsLast(t, tenant, c, cfg.Keep());
    PositiveLog(t, c, cfg.Keep());
    from := UncoveredFrom(log, CoveredNow(rows));
    ListingIsTail(t, tenant, c, LISTING_LIMIT, cfg.Keep());
    AfterOfNewest(log, LISTING_LIMIT, CoveredNow(rows));
    PlanOf(log, rows, cfg, from, PlanSummary(t, cfg, tenant, c));
  }

  lemma PositiveLog(t: Tables, c: Id, keep: nat)
    requires TablesOk(t, keep) && c in t.conversations
    ensures forall i :: 0 <= i < |Log(t.messages, c)| ==> Log(t.messages, c)[i].sequence >= 1
  {
    assert ConversationOk(t, c, keep);
    TurnLogShape(Log(t.messages, c), t.conversations[c].version);
  }

  /** Where the uncovered messages start. */
  lemma UncoveredFrom(log: seq<Message>, covered: nat) returns (from: nat)
    requires Increasing(log)
    ensures from <= |log| && WhereAfter(log, covered) == log[from..]
    ensures forall i :: 0 <= i < |log| ==> (i >= from <==> log[i].sequence > covered)
  {
    from := CutExists(log, covered + 1);
    AtCut(log, covered + 1, from);
  }

  /** A plan by its parts. */
  lemma PlanOf(log: seq<Message>, rows: seq<Summary>, cfg: MemoryConfig, from: nat, plan: Option<Draft>)
    requires from <= |log| && forall i :: 0 <= i < |log| ==> log[i].sequence >= 1
    requires forall i :: 0 <= i < |log| ==> (i >= from <==> log[i].sequence > CoveredNow(rows))
    requires var pending := Newest(log[from..], LISTING_LIMIT);
      plan == if |pending| <= cfg.Threshold() then None
              else Some(Draft(if rows == [] then None else Some(rows[|rows| - 1]), pending[..|pending| - cfg.Keep()],
                              |log[from..]|))
    ensures IsPlan(log, rows, cfg, from, plan)
  {
    var start := if |log| - from <= 1000 then from else |log| - 1000;
    assert Newest(log[from..], LISTING_LIMIT) == log[start..];
    forall i | 0 <= i < |log|
      ensures i >= from <==> rows == [] || log[i].sequence > rows[|rows| - 1].coveredThrough
    {
      assert log[i].sequence >= 1;
    }
    if plan.Some? {
      assert log[start..][..|log[start..]| - cfg.Keep()] == log[start..|log| - cfg.Keep()];
    }
  }
}
