// What `maybe_summarize` plans from a sound database: the plan continues the summary chain.
module SummaryPlan {
  import opened Entities
  import opened Tables
  import opened Memory
  import opened Logs
  import opened Invariants

  /** The message query over a sound conversation is the tail of its log. */
  lemma ListingIsTail(t: Tables, tenant: Id, c: Id, limit: nat, keep: nat)
    requires TablesOk(t, keep) && Belongs(t, tenant, c)
    ensures WhereTenant(Log(t.messages, c), tenant) == Log(t.messages, c)
    ensures Increasing(Log(t.messages, c))
    ensures ListMessages(t, tenant, c, limit, None) == Newest(Log(t.messages, c), limit)
  {
    SoundLog(t, tenant, c, keep);
    OrderOfIncreasing(Log(t.messages, c));
  }

  lemma SoundLog(t: Tables, tenant: Id, c: Id, keep: nat)
    requires TablesOk(t, keep) && Belongs(t, tenant, c)
    ensures WhereTenant(Log(t.messages, c), tenant) == Log(t.messages, c)
    ensures Increasing(Log(t.messages, c))
  {
    var log := Log(t.messages, c);
    assert ConversationOk(t, c, keep);
    TurnLogShape(log, t.conversations[c].version);
    forall i | 0 <= i < |log|
      ensures log[i].tenant == tenant
    {
      LogOnly(t.messages, c, log[i]);
      var k :| 0 <= k < |t.messages| && t.messages[k] == log[i];
      assert Belongs(t, t.messages[k].tenant, t.messages[k].conversation);
    }
    TenantOfAll(log, tenant);
  }

  /** The newest summary by version is the last one stored. */
  lemma LatestIsLast(t: Tables, tenant: Id, c: Id, keep: nat)
    requires TablesOk(t, keep) && Belongs(t, tenant, c)
    ensures var rows := SummariesOf(t.summaries, c);
      LatestSummary(t, tenant, c) == if rows == [] then None else Some(rows[|rows| - 1])
  {
    var rows := SummariesOf(t.summaries, c);
    assert ConversationOk(t, c, keep);
    if rows != [] {
      var last := rows[|rows| - 1];
      forall k | 0 <= k < |rows|
        ensures rows[k].tenant == tenant && rows[k].sourceVersion == k + 1
      {
        SummariesOnly(t.summaries, c, rows[k]);
        assert ChainEntryOk(Log(t.messages, c), rows, k, keep);
        var i :| 0 <= i < |t.summaries| && t.summaries[i] == rows[k];
        assert Belongs(t, t.summaries[i].tenant, t.summaries[i].conversation);
      }
      var best := NewestVersion(rows, tenant);
      assert last in rows;
      var b :| 0 <= b < |rows| && rows[b] == best.value;
    }
  }

  /** Covering up to the message at `end - 1` splits an increasing log at `end`. */
  lemma CoverAt(log: seq<Message>, end: nat)
    requires Increasing(log) && 0 < end <= |log|
    ensures UpTo(log, log[end - 1].sequence) == log[..end]
    ensures WhereAfter(log, log[end - 1].sequence) == log[end..]
  {
    AtCut(log, log[end - 1].sequence + 1, end);
  }

  /** Dropping the `keep` last of the `limit` newest rows of a tail selects a slice of the log. */
  lemma SelectionIsSlice<T>(log: seq<T>, cut: nat, after: seq<T>, keep: nat, limit: nat)
    requires cut <= |log| && after == log[cut..] && |Newest(after, limit)| > keep
    ensures var pending := Newest(after, limit);
      && |pending| <= |log| - cut
      && (|pending| == |log| - cut <==> |after| <= limit)
      && pending[..|pending| - keep] == log[|log| - |pending|..|log| - keep]
  {
    var pending := Newest(after, limit);
    var start := |log| - |pending|;
    assert forall i :: 0 <= i < |pending| ==> pending[i] == log[start + i];
  }

  /** A selection is the end of what lies between the old coverage and the `keep` last messages. */
  lemma SelectionIs(log: seq<Message>, prior: nat, keep: nat, limit: nat) returns (cut: nat, start: nat)
    requires Increasing(log) && |Newest(WhereAfter(log, prior), limit)| > keep
    ensures IsCut(log, prior + 1, cut) && cut <= start < |log| - keep
    ensures |WhereAfter(log, prior)| == |log| - cut && |UpTo(log, prior)| == cut
    ensures start == |log| - if |log| - cut <= limit then |log| - cut else limit
    ensures var pending := Newest(WhereAfter(log, prior), limit);
      pending[..|pending| - keep] == log[start..|log| - keep]
  {
    cut := CutExists(log, prior + 1);
    SelectionIsSlice(log, cut, WhereAfter(log, prior), keep, limit);
    start := |log| - |Newest(WhereAfter(log, prior), limit)|;
  }

  /** A slice of the log that ends where the new coverage ends, in terms of the coverage. */
  lemma SliceShape(log: seq<Message>, prior: nat, cut: nat, start: nat, end: nat, selected: seq<Message>)
    requires Increasing(log) && IsCut(log, prior + 1, cut) && cut <= start < end <= |log|
    requires selected == log[start..end]
    ensures var covered := selected[|selected| - 1].sequence;
      && |UpTo(log, prior)| < |UpTo(log, covered)| == end
      && prior < covered
      && HasSequence(log, covered)
      && IsSuffix(selected, Added(log, prior, covered))
      && |WhereAfter(log, covered)| == |log| - end
  {
    AtCut(log, prior + 1, cut);
    CoverAt(log, end);
    assert log[..end][cut..] == log[cut..end];
    assert log[cut..end][start - cut..] == log[start..end];
    assert |selected| == end - start && |log[cut..end]| == end - cut;
  }

  /** Selecting from an increasing log: with `keep` messages left out at the end, the selection is
      the newest part of what the new coverage adds, as far as the listing went. */
  lemma SelectionShape(log: seq<Message>, prior: nat, keep: nat, limit: nat, selected: seq<Message>)
    requires Increasing(log) && |Newest(WhereAfter(log, prior), limit)| > keep
    requires var pending := Newest(WhereAfter(log, prior), limit); selected == pending[..|pending| - keep]
    ensures selected != []
    ensures var covered := selected[|selected| - 1].sequence;
      && |UpTo(log, prior)| < |UpTo(log, covered)|
      && prior < covered
      && HasSequence(log, covered)
      && IsSuffix(selected, Added(log, prior, covered))
      && |UpTo(log, covered)| + keep == |UpTo(log, prior)| + |WhereAfter(log, prior)|
      && |selected| + keep == (if |WhereAfter(log, prior)| <= limit then |WhereAfter(log, prior)| else limit)
      && |WhereAfter(log, covered)| == keep
  {
    var cut, start := SelectionIs(log, prior, keep, limit);
    SliceShape(log, prior, cut, start, |log| - keep, selected);
  }

  /** What a plan holds, in terms of the log and the stored summaries. */
  lemma PlanContents(t: Tables, cfg: MemoryConfig, tenant: Id, c: Id)
    requires TablesOk(t, cfg.Keep()) && Belongs(t, tenant, c) && PlanSummary(t, cfg, tenant, c).Some?
    ensures var draft := PlanSummary(t, cfg, tenant, c).value;
      var log, rows := Log(t.messages, c), SummariesOf(t.summaries, c);
      var pending := Newest(WhereAfter(log, draft.PriorCovered()), LISTING_LIMIT);
      && draft.prior == (if rows == [] then None else Some(rows[|rows| - 1]))
      && |pending| > cfg.Keep()
      && draft.messages == pending[..|pending| - cfg.Keep()]
      && draft.uncovered == |WhereAfter(log, draft.PriorCovered())|
  {
    var draft := PlanSummary(t, cfg, tenant, c).value;
    ListingIsTail(t, tenant, c, LISTING_LIMIT, cfg.Keep());
    LatestIsLast(t, tenant, c, cfg.Keep());
    AfterOfNewest(Log(t.messages, c), LISTING_LIMIT, draft.PriorCovered());
  }

  lemma VersionsCount(t: Tables, c: Id, keep: nat)
    requires TablesOk(t, keep) && c in t.conversations
    ensures var rows := SummariesOf(t.summaries, c); rows != [] ==> rows[|rows| - 1].sourceVersion == |rows|
  {
    assert ConversationOk(t, c, keep);
    var rows := SummariesOf(t.summaries, c);
    if rows != [] {
      assert ChainEntryOk(Log(t.messages, c), rows, |rows| - 1, keep);
    }
  }

  lemma SelectionIsEntry(log: seq<Message>, prior: nat, text: string, s: Summary, keep: nat)
    requires Increasing(log) && |Newest(WhereAfter(log, prior), LISTING_LIMIT)| > keep
    requires var pending := Newest(WhereAfter(log, prior), LISTING_LIMIT);
      s.origin.messages == pending[..|pending| - keep]
    requires s.coveredThrough == s.origin.messages[|s.origin.messages| - 1].sequence
    requires s.origin.uncovered == |WhereAfter(log, prior)| && s.origin.prior == text
    ensures EntryOk(log, prior, text, s, keep)
  {
    SelectionShape(log, prior, keep, LISTING_LIMIT, s.origin.messages);
  }

  /** A draft over a sound log and its chain makes the next entry of the chain. */
  lemma DraftIsEntry(log: seq<Message>, rows: seq<Summary>, draft: Draft, s: Summary, keep: nat)
    requires Increasing(log) && |Newest(WhereAfter(log, draft.PriorCovered()), LISTING_LIMIT)| > keep
    requires var pending := Newest(WhereAfter(log, draft.PriorCovered()), LISTING_LIMIT);
      draft.messages == pending[..|pending| - keep]
    requires draft.uncovered == |WhereAfter(log, draft.PriorCovered())|
    requires draft.prior == if rows == [] then None else Some(rows[|rows| - 1])
    requires rows != [] ==> rows[|rows| - 1].sourceVersion == |rows|
    requires s.origin == Origin(draft.PriorText(), draft.messages, draft.uncovered)
    requires s.coveredThrough == draft.messages[|draft.messages| - 1].sequence
    requires s.sourceVersion == draft.PriorVersion() + 1
    ensures s.sourceVersion == |rows| + 1
    ensures EntryOk(log, CoveredBefore(rows, s.sourceVersion), TextBefore(rows, s.sourceVersion), s, keep)
  {
    SelectionIsEntry(log, draft.PriorCovered(), draft.PriorText(), s, keep);
    assert CoveredBefore(rows, s.sourceVersion) == draft.PriorCovered();
    assert TextBefore(rows, s.sourceVersion) == draft.PriorText();
  }

  /** A plan made from a sound database continues the chain stored at that moment. */
  lemma PlanContinues(t: Tables, cfg: MemoryConfig, tenant: Id, c: Id, id: Id, text: string)
    requires TablesOk(t, cfg.Keep()) && Belongs(t, tenant, c) && PlanSummary(t, cfg, tenant, c).Some?
    ensures PlanSummary(t, cfg, tenant, c).value.messages != []
    ensures Continues(t, NewSummary(PlanSummary(t, cfg, tenant, c).value, tenant, c, id, text), cfg.Keep())
  {
    var draft := PlanSummary(t, cfg, tenant, c).value;
    PlanContents(t, cfg, tenant, c);
    SoundLog(t, tenant, c, cfg.Keep());
    VersionsCount(t, c, cfg.Keep());
    DraftIsEntry(Log(t.messages, c), SummariesOf(t.summaries, c), draft, NewSummary(draft, tenant, c, id, text),
                 cfg.Keep());
  }
}
