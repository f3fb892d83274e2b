// What the next turn sees of a conversation neither through a summary nor raw.
module SummaryGaps {
  import opened Entities
  import opened Tables
  import opened Conversations
  import opened Memory
  import opened Logs
  import opened Protocol
  import opened Invariants
  import opened Safety
  import opened SummaryPlan
  import opened RollingSummary
  import opened ContextBound

  // ---------------------------------------------------------------- messages that were never shown

  /** The messages of `log` that are not among `shown`. */
  function NotIn(log: seq<Message>, shown: seq<Message>): seq<Message> {
    if log == [] then []
    else NotIn(log[..|log| - 1], shown) + if log[|log| - 1] in shown then [] else [log[|log| - 1]]
  }

  /** The messages older than the window of the next turn. */
  function Older(log: seq<Message>, keep: nat): seq<Message> {
    log[..TailStart(log, keep)]
  }

  /** The messages that no summary was shown and that are older than the window of the next turn. */
  function Unseen(log: seq<Message>, rows: seq<Summary>, keep: nat): seq<Message> {
    NotIn(Older(log, keep), Shown(rows))
  }

  /** The messages that are waiting for a summary: not covered, and older than the window of the next
      turn. */
  function Waiting(log: seq<Message>, covered: nat, keep: nat): seq<Message> {
    WhereAfter(Older(log, keep), covered)
  }

  lemma WaitingCount(log: seq<Message>, covered: nat, keep: nat)
    requires Increasing(log)
    ensures var open := |WhereAfter(log, covered)|;
      |Waiting(log, covered, keep)| == if open <= keep then 0 else open - keep
  {
    var cut := CutExists(log, covered + 1);
    var end := TailStart(log, keep);
    AtCut(log[..end], covered + 1, if cut <= end then cut else end);
  }

  lemma {:induction false} NotInConcat(a: seq<Message>, b: seq<Message>, shown: seq<Message>)
    ensures NotIn(a + b, shown) == NotIn(a, shown) + NotIn(b, shown)
  {
    if b == [] {
      assert a + b == a;
    } else {
      assert (a + b)[..|a + b| - 1] == a + b[..|b| - 1];
      NotInConcat(a, b[..|b| - 1], shown);
    }
  }

  predicate Disjoint(a: seq<Message>, b: seq<Message>) {
    forall m :: m in a ==> m !in b
  }

  lemma {:induction false} NotInDisjoint(log: seq<Message>, shown: seq<Message>)
    requires Disjoint(log, shown)
    ensures NotIn(log, shown) == log
  {
    if log != [] {
      NotInDisjoint(log[..|log| - 1], shown);
      assert log[|log| - 1] in log;
    }
  }

  lemma {:induction false} NotInAll(log: seq<Message>, shown: seq<Message>)
    requires forall m :: m in log ==> m in shown
    ensures NotIn(log, shown) == []
  {
    if log != [] {
      NotInAll(log[..|log| - 1], shown);
      assert log[|log| - 1] in log;
    }
  }

  lemma {:induction false} NotInSame(log: seq<Message>, a: seq<Message>, b: seq<Message>)
    requires forall m :: m in log ==> (m in a <==> m in b)
    ensures NotIn(log, a) == NotIn(log, b)
  {
    if log != [] {
      NotInSame(log[..|log| - 1], a, b);
      assert log[|log| - 1] in log;
    }
  }

  /** Two stretches of an increasing log have no message in common. */
  lemma StretchesDisjoint(log: seq<Message>, cut: nat, a: seq<Message>, b: seq<Message>)
    requires Increasing(log) && cut <= |log| && a == log[..cut] && b == log[cut..]
    ensures Disjoint(a, b) && Disjoint(b, a)
  {
  }

  /** Of a stretch whose end was shown, the rest was not. */
  lemma NotInSuffix(added: seq<Message>, shown: seq<Message>)
    requires Increasing(added) && IsSuffix(shown, added)
    ensures |NotIn(added, shown)| == |added| - |shown|
  {
    var cut := |added| - |shown|;
    assert added == added[..cut] + added[cut..];
    NotInConcat(added[..cut], added[cut..], shown);
    StretchesDisjoint(added, cut, added[..cut], added[cut..]);
    NotInDisjoint(added[..cut], shown);
    NotInAll(added[cut..], shown);
  }

  lemma IncreasingParts(a: seq<Message>, b: seq<Message>)
    requires Increasing(a + b)
    ensures Increasing(b) && Disjoint(a, b) && Disjoint(b, a)
  {
    var log := a + b;
    assert a == log[..|a|] && b == log[|a|..];
    StretchesDisjoint(log, |a|, a, b);
    assert forall i :: 0 <= i < |b| ==> b[i] == log[|a| + i];
  }

  /** One more summary: `earlier` was covered before, `added` is what it adds, and of that it was
      shown the end. */
  lemma OneMoreNotIn(earlier: seq<Message>, added: seq<Message>, shown: seq<Message>, more: seq<Message>)
    requires Increasing(earlier + added) && IsSuffix(more, added)
    requires forall m :: m in shown ==> m in earlier
    ensures |NotIn(earlier + added, shown + more)| == |NotIn(earlier, shown)| + |added| - |more|
  {
    IncreasingParts(earlier, added);
    NotInConcat(earlier, added, shown + more);
    NotInSame(earlier, shown + more, shown);
    NotInSame(added, shown + more, more);
    NotInSuffix(added, more);
  }

  /** Of the covered messages, as many were never shown as the listings were too short for. */
  lemma {:induction false} CoveredNotShown(log: seq<Message>, rows: seq<Summary>, keep: nat)
    requires Increasing(log) && ChainOk(log, rows, keep)
    requires forall i :: 0 <= i < |log| ==> log[i].sequence >= 1
    ensures forall m :: m in Shown(rows) ==> m in UpTo(log, CoveredNow(rows))
    ensures |NotIn(UpTo(log, CoveredNow(rows)), Shown(rows))| == PassedOver(rows)
    decreases |rows|
  {
    if rows == [] {
      AtCut(log, 1, 0);
    } else {
      var n := |rows| - 1;
      ChainPrefix(log, rows, n, keep);
      CoveredNotShown(log, rows[..n], keep);
      assert ChainEntryOk(log, rows, n, keep);
      assert CoveredNow(rows[..n]) == CoveredBefore(rows, n + 1);
      EntryNotShown(log, CoveredBefore(rows, n + 1), TextBefore(rows, n + 1), rows[n], keep, Shown(rows[..n]));
    }
  }

  lemma EntryNotShown(log: seq<Message>, prior: nat, text: string, s: Summary, keep: nat, shown: seq<Message>)
    requires Increasing(log) && EntryOk(log, prior, text, s, keep)
    requires forall m :: m in shown ==> m in UpTo(log, prior)
    ensures forall m :: m in shown + s.origin.messages ==> m in UpTo(log, s.coveredThrough)
    ensures |NotIn(UpTo(log, s.coveredThrough), shown + s.origin.messages)|
         == |NotIn(UpTo(log, prior), shown)| + s.origin.uncovered - Listed(s.origin.uncovered)
  {
    var earlier, added := UpTo(log, prior), Added(log, prior, s.coveredThrough);
    UpToMonotone(log, prior, s.coveredThrough);
    assert UpTo(log, s.coveredThrough) == earlier + added;
    IncreasingPrefix(log, s.coveredThrough + 1);
    OneMoreNotIn(earlier, added, shown, s.origin.messages);
  }

  lemma LastLeavesKeep(log: seq<Message>, rows: seq<Summary>, keep: nat)
    requires Increasing(log) && ChainOk(log, rows, keep)
    requires forall i :: 0 <= i < |log| ==> log[i].sequence >= 1
    ensures |UpTo(log, CoveredNow(rows))| <= TailStart(log, keep)
  {
    if rows == [] {
      AtCut(log, 1, 0);
    } else {
      assert ChainEntryOk(log, rows, |rows| - 1, keep);
      CoveredThenUncovered(log, CoveredNow(rows));
    }
  }

  /** The messages behind the coverage and before the window were shown to nobody. */
  lemma BehindNotShown(log: seq<Message>, cut: nat, end: nat, shown: seq<Message>)
    requires Increasing(log) && cut <= end <= |log| && forall m :: m in shown ==> m in log[..cut]
    ensures NotIn(log[..end], shown) == NotIn(log[..cut], shown) + log[..end][cut..]
  {
    assert log[..end] == log[..cut] + log[..end][cut..];
    NotInConcat(log[..cut], log[..end][cut..], shown);
    StretchesDisjoint(log, cut, log[..cut], log[cut..]);
    assert log[..end][cut..] == log[cut..][..end - cut];
    NotInDisjoint(log[..end][cut..], shown);
  }

  /** Unseen messages are either waiting for a summary or were passed over by one. */
  lemma ChainUnseen(log: seq<Message>, rows: seq<Summary>, keep: nat)
    requires Increasing(log) && ChainOk(log, rows, keep)
    requires forall i :: 0 <= i < |log| ==> log[i].sequence >= 1
    ensures |Unseen(log, rows, keep)| == |Waiting(log, CoveredNow(rows), keep)| + PassedOver(rows)
    ensures ListingsComplete(rows) ==> Unseen(log, rows, keep) == Waiting(log, CoveredNow(rows), keep)
  {
    hide ChainOk, Shown, PassedOver;
    var cut := CutExists(log, CoveredNow(rows) + 1);
    var end := TailStart(log, keep);
    LastLeavesKeep(log, rows, keep);
    CoveredNotShown(log, rows, keep);
    AtCut(log[..end], CoveredNow(rows) + 1, cut);
    BehindNotShown(log, cut, end, Shown(rows));
    NothingPassedOver(rows);
  }

  lemma SoundUnseen(t: Tables, c: Id, keep: nat)
    requires TablesOk(t, keep) && c in t.conversations
    ensures var log, rows := Log(t.messages, c), SummariesOf(t.summaries, c);
      && |Unseen(log, rows, keep)| == |Waiting(log, CoveredNow(rows), keep)| + PassedOver(rows)
      && (Unseen(log, rows, keep) == Waiting(log, CoveredNow(rows), keep) <==> ListingsComplete(rows))
  {
    var log, rows := Log(t.messages, c), SummariesOf(t.summaries, c);
    assert ConversationOk(t, c, keep);
    TurnLogShape(log, t.conversations[c].version);
    ChainUnseen(log, rows, keep);
    NothingPassedOver(rows);
  }

  /** In every reachable state, with any number of writers and summarisers: the messages that the next
      turn sees neither raw nor through what some summary was shown are as many as wait for a summary,
      plus those that the cut listings passed over. They are just the waiting ones if and only if no
      stored summary was made from more than 1000 uncovered messages. */
  lemma UnseenIsWaitingIff(cfg: Config, steps: seq<Step>, c: Id)
    requires c in Run(cfg, INITIAL, steps).tables.conversations
    ensures var t, keep := Run(cfg, INITIAL, steps).tables, cfg.memory.Keep();
      var log, rows := Log(t.messages, c), SummariesOf(t.summaries, c);
      && |Unseen(log, rows, keep)| == |Waiting(log, CoveredNow(rows), keep)| + PassedOver(rows)
      && (Unseen(log, rows, keep) == Waiting(log, CoveredNow(rows), keep) <==> ListingsComplete(rows))
  {
    ReachableInv(cfg, steps);
    SoundUnseen(Run(cfg, INITIAL, steps).tables, c, cfg.memory.Keep());
  }

  lemma WaitingIsLater(t: Tables, c: Id, keep: nat)
    requires TablesOk(t, keep) && c in t.conversations && SummariesOf(t.summaries, c) != []
    ensures var log, rows := Log(t.messages, c), SummariesOf(t.summaries, c);
      ListedAt(log, rows, |rows| - 1) + |Waiting(log, CoveredNow(rows), keep)| == |log|
  {
    var log, rows := Log(t.messages, c), SummariesOf(t.summaries, c);
    assert ConversationOk(t, c, keep);
    assert ChainEntryOk(log, rows, |rows| - 1, keep);
    TurnLogShape(log, t.conversations[c].version);
    LastEntry(t, c, keep);
    CoveredThenUncovered(log, CoveredNow(rows));
    WaitingCount(log, CoveredNow(rows), keep);
  }

  /** In every reachable state, with or without the lease: as many messages wait for a summary as were
      committed after the log was listed for the newest one. */
  lemma WaitingSinceListing(cfg: Config, steps: seq<Step>, c: Id)
    requires c in Run(cfg, INITIAL, steps).tables.conversations
    requires SummariesOf(Run(cfg, INITIAL, steps).tables.summaries, c) != []
    ensures var t := Run(cfg, INITIAL, steps).tables;
      var log, rows := Log(t.messages, c), SummariesOf(t.summaries, c);
      ListedAt(log, rows, |rows| - 1) + |Waiting(log, CoveredNow(rows), cfg.memory.Keep())| == |log|
  {
    ReachableInv(cfg, steps);
    WaitingIsLater(Run(cfg, INITIAL, steps).tables, c, cfg.memory.Keep());
  }

  // ---------------------------------------------------------------- a summary that is overtaken

  /** No summary has been stored in the conversation since the plan of this one. */
  predicate IsNext(t: Tables, s: Summary) {
    s.sourceVersion == |SummariesOf(t.summaries, s.conversation)| + 1
  }

  lemma WantedIff(t: Tables, q: Request, s: Summary, keep: nat)
    requires TablesOk(t, keep) && CandidateOk(t, q, s, keep)
    ensures StillWanted(t, s) <==> IsNext(t, s)
  {
    LatestIsLast(t, s.tenant, s.conversation, keep);
    VersionsCount(t, s.conversation, keep);
  }

  /** In every reachable state, with or without the lease: a summary that the model has written passes
      the check before the insert exactly when no other one was stored since it was planned. */
  lemma WrittenIsWantedIff(cfg: Config, steps: seq<Step>, pid: nat)
    requires pid in Run(cfg, INITIAL, steps).processes && Run(cfg, INITIAL, steps).processes[pid].phase.Written?
    ensures var s := Run(cfg, INITIAL, steps);
      StillWanted(s.tables, s.processes[pid].phase.summary) <==> IsNext(s.tables, s.processes[pid].phase.summary)
  {
    ReachableInv(cfg, steps);
    var s := Run(cfg, INITIAL, steps);
    var p := s.processes[pid];
    assert PhaseOk(s.tables, p.request, p.phase, cfg.memory.Keep());
    WantedIff(s.tables, p.request, p.phase.summary, cfg.memory.Keep());
  }

  lemma FitsIff(t: Tables, q: Request, s: Summary, id: Id, keep: nat)
    requires TablesOk(t, keep) && CandidateOk(t, q, s, keep) && SummaryIdFree(t.summaries, id)
    ensures SummaryFits(t.summaries, s.(id := id)) <==> IsNext(t, s)
  {
    var rows := SummariesOf(t.summaries, s.conversation);
    if IsNext(t, s) {
      NextVersionFits(t, s.(id := id), keep);
    } else {
      var row := rows[s.sourceVersion - 1];
      assert ConversationOk(t, s.conversation, keep);
      assert ChainEntryOk(Log(t.messages, s.conversation), rows, s.sourceVersion - 1, keep);
      SummariesOnly(t.summaries, s.conversation, row);
    }
  }

  lemma StoresIff(t: Tables, q: Request, phase: Phase, id: Id, keep: nat)
    requires Ready(t, q, phase, keep) && phase.Wanted? && SummaryIdFree(t.summaries, id)
    ensures var rows := SummariesOf(t.summaries, q.conversation);
      SummariesOf(StoreStep(t, phase, id).0.summaries, q.conversation)
      == if IsNext(t, phase.summary) then rows + [phase.summary.(id := id)] else rows
  {
    FitsIff(t, q, phase.summary, id, keep);
    SummariesAppend(t.summaries, phase.summary.(id := id), q.conversation);
  }

  /** In every reachable state, with or without the lease: the insert stores the summary exactly when no
      other one was stored since it was planned; otherwise the chain stays as it is. */
  lemma InsertStoresIff(cfg: Config, steps: seq<Step>, pid: nat, id: Id)
    requires pid in Run(cfg, INITIAL, steps).processes && Run(cfg, INITIAL, steps).processes[pid].phase.Wanted?
    requires SummaryIdFree(Run(cfg, INITIAL, steps).tables.summaries, id)
    ensures var s, t' := Run(cfg, INITIAL, steps), Run(cfg, INITIAL, steps + [Act(pid, InsertSummary(id))]).tables;
      var c, summary := s.processes[pid].request.conversation, s.processes[pid].phase.summary;
      var rows := SummariesOf(s.tables.summaries, c);
      SummariesOf(t'.summaries, c) == if IsNext(s.tables, summary) then rows + [summary.(id := id)] else rows
  {
    var s := Run(cfg, INITIAL, steps);
    var p := s.processes[pid];
    ReachableInv(cfg, steps);
    RunSnoc(cfg, INITIAL, steps, Act(pid, InsertSummary(id)));
    InsertTables(cfg, s, pid, id);
    assert PhaseOk(s.tables, p.request, p.phase, cfg.memory.Keep());
    StoresIff(s.tables, p.request, p.phase, id, cfg.memory.Keep());
  }

  // ---------------------------------------------------------------- a plan under the lease stays current

  /** What a summariser has planned is what it would plan now. */
  predicate PlanCurrent(cfg: Config, t: Tables, q: Request, phase: Phase) {
    match phase
    case Drafted(_, draft) => PlanSummary(t, cfg.memory, q.ctx.tenant, q.conversation) == Some(draft)
    case Written(_, s) => WrittenNow(cfg, t, q, s)
    case Wanted(_, s) => WrittenNow(cfg, t, q, s)
    case _ => true
  }

  predicate WrittenNow(cfg: Config, t: Tables, q: Request, s: Summary) {
    var draft := PlanSummary(t, cfg.memory, q.ctx.tenant, q.conversation);
    draft.Some? && draft.value.messages != [] && s == NewSummary(draft.value, q.ctx.tenant, q.conversation, 0, s.text)
  }

  predicate PlansCurrent(cfg: Config, s: State) {
    forall pid :: pid in s.processes ==> PlanCurrent(cfg, s.tables, s.processes[pid].request, s.processes[pid].phase)
  }

  lemma PlanStable(cfg: Config, t: Tables, t': Tables, q: Request, phase: Phase)
    requires PlanCurrent(cfg, t, q, phase)
    requires Log(t'.messages, q.conversation) == Log(t.messages, q.conversation)
    requires SummariesOf(t'.summaries, q.conversation) == SummariesOf(t.summaries, q.conversation)
    ensures PlanCurrent(cfg, t', q, phase)
  {
    assert PlanSummary(t', cfg.memory, q.ctx.tenant, q.conversation)
        == PlanSummary(t, cfg.memory, q.ctx.tenant, q.conversation);
  }

  /** A write leaves a planning process as it is, or ends its planning. */
  lemma WritesLeavePlans(cfg: Config, t: Tables, q: Request, phase: Phase, action: Action)
    requires action.Insert? || action.WriteAnswer? || action.WriteFailure? || action.WriteCancel?
      || action.InsertSummary?
    requires Planning(Advance(cfg, t, q, phase, action).1)
    ensures Advance(cfg, t, q, phase, action) == (t, phase)
  {
    hide PrepareInsert, Finalise, Mark, CancelSave, StoreSummary, QuietStep;
  }

  lemma QuietPlanCurrent(cfg: Config, t: Tables, q: Request, phase: Phase, action: Action)
    requires PlanCurrent(cfg, t, q, phase)
    ensures PlanCurrent(cfg, t, q, QuietStep(cfg, t, q, phase, action))
  {
    hide PrepareLookup, LoadIdempotent, CancelLookup, GetRun, PlanSummary, StillWanted;
  }

  lemma OwnPlanCurrent(cfg: Config, t: Tables, q: Request, phase: Phase, action: Action)
    requires PlanCurrent(cfg, t, q, phase)
    ensures var (t', phase') := Advance(cfg, t, q, phase, action); PlanCurrent(cfg, t', q, phase')
  {
    hide InsertStep, AnswerStep, FailureStep, CancelStep, StoreStep, QuietStep, WrittenNow, PlanSummary;
    QuietPlanCurrent(cfg, t, q, phase, action);
    var (t', phase') := Advance(cfg, t, q, phase, action);
    match action
    case Insert(_, _, _) => if Planning(phase') { WritesLeavePlans(cfg, t, q, phase, action); }
    case WriteAnswer(_) => if Planning(phase') { WritesLeavePlans(cfg, t, q, phase, action); }
    case WriteFailure => if Planning(phase') { WritesLeavePlans(cfg, t, q, phase, action); }
    case WriteCancel => if Planning(phase') { WritesLeavePlans(cfg, t, q, phase, action); }
    case InsertSummary(_) => if Planning(phase') { WritesLeavePlans(cfg, t, q, phase, action); }
    case _ =>
  }

  lemma OtherPlanCurrent(cfg: Config, s: State, pid: nat, action: Action, other: nat)
    requires Inv(cfg, s) && LeaseHeld(s.processes) && PlansCurrent(cfg, s)
    requires pid in s.processes && other in s.processes && other != pid
    ensures PlanCurrent(cfg, Advance(cfg, s.tables, s.processes[pid].request, s.processes[pid].phase, action).0,
                        s.processes[other].request, s.processes[other].phase)
  {
    hide Advance, WrittenNow, PlanSummary, RunRowOk, MessageRowsOk, ConversationOk;
    var p, o := s.processes[pid], s.processes[other];
    assert PlanCurrent(cfg, s.tables, o.request, o.phase);
    if Planning(o.phase) {
      assert PhaseOk(s.tables, o.request, o.phase, cfg.memory.Keep());
      KnownBelongs(s.tables, o.request, o.phase.run);
      QuietElsewhere(cfg, s.tables, p.request, p.phase, action, o.request.conversation);
      PlanStable(cfg, s.tables, Advance(cfg, s.tables, p.request, p.phase, action).0, o.request, o.phase);
    }
  }

  lemma ActKeepsPlans(cfg: Config, s: State, pid: nat, action: Action)
    requires Inv(cfg, s) && LeaseHeld(s.processes) && PlansCurrent(cfg, s) && pid in s.processes
    ensures PlansCurrent(cfg, Apply(cfg, s, Act(pid, action)))
  {
    hide Advance, Inv, PlanCurrent;
    var s' := Apply(cfg, s, Act(pid, action));
    forall other | other in s'.processes
      ensures PlanCurrent(cfg, s'.tables, s'.processes[other].request, s'.processes[other].phase)
    {
      if other == pid {
        OwnPlanCurrent(cfg, s.tables, s.processes[pid].request, s.processes[pid].phase, action);
      } else {
        OtherPlanCurrent(cfg, s, pid, action, other);
      }
    }
  }

  lemma StepKeepsPlans(cfg: Config, s: State, step: Step)
    requires Inv(cfg, s) && LeaseHeld(s.processes) && PlansCurrent(cfg, s)
    ensures PlansCurrent(cfg, Apply(cfg, s, step))
  {
    hide Advance, Inv, PlanSummary, NewSummary;
    if step.Act? && step.pid in s.processes {
      ActKeepsPlans(cfg, s, step.pid, step.action);
    } else {
      var s' := Apply(cfg, s, step);
      assert s'.tables.messages == s.tables.messages && s'.tables.summaries == s.tables.summaries;
      forall pid | pid in s'.processes
        ensures PlanCurrent(cfg, s'.tables, s'.processes[pid].request, s'.processes[pid].phase)
      {
        if pid in s.processes {
          PlanStable(cfg, s.tables, s'.tables, s.processes[pid].request, s.processes[pid].phase);
        }
      }
    }
  }

  /** Under the lease every plan between its listing and its insert is current, whatever happens in
      other conversations meanwhile. */
  lemma {:induction false} RunKeepsPlans(cfg: Config, steps: seq<Step>)
    requires cfg.exclusive
    ensures PlansCurrent(cfg, Run(cfg, INITIAL, steps))
  {
    if steps != [] {
      var before := steps[..|steps| - 1];
      RunKeepsPlans(cfg, before);
      RunKeepsRoom(cfg, before);
      ReachableInv(cfg, before);
      StepKeepsPlans(cfg, Run(cfg, INITIAL, before), steps[|steps| - 1]);
    }
  }

  // ---------------------------------------------------------------- storing a current plan

  predicate SummaryIdFree(summaries: seq<Summary>, id: Id) {
    forall i :: 0 <= i < |summaries| ==> summaries[i].id != id
  }

  lemma NextVersionFits(t: Tables, s: Summary, keep: nat)
    requires TablesOk(t, keep) && Continues(t, s, keep) && s.conversation in t.conversations
    requires SummaryIdFree(t.summaries, s.id)
    ensures SummaryFits(t.summaries, s)
  {
    var rows := SummariesOf(t.summaries, s.conversation);
    assert ConversationOk(t, s.conversation, keep);
    forall i | 0 <= i < |t.summaries| && t.summaries[i].conversation == s.conversation
      ensures t.summaries[i].sourceVersion != s.sourceVersion
    {
      SummariesHold(t.summaries, s.conversation, i);
      var k :| 0 <= k < |rows| && rows[k] == t.summaries[i];
      assert ChainEntryOk(Log(t.messages, s.conversation), rows, k, keep);
    }
  }

  /** A plan that is current passes the check before the insert. */
  lemma NextVersionWanted(t: Tables, s: Summary, keep: nat)
    requires TablesOk(t, keep) && Continues(t, s, keep) && Belongs(t, s.tenant, s.conversation)
    ensures StillWanted(t, s)
  {
    LatestIsLast(t, s.tenant, s.conversation, keep);
    VersionsCount(t, s.conversation, keep);
  }

  /** The coverage stops right before the last `keep` messages. */
  predicate LeavesKeep(log: seq<Message>, covered: nat, keep: nat) {
    |WhereAfter(log, covered)| == keep
  }

  /** The next summary of a conversation: it covers all but the last `keep` messages. */
  predicate NextSummary(t: Tables, s: Summary, keep: nat) {
    && Belongs(t, s.tenant, s.conversation)
    && Continues(t, s, keep)
    && LeavesKeep(Log(t.messages, s.conversation), s.coveredThrough, keep)
  }

  lemma PlannedSummary(t: Tables, cfg: MemoryConfig, tenant: Id, c: Id, id: Id, text: string) returns (s: Summary)
    requires TablesOk(t, cfg.Keep()) && Belongs(t, tenant, c) && PlanSummary(t, cfg, tenant, c).Some?
    ensures PlanSummary(t, cfg, tenant, c).value.messages != []
    ensures s == NewSummary(PlanSummary(t, cfg, tenant, c).value, tenant, c, id, text)
    ensures NextSummary(t, s, cfg.Keep())
  {
    PlanContinues(t, cfg, tenant, c, id, text);
    s := NewSummary(PlanSummary(t, cfg, tenant, c).value, tenant, c, id, text);
    PlanLeavesKeep(t, cfg, tenant, c);
  }

  lemma PlanLeavesKeep(t: Tables, cfg: MemoryConfig, tenant: Id, c: Id)
    requires TablesOk(t, cfg.Keep()) && Belongs(t, tenant, c) && PlanSummary(t, cfg, tenant, c).Some?
    ensures var messages := PlanSummary(t, cfg, tenant, c).value.messages;
      messages != [] && LeavesKeep(Log(t.messages, c), messages[|messages| - 1].sequence, cfg.Keep())
  {
    var draft := PlanSummary(t, cfg, tenant, c).value;
    assert Increasing(Log(t.messages, c)) by {
      SoundLog(t, tenant, c, cfg.Keep());
    }
    PlanContents(t, cfg, tenant, c);
    SelectionShape(Log(t.messages, c), draft.PriorCovered(), cfg.Keep(), LISTING_LIMIT, draft.messages);
  }

  /** What a stored summary leaves behind in its conversation. */
  predicate LeavesNothing(t: Tables, t': Tables, s: Summary, keep: nat) {
    var log, rows := Log(t'.messages, s.conversation), SummariesOf(t'.summaries, s.conversation);
    && rows == SummariesOf(t.summaries, s.conversation) + [s]
    && Waiting(log, CoveredNow(rows), keep) == []
    && |Unseen(log, rows, keep)| == PassedOver(rows)
    && (Unseen(log, rows, keep) == [] <==> ListingsComplete(rows))
  }

  /** After storing the next summary nothing is waiting: what is unseen was passed over by a listing. */
  lemma StoringLeavesNothing(t: Tables, s: Summary, keep: nat)
    requires TablesOk(t, keep) && NextSummary(t, s, keep)
    ensures LeavesNothing(t, WithSummary(t, s), s, keep)
  {
    var t' := WithSummary(t, s);
    SummaryKeeps(t, s, keep);
    SummariesAppend(t.summaries, s, s.conversation);
    SoundUnseen(t', s.conversation, keep);
    SoundLog(t', s.tenant, s.conversation, keep);
    WaitingCount(Log(t.messages, s.conversation), s.coveredThrough, keep);
  }

  // ---------------------------------------------------------------- what a turn leaves behind

  /** What is known about process pid in a state with current plans. */
  predicate Sound(cfg: Config, t: Tables, p: Process) {
    TablesOk(t, cfg.memory.Keep()) && PhaseOk(t, p.request, p.phase, cfg.memory.Keep())
      && PlanCurrent(cfg, t, p.request, p.phase)
  }

  lemma SoundUnderLease(cfg: Config, steps: seq<Step>, pid: nat)
    requires cfg.exclusive && pid in Run(cfg, INITIAL, steps).processes
    ensures var s := Run(cfg, INITIAL, steps); Sound(cfg, s.tables, s.processes[pid])
  {
    ReachableInv(cfg, steps);
    RunKeepsPlans(cfg, steps);
  }

  lemma WantedIsNext(cfg: Config, t: Tables, q: Request, s: Summary, id: Id)
    requires TablesOk(t, cfg.memory.Keep()) && Belongs(t, q.ctx.tenant, q.conversation) && WrittenNow(cfg, t, q, s)
    ensures NextSummary(t, s.(id := id), cfg.memory.Keep())
    ensures s.conversation == q.conversation && s.tenant == q.ctx.tenant
  {
    var next := PlannedSummary(t, cfg.memory, q.ctx.tenant, q.conversation, id, s.text);
    assert next == s.(id := id);
  }

  /** Under the lease a summary that the model has written is always wanted. */
  lemma WrittenIsWanted(cfg: Config, steps: seq<Step>, pid: nat)
    requires cfg.exclusive && pid in Run(cfg, INITIAL, steps).processes
    requires Run(cfg, INITIAL, steps).processes[pid].phase.Written?
    ensures StillWanted(Run(cfg, INITIAL, steps).tables, Run(cfg, INITIAL, steps).processes[pid].phase.summary)
  {
    SoundUnderLease(cfg, steps, pid);
    SoundIsWanted(cfg, Run(cfg, INITIAL, steps).tables, Run(cfg, INITIAL, steps).processes[pid]);
  }

  lemma SoundIsWanted(cfg: Config, t: Tables, p: Process)
    requires Sound(cfg, t, p) && p.phase.Written?
    ensures StillWanted(t, p.phase.summary)
  {
    KnownBelongs(t, p.request, p.phase.run);
    WantedIsNext(cfg, t, p.request, p.phase.summary, p.phase.summary.id);
    NextVersionWanted(t, p.phase.summary, cfg.memory.Keep());
  }

  lemma WantedIsStored(cfg: Config, t: Tables, q: Request, phase: Phase, id: Id)
    requires Ready(t, q, phase, cfg.memory.Keep()) && PlanCurrent(cfg, t, q, phase)
    requires phase.Wanted? && SummaryIdFree(t.summaries, id)
    ensures StoreStep(t, phase, id).0 == WithSummary(t, phase.summary.(id := id))
    ensures NextSummary(t, phase.summary.(id := id), cfg.memory.Keep()) && phase.summary.conversation == q.conversation
  {
    KnownBelongs(t, q, phase.run);
    WantedIsNext(cfg, t, q, phase.summary, id);
    NextVersionFits(t, phase.summary.(id := id), cfg.memory.Keep());
  }

  lemma WantedLeavesNothing(cfg: Config, t: Tables, q: Request, phase: Phase, id: Id)
    requires Ready(t, q, phase, cfg.memory.Keep()) && PlanCurrent(cfg, t, q, phase)
    requires phase.Wanted? && SummaryIdFree(t.summaries, id)
    ensures LeavesNothing(t, StoreStep(t, phase, id).0, phase.summary.(id := id), cfg.memory.Keep())
    ensures phase.summary.conversation == q.conversation
  {
    WantedIsStored(cfg, t, q, phase, id);
    StoringLeavesNothing(t, phase.summary.(id := id), cfg.memory.Keep());
  }

  lemma InsertTables(cfg: Config, s: State, pid: nat, id: Id)
    requires pid in s.processes
    ensures Apply(cfg, s, Act(pid, InsertSummary(id))).tables == StoreStep(s.tables, s.processes[pid].phase, id).0
  {
  }

  lemma SoundLeavesNothing(cfg: Config, t: Tables, p: Process, t': Tables, id: Id)
    requires Sound(cfg, t, p) && p.phase.Wanted? && SummaryIdFree(t.summaries, id)
    requires t' == StoreStep(t, p.phase, id).0
    ensures LeavesNothing(t, t', p.phase.summary.(id := id), cfg.memory.Keep())
    ensures p.phase.summary.conversation == p.request.conversation
  {
    WantedLeavesNothing(cfg, t, p.request, p.phase, id);
  }

  /** Under the lease, in any run, while other conversations go on between the listing, the check and
      the insert: the insert stores the planned summary, and then no message is waiting. The messages
      that the next turn does not see are those that listings passed over, and there are none if and
      only if every stored summary was made from at most 1000 uncovered messages. */
  lemma SummaryLeavesNothing(cfg: Config, steps: seq<Step>, pid: nat, id: Id)
    requires cfg.exclusive && pid in Run(cfg, INITIAL, steps).processes
    requires Run(cfg, INITIAL, steps).processes[pid].phase.Wanted?
    requires SummaryIdFree(Run(cfg, INITIAL, steps).tables.summaries, id)
    ensures var s, t' := Run(cfg, INITIAL, steps), Run(cfg, INITIAL, steps + [Act(pid, InsertSummary(id))]).tables;
      var c, keep := s.processes[pid].request.conversation, cfg.memory.Keep();
      var log, rows := Log(t'.messages, c), SummariesOf(t'.summaries, c);
      && rows == SummariesOf(s.tables.summaries, c) + [s.processes[pid].phase.summary.(id := id)]
      && Waiting(log, CoveredNow(rows), keep) == []
      && |Unseen(log, rows, keep)| == PassedOver(rows)
      && (Unseen(log, rows, keep) == [] <==> ListingsComplete(rows))
  {
    var s := Run(cfg, INITIAL, steps);
    SoundUnderLease(cfg, steps, pid);
    RunSnoc(cfg, INITIAL, steps, Act(pid, InsertSummary(id)));
    InsertTables(cfg, s, pid, id);
    SoundLeavesNothing(cfg, s.tables, s.processes[pid], Apply(cfg, s, Act(pid, InsertSummary(id))).tables, id);
  }

  /** A summariser that plans nothing has little to do, provided its threshold is below the limit
      of its listing. */
  lemma NothingToPlan(t: Tables, cfg: MemoryConfig, tenant: Id, c: Id)
    requires TablesOk(t, cfg.Keep()) && Belongs(t, tenant, c) && cfg.Threshold() < LISTING_LIMIT
    requires PlanSummary(t, cfg, tenant, c).None?
    ensures |WhereAfter(Log(t.messages, c), CoveredNow(SummariesOf(t.summaries, c)))| <= cfg.Threshold()
  {
    ListingIsTail(t, tenant, c, LISTING_LIMIT, cfg.Keep());
    LatestIsLast(t, tenant, c, cfg.Keep());
    AfterOfNewest(Log(t.messages, c), LISTING_LIMIT, CoveredNow(SummariesOf(t.summaries, c)));
  }

  /** How many messages may wait for a summary. */
  function Allowance(cfg: MemoryConfig): nat {
    if cfg.triggerTurns > cfg.Keep() then cfg.triggerTurns - cfg.Keep() else 0
  }

  lemma FewWait(t: Tables, cfg: MemoryConfig, tenant: Id, c: Id)
    requires TablesOk(t, cfg.Keep()) && Belongs(t, tenant, c) && cfg.Threshold() < LISTING_LIMIT
    requires PlanSummary(t, cfg, tenant, c).None?
    ensures var log, rows := Log(t.messages, c), SummariesOf(t.summaries, c);
      && |Waiting(log, CoveredNow(rows), cfg.Keep())| <= Allowance(cfg)
      && |Unseen(log, rows, cfg.Keep())| <= Allowance(cfg) + PassedOver(rows)
      && (ListingsComplete(rows) ==> |Unseen(log, rows, cfg.Keep())| <= Allowance(cfg))
  {
    NothingToPlan(t, cfg, tenant, c);
    SoundLog(t, tenant, c, cfg.Keep());
    WaitingCount(Log(t.messages, c), CoveredNow(SummariesOf(t.summaries, c)), cfg.Keep());
    SoundUnseen(t, c, cfg.Keep());
  }

  /** A turn that ends without planning a summary, in any run: at most trigger - 2 * recent messages
      (none, if that is not positive) wait for one, and no others are unseen if no listing of a stored
      summary was cut off. The settings keep both thresholds below the listing limit. */
  lemma FewMessagesWait(cfg: Config, steps: seq<Step>, pid: nat)
    requires pid in Run(cfg, INITIAL, steps).processes && Run(cfg, INITIAL, steps).processes[pid].phase.Completed?
    requires cfg.memory.Threshold() < LISTING_LIMIT
    requires !Run(cfg, INITIAL, steps + [Act(pid, ListForSummary)]).processes[pid].phase.Drafted?
    ensures var t, c := Run(cfg, INITIAL, steps).tables, Run(cfg, INITIAL, steps).processes[pid].request.conversation;
      var log, rows := Log(t.messages, c), SummariesOf(t.summaries, c);
      && |Waiting(log, CoveredNow(rows), cfg.memory.Keep())| <= Allowance(cfg.memory)
      && |Unseen(log, rows, cfg.memory.Keep())| <= Allowance(cfg.memory) + PassedOver(rows)
      && (ListingsComplete(rows) ==> |Unseen(log, rows, cfg.memory.Keep())| <= Allowance(cfg.memory))
  {
    hide Unseen, Waiting, PlanSummary, RunRowOk, MessageRowsOk, ConversationOk;
    var s := Run(cfg, INITIAL, steps);
    var p := s.processes[pid];
    ReachableInv(cfg, steps);
    RunSnoc(cfg, INITIAL, steps, Act(pid, ListForSummary));
    assert PhaseOk(s.tables, p.request, p.phase, cfg.memory.Keep());
    KnownBelongs(s.tables, p.request, p.phase.run);
    NoDraftMeansNoPlan(cfg, s.tables, p.request, p.phase);
    FewWait(s.tables, cfg.memory, p.request.ctx.tenant, p.request.conversation);
  }

  lemma NoDraftMeansNoPlan(cfg: Config, t: Tables, q: Request, phase: Phase)
    requires TablesOk(t, cfg.memory.Keep()) && Belongs(t, q.ctx.tenant, q.conversation)
    requires phase.Completed? && !ListStep(cfg, t, q, phase).Drafted?
    ensures PlanSummary(t, cfg.memory, q.ctx.tenant, q.conversation).None?
  {
    if PlanSummary(t, cfg.memory, q.ctx.tenant, q.conversation).Some? {
      PlanIsDraft(cfg, t, q);
    }
  }
}
