// Every reachable state satisfies the invariant, for any number of processes and any interleaving.
module Safety {
  import opened Entities
  import opened Tables
  import opened Conversations
  import opened Memory
  import opened Logs
  import opened Protocol
  import opened Invariants
  import opened SummaryPlan
  import Text

  // ---------------------------------------------------------------- what a process may rely on

  /** The run is the one that this request asks for. */
  predicate Matches(q: Request, run: RunIdentity) {
    run.tenant == q.ctx.tenant && run.conversation == q.conversation && run.key == q.key
    && run.fingerprint == FingerprintOf(q.conversation, q.content)
  }

  predicate Knows(t: Tables, q: Request, run: RunIdentity) {
    Matches(q, run) && HasRun(t.runs, run)
  }

  /** The request has been given run `id`. */
  predicate Bound(t: Tables, q: Request, id: Id) {
    exists i :: 0 <= i < |t.runs| && t.runs[i].identity.id == id && Matches(q, t.runs[i].identity)
  }

  /** The run that this process alone may still answer. */
  function OwnedRun(phase: Phase): Option<RunIdentity> {
    match phase
    case Prepared(run) => Some(run)
    case HasAnswer(run, _) => Some(run)
    case Fenced(run, _) => Some(run)
    case AnswerRead(run, _, _) => Some(run)
    case _ => None
  }

  predicate AnswerFree(t: Tables, run: RunIdentity) {
    SequenceFree(t.messages, run.conversation, 2 * (run.expectedVersion + 1))
  }

  predicate RowKnown(t: Tables, row: RunRow) {
    exists i :: 0 <= i < |t.runs| && t.runs[i].identity == row.identity && t.runs[i].userMessage == row.userMessage
  }

  predicate SeenOk(t: Tables, run: RunIdentity, seen: Option<RunRow>) {
    seen.Some? ==> seen.value.identity == run && RowKnown(t, seen.value)
  }

  /** A summary that some process may still store: its prior version is stored. */
  predicate CandidateOk(t: Tables, q: Request, s: Summary, keep: nat) {
    var log, rows := Log(t.messages, q.conversation), SummariesOf(t.summaries, q.conversation);
    && s.tenant == q.ctx.tenant && s.conversation == q.conversation && Belongs(t, s.tenant, s.conversation)
    && 1 <= s.sourceVersion <= |rows| + 1
    && EntryOk(log, CoveredBefore(rows, s.sourceVersion), TextBefore(rows, s.sourceVersion), s, keep)
  }

  predicate Owns(t: Tables, q: Request, run: RunIdentity) {
    Knows(t, q, run) && AnswerFree(t, run)
  }

  predicate IsFailure(target: RunStatus) {
    target == Failed || target == Conflicted
  }

  predicate DraftOk(t: Tables, q: Request, draft: Draft, keep: nat) {
    draft.messages != [] && CandidateOk(t, q, NewSummary(draft, q.ctx.tenant, q.conversation, 0, ""), keep)
  }

  predicate OutcomeOk(t: Tables, q: Request, outcome: Outcome) {
    match outcome
    case Answered(id) => Bound(t, q, id)
    case Replayed(id) => Bound(t, q, id)
    case CancelledRun(_) => true
    case Refused(_) => true
  }

  predicate PhaseOk(t: Tables, q: Request, phase: Phase, keep: nat) {
    match phase
    case Begun => true
    case Looked(_) => true
    case KeyTaken => true
    case Prepared(run) => Owns(t, q, run)
    case HasAnswer(run, _) => Owns(t, q, run)
    case Fenced(run, _) => Owns(t, q, run)
    case AnswerRead(run, _, seen) => Owns(t, q, run) && SeenOk(t, run, seen)
    case Failing(run, target, _, _) => Knows(t, q, run) && IsFailure(target)
    case FailureRead(run, target, _, _, seen) => Knows(t, q, run) && IsFailure(target) && SeenOk(t, run, seen)
    case Completed(run) => Knows(t, q, run)
    case Drafted(run, draft) => Knows(t, q, run) && DraftOk(t, q, draft, keep)
    case Written(run, summary) => Knows(t, q, run) && CandidateOk(t, q, summary, keep)
    case Wanted(run, summary) => Knows(t, q, run) && CandidateOk(t, q, summary, keep)
    case Cancelling(_) => true
    case CancelRead(row) => RowKnown(t, row)
    case Done(outcome) => OutcomeOk(t, q, outcome)
  }

  /** What an action of a process may rely on. */
  predicate Ready(t: Tables, q: Request, phase: Phase, keep: nat) {
    TablesOk(t, keep) && PhaseOk(t, q, phase, keep)
  }

  predicate DistinctOwners(a: Phase, b: Phase) {
    OwnedRun(a).Some? && OwnedRun(b).Some? ==> OwnedRun(a).value.id != OwnedRun(b).value.id
  }

  predicate OwnersDistinct(processes: map<nat, Process>) {
    forall a, b :: a in processes && b in processes && a != b ==> DistinctOwners(processes[a].phase, processes[b].phase)
  }

  predicate Inv(cfg: Config, s: State) {
    && TablesOk(s.tables, cfg.memory.Keep())
    && (forall pid :: pid in s.processes ==>
      PhaseOk(s.tables, s.processes[pid].request, s.processes[pid].phase, cfg.memory.Keep()))
    && OwnersDistinct(s.processes)
  }

  // ---------------------------------------------------------------- other processes' steps keep it

  lemma HasRunStable(t: Tables, t': Tables, run: RunIdentity)
    requires Extends(t, t') && HasRun(t.runs, run)
    ensures HasRun(t'.runs, run)
  {
    var i :| 0 <= i < |t.runs| && t.runs[i].identity == run;
    assert t'.runs[i].identity == run;
  }

  lemma BoundStable(t: Tables, t': Tables, q: Request, id: Id)
    requires Extends(t, t') && Bound(t, q, id)
    ensures Bound(t', q, id)
  {
    var i :| 0 <= i < |t.runs| && t.runs[i].identity.id == id && Matches(q, t.runs[i].identity);
    assert t'.runs[i].identity == t.runs[i].identity;
  }

  lemma RowKnownStable(t: Tables, t': Tables, row: RunRow)
    requires Extends(t, t') && RowKnown(t, row)
    ensures RowKnown(t', row)
  {
    var i :| 0 <= i < |t.runs| && t.runs[i].identity == row.identity && t.runs[i].userMessage == row.userMessage;
    assert t'.runs[i].identity == t.runs[i].identity;
  }

  lemma LogExtends(t: Tables, t': Tables, c: Id) returns (later: seq<Message>, newer: seq<Summary>)
    requires Extends(t, t')
    ensures Log(t'.messages, c) == Log(t.messages, c) + later
    ensures SummariesOf(t'.summaries, c) == SummariesOf(t.summaries, c) + newer
  {
    var ms, ss := t'.messages[|t.messages|..], t'.summaries[|t.summaries|..];
    assert t'.messages == t.messages + ms && t'.summaries == t.summaries + ss;
    later, newer := Log(ms, c), SummariesOf(ss, c);
    LogConcat(t.messages, ms, c);
    SummariesConcat(t.summaries, ss, c);
  }

  lemma CandidateStable(t: Tables, t': Tables, q: Request, s: Summary, keep: nat)
    requires Extends(t, t') && TablesOk(t', keep) && CandidateOk(t, q, s, keep)
    ensures CandidateOk(t', q, s, keep)
  {
    var c := q.conversation;
    var later, newer := LogExtends(t, t', c);
    var log, rows := Log(t.messages, c), SummariesOf(t.summaries, c);
    assert ConversationOk(t', c, keep);
    TurnLogShape(log + later, t'.conversations[c].version);
    EntryStable(log, later, CoveredBefore(rows, s.sourceVersion), TextBefore(rows, s.sourceVersion), s, keep);
    assert CoveredBefore(rows + newer, s.sourceVersion) == CoveredBefore(rows, s.sourceVersion);
    assert TextBefore(rows + newer, s.sourceVersion) == TextBefore(rows, s.sourceVersion);
  }

  /** A summary is planned and not yet stored. */
  predicate Planning(phase: Phase) {
    phase.Drafted? || phase.Written? || phase.Wanted?
  }

  lemma PlanningStable(t: Tables, t': Tables, q: Request, phase: Phase, keep: nat)
    requires Extends(t, t') && TablesOk(t', keep) && Planning(phase)
    ensures PhaseOk(t, q, phase, keep) ==> PhaseOk(t', q, phase, keep)
  {
    if PhaseOk(t, q, phase, keep) {
      HasRunStable(t, t', phase.run);
      CandidateStable(t, t', q, if phase.Drafted? then NewSummary(phase.draft, q.ctx.tenant, q.conversation, 0, "")
          else phase.summary, keep);
    }
  }

  lemma SeenStable(t: Tables, t': Tables, run: RunIdentity, seen: Option<RunRow>)
    requires Extends(t, t') && SeenOk(t, run, seen)
    ensures SeenOk(t', run, seen)
  {
    if seen.Some? {
      RowKnownStable(t, t', seen.value);
    }
  }

  lemma OwnerStable(t: Tables, t': Tables, q: Request, phase: Phase, keep: nat)
    requires Extends(t, t') && OwnedRun(phase).Some? && AnswerFree(t', OwnedRun(phase).value)
    ensures PhaseOk(t, q, phase, keep) ==> PhaseOk(t', q, phase, keep)
  {
    if PhaseOk(t, q, phase, keep) {
      HasRunStable(t, t', OwnedRun(phase).value);
      if phase.AnswerRead? { SeenStable(t, t', phase.run, phase.seen); }
    }
  }

  lemma OtherStable(t: Tables, t': Tables, q: Request, phase: Phase, keep: nat)
    requires Extends(t, t') && OwnedRun(phase).None? && !Planning(phase)
    ensures PhaseOk(t, q, phase, keep) ==> PhaseOk(t', q, phase, keep)
  {
    if PhaseOk(t, q, phase, keep) {
      match phase
      case Failing(run, _, _, _) => HasRunStable(t, t', run);
      case FailureRead(run, _, _, _, seen) => HasRunStable(t, t', run); SeenStable(t, t', run, seen);
      case Completed(run) => HasRunStable(t, t', run);
      case CancelRead(row) => RowKnownStable(t, t', row);
      case Done(outcome) =>
        if outcome.Answered? { BoundStable(t, t', q, outcome.run); }
        if outcome.Replayed? { BoundStable(t, t', q, outcome.run); }
      case _ =>
    }
  }

  lemma PhaseStable(t: Tables, t': Tables, q: Request, phase: Phase, keep: nat)
    requires Extends(t, t') && TablesOk(t', keep) && PhaseOk(t, q, phase, keep)
    requires OwnedRun(phase).Some? ==> AnswerFree(t', OwnedRun(phase).value)
    ensures PhaseOk(t', q, phase, keep)
  {
    hide PhaseOk;
    if OwnedRun(phase).Some? {
      OwnerStable(t, t', q, phase, keep);
    } else if Planning(phase) {
      PlanningStable(t, t', q, phase, keep);
    } else {
      OtherStable(t, t', q, phase, keep);
    }
  }

  // ---------------------------------------------------------------- a process's own steps keep it

  lemma FoundRunKnown(t: Tables, tenant: Id, id: Id)
    requires GetRun(t, tenant, id).Some?
    ensures RowKnown(t, GetRun(t, tenant, id).value)
    ensures GetRun(t, tenant, id).value.identity.id == id && GetRun(t, tenant, id).value.identity.tenant == tenant
  {
    var i := FindRun(t.runs, tenant, id).value;
    assert t.runs[i] == GetRun(t, tenant, id).value;
  }

  /** Primary keys identify rows: looking a known run up by its id finds that run. */
  lemma LookupIsExact(t: Tables, run: RunIdentity)
    requires RunRowsOk(t) && HasRun(t.runs, run)
    ensures GetRun(t, run.tenant, run.id).Some? && GetRun(t, run.tenant, run.id).value.identity == run
  {
    var i :| 0 <= i < |t.runs| && t.runs[i].identity == run;
    var k := FindRun(t.runs, run.tenant, run.id);
    assert k.Some? && t.runs[k.value].identity.id == t.runs[i].identity.id;
  }

  lemma ReadRunKnown(t: Tables, run: RunIdentity)
    requires RunRowsOk(t) && HasRun(t.runs, run)
    ensures SeenOk(t, run, GetRun(t, run.tenant, run.id))
  {
    LookupIsExact(t, run);
    FoundRunKnown(t, run.tenant, run.id);
  }

  lemma SaveSeenKeeps(t: Tables, seen: RunRow, row: RunRow, keep: nat)
    requires TablesOk(t, keep) && RowKnown(t, seen)
    requires row.identity == seen.identity && row.userMessage == seen.userMessage
    ensures TablesOk(WithSaved(t, row), keep) && Extends(t, WithSaved(t, row))
  {
    hide ConversationOk, HasQuestion;
    var i :| 0 <= i < |t.runs| && t.runs[i].identity == seen.identity && t.runs[i].userMessage == seen.userMessage;
    var k := FindRun(t.runs, row.identity.tenant, row.identity.id);
    assert k.Some? ==> t.runs[k.value].identity.id == t.runs[i].identity.id;
    SaveKeeps(t, row, keep);
  }

  /** A request that is given an existing run is given one that matches it. */
  lemma ReplyIsBound(t: Tables, q: Request, reply: Reply)
    requires RunRowsOk(t) && LoadIdempotent(t, q) == Ok(reply)
    ensures Bound(t, q, reply.run.identity.id)
  {
    var i := FindKey(t.runs, q.ctx.tenant, q.key).value;
    assert RunRowOk(t, t.runs[i]);
    assert Matches(q, t.runs[i].identity);
  }

  /** Sequences above the last turn are free. */
  lemma AboveIsFree(t: Tables, c: Id, sequence: nat, keep: nat)
    requires TablesOk(t, keep) && c in t.conversations && sequence > 2 * t.conversations[c].version
    ensures SequenceFree(t.messages, c, sequence)
  {
    assert ConversationOk(t, c, keep);
    TurnLogShape(Log(t.messages, c), t.conversations[c].version);
    forall i | 0 <= i < |t.messages| && t.messages[i].conversation == c
      ensures t.messages[i].sequence != sequence
    {
      LogHolds(t.messages, c, i);
    }
  }

  /** `t'` is sound and nothing of `t` was undone. */
  predicate Grown(t: Tables, t': Tables, keep: nat) {
    TablesOk(t', keep) && Extends(t, t')
  }

  lemma GrownSame(t: Tables, keep: nat)
    requires TablesOk(t, keep)
    ensures Grown(t, t, keep)
  {
  }

  /** The tables after an action are sound and extend the tables before it. */
  lemma AdvanceKeepsTables(cfg: Config, t: Tables, q: Request, phase: Phase, action: Action)
    requires Ready(t, q, phase, cfg.memory.Keep())
    ensures Grown(t, Advance(cfg, t, q, phase, action).0, cfg.memory.Keep())
  {
    hide InsertStep, AnswerStep, FailureStep, CancelStep, StoreStep, QuietStep;
    var keep := cfg.memory.Keep();
    GrownSame(t, keep);
    match action
    case Insert(messageId, runId, token) => InsertGrows(t, q, phase, messageId, runId, token, keep);
    case WriteAnswer(messageId) => AnswerGrows(cfg, t, q, phase, messageId);
    case WriteFailure => FailureGrows(cfg, t, q, phase);
    case WriteCancel => CancelGrows(cfg, t, q, phase);
    case InsertSummary(id) => StoreGrows(t, q, phase, id, keep);
    case _ =>
  }

  lemma InsertGrows(t: Tables, q: Request, phase: Phase, messageId: Id, runId: Id, token: nat, keep: nat)
    requires TablesOk(t, keep)
    ensures Grown(t, InsertStep(t, q, phase, messageId, runId, token).0, keep)
  {
    GrownSame(t, keep);
    if phase.Looked? && PrepareInsert(t, q, phase.version, messageId, runId, token).1.Ok? {
      TurnKeeps(t, q, phase.version, messageId, runId, token, keep);
    }
  }

  lemma AnswerGrows(cfg: Config, t: Tables, q: Request, phase: Phase, messageId: Id)
    requires Ready(t, q, phase, cfg.memory.Keep())
    ensures Grown(t, AnswerStep(cfg, t, phase, messageId).0, cfg.memory.Keep())
  {
    GrownSame(t, cfg.memory.Keep());
    if phase.AnswerRead? {
      FinaliseGrows(t, phase.seen, phase.run, phase.answer, messageId, cfg.memory.Keep());
    }
  }

  lemma FinaliseGrows(t: Tables, seen: Option<RunRow>, run: RunIdentity, answer: string, messageId: Id, keep: nat)
    requires TablesOk(t, keep) && SeenOk(t, run, seen)
    ensures Grown(t, Finalise(t, seen, run, answer, messageId).0, keep)
  {
    GrownSame(t, keep);
    if Finalise(t, seen, run, answer, messageId).1.Ok? {
      FinaliseKeeps(t, seen.value, run, answer, messageId, keep);
    }
  }

  lemma FailureGrows(cfg: Config, t: Tables, q: Request, phase: Phase)
    requires Ready(t, q, phase, cfg.memory.Keep())
    ensures Grown(t, FailureStep(cfg, t, phase).0, cfg.memory.Keep())
  {
    GrownSame(t, cfg.memory.Keep());
    if phase.FailureRead? {
      MarkGrows(t, phase.run, phase.seen, phase.target, phase.code, cfg.memory.Keep());
    }
  }

  lemma MarkGrows(t: Tables, run: RunIdentity, seen: Option<RunRow>, target: RunStatus, code: string, keep: nat)
    requires TablesOk(t, keep) && SeenOk(t, run, seen)
    ensures Grown(t, Mark(t, seen, target, code), keep)
  {
    GrownSame(t, keep);
    if seen.Some? {
      SaveSeenKeeps(t, seen.value, seen.value.(status := target, errorCode := Some(code)), keep);
    }
  }

  lemma CancelGrows(cfg: Config, t: Tables, q: Request, phase: Phase)
    requires Ready(t, q, phase, cfg.memory.Keep())
    ensures Grown(t, CancelStep(cfg, t, phase).0, cfg.memory.Keep())
  {
    GrownSame(t, cfg.memory.Keep());
    if phase.CancelRead? {
      SaveSeenKeeps(t, phase.row, phase.row.(status := Cancelled, errorCode := None), cfg.memory.Keep());
    }
  }

  lemma StoreGrows(t: Tables, q: Request, phase: Phase, id: Id, keep: nat)
    requires Ready(t, q, phase, keep)
    ensures Grown(t, StoreStep(t, phase, id).0, keep)
  {
    GrownSame(t, keep);
    if phase.Wanted? && SummaryFits(t.summaries, phase.summary.(id := id)) {
      StoreKeeps(t, q, phase.summary, id, keep);
    }
  }

  lemma FinaliseKeeps(t: Tables, seen: RunRow, run: RunIdentity, answer: string, messageId: Id, keep: nat)
    requires TablesOk(t, keep) && RowKnown(t, seen) && seen.identity == run
    requires Finalise(t, Some(seen), run, answer, messageId).1.Ok?
    ensures var t' := Finalise(t, Some(seen), run, answer, messageId).0; TablesOk(t', keep) && Extends(t, t')
  {
    var m := AssistantMessage(run, answer, messageId);
    AnswerKeeps(t, m, keep);
    var t1 := WithMessage(t, m);
    RowKnownStable(t, t1, seen);
    var row := seen.(assistantMessage := Some(messageId), status := Succeeded, errorCode := None);
    SaveSeenKeeps(t1, seen, row, keep);
    ExtendsTransitive(t, t1, WithSaved(t1, row));
  }

  /** A candidate that meets the unique constraint continues the chain: its version is not stored,
      but the one before it is. */
  lemma StoreKeeps(t: Tables, q: Request, s: Summary, id: Id, keep: nat)
    requires TablesOk(t, keep) && CandidateOk(t, q, s, keep) && SummaryFits(t.summaries, s.(id := id))
    ensures TablesOk(WithSummary(t, s.(id := id)), keep) && Extends(t, WithSummary(t, s.(id := id)))
  {
    var rows := SummariesOf(t.summaries, q.conversation);
    if s.sourceVersion <= |rows| {
      var row := rows[s.sourceVersion - 1];
      assert ConversationOk(t, q.conversation, keep);
      assert ChainEntryOk(Log(t.messages, q.conversation), rows, s.sourceVersion - 1, keep);
      SummariesOnly(t.summaries, q.conversation, row);
    }
    SummaryKeeps(t, s.(id := id), keep);
  }

  lemma KnownBelongs(t: Tables, q: Request, run: RunIdentity)
    requires RunRowsOk(t) && Knows(t, q, run)
    ensures Belongs(t, q.ctx.tenant, q.conversation)
  {
    var i :| 0 <= i < |t.runs| && t.runs[i].identity == run;
    assert RunRowOk(t, t.runs[i]);
  }

  lemma KnownIsBound(t: Tables, q: Request, run: RunIdentity)
    requires Knows(t, q, run)
    ensures Bound(t, q, run.id)
  {
    var i :| 0 <= i < |t.runs| && t.runs[i].identity == run;
  }

  /** The new phase relies only on what the new tables give. */
  predicate ResultOk(result: (Tables, Phase), q: Request, keep: nat) {
    PhaseOk(result.0, q, result.1, keep)
  }

  /** A process's new phase relies only on what the new tables give. */
  lemma AdvanceKeepsPhase(cfg: Config, t: Tables, q: Request, phase: Phase, action: Action)
    requires Ready(t, q, phase, cfg.memory.Keep())
    ensures ResultOk(Advance(cfg, t, q, phase, action), q, cfg.memory.Keep())
  {
    hide InsertStep, AnswerStep, FailureStep, CancelStep, StoreStep, QuietStep;
    match action
    case Insert(messageId, runId, token) => InsertPhase(t, q, phase, messageId, runId, token, cfg.memory.Keep());
    case WriteAnswer(messageId) => AnswerPhase(cfg, t, q, phase, messageId);
    case WriteFailure => FailurePhase(cfg, t, q, phase);
    case WriteCancel => CancelPhase(cfg, t, q, phase);
    case InsertSummary(id) => StorePhase(t, q, phase, id, cfg.memory.Keep());
    case _ => QuietPhase(cfg, t, q, phase, action);
  }

  lemma GoesOn(t: Tables, q: Request, phase: Phase, keep: nat)
    ensures Ready(t, q, phase, keep) ==> ResultOk((t, phase), q, keep)
  {
  }

  lemma QuietPhase(cfg: Config, t: Tables, q: Request, phase: Phase, action: Action)
    ensures Ready(t, q, phase, cfg.memory.Keep()) ==>
      ResultOk((t, QuietStep(cfg, t, q, phase, action)), q, cfg.memory.Keep())
  {
    hide Ready, ResultOk;
    var keep := cfg.memory.Keep();
    GoesOn(t, q, phase, keep);
    match action
    case Lookup => LookupPhase(t, q, phase, keep);
    case Reload => ReloadPhase(t, q, phase, keep);
    case AgentFails => AgentPhase(cfg, t, q, phase, action);
    case AgentAnswers(_) => AgentPhase(cfg, t, q, phase, action);
    case CheckLease(valid) => LeasePhase(t, q, phase, valid, keep);
    case ReadRun => ReadPhase(t, q, phase, keep);
    case Finish => FinishPhase(cfg, t, q, phase);
    case ListForSummary => ListPhase(cfg, t, q, phase);
    case ModelReplies(reply) => ModelPhase(t, q, phase, reply, keep);
    case CheckSummary => CheckPhase(t, q, phase, keep);
    case _ =>
  }

  lemma AgentPhase(cfg: Config, t: Tables, q: Request, phase: Phase, action: Action)
    requires action.AgentFails? || action.AgentAnswers?
    ensures Ready(t, q, phase, cfg.memory.Keep()) ==>
      ResultOk((t, QuietStep(cfg, t, q, phase, action)), q, cfg.memory.Keep())
  {
  }

  lemma LeasePhase(t: Tables, q: Request, phase: Phase, valid: bool, keep: nat)
    ensures Ready(t, q, phase, keep) ==> ResultOk((t, LeaseStep(phase, valid)), q, keep)
  {
  }

  lemma FinishPhase(cfg: Config, t: Tables, q: Request, phase: Phase)
    ensures Ready(t, q, phase, cfg.memory.Keep()) ==>
      ResultOk((t, QuietStep(cfg, t, q, phase, Finish)), q, cfg.memory.Keep())
  {
    if Ready(t, q, phase, cfg.memory.Keep()) {
      if phase.Completed? {
        KnownIsBound(t, q, phase.run);
      }
    }
  }

  lemma LookupPhase(t: Tables, q: Request, phase: Phase, keep: nat)
    ensures Ready(t, q, phase, keep) ==> ResultOk((t, LookupStep(t, q, phase)), q, keep)
  {
    if Ready(t, q, phase, keep) {
      if phase.Begun? {
        var r := PrepareLookup(t, q);
        if r.Replay? {
          assert LoadIdempotent(t, q) == Ok(r.reply);
          ReplyIsBound(t, q, r.reply);
        }
      }
    }
  }

  lemma ReloadPhase(t: Tables, q: Request, phase: Phase, keep: nat)
    ensures Ready(t, q, phase, keep) ==> ResultOk((t, ReloadStep(t, q, phase)), q, keep)
  {
    if Ready(t, q, phase, keep) {
      if phase.KeyTaken? {
        var r := LoadIdempotent(t, q);
        if r.Ok? {
          ReplyIsBound(t, q, r.value);
          assert ReloadStep(t, q, phase) == Done(Replayed(r.value.run.identity.id));
        } else {
          assert ReloadStep(t, q, phase) == Done(Refused(r.error));
        }
      }
    }
  }

  lemma InsertPhase(t: Tables, q: Request, phase: Phase, messageId: Id, runId: Id, token: nat, keep: nat)
    ensures Ready(t, q, phase, keep) ==> ResultOk(InsertStep(t, q, phase, messageId, runId, token), q, keep)
  {
    if Ready(t, q, phase, keep) {
      if phase.Looked? {
        var (t', r) := PrepareInsert(t, q, phase.version, messageId, runId, token);
        if r.Ok? {
          NewRunOwned(t, q, phase.version, messageId, runId, token, keep);
          assert InsertStep(t, q, phase, messageId, runId, token) == (t', Prepared(r.value.run.identity));
        } else {
          assert InsertStep(t, q, phase, messageId, runId, token) == (t, AfterRefusal(r.error));
        }
      }
    }
  }

  lemma NewRunOwned(t: Tables, q: Request, version: nat, messageId: Id, runId: Id, token: nat, keep: nat)
    requires TablesOk(t, keep) && PrepareInsert(t, q, version, messageId, runId, token).1.Ok?
    ensures var (t', r) := PrepareInsert(t, q, version, messageId, runId, token); Owns(t', q, r.value.run.identity)
  {
    AboveIsFree(t, q.conversation, 2 * (version + 1), keep);
    NewTurnOwned(t, q, version, UserMessage(q, version, messageId), NewRun(q, version, runId, token, messageId));
  }

  lemma NewTurnOwned(t: Tables, q: Request, version: nat, m: Message, run: RunRow)
    requires m.conversation in t.conversations && Matches(q, run.identity) && run.identity.expectedVersion == version
    requires m.sequence != 2 * (version + 1) && SequenceFree(t.messages, q.conversation, 2 * (version + 1))
    ensures Owns(WithTurn(t, version, m, run), q, run.identity)
  {
    NewRunPresent(t.runs, run);
    SequenceFreeAppend(t.messages, m, q.conversation, 2 * (version + 1));
  }

  lemma NewRunPresent(runs: seq<RunRow>, run: RunRow)
    ensures HasRun(runs + [run], run.identity)
  {
    assert (runs + [run])[|runs|].identity == run.identity;
  }

  lemma SequenceFreeAppend(messages: seq<Message>, m: Message, c: Id, sequence: nat)
    requires SequenceFree(messages, c, sequence) && !(m.conversation == c && m.sequence == sequence)
    ensures SequenceFree(messages + [m], c, sequence)
  {
  }

  lemma ReadPhase(t: Tables, q: Request, phase: Phase, keep: nat)
    ensures Ready(t, q, phase, keep) ==> ResultOk((t, ReadStep(t, q, phase)), q, keep)
  {
    if Ready(t, q, phase, keep) {
      match phase
      case Fenced(run, _) => ReadRunKnown(t, run);
      case Failing(run, _, _, _) => ReadRunKnown(t, run);
      case Cancelling(runId) => if GetRun(t, q.ctx.tenant, runId).Some? { FoundRunKnown(t, q.ctx.tenant, runId); }
      case _ =>
    }
  }

  lemma AnswerPhase(cfg: Config, t: Tables, q: Request, phase: Phase, messageId: Id)
    ensures Ready(t, q, phase, cfg.memory.Keep()) ==>
      ResultOk(AnswerStep(cfg, t, phase, messageId), q, cfg.memory.Keep())
  {
    hide Finalise, HasQuestion;
    if Ready(t, q, phase, cfg.memory.Keep()) {
      var (t', phase') := AnswerStep(cfg, t, phase, messageId);
      AnswerGrows(cfg, t, q, phase, messageId);
      if phase.AnswerRead? {
        HasRunStable(t, t', phase.run);
        assert (phase' == phase && t' == t) || phase' == Completed(phase.run) || phase'.Done? || phase'.Failing?;
      }
    }
  }

  lemma FailurePhase(cfg: Config, t: Tables, q: Request, phase: Phase)
    ensures Ready(t, q, phase, cfg.memory.Keep()) ==> ResultOk(FailureStep(cfg, t, phase), q, cfg.memory.Keep())
  {
  }

  lemma CancelPhase(cfg: Config, t: Tables, q: Request, phase: Phase)
    ensures Ready(t, q, phase, cfg.memory.Keep()) ==> ResultOk(CancelStep(cfg, t, phase), q, cfg.memory.Keep())
  {
  }

  lemma ListPhase(cfg: Config, t: Tables, q: Request, phase: Phase)
    ensures Ready(t, q, phase, cfg.memory.Keep()) ==> ResultOk((t, ListStep(cfg, t, q, phase)), q, cfg.memory.Keep())
  {
    if Ready(t, q, phase, cfg.memory.Keep()) {
      if phase.Completed? {
        KnownIsBound(t, q, phase.run);
        KnownBelongs(t, q, phase.run);
        var draft := PlanSummary(t, cfg.memory, q.ctx.tenant, q.conversation);
        if draft.Some? {
          PlanIsDraft(cfg, t, q);
          assert ListStep(cfg, t, q, phase) == Drafted(phase.run, draft.value);
        } else {
          assert ListStep(cfg, t, q, phase) == Done(Answered(phase.run.id));
        }
      }
    }
  }

  lemma PlanIsDraft(cfg: Config, t: Tables, q: Request)
    requires TablesOk(t, cfg.memory.Keep()) && Belongs(t, q.ctx.tenant, q.conversation)
    requires PlanSummary(t, cfg.memory, q.ctx.tenant, q.conversation).Some?
    ensures DraftOk(t, q, PlanSummary(t, cfg.memory, q.ctx.tenant, q.conversation).value, cfg.memory.Keep())
  {
    PlanContinues(t, cfg.memory, q.ctx.tenant, q.conversation, 0, "");
  }

  /** Which id and text a summary gets does not matter to the chain. */
  lemma CandidateIgnoresText(t: Tables, q: Request, s: Summary, id: Id, text: string, keep: nat)
    requires CandidateOk(t, q, s, keep)
    ensures CandidateOk(t, q, s.(id := id, text := text), keep)
  {
  }

  lemma ModelPhase(t: Tables, q: Request, phase: Phase, reply: Option<string>, keep: nat)
    ensures Ready(t, q, phase, keep) ==> ResultOk((t, ModelStep(q, phase, reply)), q, keep)
  {
    if Ready(t, q, phase, keep) {
      if phase.Drafted? {
        KnownIsBound(t, q, phase.run);
        if reply.Some? {
          var s := NewSummary(phase.draft, q.ctx.tenant, q.conversation, 0, "");
          CandidateIgnoresText(t, q, s, 0, Text.Strip(reply.value), keep);
          assert ModelStep(q, phase, reply) == Written(phase.run, s.(id := 0, text := Text.Strip(reply.value)));
        } else {
          assert ModelStep(q, phase, reply) == Done(Answered(phase.run.id));
        }
      }
    }
  }

  lemma CheckPhase(t: Tables, q: Request, phase: Phase, keep: nat)
    ensures Ready(t, q, phase, keep) ==> ResultOk((t, CheckStep(t, phase)), q, keep)
  {
    if Ready(t, q, phase, keep) {
      if phase.Written? {
        KnownIsBound(t, q, phase.run);
      }
    }
  }

  lemma StorePhase(t: Tables, q: Request, phase: Phase, id: Id, keep: nat)
    ensures Ready(t, q, phase, keep) ==> ResultOk(StoreStep(t, phase, id), q, keep)
  {
    if Ready(t, q, phase, keep) {
      StoreGrows(t, q, phase, id, keep);
      if phase.Wanted? {
        HasRunStable(t, StoreStep(t, phase, id).0, phase.run);
        KnownIsBound(StoreStep(t, phase, id).0, q, phase.run);
      }
    }
  }

  // ---------------------------------------------------------------- ownership of answers

  /** A turn number belongs to one run only. */
  lemma TurnIdentifiesRun(t: Tables, a: RunIdentity, b: RunIdentity, keep: nat)
    requires TablesOk(t, keep) && HasRun(t.runs, a) && HasRun(t.runs, b)
    requires a.conversation == b.conversation && a.expectedVersion == b.expectedVersion
    ensures a == b
  {
    var i :| 0 <= i < |t.runs| && t.runs[i].identity == a;
    var j :| 0 <= j < |t.runs| && t.runs[j].identity == b;
    assert RunRowOk(t, t.runs[i]);
    assert ConversationOk(t, a.conversation, keep);
    var version := t.conversations[a.conversation].version;
    if i < j { RunsOrderIsTableOrder(t.runs, i, j, version); }
    if j < i { RunsOrderIsTableOrder(t.runs, j, i, version); }
  }

  /** Which message an action adds, if any. */
  predicate AddsOnly(t: Tables, t': Tables, q: Request, phase: Phase, action: Action) {
    match action
    case Insert(messageId, _, _) =>
      t'.messages == t.messages
        || (phase.Looked? && t'.messages == t.messages + [UserMessage(q, phase.version, messageId)])
    case WriteAnswer(messageId) =>
      t'.messages == t.messages
      || (phase.AnswerRead? && t'.messages == t.messages + [AssistantMessage(phase.run, phase.answer, messageId)])
    case _ => t'.messages == t.messages
  }

  lemma AdvanceMessages(cfg: Config, t: Tables, q: Request, phase: Phase, action: Action)
    ensures AddsOnly(t, Advance(cfg, t, q, phase, action).0, q, phase, action)
  {
    hide InsertStep, AnswerStep, QuietStep;
    match action
    case Insert(messageId, runId, token) => InsertMessages(t, q, phase, messageId, runId, token);
    case WriteAnswer(messageId) => AnswerMessages(cfg, t, phase, messageId);
    case _ =>
  }

  lemma InsertMessages(t: Tables, q: Request, phase: Phase, messageId: Id, runId: Id, token: nat)
    ensures var t' := InsertStep(t, q, phase, messageId, runId, token).0;
      t'.messages == t.messages
        || (phase.Looked? && t'.messages == t.messages + [UserMessage(q, phase.version, messageId)])
  {
  }

  lemma AnswerMessages(cfg: Config, t: Tables, phase: Phase, messageId: Id)
    ensures var t' := AnswerStep(cfg, t, phase, messageId).0;
      t'.messages == t.messages
      || (phase.AnswerRead? && t'.messages == t.messages + [AssistantMessage(phase.run, phase.answer, messageId)])
  {
    if phase.AnswerRead? {
      FinaliseMessages(t, phase.seen, phase.run, phase.answer, messageId);
    }
  }

  lemma FinaliseMessages(t: Tables, seen: Option<RunRow>, run: RunIdentity, answer: string, messageId: Id)
    ensures var t' := Finalise(t, seen, run, answer, messageId).0;
      t'.messages == t.messages || t'.messages == t.messages + [AssistantMessage(run, answer, messageId)]
  {
  }

  /** No action of another process takes the place of an answer that is still owed. */
  lemma AdvanceLeavesOthers(cfg: Config, t: Tables, q: Request, phase: Phase, action: Action, other: RunIdentity)
    requires Ready(t, q, phase, cfg.memory.Keep())
    requires HasRun(t.runs, other) && AnswerFree(t, other)
    requires OwnedRun(phase).Some? ==> OwnedRun(phase).value.id != other.id
    ensures AnswerFree(Advance(cfg, t, q, phase, action).0, other)
  {
    AdvanceMessages(cfg, t, q, phase, action);
    if phase.AnswerRead? && phase.run.conversation == other.conversation
      && phase.run.expectedVersion == other.expectedVersion {
      TurnIdentifiesRun(t, phase.run, other, cfg.memory.Keep());
    }
    AddedLeavesOthers(t, Advance(cfg, t, q, phase, action).0, q, phase, action, other);
  }

  lemma AddedLeavesOthers(t: Tables, t': Tables, q: Request, phase: Phase, action: Action, other: RunIdentity)
    requires AddsOnly(t, t', q, phase, action) && AnswerFree(t, other)
    requires phase.AnswerRead? ==>
      !(phase.run.conversation == other.conversation && phase.run.expectedVersion == other.expectedVersion)
    ensures AnswerFree(t', other)
  {
    var turn := 2 * (other.expectedVersion + 1);
    if t'.messages != t.messages {
      if action.Insert? {
        SequenceFreeAppend(t.messages, UserMessage(q, phase.version, action.messageId), other.conversation, turn);
      } else {
        SequenceFreeAppend(t.messages, AssistantMessage(phase.run, phase.answer, action.messageId), other.conversation,
                           turn);
      }
    }
  }

  /** The process owes the answer that it owed before, or that of a run that is new. */
  predicate OwesAsBefore(t: Tables, phase: Phase, phase': Phase) {
    OwnedRun(phase').Some? && OwnedRun(phase') != OwnedRun(phase) ==> RunFits(t.runs, OwnedRun(phase').value)
  }

  /** A process comes to owe an answer only by inserting a new run. */
  lemma OwnershipStarts(cfg: Config, t: Tables, q: Request, phase: Phase, action: Action)
    ensures OwesAsBefore(t, phase, Advance(cfg, t, q, phase, action).1)
  {
    hide InsertStep, QuietStep, RunFits;
    match action
    case Insert(messageId, runId, token) => InsertOwes(t, q, phase, messageId, runId, token);
    case WriteAnswer(_) =>
    case WriteFailure =>
    case WriteCancel =>
    case InsertSummary(_) =>
    case _ => QuietOwes(cfg, t, q, phase, action);
  }

  lemma InsertOwes(t: Tables, q: Request, phase: Phase, messageId: Id, runId: Id, token: nat)
    ensures OwesAsBefore(t, phase, InsertStep(t, q, phase, messageId, runId, token).1)
  {
  }

  lemma QuietOwes(cfg: Config, t: Tables, q: Request, phase: Phase, action: Action)
    ensures OwnedRun(QuietStep(cfg, t, q, phase, action)).Some? ==>
      OwnedRun(QuietStep(cfg, t, q, phase, action)) == OwnedRun(phase)
  {
    hide PrepareLookup, LoadIdempotent, CancelLookup, PlanSummary, StillWanted, NewSummary;
  }

  // ---------------------------------------------------------------- the theorem

  lemma ActKeepsInv(cfg: Config, s: State, pid: nat, action: Action)
    requires Inv(cfg, s) && pid in s.processes
    ensures Inv(cfg, Apply(cfg, s, Act(pid, action))) && Extends(s.tables, Apply(cfg, s, Act(pid, action)).tables)
  {
    var p := s.processes[pid];
    var (t', phase') := Advance(cfg, s.tables, p.request, p.phase, action);
    AdvanceKeepsTables(cfg, s.tables, p.request, p.phase, action);
    AdvanceKeepsPhase(cfg, s.tables, p.request, p.phase, action);
    forall other | other in s.processes && other != pid
      ensures PhaseOk(t', s.processes[other].request, s.processes[other].phase, cfg.memory.Keep())
      ensures DistinctOwners(phase', s.processes[other].phase)
    {
      OtherProcessStays(cfg, s, pid, action, other);
    }
    assert Apply(cfg, s, Act(pid, action)) == State(t', s.processes[pid := p.(phase := phase')]);
    AssembleInv(cfg, t', s.processes, pid, p.(phase := phase'));
  }

  lemma AssembleInv(cfg: Config, t: Tables, processes: map<nat, Process>, pid: nat, p: Process)
    requires TablesOk(t, cfg.memory.Keep()) && PhaseOk(t, p.request, p.phase, cfg.memory.Keep())
    requires OwnersDistinct(processes)
    requires forall other :: other in processes && other != pid ==>
      (PhaseOk(t, processes[other].request, processes[other].phase, cfg.memory.Keep())
       && DistinctOwners(p.phase, processes[other].phase))
    ensures Inv(cfg, State(t, processes[pid := p]))
  {
  }

  /** An answer that another process owes stays owed, and by that process alone. */
  lemma OtherOwnerStays(cfg: Config, t: Tables, q: Request, phase: Phase, action: Action, other: Phase)
    requires Ready(t, q, phase, cfg.memory.Keep()) && DistinctOwners(phase, other)
    requires OwnedRun(other).Some? ==> HasRun(t.runs, OwnedRun(other).value) && AnswerFree(t, OwnedRun(other).value)
    ensures OwnedRun(other).Some? ==> AnswerFree(Advance(cfg, t, q, phase, action).0, OwnedRun(other).value)
    ensures DistinctOwners(Advance(cfg, t, q, phase, action).1, other)
  {
    hide Advance;
    if OwnedRun(other).Some? {
      var run := OwnedRun(other).value;
      AdvanceLeavesOthers(cfg, t, q, phase, action, run);
      OwnershipStarts(cfg, t, q, phase, action);
      var i :| 0 <= i < |t.runs| && t.runs[i].identity == run;
    }
  }

  lemma OwnerKnows(t: Tables, q: Request, phase: Phase, keep: nat)
    requires PhaseOk(t, q, phase, keep) && OwnedRun(phase).Some?
    ensures HasRun(t.runs, OwnedRun(phase).value) && AnswerFree(t, OwnedRun(phase).value)
  {
  }

  lemma OtherProcessStays(cfg: Config, s: State, pid: nat, action: Action, other: nat)
    requires Inv(cfg, s) && pid in s.processes && other in s.processes && other != pid
    requires var (t', phase') := Advance(cfg, s.tables, s.processes[pid].request, s.processes[pid].phase, action);
      Grown(s.tables, t', cfg.memory.Keep())
    ensures var (t', phase') := Advance(cfg, s.tables, s.processes[pid].request, s.processes[pid].phase, action);
      && PhaseOk(t', s.processes[other].request, s.processes[other].phase, cfg.memory.Keep())
      && DistinctOwners(phase', s.processes[other].phase)
  {
    hide Advance, PhaseOk, TablesOk, DistinctOwners, Extends, AnswerFree;
    var p, o := s.processes[pid], s.processes[other];
    if OwnedRun(o.phase).Some? {
      OwnerKnows(s.tables, o.request, o.phase, cfg.memory.Keep());
    }
    OtherOwnerStays(cfg, s.tables, p.request, p.phase, action, o.phase);
    PhaseStable(s.tables, Advance(cfg, s.tables, p.request, p.phase, action).0, o.request, o.phase, cfg.memory.Keep());
  }

  lemma StepKeepsInv(cfg: Config, s: State, step: Step)
    requires Inv(cfg, s)
    ensures Inv(cfg, Apply(cfg, s, step)) && Extends(s.tables, Apply(cfg, s, step).tables)
  {
    hide Advance, Inv, Extends;
    ExtendsSelf(s.tables);
    match step
    case CreateConversation(id, tenant, owner) =>
      if id !in s.tables.conversations {
        CreateKeepsInv(cfg, s, id, tenant, owner);
      }
    case Act(pid, action) => if pid in s.processes { ActKeepsInv(cfg, s, pid, action); }
    case _ => ArrivalKeepsInv(cfg, s, step);
  }

  lemma ExtendsSelf(t: Tables)
    ensures Extends(t, t)
  {
  }

  /** Processes come and go. */
  lemma ArrivalKeepsInv(cfg: Config, s: State, step: Step)
    requires Inv(cfg, s) && !step.CreateConversation? && !step.Act?
    ensures Inv(cfg, Apply(cfg, s, step)) && Apply(cfg, s, step).tables == s.tables
  {
    hide TablesOk, Advance;
  }

  lemma CreateKeepsInv(cfg: Config, s: State, id: Id, tenant: Id, owner: Id)
    requires Inv(cfg, s) && id !in s.tables.conversations
    ensures var s' := Apply(cfg, s, CreateConversation(id, tenant, owner)); Inv(cfg, s') && Extends(s.tables, s'.tables)
  {
    var s' := Apply(cfg, s, CreateConversation(id, tenant, owner));
    CreateKeeps(s.tables, id, tenant, owner, cfg.memory.Keep());
    forall pid | pid in s'.processes
      ensures PhaseOk(s'.tables, s'.processes[pid].request, s'.processes[pid].phase, cfg.memory.Keep())
    {
      PhaseStable(s.tables, s'.tables, s.processes[pid].request, s.processes[pid].phase, cfg.memory.Keep());
    }
  }

  /** Whatever the processes do and in whatever order, the invariant holds and nothing is undone. */
  lemma {:induction false} RunKeepsInv(cfg: Config, s: State, steps: seq<Step>)
    requires Inv(cfg, s)
    ensures Inv(cfg, Run(cfg, s, steps)) && Extends(s.tables, Run(cfg, s, steps).tables)
  {
    if steps != [] {
      var before := steps[..|steps| - 1];
      RunKeepsInv(cfg, s, before);
      StepKeepsInv(cfg, Run(cfg, s, before), steps[|steps| - 1]);
      ExtendsTransitive(s.tables, Run(cfg, s, before).tables, Run(cfg, s, steps).tables);
    }
  }

  lemma ReachableInv(cfg: Config, steps: seq<Step>)
    ensures Inv(cfg, Run(cfg, INITIAL, steps))
  {
    RunKeepsInv(cfg, INITIAL, steps);
  }
}
