// When `load_context` puts the summary before the window.
module ContextBound {
  import opened Entities
  import opened Tables
  import opened Conversations
  import opened Memory
  import opened Logs
  import opened Protocol
  import opened Invariants
  import opened Safety
  import opened SummaryPlan

  // ---------------------------------------------------------------- exactly when

  /** The summary leaves room before the question at `question`: it covers less, and at least
      `keep` messages lie between. */
  predicate LeavesRoom(log: seq<Message>, s: Summary, question: nat, keep: nat) {
    s.coveredThrough < question && |WhereAfter(WhereBefore(log, question), s.coveredThrough)| >= keep
  }

  /** How long the log was when the summary of row k was planned. */
  function ListedAt(log: seq<Message>, rows: seq<Summary>, k: nat): nat
    requires k < |rows|
  {
    |UpTo(log, CoveredBefore(rows, k + 1))| + rows[k].origin.uncovered
  }

  lemma UpToIs(log: seq<Message>, sequence: nat)
    ensures UpTo(log, sequence) == WhereBefore(log, sequence + 1)
  {
  }

  /** The position of a message that the log holds. */
  lemma PositionOf(log: seq<Message>, sequence: nat) returns (cut: nat)
    requires Increasing(log) && HasSequence(log, sequence)
    ensures cut < |log| && log[cut].sequence == sequence
    ensures IsCut(log, sequence, cut) && IsCut(log, sequence + 1, cut + 1)
    ensures |WhereBefore(log, sequence)| == cut && |UpTo(log, sequence)| == cut + 1
  {
    hide WhereBefore, WhereAfter, UpTo;
    cut :| 0 <= cut < |log| && log[cut].sequence == sequence;
    UpToIs(log, sequence);
    AtCut(log, sequence, cut);
    AtCut(log, sequence + 1, cut + 1);
  }

  lemma AfterInPrefix(log: seq<Message>, covered: nat, cut: nat, q: nat)
    requires IsCut(log, covered + 1, cut) && q <= |log|
    ensures |WhereAfter(log[..q], covered)| == if cut <= q then q - cut else 0
  {
    AtCut(log[..q], covered + 1, if cut <= q then cut else q);
  }

  /** Room counted in messages and room counted in positions are the same. */
  lemma RoomIff(log: seq<Message>, s: Summary, question: nat, keep: nat)
    requires Increasing(log) && HasSequence(log, question)
    ensures LeavesRoom(log, s, question, keep) <==> |UpTo(log, s.coveredThrough)| + keep <= |WhereBefore(log, question)|
  {
    var q := PositionOf(log, question);
    var cut := CutExists(log, s.coveredThrough + 1);
    AtCut(log, question, q);
    AfterInPrefix(log, s.coveredThrough, cut, q);
    assert s.coveredThrough < question <==> cut <= q;
  }

  lemma WindowStart(log: seq<Message>, question: nat, keep: nat, q: nat)
    requires q < |log| && IsCut(log, question, q) && log[q].sequence == question
    ensures var window := Newest(WhereBefore(log, question), keep);
      OldestRecent(window, question) == if keep == 0 then question else log[if q <= keep then 0 else q - keep].sequence
  {
    AtCut(log, question, q);
    NewestIsTail(log[..q], keep);
  }

  /** The window starts behind the coverage exactly when the coverage leaves room for it. */
  lemma WindowStartsLaterIff(log: seq<Message>, covered: nat, question: nat, keep: nat)
    requires Increasing(log) && HasSequence(log, covered) && HasSequence(log, question)
    ensures covered < OldestRecent(Newest(WhereBefore(log, question), keep), question)
      <==> |UpTo(log, covered)| + keep <= |WhereBefore(log, question)|
  {
    var q := PositionOf(log, question);
    var k := PositionOf(log, covered);
    WindowStart(log, question, keep, q);
  }

  lemma IncreasingPrefix(log: seq<Message>, question: nat)
    requires Increasing(log)
    ensures Increasing(WhereBefore(log, question))
  {
    var cut := CutExists(log, question);
  }

  /** The conversation's rows are one increasing log of one tenant. */
  predicate LogSound(t: Tables, tenant: Id, c: Id) {
    Increasing(Log(t.messages, c)) && WhereTenant(Log(t.messages, c), tenant) == Log(t.messages, c)
  }

  /** The window of a turn over a sound log. */
  lemma WindowIs(t: Tables, cfg: MemoryConfig, tenant: Id, c: Id, question: nat)
    requires LogSound(t, tenant, c)
    ensures Increasing(WhereBefore(Log(t.messages, c), question))
    ensures Window(t, cfg, tenant, c, question) == Newest(WhereBefore(Log(t.messages, c), question), cfg.Keep())
  {
    IncreasingPrefix(Log(t.messages, c), question);
    OrderOfIncreasing(WhereBefore(Log(t.messages, c), question));
  }

  /** The question of a run: its place in the log. */
  function QuestionOf(run: RunIdentity): nat {
    2 * run.expectedVersion + 1
  }

  /** The summary opens the context of this run, before the raw window. */
  predicate Opens(t: Tables, cfg: MemoryConfig, run: RunIdentity, s: Summary) {
    Context(t, cfg, run.tenant, run.conversation, QuestionOf(run))
    == [SummaryTurn(s)] + RawTurns(Window(t, cfg, run.tenant, run.conversation, QuestionOf(run)))
  }

  lemma OpensIff(t: Tables, cfg: MemoryConfig, run: RunIdentity, s: Summary)
    requires LatestSummary(t, run.tenant, run.conversation) == Some(s)
    ensures var q := QuestionOf(run);
      Opens(t, cfg, run, s) <==> s.coveredThrough < OldestRecent(Window(t, cfg, run.tenant, run.conversation, q), q)
  {
  }

  /** A run's question is in the log. */
  lemma QuestionStored(t: Tables, run: RunIdentity)
    requires RunRowsOk(t) && HasRun(t.runs, run)
    ensures Belongs(t, run.tenant, run.conversation) && HasSequence(Log(t.messages, run.conversation), QuestionOf(run))
  {
    var i :| 0 <= i < |t.runs| && t.runs[i].identity == run;
    assert RunRowOk(t, t.runs[i]);
    var k :| 0 <= k < |t.messages| && t.messages[k].conversation == run.conversation
      && t.messages[k].sequence == QuestionOf(run);
    LogHolds(t.messages, run.conversation, k);
    var n :| 0 <= n < |Log(t.messages, run.conversation)| && Log(t.messages, run.conversation)[n] == t.messages[k];
  }

  /** What the newest stored summary covers, as a message and by the length of its listing. */
  lemma LastEntry(t: Tables, c: Id, keep: nat)
    requires TablesOk(t, keep) && c in t.conversations && SummariesOf(t.summaries, c) != []
    ensures var log, rows := Log(t.messages, c), SummariesOf(t.summaries, c);
      HasSequence(log, rows[|rows| - 1].coveredThrough)
      && ListedAt(log, rows, |rows| - 1) == |UpTo(log, rows[|rows| - 1].coveredThrough)| + keep
  {
    var rows := SummariesOf(t.summaries, c);
    assert ConversationOk(t, c, keep);
    assert ChainEntryOk(Log(t.messages, c), rows, |rows| - 1, keep);
  }

  /** Whether the newest summary opens a context, in three forms. */
  predicate InjectedIff(t: Tables, cfg: MemoryConfig, run: RunIdentity) {
    var log, rows := Log(t.messages, run.conversation), SummariesOf(t.summaries, run.conversation);
    rows != [] ==>
      var s := rows[|rows| - 1];
      && LatestSummary(t, run.tenant, run.conversation) == Some(s)
      && (Opens(t, cfg, run, s) <==> LeavesRoom(log, s, QuestionOf(run), cfg.Keep()))
      && (Opens(t, cfg, run, s) <==> ListedAt(log, rows, |rows| - 1) <= |WhereBefore(log, QuestionOf(run))|)
  }

  lemma SoundInjectedIff(t: Tables, cfg: MemoryConfig, run: RunIdentity)
    requires TablesOk(t, cfg.Keep()) && HasRun(t.runs, run)
    ensures InjectedIff(t, cfg, run)
  {
    hide Context, Window, ListedAt, LeavesRoom, WhereBefore, UpTo, Opens, RunRowOk, MessageRowsOk, ConversationOk;
    var c := run.conversation;
    var log, rows := Log(t.messages, c), SummariesOf(t.summaries, c);
    QuestionStored(t, run);
    if rows != [] {
      var s := rows[|rows| - 1];
      LatestIsLast(t, run.tenant, c, cfg.Keep());
      LastEntry(t, c, cfg.Keep());
      SoundLog(t, run.tenant, c, cfg.Keep());
      OpensIff(t, cfg, run, s);
      WindowIs(t, cfg, run.tenant, c, QuestionOf(run));
      WindowStartsLaterIff(log, s.coveredThrough, QuestionOf(run), cfg.Keep());
      RoomIff(log, s, QuestionOf(run), cfg.Keep());
    }
  }

  /** In every reachable state, with or without the lease, for every run: its context opens with the
      newest summary of its conversation exactly when at least a window of messages lies between what
      the summary covers and the run's question, exactly when the log as the summary was planned from
      ended before that question. */
  lemma SummaryIsInjectedIff(cfg: Config, steps: seq<Step>, i: nat)
    requires i < |Run(cfg, INITIAL, steps).tables.runs|
    ensures var t := Run(cfg, INITIAL, steps).tables;
      var run := t.runs[i].identity;
      var log, rows := Log(t.messages, run.conversation), SummariesOf(t.summaries, run.conversation);
      rows != [] ==>
        var s := rows[|rows| - 1];
        && LatestSummary(t, run.tenant, run.conversation) == Some(s)
        && (Opens(t, cfg.memory, run, s) <==> LeavesRoom(log, s, QuestionOf(run), cfg.memory.Keep()))
        && (Opens(t, cfg.memory, run, s) <==> ListedAt(log, rows, |rows| - 1) <= |WhereBefore(log, QuestionOf(run))|)
  {
    ReachableInv(cfg, steps);
    SoundInjectedIff(Run(cfg, INITIAL, steps).tables, cfg.memory, Run(cfg, INITIAL, steps).tables.runs[i].identity);
  }

  // ---------------------------------------------------------------- what the agent is shown

  lemma {:induction false} TurnLogRoles(log: seq<Message>, version: nat)
    requires TurnLog(log, version)
    ensures forall i :: 0 <= i < |log| ==> log[i].role == User || log[i].role == Assistant
    decreases version
  {
    if version > 0 {
      var n := |log|;
      if IsQuestion(log[n - 1], version) && TurnLog(log[..n - 1], version - 1) {
        TurnLogRoles(log[..n - 1], version - 1);
      } else {
        TurnLogRoles(log[..n - 2], version - 1);
      }
    }
  }

  /** The turns are these messages, with their roles and their contents. */
  predicate ShowsMessages(turns: seq<ModelTurn>, messages: seq<Message>) {
    |turns| == |messages| && forall k :: 0 <= k < |messages| ==>
      turns[k].role == messages[k].role && turns[k].content == messages[k].content
  }

  lemma {:induction false} RawTurnsShow(messages: seq<Message>)
    requires forall i :: 0 <= i < |messages| ==> messages[i].role == User || messages[i].role == Assistant
    ensures ShowsMessages(RawTurns(messages), messages)
  {
    if messages != [] {
      RawTurnsShow(messages[..|messages| - 1]);
    }
  }

  /** The window of a stored run: what lies before its question in the log, as far as the window goes. */
  lemma WindowOfRun(t: Tables, cfg: MemoryConfig, run: RunIdentity) returns (p: nat)
    requires TablesOk(t, cfg.Keep()) && HasRun(t.runs, run)
    ensures var log, keep := Log(t.messages, run.conversation), cfg.recentTurns * 2;
      && p < |log| && log[p].sequence == 2 * run.expectedVersion + 1
      && Window(t, cfg, run.tenant, run.conversation, QuestionOf(run)) == log[if p <= keep then 0 else p - keep..p]
  {
    hide ConversationOk, RunRowOk, MessageRowsOk, Window;
    var log := Log(t.messages, run.conversation);
    QuestionStored(t, run);
    SoundLog(t, run.tenant, run.conversation, cfg.Keep());
    WindowIs(t, cfg, run.tenant, run.conversation, QuestionOf(run));
    p := PositionOf(log, QuestionOf(run));
    AtCut(log, QuestionOf(run), p);
    NewestIsTail(log[..p], cfg.Keep());
  }

  /** What `load_context` decides for a stored run, in terms of room before its question. */
  lemma ContextBranch(t: Tables, cfg: MemoryConfig, run: RunIdentity)
    requires TablesOk(t, cfg.Keep()) && HasRun(t.runs, run)
    ensures var log, rows := Log(t.messages, run.conversation), SummariesOf(t.summaries, run.conversation);
      var q := QuestionOf(run);
      Context(t, cfg, run.tenant, run.conversation, q)
      == (if rows != [] && LeavesRoom(log, rows[|rows| - 1], q, cfg.Keep()) then [SummaryTurn(rows[|rows| - 1])]
          else []) + RawTurns(Window(t, cfg, run.tenant, run.conversation, q))
  {
    hide LeavesRoom, ListedAt, Window, RawTurns, SummaryTurn, ConversationOk, RunRowOk;
    SoundInjectedIff(t, cfg, run);
    QuestionStored(t, run);
    LatestIsLast(t, run.tenant, run.conversation, cfg.Keep());
    var rows := SummariesOf(t.summaries, run.conversation);
    if rows != [] {
      OpensIff(t, cfg, run, rows[|rows| - 1]);
    }
  }

  lemma RolesOfLog(t: Tables, c: Id, keep: nat)
    requires TablesOk(t, keep) && c in t.conversations
    ensures forall i :: 0 <= i < |Log(t.messages, c)| ==>
      Log(t.messages, c)[i].role == User || Log(t.messages, c)[i].role == Assistant
  {
    assert ConversationOk(t, c, keep);
    TurnLogRoles(Log(t.messages, c), t.conversations[c].version);
  }

  /** What the agent is shown for a run whose question is message p of the log: the text of the newest
      summary under its header if it leaves room, and then the `recent` messages before the question. */
  predicate IsShown(turns: seq<ModelTurn>, log: seq<Message>, rows: seq<Summary>, p: nat, recent: nat) {
    p < |log|
    && var start := if p <= recent then 0 else p - recent;
      if rows != [] && LeavesRoom(log, rows[|rows| - 1], log[p].sequence, recent) then
        turns != [] && turns[0] == ModelTurn(System, "[早期对话摘要]\n" + rows[|rows| - 1].text)
        && ShowsMessages(turns[1..], log[start..p])
      else ShowsMessages(turns, log[start..p])
  }

  lemma SoundContext(t: Tables, cfg: MemoryConfig, run: RunIdentity) returns (p: nat)
    requires TablesOk(t, cfg.Keep()) && HasRun(t.runs, run)
    ensures var log, rows := Log(t.messages, run.conversation), SummariesOf(t.summaries, run.conversation);
      && p < |log| && log[p].sequence == 2 * run.expectedVersion + 1
      && IsShown(Context(t, cfg, run.tenant, run.conversation, 2 * run.expectedVersion + 1), log, rows, p,
                 cfg.recentTurns * 2)
  {
    hide TablesOk, HasRun, LeavesRoom, Context, RawTurns, Window, ShowsMessages;
    var log := Log(t.messages, run.conversation);
    p := WindowOfRun(t, cfg, run);
    ContextBranch(t, cfg, run);
    QuestionStoredIn(t, cfg, run);
    RolesOfLog(t, run.conversation, cfg.Keep());
    var window := Window(t, cfg, run.tenant, run.conversation, QuestionOf(run));
    RawTurnsShow(window);
    var rows := SummariesOf(t.summaries, run.conversation);
    if rows != [] {
      assert ([SummaryTurn(rows[|rows| - 1])] + RawTurns(window))[1..] == RawTurns(window);
    }
    assert [] + RawTurns(window) == RawTurns(window);
  }

  lemma QuestionStoredIn(t: Tables, cfg: MemoryConfig, run: RunIdentity)
    requires TablesOk(t, cfg.Keep()) && HasRun(t.runs, run)
    ensures run.conversation in t.conversations
  {
    QuestionStored(t, run);
  }

  /** In every reachable state, for every run, whatever was committed since: the agent is shown the
      text of the newest summary under its header, exactly when that summary leaves room, and then
      the messages right before the run's question, as many as the window holds, each with its role
      and its content, and nothing else. */
  lemma AgentIsShown(cfg: Config, steps: seq<Step>, i: nat) returns (p: nat)
    requires i < |Run(cfg, INITIAL, steps).tables.runs|
    ensures var t := Run(cfg, INITIAL, steps).tables;
      var run := t.runs[i].identity;
      var log, rows := Log(t.messages, run.conversation), SummariesOf(t.summaries, run.conversation);
      && p < |log| && log[p].sequence == 2 * run.expectedVersion + 1
      && IsShown(Context(t, cfg.memory, run.tenant, run.conversation, 2 * run.expectedVersion + 1), log, rows, p,
                 cfg.memory.recentTurns * 2)
  {
    hide Context, LeavesRoom, TablesOk, ShowsMessages;
    ReachableInv(cfg, steps);
    var t := Run(cfg, INITIAL, steps).tables;
    p := SoundContext(t, cfg.memory, t.runs[i].identity);
  }

  // ---------------------------------------------------------------- listed before the question

  lemma CommittedLaterIff(log: seq<Message>, later: seq<Message>, question: nat)
    requires Increasing(log + later) && HasSequence(log + later, question)
    ensures |log| <= |WhereBefore(log + later, question)| <==> !HasSequence(log, question)
  {
    var q := PositionOf(log + later, question);
    if q < |log| {
      assert log[q].sequence == question;
    } else {
      assert forall i :: 0 <= i < |log| ==> (log + later)[i] == log[i];
    }
  }

  /** The summary at the end of these rows was made from this draft. */
  predicate MadeFrom(rows: seq<Summary>, draft: Draft) {
    && rows != []
    && rows[|rows| - 1].sourceVersion == draft.PriorVersion() + 1
    && rows[|rows| - 1].origin == Origin(draft.PriorText(), draft.messages, draft.uncovered)
  }

  /** A plan knows how long the log was. */
  lemma PlanLength(t: Tables, cfg: MemoryConfig, tenant: Id, c: Id)
    requires TablesOk(t, cfg.Keep()) && Belongs(t, tenant, c) && PlanSummary(t, cfg, tenant, c).Some?
    ensures var draft := PlanSummary(t, cfg, tenant, c).value;
      var log, rows := Log(t.messages, c), SummariesOf(t.summaries, c);
      && draft.PriorVersion() == |rows| && draft.PriorCovered() == CoveredBefore(rows, |rows| + 1)
      && |UpTo(log, draft.PriorCovered())| + draft.uncovered == |log|
      && exists i :: 0 <= i < |log| && log[i].sequence >= draft.PriorCovered()
  {
    var draft := PlanSummary(t, cfg, tenant, c).value;
    var log, rows := Log(t.messages, c), SummariesOf(t.summaries, c);
    PlanContents(t, cfg, tenant, c);
    SoundLog(t, tenant, c, cfg.Keep());
    VersionsCount(t, c, cfg.Keep());
    CoveredThenUncovered(log, draft.PriorCovered());
    LastUncovered(log, draft.PriorCovered());
  }

  lemma LastUncovered(log: seq<Message>, covered: nat)
    requires Increasing(log) && WhereAfter(log, covered) != []
    ensures log != [] && log[|log| - 1].sequence >= covered
  {
    var cut := CutExists(log, covered + 1);
  }

  /** The listing of a summary made from a plan of an earlier state has the length of the log then. */
  lemma ListedAtPlan(t: Tables, t': Tables, cfg: MemoryConfig, tenant: Id, c: Id)
    requires TablesOk(t, cfg.Keep()) && TablesOk(t', cfg.Keep()) && Extends(t, t')
    requires Belongs(t, tenant, c) && PlanSummary(t, cfg, tenant, c).Some?
    requires MadeFrom(SummariesOf(t'.summaries, c), PlanSummary(t, cfg, tenant, c).value)
    ensures var rows' := SummariesOf(t'.summaries, c);
      ListedAt(Log(t'.messages, c), rows', |rows'| - 1) == |Log(t.messages, c)|
  {
    hide PlanSummary, RunRowOk, MessageRowsOk;
    var later, newer := LogExtends(t, t', c);
    var log, rows := Log(t.messages, c), SummariesOf(t.summaries, c);
    var draft := PlanSummary(t, cfg, tenant, c).value;
    PlanLength(t, cfg, tenant, c);
    VersionsCount(t', c, cfg.Keep());
    assert |rows + newer| == |rows| + 1;
    assert CoveredBefore(rows + newer, |rows| + 1) == CoveredBefore(rows, |rows| + 1);
    assert Increasing(log + later) by {
      SoundLog(t', tenant, c, cfg.Keep());
    }
    UpToIsStable(log, later, draft.PriorCovered());
  }

  /** The condition in terms of the run itself: when the newest summary was made from a plan drafted
      at an earlier state, it opens the context of a run exactly when the run's question was not yet
      committed at that state. */
  lemma InjectedIffListedBefore(cfg: Config, steps: seq<Step>, more: seq<Step>, tenant: Id, c: Id, i: nat)
    requires var t, t' := Run(cfg, INITIAL, steps).tables, Run(cfg, INITIAL, steps + more).tables;
      && Belongs(t, tenant, c) && PlanSummary(t, cfg.memory, tenant, c).Some?
      && MadeFrom(SummariesOf(t'.summaries, c), PlanSummary(t, cfg.memory, tenant, c).value)
      && i < |t'.runs| && t'.runs[i].identity.conversation == c
    ensures var t, t' := Run(cfg, INITIAL, steps).tables, Run(cfg, INITIAL, steps + more).tables;
      var rows := SummariesOf(t'.summaries, c);
      Opens(t', cfg.memory, t'.runs[i].identity, rows[|rows| - 1])
      <==> !HasSequence(Log(t.messages, c), QuestionOf(t'.runs[i].identity))
  {
    var t, t' := Run(cfg, INITIAL, steps).tables, Run(cfg, INITIAL, steps + more).tables;
    var run := t'.runs[i].identity;
    ReachableInv(cfg, steps);
    ReachableInv(cfg, steps + more);
    RunConcat(cfg, INITIAL, steps, more);
    RunKeepsInv(cfg, Run(cfg, INITIAL, steps), more);
    SoundInjectedIff(t', cfg.memory, run);
    ListedAtPlan(t, t', cfg.memory, tenant, c);
    CommittedInLater(t, t', run, cfg.memory.Keep());
  }

  lemma CommittedInLater(t: Tables, t': Tables, run: RunIdentity, keep: nat)
    requires TablesOk(t', keep) && Extends(t, t') && HasRun(t'.runs, run)
    ensures var log, log' := Log(t.messages, run.conversation), Log(t'.messages, run.conversation);
      |log| <= |WhereBefore(log', QuestionOf(run))| <==> !HasSequence(log, QuestionOf(run))
  {
    var later, newer := LogExtends(t, t', run.conversation);
    QuestionStored(t', run);
    SoundLog(t', run.tenant, run.conversation, keep);
    CommittedLaterIff(Log(t.messages, run.conversation), later, QuestionOf(run));
  }

  // ---------------------------------------------------------------- under the lease

  /** Live `send_message` processes work on different conversations. */
  predicate LeaseHeld(processes: map<nat, Process>) {
    forall a, b :: a in processes && b in processes && a != b && IsLive(processes[a].phase)
      && IsLive(processes[b].phase)
      ==> processes[a].request.ctx.tenant != processes[b].request.ctx.tenant
          || processes[a].request.conversation != processes[b].request.conversation
  }

  lemma AdvanceStaysLive(cfg: Config, t: Tables, q: Request, phase: Phase, action: Action)
    ensures IsLive(Advance(cfg, t, q, phase, action).1) ==> IsLive(phase)
  {
  }

  lemma StepKeepsLease(cfg: Config, s: State, step: Step)
    requires cfg.exclusive && LeaseHeld(s.processes)
    ensures LeaseHeld(Apply(cfg, s, step).processes)
  {
    if step.Act? && step.pid in s.processes {
      var p := s.processes[step.pid];
      AdvanceStaysLive(cfg, s.tables, p.request, p.phase, step.action);
    }
  }

  predicate RoomFor(t: Tables, run: RunIdentity, keep: nat) {
    var rows := SummariesOf(t.summaries, run.conversation);
    forall k :: 0 <= k < |rows| ==> LeavesRoom(Log(t.messages, run.conversation), rows[k], QuestionOf(run), keep)
  }

  predicate RoomKept(cfg: Config, s: State) {
    forall pid :: pid in s.processes && s.processes[pid].phase.Prepared?
      ==> RoomFor(s.tables, s.processes[pid].phase.run, cfg.memory.Keep())
  }

  /** A process touches the log and the summaries of a conversation only while it is live there. */
  lemma QuietElsewhere(cfg: Config, t: Tables, q: Request, phase: Phase, action: Action, c: Id)
    requires Ready(t, q, phase, cfg.memory.Keep())
    requires IsLive(phase) && q.conversation == c ==> !Belongs(t, q.ctx.tenant, c)
    ensures var t' := Advance(cfg, t, q, phase, action).0;
      Log(t'.messages, c) == Log(t.messages, c) && SummariesOf(t'.summaries, c) == SummariesOf(t.summaries, c)
  {
    QuietLog(cfg, t, q, phase, action, c);
    QuietSummaries(cfg, t, q, phase, action, c);
  }

  lemma QuietLog(cfg: Config, t: Tables, q: Request, phase: Phase, action: Action, c: Id)
    requires Ready(t, q, phase, cfg.memory.Keep())
    requires IsLive(phase) && q.conversation == c ==> !Belongs(t, q.ctx.tenant, c)
    ensures Log(Advance(cfg, t, q, phase, action).0.messages, c) == Log(t.messages, c)
  {
    AdvanceMessages(cfg, t, q, phase, action);
    if Advance(cfg, t, q, phase, action).0.messages != t.messages {
      var m := AddsWhereItBelongs(cfg, t, q, phase, action);
      LogAppend(t.messages, m, c);
    }
  }

  lemma AddsWhereItBelongs(cfg: Config, t: Tables, q: Request, phase: Phase, action: Action) returns (m: Message)
    requires Ready(t, q, phase, cfg.memory.Keep())
    requires Advance(cfg, t, q, phase, action).0.messages != t.messages
    ensures IsLive(phase) && Belongs(t, q.ctx.tenant, q.conversation)
    ensures m.conversation == q.conversation && Advance(cfg, t, q, phase, action).0.messages == t.messages + [m]
  {
    AdvanceMessages(cfg, t, q, phase, action);
    if action.Insert? {
      m := UserMessage(q, phase.version, action.messageId);
      InsertNeedsConversation(t, q, phase, action.messageId, action.runId, action.token);
    } else {
      m := AssistantMessage(phase.run, phase.answer, action.messageId);
      KnownBelongs(t, q, phase.run);
    }
  }

  lemma InsertNeedsConversation(t: Tables, q: Request, phase: Phase, messageId: Id, runId: Id, token: nat)
    requires InsertStep(t, q, phase, messageId, runId, token).0.messages != t.messages
    ensures Belongs(t, q.ctx.tenant, q.conversation)
  {
  }

  lemma AdvanceSummaries(cfg: Config, t: Tables, q: Request, phase: Phase, action: Action)
    ensures var t' := Advance(cfg, t, q, phase, action).0;
      t'.summaries == t.summaries
      || (action.InsertSummary? && phase.Wanted? && t'.summaries == t.summaries + [phase.summary.(id := action.id)])
  {
    match action
    case Insert(_, _, _) =>
    case WriteAnswer(_) =>
    case WriteFailure =>
    case WriteCancel =>
    case InsertSummary(_) =>
    case _ => assert Advance(cfg, t, q, phase, action).0 == t;
  }

  lemma QuietSummaries(cfg: Config, t: Tables, q: Request, phase: Phase, action: Action, c: Id)
    requires PhaseOk(t, q, phase, cfg.memory.Keep())
    requires IsLive(phase) && q.conversation == c ==> !Belongs(t, q.ctx.tenant, c)
    ensures SummariesOf(Advance(cfg, t, q, phase, action).0.summaries, c) == SummariesOf(t.summaries, c)
  {
    AdvanceSummaries(cfg, t, q, phase, action);
    if phase.Wanted? && action.InsertSummary? {
      SummariesAppend(t.summaries, phase.summary.(id := action.id), c);
    }
  }

  /** A new question comes after everything that is stored. */
  lemma RoomAfterAsk(log: seq<Message>, rows: seq<Summary>, m: Message, k: nat, keep: nat)
    requires ChainOk(log, rows, keep) && k < |rows|
    requires forall i :: 0 <= i < |log| ==> log[i].sequence < m.sequence
    ensures LeavesRoom(log + [m], rows[k], m.sequence, keep)
  {
    AtCut(log + [m], m.sequence, |log|);
    assert (log + [m])[..|log|] == log;
    assert ChainEntryOk(log, rows, k, keep);
  }

  lemma NewQuestionHasRoom(t: Tables, q: Request, version: nat, messageId: Id, runId: Id, token: nat, keep: nat)
    requires TablesOk(t, keep) && PrepareInsert(t, q, version, messageId, runId, token).1.Ok?
    ensures var (t', r) := PrepareInsert(t, q, version, messageId, runId, token);
      RoomFor(t', r.value.run.identity, keep)
  {
    var m := UserMessage(q, version, messageId);
    assert ConversationOk(t, q.conversation, keep);
    TurnLogShape(Log(t.messages, q.conversation), version);
    TurnHasRoom(t, version, m, NewRun(q, version, runId, token, messageId), keep);
  }

  lemma TurnHasRoom(t: Tables, version: nat, m: Message, run: RunRow, keep: nat)
    requires m.conversation in t.conversations
    requires ChainOk(Log(t.messages, m.conversation), SummariesOf(t.summaries, m.conversation), keep)
    requires run.identity.conversation == m.conversation && m.sequence == 2 * run.identity.expectedVersion + 1
    requires forall i :: 0 <= i < |Log(t.messages, m.conversation)| ==>
      Log(t.messages, m.conversation)[i].sequence < m.sequence
    ensures RoomFor(WithTurn(t, version, m, run), run.identity, keep)
  {
    var log, rows := Log(t.messages, m.conversation), SummariesOf(t.summaries, m.conversation);
    LogAppend(t.messages, m, m.conversation);
    forall k | 0 <= k < |rows|
      ensures LeavesRoom(log + [m], rows[k], m.sequence, keep)
    {
      RoomAfterAsk(log, rows, m, k, keep);
    }
  }

  /** A live process in Prepared shares its conversation with no other live process. */
  lemma OthersLeaveRoom(cfg: Config, s: State, pid: nat, action: Action, other: nat)
    requires Inv(cfg, s) && LeaseHeld(s.processes) && RoomKept(cfg, s)
    requires pid in s.processes && other in s.processes && other != pid && s.processes[other].phase.Prepared?
    ensures RoomFor(Advance(cfg, s.tables, s.processes[pid].request, s.processes[pid].phase, action).0,
                    s.processes[other].phase.run, cfg.memory.Keep())
  {
    var p, o := s.processes[pid], s.processes[other];
    var c := o.phase.run.conversation;
    assert PhaseOk(s.tables, o.request, o.phase, cfg.memory.Keep());
    KnownBelongs(s.tables, o.request, o.phase.run);
    QuietElsewhere(cfg, s.tables, p.request, p.phase, action, c);
  }

  /** The step of a process that ends in Prepared: either nothing happened or it just inserted. */
  lemma OwnRoom(cfg: Config, s: State, pid: nat, action: Action)
    requires Inv(cfg, s) && RoomKept(cfg, s) && pid in s.processes
    requires Advance(cfg, s.tables, s.processes[pid].request, s.processes[pid].phase, action).1.Prepared?
    ensures var (t', phase') := Advance(cfg, s.tables, s.processes[pid].request, s.processes[pid].phase, action);
      RoomFor(t', phase'.run, cfg.memory.Keep())
  {
    var p := s.processes[pid];
    if p.phase.Prepared? {
      StillPrepared(cfg, s.tables, p.request, p.phase, action);
    } else {
      FromLooked(cfg, s.tables, p.request, p.phase, action);
      NewQuestionHasRoom(s.tables, p.request, p.phase.version, action.messageId, action.runId, action.token,
                         cfg.memory.Keep());
    }
  }

  lemma StillPrepared(cfg: Config, t: Tables, q: Request, phase: Phase, action: Action)
    requires phase.Prepared? && Advance(cfg, t, q, phase, action).1.Prepared?
    ensures Advance(cfg, t, q, phase, action) == (t, phase)
  {
  }

  lemma FromLooked(cfg: Config, t: Tables, q: Request, phase: Phase, action: Action)
    requires !phase.Prepared? && Advance(cfg, t, q, phase, action).1.Prepared?
    ensures action.Insert? && phase.Looked?
    ensures var (t', r) := PrepareInsert(t, q, phase.version, action.messageId, action.runId, action.token);
      r.Ok? && Advance(cfg, t, q, phase, action) == (t', Prepared(r.value.run.identity))
  {
  }

  lemma ActKeepsRoom(cfg: Config, s: State, pid: nat, action: Action, other: nat)
    requires Inv(cfg, s) && LeaseHeld(s.processes) && RoomKept(cfg, s) && pid in s.processes
    requires var s' := Apply(cfg, s, Act(pid, action)); other in s'.processes && s'.processes[other].phase.Prepared?
    ensures var s' := Apply(cfg, s, Act(pid, action));
      RoomFor(s'.tables, s'.processes[other].phase.run, cfg.memory.Keep())
  {
    if other == pid {
      OwnRoom(cfg, s, pid, action);
    } else {
      OthersLeaveRoom(cfg, s, pid, action, other);
    }
  }

  lemma OtherStepKeepsRoom(cfg: Config, s: State, step: Step, other: nat)
    requires RoomKept(cfg, s) && !(step.Act? && step.pid in s.processes)
    requires var s' := Apply(cfg, s, step); other in s'.processes && s'.processes[other].phase.Prepared?
    ensures var s' := Apply(cfg, s, step); RoomFor(s'.tables, s'.processes[other].phase.run, cfg.memory.Keep())
  {
    var s' := Apply(cfg, s, step);
    assert s'.tables.messages == s.tables.messages && s'.tables.summaries == s.tables.summaries;
    assert other in s.processes && s'.processes[other] == s.processes[other];
  }

  lemma StepKeepsRoom(cfg: Config, s: State, step: Step)
    requires Inv(cfg, s) && LeaseHeld(s.processes) && RoomKept(cfg, s)
    ensures RoomKept(cfg, Apply(cfg, s, step))
  {
    var s' := Apply(cfg, s, step);
    forall other | other in s'.processes && s'.processes[other].phase.Prepared?
      ensures RoomFor(s'.tables, s'.processes[other].phase.run, cfg.memory.Keep())
    {
      if step.Act? && step.pid in s.processes {
        ActKeepsRoom(cfg, s, step.pid, step.action, other);
      } else {
        OtherStepKeepsRoom(cfg, s, step, other);
      }
    }
  }

  lemma {:induction false} RunKeepsRoom(cfg: Config, steps: seq<Step>)
    requires cfg.exclusive
    ensures var s := Run(cfg, INITIAL, steps); LeaseHeld(s.processes) && RoomKept(cfg, s)
  {
    if steps != [] {
      var before := steps[..|steps| - 1];
      RunKeepsRoom(cfg, before);
      ReachableInv(cfg, before);
      StepKeepsLease(cfg, Run(cfg, INITIAL, before), steps[|steps| - 1]);
      StepKeepsRoom(cfg, Run(cfg, INITIAL, before), steps[|steps| - 1]);
    }
  }

  /** Under the lease: whenever a request whose question is committed loads its context and the
      conversation has a summary, the newest summary opens the context. */
  lemma SummaryIsAlwaysInjected(cfg: Config, steps: seq<Step>, pid: nat)
    requires cfg.exclusive && pid in Run(cfg, INITIAL, steps).processes
    requires Run(cfg, INITIAL, steps).processes[pid].phase.Prepared?
    ensures var s := Run(cfg, INITIAL, steps);
      var run := s.processes[pid].phase.run;
      var summary := LatestSummary(s.tables, run.tenant, run.conversation);
      summary.Some? ==> Opens(s.tables, cfg.memory, run, summary.value)
  {
    ReachableInv(cfg, steps);
    RunKeepsRoom(cfg, steps);
    var s := Run(cfg, INITIAL, steps);
    var p := s.processes[pid];
    assert PhaseOk(s.tables, p.request, p.phase, cfg.memory.Keep());
    RoomInjects(s.tables, cfg.memory, p.phase.run);
  }

  lemma RoomInjects(t: Tables, cfg: MemoryConfig, run: RunIdentity)
    requires TablesOk(t, cfg.Keep()) && HasRun(t.runs, run) && RoomFor(t, run, cfg.Keep())
    ensures var summary := LatestSummary(t, run.tenant, run.conversation);
      summary.Some? ==> Opens(t, cfg, run, summary.value)
  {
    SoundInjectedIff(t, cfg, run);
    QuestionStored(t, run);
    LatestIsLast(t, run.tenant, run.conversation, cfg.Keep());
    if SummariesOf(t.summaries, run.conversation) != [] {
      LastLeavesRoom(t, run, cfg.Keep());
    }
  }

  lemma LastLeavesRoom(t: Tables, run: RunIdentity, keep: nat)
    requires RoomFor(t, run, keep) && SummariesOf(t.summaries, run.conversation) != []
    ensures var rows := SummariesOf(t.summaries, run.conversation);
      LeavesRoom(Log(t.messages, run.conversation), rows[|rows| - 1], QuestionOf(run), keep)
  {
  }
}
