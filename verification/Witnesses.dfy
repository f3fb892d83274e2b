// Runs that show two limits of the memory: without the lease a context can lack its summary, and a
// listing that is cut off passes messages over, which no later turn sees.
module Witnesses {
  import opened Entities
  import opened Tables
  import opened Conversations
  import opened Memory
  import opened Logs
  import opened Protocol
  import opened Invariants
  import opened Safety
  import opened SummaryPlan
  import opened RollingSummary
  import opened ContextBound
  import opened SummaryGaps
  import opened Messaging
  import Text

  /** One user who asks in one conversation, under the keys "0", "1", "2", ... */
  datatype Talk = Talk(tenant: Id, user: Id, conversation: Id) {
    function Ask(n: nat): Request {
      Request(AuthContext(tenant, user, false), conversation, "", Text.Decimal(n))
    }

    function Question(n: nat): Message { UserMessage(Ask(n), n, 2 * n) }

    function Row(n: nat): RunRow { NewRun(Ask(n), n, n, 0, 2 * n) }

    function Answer(n: nat): Message { AssistantMessage(Row(n).identity, "", 2 * n + 1) }

    /** A turn up to the committed answer, without a summary. */
    function Turn(n: nat): seq<Action> {
      [Lookup] + [Insert(2 * n, n, 0)] + [AgentAnswers("")] + [CheckLease(true)] + [ReadRun] + [WriteAnswer(2 * n + 1)]
    }
  }

  /** After n turns: ids and keys up to n are taken, and nothing is summarised. */
  ghost predicate Talked(t: Tables, k: Talk, n: nat) {
    && k.conversation in t.conversations && t.conversations[k.conversation] == Conversation(k.tenant, k.user, n)
    && (forall i :: 0 <= i < |t.messages| ==> t.messages[i].id < 2 * n)
    && RunsBelow(t.runs, n)
    && t.summaries == []
    && |Log(t.messages, k.conversation)| == 2 * n
  }

  predicate KeyBelow(key: string, n: nat) {
    exists v :: 0 <= v < n && key == Text.Decimal(v)
  }

  lemma KeyIsNew(n: nat)
    ensures !KeyBelow(Text.Decimal(n), n)
  {
    if KeyBelow(Text.Decimal(n), n) {
      var v :| 0 <= v < n && Text.Decimal(n) == Text.Decimal(v);
      Text.DecimalInjective(n, v);
    }
  }

  lemma TurnIsLookedUp(t: Tables, k: Talk, n: nat)
    requires Talked(t, k, n)
    ensures PrepareLookup(t, k.Ask(n)) == Proceed(n)
  {
    KeyIsNew(n);
    assert GetRunByKey(t, k.tenant, Text.Decimal(n)).None?;
  }

  /** The rows with the question of turn n. */
  function Asked(t: Tables, k: Talk, n: nat): Tables
    requires k.conversation in t.conversations
  {
    WithTurn(t, n, k.Question(n), k.Row(n))
  }

  lemma TurnIsInserted(t: Tables, k: Talk, n: nat, keep: nat)
    requires Talked(t, k, n) && TablesOk(t, keep)
    ensures PrepareInsert(t, k.Ask(n), n, 2 * n, n, 0)
      == (Asked(t, k, n), Ok(Reply(k.Row(n), k.Question(n), None, false)))
  {
    AboveIsFree(t, k.conversation, 2 * n + 1, keep);
    KeyIsNew(n);
    assert MessageFits(t.messages, k.Question(n));
    assert RunFits(t.runs, k.Row(n).identity);
  }

  /** The rows with the answer of turn n. */
  function Answered(t: Tables, k: Talk, n: nat): Tables
    requires k.conversation in t.conversations
  {
    WithSaved(WithMessage(Asked(t, k, n), k.Answer(n)),
              k.Row(n).(assistantMessage := Some(2 * n + 1), status := Succeeded))
  }

  lemma RowIsFound(t: Tables, k: Talk, n: nat)
    requires Talked(t, k, n)
    ensures FindRun(Asked(t, k, n).runs, k.tenant, n) == Some(|t.runs|)
    ensures GetRun(Asked(t, k, n), k.tenant, n) == Some(k.Row(n))
  {
    assert Asked(t, k, n).runs == t.runs + [k.Row(n)];
  }

  lemma AnswerFits(t: Tables, k: Talk, n: nat, keep: nat)
    requires Talked(t, k, n) && TablesOk(t, keep)
    ensures MessageFits(Asked(t, k, n).messages, k.Answer(n))
  {
    AboveIsFree(t, k.conversation, 2 * n + 2, keep);
    assert Asked(t, k, n).messages == t.messages + [k.Question(n)];
  }

  lemma TurnIsFinalised(t: Tables, k: Talk, n: nat, keep: nat)
    requires Talked(t, k, n) && TablesOk(t, keep)
    ensures var (t', r) := Finalise(Asked(t, k, n), Some(k.Row(n)), k.Row(n).identity, "", 2 * n + 1);
      r.Ok? && t' == Answered(t, k, n)
  {
    RowIsFound(t, k, n);
    AnswerFits(t, k, n, keep);
    assert AtVersion(Asked(t, k, n), k.tenant, k.conversation, n + 1);
  }

  /** The turn, played alone. */
  lemma TurnPlays(cfg: Config, t: Tables, k: Talk, n: nat)
    requires Talked(t, k, n) && TablesOk(t, cfg.memory.Keep())
    ensures Play(cfg, t, k.Ask(n), Begun, k.Turn(n)) == (Answered(t, k, n), Completed(k.Row(n).identity))
  {
    var q, run, t1 := k.Ask(n), k.Row(n).identity, Asked(t, k, n);
    TurnAsks(cfg, t, k, n);
    var before := [Lookup] + [Insert(2 * n, n, 0)];
    PlayTo(cfg, t, q, Begun, before, AgentAnswers(""), t1, Prepared(run), t1, HasAnswer(run, ""));
    PlayTo(cfg, t, q, Begun, before + [AgentAnswers("")], CheckLease(true), t1, HasAnswer(run, ""), t1,
           Fenced(run, ""));
    RowIsFound(t, k, n);
    before := before + [AgentAnswers("")] + [CheckLease(true)];
    PlayTo(cfg, t, q, Begun, before, ReadRun, t1, Fenced(run, ""), t1, AnswerRead(run, "", Some(k.Row(n))));
    TurnIsFinalised(t, k, n, cfg.memory.Keep());
    PlayTo(cfg, t, q, Begun, before + [ReadRun], WriteAnswer(2 * n + 1), t1, AnswerRead(run, "", Some(k.Row(n))),
           Answered(t, k, n), Completed(run));
  }

  lemma TurnAsks(cfg: Config, t: Tables, k: Talk, n: nat)
    requires Talked(t, k, n) && TablesOk(t, cfg.memory.Keep())
    ensures Play(cfg, t, k.Ask(n), Begun, [Lookup] + [Insert(2 * n, n, 0)])
      == (Asked(t, k, n), Prepared(k.Row(n).identity))
  {
    var q := k.Ask(n);
    TurnIsLookedUp(t, k, n);
    TurnIsInserted(t, k, n, cfg.memory.Keep());
    assert [] + [Lookup] == [Lookup];
    PlayTo(cfg, t, q, Begun, [], Lookup, t, Begun, t, Looked(n));
    PlayTo(cfg, t, q, Begun, [Lookup], Insert(2 * n, n, 0), t, Looked(n), Asked(t, k, n), Prepared(k.Row(n).identity));
  }

  predicate RunsBelow(runs: seq<RunRow>, n: nat) {
    forall i :: 0 <= i < |runs| ==> runs[i].identity.id < n && KeyBelow(runs[i].identity.key, n)
  }

  lemma RunsStayBelow(runs: seq<RunRow>, row: RunRow, n: nat)
    requires RunsBelow(runs, n) && row.identity.id == n && row.identity.key == Text.Decimal(n)
    ensures RunsBelow(runs + [row], n + 1)
  {
    forall i | 0 <= i < |runs|
      ensures KeyBelow(runs[i].identity.key, n + 1)
    {
      assert KeyBelow(runs[i].identity.key, n);
    }
    assert KeyBelow(row.identity.key, n + 1);
  }

  lemma TurnIsTalked(t: Tables, k: Talk, n: nat)
    requires Talked(t, k, n)
    ensures Talked(Answered(t, k, n), k, n + 1)
  {
    hide KeyBelow;
    var t' := Answered(t, k, n);
    var row := k.Row(n).(assistantMessage := Some(2 * n + 1), status := Succeeded);
    RowIsFound(t, k, n);
    LogAppend(t.messages, k.Question(n), k.conversation);
    LogAppend(t.messages + [k.Question(n)], k.Answer(n), k.conversation);
    assert t'.messages == t.messages + [k.Question(n)] + [k.Answer(n)];
    assert t'.runs == t.runs + [row] by {
      assert t'.runs == (t.runs + [k.Row(n)])[|t.runs| := row];
    }
    RunsStayBelow(t.runs, row, n);
  }

  // ---------------------------------------------------------------- the run

  /** Processes below n have begun, the last one has just committed its answer, and the others are done. */
  predicate JustAnswered(processes: map<nat, Process>, k: Talk, n: nat) {
    && (forall pid :: pid in processes ==> pid < n)
    && (forall pid :: pid in processes && pid + 1 < n ==> processes[pid].phase.Done?)
    && (n > 0 ==> n - 1 in processes && processes[n - 1] == Process(k.Ask(n - 1), Completed(k.Row(n - 1).identity)))
  }

  /** A process that begins and acts while nobody else does. */
  lemma ActsAlone(cfg: Config, steps: seq<Step>, pid: nat, q: Request, actions: seq<Action>)
    requires var ps := Run(cfg, INITIAL, steps).processes;
      pid !in ps && (cfg.exclusive ==> !Busy(ps, q.ctx.tenant, q.conversation))
    ensures var s := Run(cfg, INITIAL, steps);
      var (t', phase') := Play(cfg, s.tables, q, Begun, actions);
      Run(cfg, INITIAL, steps + [Begin(pid, q)] + Acts(pid, actions))
          == State(t', s.processes[pid := Process(q, phase')])
  {
    var s := Run(cfg, INITIAL, steps);
    RunConcat(cfg, INITIAL, steps, [Begin(pid, q)]);
    RunOne(cfg, s, Begin(pid, q));
    RunConcat(cfg, INITIAL, steps + [Begin(pid, q)], Acts(pid, actions));
    PlayIsRun(cfg, Apply(cfg, s, Begin(pid, q)), pid, actions);
  }

  predicate AllDone(processes: map<nat, Process>, n: nat) {
    forall pid :: pid in processes ==> pid < n && processes[pid].phase.Done?
  }

  /** The last process ends without a summary. */
  lemma LastIsDone(cfg: Config, before: seq<Step>, k: Talk, n: nat) returns (steps: seq<Step>)
    requires JustAnswered(Run(cfg, INITIAL, before).processes, k, n)
    ensures var s := Run(cfg, INITIAL, steps);
      s.tables == Run(cfg, INITIAL, before).tables && AllDone(s.processes, n)
  {
    if n == 0 {
      steps := before;
    } else {
      var s := Run(cfg, INITIAL, before);
      RunConcat(cfg, INITIAL, before, [Act(n - 1, Finish)]);
      RunOne(cfg, s, Act(n - 1, Finish));
      steps := before + [Act(n - 1, Finish)];
    }
  }

  lemma {:induction false} TalkIsReachable(cfg: Config, k: Talk, n: nat) returns (steps: seq<Step>)
    ensures Talked(Run(cfg, INITIAL, steps).tables, k, n) && JustAnswered(Run(cfg, INITIAL, steps).processes, k, n)
  {
    if n == 0 {
      steps := [CreateConversation(k.conversation, k.tenant, k.user)];
      RunOne(cfg, INITIAL, CreateConversation(k.conversation, k.tenant, k.user));
    } else {
      var before := TalkIsReachable(cfg, k, n - 1);
      before := LastIsDone(cfg, before, k, n - 1);
      steps := OneMoreTurn(cfg, before, k, n - 1);
    }
  }

  lemma OneMoreTurn(cfg: Config, before: seq<Step>, k: Talk, n: nat) returns (steps: seq<Step>)
    requires Talked(Run(cfg, INITIAL, before).tables, k, n) && AllDone(Run(cfg, INITIAL, before).processes, n)
    ensures Talked(Run(cfg, INITIAL, steps).tables, k, n + 1)
      && JustAnswered(Run(cfg, INITIAL, steps).processes, k, n + 1)
  {
    var t := Run(cfg, INITIAL, before).tables;
    ReachableInv(cfg, before);
    TurnPlays(cfg, t, k, n);
    TurnIsTalked(t, k, n);
    ActsAlone(cfg, before, n, k.Ask(n), k.Turn(n));
    steps := before + [Begin(n, k.Ask(n))] + Acts(n, k.Turn(n));
  }

  /** The next question is committed while the last process is about to summarise. */
  lemma QuestionOverlaps(cfg: Config, k: Talk, n: nat) returns (steps: seq<Step>, t: Tables)
    requires !cfg.exclusive && n > 0
    ensures Talked(t, k, n) && TablesOk(t, cfg.memory.Keep()) && TablesOk(Asked(t, k, n), cfg.memory.Keep())
    ensures var s := Run(cfg, INITIAL, steps);
      && s.tables == Asked(t, k, n)
      && n in s.processes && s.processes[n].phase == Prepared(k.Row(n).identity)
      && n - 1 in s.processes && s.processes[n - 1] == Process(k.Ask(n - 1), Completed(k.Row(n - 1).identity))
  {
    var before := TalkIsReachable(cfg, k, n);
    t := Run(cfg, INITIAL, before).tables;
    ReachableInv(cfg, before);
    TurnAsks(cfg, t, k, n);
    var actions := [Lookup] + [Insert(2 * n, n, 0)];
    ActsAlone(cfg, before, n, k.Ask(n), actions);
    steps := before + [Begin(n, k.Ask(n))] + Acts(n, actions);
    ReachableInv(cfg, steps);
  }

  lemma AllUncovered(log: seq<Message>, version: nat)
    requires TurnLog(log, version)
    ensures WhereAfter(log, 0) == log
  {
    TurnLogShape(log, version);
    AtCut(log, 1, 0);
    assert log[0..] == log;
  }

  lemma NothingIsCovered(t: Tables, tenant: Id, c: Id, keep: nat)
    requires TablesOk(t, keep) && c in t.conversations && t.summaries == []
    ensures LatestSummary(t, tenant, c) == None
    ensures WhereAfter(Log(t.messages, c), 0) == Log(t.messages, c)
  {
    assert ConversationOk(t, c, keep);
    AllUncovered(Log(t.messages, c), t.conversations[c].version);
  }

  /** In a conversation that was never summarised, a summariser has something to do as soon as there
      are more messages than the threshold. */
  lemma PlansWhenLong(t: Tables, cfg: MemoryConfig, tenant: Id, c: Id)
    requires TablesOk(t, cfg.Keep()) && Belongs(t, tenant, c) && t.summaries == []
    requires |Log(t.messages, c)| > cfg.Threshold() && cfg.Threshold() < LISTING_LIMIT
    ensures PlanSummary(t, cfg, tenant, c).Some?
  {
    NothingIsCovered(t, tenant, c, cfg.Keep());
    if PlanSummary(t, cfg, tenant, c).None? {
      NothingToPlan(t, cfg, tenant, c);
    }
  }

  lemma QuestionIsLast(t: Tables, k: Talk, n: nat)
    requires Talked(t, k, n)
    ensures var log := Log(Asked(t, k, n).messages, k.conversation);
      |log| == 2 * n + 1 && log[2 * n].sequence == 2 * n + 1
  {
    LogAppend(t.messages, k.Question(n), k.conversation);
  }

  // ---------------------------------------------------------------- a summariser alone

  /** A summariser that nobody disturbs and that gets an answer from the model stores its plan. */
  lemma PlanIsStored(t: Tables, cfg: MemoryConfig, tenant: Id, c: Id, reply: string, id: Id) returns (s: Summary)
    requires TablesOk(t, cfg.Keep()) && Belongs(t, tenant, c) && SummaryIdFree(t.summaries, id)
    requires PlanSummary(t, cfg, tenant, c).Some?
    ensures PlanSummary(t, cfg, tenant, c).value.messages != []
    ensures s == NewSummary(PlanSummary(t, cfg, tenant, c).value, tenant, c, id, Text.Strip(reply))
    ensures Summarise(t, t, t, cfg, tenant, c, Some(reply), id) == WithSummary(t, s)
    ensures NextSummary(t, s, cfg.Keep())
  {
    s := PlannedSummary(t, cfg, tenant, c, id, Text.Strip(reply));
    NextVersionFits(t, s, cfg.Keep());
    NextVersionWanted(t, s, cfg.Keep());
  }

  lemma LatestAfterStoring(t: Tables, s: Summary, keep: nat)
    requires TablesOk(t, keep) && NextSummary(t, s, keep)
    ensures LatestSummary(WithSummary(t, s), s.tenant, s.conversation) == Some(s)
  {
    SummaryKeeps(t, s, keep);
    LatestIsLast(WithSummary(t, s), s.tenant, s.conversation, keep);
    SummariesAppend(t.summaries, s, s.conversation);
  }

  /** The coverage of a summary of the whole log ends right where the window of the last message
      begins. */
  lemma OldestIsCovered(log: seq<Message>, covered: nat, keep: nat, question: nat)
    requires Increasing(log) && log != [] && log[|log| - 1].sequence == question
    requires HasSequence(log, covered) && |WhereAfter(log, covered)| == keep > 0
    ensures OldestRecent(Newest(WhereBefore(log, question), keep), question) == covered
  {
    var k := PositionOf(log, covered);
    AtCut(log, covered + 1, k + 1);
    WindowStart(log, question, keep, |log| - 1);
  }

  /** A summariser that sees the question of the next turn keeps one message too few before it. Its
      coverage then equals the first sequence of that turn's window, and the strict comparison drops
      the summary it has just stored, for every log and every reply. */
  lemma OverlappingSummaryIsDropped(t: Tables, cfg: MemoryConfig, tenant: Id, c: Id, question: nat, reply: string,
                                    id: Id)
    returns (t': Tables, s: Summary)
    requires TablesOk(t, cfg.Keep()) && Belongs(t, tenant, c) && SummaryIdFree(t.summaries, id)
    requires PlanSummary(t, cfg, tenant, c).Some? && cfg.Keep() > 0
    requires var log := Log(t.messages, c); log != [] && log[|log| - 1].sequence == question
    ensures t' == Summarise(t, t, t, cfg, tenant, c, Some(reply), id)
    ensures LatestSummary(t', tenant, c) == Some(s)
    ensures s.coveredThrough == OldestRecent(Window(t', cfg, tenant, c, question), question)
    ensures Context(t', cfg, tenant, c, question) == RawTurns(Window(t', cfg, tenant, c, question))
  {
    s := PlanIsStored(t, cfg, tenant, c, reply, id);
    t' := WithSummary(t, s);
    SoundLog(t, tenant, c, cfg.Keep());
    LatestAfterStoring(t, s, cfg.Keep());
    DroppedAfterStoring(t, s, cfg, tenant, c, question);
  }

  lemma NextCovers(t: Tables, s: Summary, keep: nat)
    requires NextSummary(t, s, keep)
    ensures HasSequence(Log(t.messages, s.conversation), s.coveredThrough)
    ensures |WhereAfter(Log(t.messages, s.conversation), s.coveredThrough)| == keep
  {
  }

  lemma DroppedAfterStoring(t: Tables, s: Summary, cfg: MemoryConfig, tenant: Id, c: Id, question: nat)
    requires LogSound(t, tenant, c) && cfg.Keep() > 0 && s.conversation == c
    requires NextSummary(t, s, cfg.Keep()) && LatestSummary(WithSummary(t, s), tenant, c) == Some(s)
    requires var log := Log(t.messages, c); log != [] && log[|log| - 1].sequence == question
    ensures var t' := WithSummary(t, s);
      && s.coveredThrough == OldestRecent(Window(t', cfg, tenant, c, question), question)
      && Context(t', cfg, tenant, c, question) == RawTurns(Window(t', cfg, tenant, c, question))
  {
    hide Window, Context, NextSummary;
    var t' := WithSummary(t, s);
    NextCovers(t, s, cfg.Keep());
    WindowIs(t', cfg, tenant, c, question);
    OldestIsCovered(Log(t.messages, c), s.coveredThrough, cfg.Keep(), question);
    ContextWithout(t', cfg, tenant, c, question, s);
  }

  lemma ContextWithout(t: Tables, cfg: MemoryConfig, tenant: Id, c: Id, question: nat, s: Summary)
    requires LatestSummary(t, tenant, c) == Some(s)
    requires s.coveredThrough >= OldestRecent(Window(t, cfg, tenant, c, question), question)
    ensures Context(t, cfg, tenant, c, question) == RawTurns(Window(t, cfg, tenant, c, question))
  {
    hide Window;
  }

  /** The conversation has a summary, it covers exactly up to the first message of this run's window,
      and the context of the run leaves it out. */
  predicate ContextLacksSummary(t: Tables, cfg: MemoryConfig, run: RunIdentity) {
    var window := Window(t, cfg, run.tenant, run.conversation, QuestionOf(run));
    var s := LatestSummary(t, run.tenant, run.conversation);
    && s.Some? && s.value.coveredThrough == OldestRecent(window, QuestionOf(run))
    && Context(t, cfg, run.tenant, run.conversation, QuestionOf(run)) == RawTurns(window)
  }

  lemma OverlapDrops(t: Tables, cfg: MemoryConfig, run: RunIdentity, reply: string)
    requires TablesOk(t, cfg.Keep()) && Belongs(t, run.tenant, run.conversation) && t.summaries == [] && cfg.Keep() > 0
    requires |Log(t.messages, run.conversation)| > cfg.Threshold() && cfg.Threshold() < LISTING_LIMIT
    requires var log := Log(t.messages, run.conversation); log[|log| - 1].sequence == QuestionOf(run)
    ensures ContextLacksSummary(Summarise(t, t, t, cfg, run.tenant, run.conversation, Some(reply), 0), cfg, run)
  {
    PlansWhenLong(t, cfg, run.tenant, run.conversation);
    var t', s := OverlappingSummaryIsDropped(t, cfg, run.tenant, run.conversation, QuestionOf(run), reply, 0);
  }

  lemma SummaryLeavesTooLittle(t: Tables, cfg: MemoryConfig, k: Talk, n: nat, reply: string)
    requires Talked(t, k, n) && TablesOk(Asked(t, k, n), cfg.Keep()) && cfg.Keep() > 0
    requires cfg.Threshold() < 2 * n && cfg.Threshold() < LISTING_LIMIT
    ensures var t1 := Asked(t, k, n);
      ContextLacksSummary(Summarise(t1, t1, t1, cfg, k.tenant, k.conversation, Some(reply), 0), cfg, k.Row(n).identity)
  {
    QuestionIsLast(t, k, n);
    OverlapDrops(Asked(t, k, n), cfg, k.Row(n).identity, reply);
  }

  /** A process that has committed its answer summarises while nobody else acts. */
  lemma SummarisesAlone(cfg: Config, before: seq<Step>, pid: nat, reply: string) returns (steps: seq<Step>)
    requires var ps := Run(cfg, INITIAL, before).processes; pid in ps && ps[pid].phase.Completed?
    ensures var s := Run(cfg, INITIAL, before);
      var p := s.processes[pid];
      Run(cfg, INITIAL, steps)
      == State(Summarise(s.tables, s.tables, s.tables, cfg.memory, p.request.ctx.tenant, p.request.conversation,
                         Some(reply), 0),
               s.processes[pid := p.(phase := Done(Outcome.Answered(p.phase.run.id)))])
  {
    var s := Run(cfg, INITIAL, before);
    var p := s.processes[pid];
    var actions := RememberPlays(cfg, s.tables, p.request, p.phase.run, Some(reply), 0);
    PlayIsRun(cfg, s, pid, actions);
    RunConcat(cfg, INITIAL, before, Acts(pid, actions));
    steps := before + Acts(pid, actions);
  }

  /** The process that has just answered summarises after the next question is committed. */
  lemma SummariserOverlaps(cfg: Config, k: Talk, n: nat, reply: string) returns (steps: seq<Step>, t: Tables)
    requires !cfg.exclusive && n > 0
    ensures Talked(t, k, n) && TablesOk(Asked(t, k, n), cfg.memory.Keep())
    ensures var s, t1 := Run(cfg, INITIAL, steps), Asked(t, k, n);
      && s.tables == Summarise(t1, t1, t1, cfg.memory, k.tenant, k.conversation, Some(reply), 0)
      && n in s.processes && s.processes[n].phase == Prepared(k.Row(n).identity)
  {
    var before;
    before, t := QuestionOverlaps(cfg, k, n);
    steps := SummarisesAlone(cfg, before, n - 1, reply);
  }

  /** The lease is needed for the context: for every configuration with a window, and every text that
      the model may return, there is a run without it in which a request has committed its question
      and its context lacks the summary that the conversation has. */
  lemma SummaryCanBeDropped(cfg: Config, k: Talk, reply: string) returns (steps: seq<Step>, pid: nat)
    requires !cfg.exclusive && cfg.memory.Keep() > 0 && cfg.memory.Threshold() < LISTING_LIMIT
    ensures var s := Run(cfg, INITIAL, steps);
      && pid in s.processes && s.processes[pid].phase.Prepared?
      && ContextLacksSummary(s.tables, cfg.memory, s.processes[pid].phase.run)
  {
    var t;
    pid := cfg.memory.Threshold() + 1;
    steps, t := SummariserOverlaps(cfg, k, pid, reply);
    SummaryLeavesTooLittle(t, cfg.memory, k, pid, reply);
  }

  // ---------------------------------------------------------------- more than a listing holds

  /** The first summary of a conversation plans over all its messages. */
  lemma FirstPlan(t: Tables, cfg: MemoryConfig, k: Talk, n: nat)
    requires Talked(t, k, n) && TablesOk(t, cfg.Keep()) && cfg.Threshold() < 2 * n && cfg.Threshold() < LISTING_LIMIT
    ensures PlanSummary(t, cfg, k.tenant, k.conversation).Some?
    ensures PlanSummary(t, cfg, k.tenant, k.conversation).value.uncovered == 2 * n
  {
    NothingIsCovered(t, k.tenant, k.conversation, cfg.Keep());
    PlansWhenLong(t, cfg, k.tenant, k.conversation);
    PlanContents(t, cfg, k.tenant, k.conversation);
  }

  /** The summary of a conversation that was never summarised counts all its messages. */
  lemma FirstSummaryCounts(t: Tables, cfg: MemoryConfig, k: Talk, n: nat, reply: string) returns (s: Summary)
    requires Talked(t, k, n) && TablesOk(t, cfg.Keep()) && cfg.Threshold() < 2 * n && cfg.Threshold() < LISTING_LIMIT
    ensures Summarise(t, t, t, cfg, k.tenant, k.conversation, Some(reply), 0) == WithSummary(t, s)
    ensures s.conversation == k.conversation && s.origin.uncovered == 2 * n
  {
    FirstPlan(t, cfg, k, n);
    s := PlanIsStored(t, cfg, k.tenant, k.conversation, reply, 0);
  }

  /** A thousand turns and then the first summary. */
  lemma LongTalk(cfg: Config, k: Talk, reply: string) returns (steps: seq<Step>, s: Summary)
    requires cfg.memory.Threshold() < LISTING_LIMIT
    ensures var t := Run(cfg, INITIAL, steps).tables;
      k.conversation in t.conversations && SummariesOf(t.summaries, k.conversation) == [s]
    ensures s.origin.uncovered == 2 * LISTING_LIMIT
  {
    hide Summarise;
    var n := LISTING_LIMIT;
    var before := TalkIsReachable(cfg, k, n);
    var t := Run(cfg, INITIAL, before).tables;
    ReachableInv(cfg, before);
    s := FirstSummaryCounts(t, cfg.memory, k, n, reply);
    steps := SummarisesAlone(cfg, before, n - 1, reply);
    OnlySummary(t, s);
  }

  lemma OnlySummary(t: Tables, s: Summary)
    requires t.summaries == []
    ensures SummariesOf(WithSummary(t, s).summaries, s.conversation) == [s]
  {
    SummariesAppend(t.summaries, s, s.conversation);
  }

  /** The limit of the listing is felt: for every configuration there is a run, of one process after
      the other, after which at least 1000 messages of a conversation are neither in the window of its
      next turn nor among what the model was shown for its summaries. */
  lemma MessagesCanBePassedOver(cfg: Config, k: Talk, reply: string) returns (steps: seq<Step>)
    requires cfg.memory.Threshold() < LISTING_LIMIT
    ensures var t := Run(cfg, INITIAL, steps).tables;
      var log, rows := Log(t.messages, k.conversation), SummariesOf(t.summaries, k.conversation);
      && k.conversation in t.conversations && rows != []
      && Shown(rows) != UpTo(log, CoveredNow(rows))
      && |Unseen(log, rows, cfg.memory.Keep())| >= 1000
  {
    var s;
    steps, s := LongTalk(cfg, k, reply);
    OnePassedOver(s);
    SummarisedExactlyOnce(cfg, steps, k.conversation);
    UnseenIsWaitingIff(cfg, steps, k.conversation);
    assert [s][0].origin.uncovered > LISTING_LIMIT;
  }

  lemma OnePassedOver(s: Summary)
    ensures PassedOver([s]) == s.origin.uncovered - Listed(s.origin.uncovered)
  {
    assert [s][..0] == [];
  }
}
