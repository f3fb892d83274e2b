// `send_message` of application/conversation_service.py from its first to its last unit of work,
// when nobody else commits in between, and its place in the step system: it is a run of one process.
module Messaging {
  import opened Entities
  import opened Tables
  import opened Conversations
  import opened Memory
  import opened Protocol
  import opened Access
  import Text

  /** The rows and the phase after one process has taken these actions and nobody else has done anything. */
  function Play(cfg: Config, t: Tables, q: Request, phase: Phase, actions: seq<Action>): (Tables, Phase) {
    if actions == [] then (t, phase)
    else
      var (t', phase') := Play(cfg, t, q, phase, actions[..|actions| - 1]);
      Advance(cfg, t', q, phase', actions[|actions| - 1])
  }

  function Acts(pid: nat, actions: seq<Action>): seq<Step> {
    if actions == [] then [] else Acts(pid, actions[..|actions| - 1]) + [Act(pid, actions[|actions| - 1])]
  }

  /** Playing is what the step system does with these actions of one process. */
  lemma {:induction false} PlayIsRun(cfg: Config, s: State, pid: nat, actions: seq<Action>)
    requires pid in s.processes
    ensures var p := s.processes[pid];
      var (t', phase') := Play(cfg, s.tables, p.request, p.phase, actions);
      Run(cfg, s, Acts(pid, actions)) == State(t', s.processes[pid := p.(phase := phase')])
  {
    if actions == [] {
      assert s.processes[pid := s.processes[pid]] == s.processes;
    } else {
      var before := Acts(pid, actions[..|actions| - 1]);
      PlayIsRun(cfg, s, pid, actions[..|actions| - 1]);
      assert (before + [Act(pid, actions[|actions| - 1])])[..|before|] == before;
    }
  }

  /** One more action. */
  lemma PlayOne(cfg: Config, t: Tables, q: Request, phase: Phase, actions: seq<Action>, action: Action, now: Tables,
                at: Phase)
    requires Play(cfg, t, q, phase, actions) == (now, at)
    ensures Play(cfg, t, q, phase, actions + [action]) == Advance(cfg, now, q, at, action)
  {
    assert (actions + [action])[..|actions|] == actions;
  }

  /** One more action, with where it leads. */
  lemma PlayTo(cfg: Config, t: Tables, q: Request, phase: Phase, actions: seq<Action>, action: Action, now: Tables,
               at: Phase, next: Tables, reached: Phase)
    requires Play(cfg, t, q, phase, actions) == (now, at) && Advance(cfg, now, q, at, action) == (next, reached)
    ensures Play(cfg, t, q, phase, actions + [action]) == (next, reached)
  {
    PlayOne(cfg, t, q, phase, actions, action, now, at);
  }

  function OutcomeOf(r: Result<Reply>): Outcome {
    match r
    case Ok(reply) => if reply.replayed then Replayed(reply.run.identity.id) else Answered(reply.run.identity.id)
    case Err(e) => Refused(e)
  }

  /** What comes from outside the database: the ids and the token that the rows get, the agent, the
      lease check, and the model's summary. */
  datatype Outside = Outside(
    messageId: Id, runId: Id, token: nat, agent: seq<ModelTurn> -> Option<string>, leaseValid: bool, answerId: Id,
    summary: Option<string>, summaryId: Id)

  /** The context that the agent is given. */
  function HistoryOf(cfg: Config, t: Tables, q: Request, o: Outside): seq<ModelTurn> {
    var (t', r) := Prepare(t, t, q, o.messageId, o.runId, o.token);
    if r.Ok? then Context(t', cfg.memory, q.ctx.tenant, q.conversation, r.value.userMessage.sequence) else []
  }

  /** What an action takes from outside is what there is: in particular the agent answers or fails
      as it does on this history, and no summary is left out. */
  predicate IsGiven(o: Outside, history: seq<ModelTurn>, action: Action) {
    match action
    case Insert(messageId, runId, token) => messageId == o.messageId && runId == o.runId && token == o.token
    case AgentFails => o.agent(history).None?
    case AgentAnswers(answer) => o.agent(history) == Some(answer)
    case CheckLease(valid) => valid == o.leaseValid
    case WriteAnswer(id) => id == o.answerId
    case Finish => false
    case ModelReplies(reply) => reply == o.summary
    case InsertSummary(id) => id == o.summaryId
    case _ => true
  }

  predicate AllGiven(o: Outside, history: seq<ModelTurn>, actions: seq<Action>) {
    forall k :: 0 <= k < |actions| ==> IsGiven(o, history, actions[k])
  }

  predicate IsMemory(action: Action, summary: Option<string>, summaryId: Id) {
    action == ListForSummary || action == ModelReplies(summary) || action == CheckSummary
      || action == InsertSummary(summaryId)
  }

  lemma GivenOn(o: Outside, history: seq<ModelTurn>, before: seq<Action>, more: seq<Action>)
    requires AllGiven(o, history, before) && AllGiven(o, history, more)
    ensures AllGiven(o, history, before + more)
  {
  }

  lemma MemoryIsGiven(o: Outside, history: seq<ModelTurn>, actions: seq<Action>)
    requires forall a :: a in actions ==> IsMemory(a, o.summary, o.summaryId)
    ensures AllGiven(o, history, actions)
  {
    forall k | 0 <= k < |actions|
      ensures IsGiven(o, history, actions[k])
    {
      assert IsMemory(actions[k], o.summary, o.summaryId);
    }
  }

  // ---------------------------------------------------------------- what a message leaves and returns

  /** The question that this request has stored, in turn `version`, with its run. */
  predicate IsNewTurn(q: Request, o: Outside, version: nat, question: Message, run: RunRow) {
    && question.id == o.messageId && question.role == User && question.content == q.content
    && question.tenant == q.ctx.tenant && question.conversation == q.conversation
    && question.sequence == 2 * version + 1
    && run.identity.id == o.runId && run.identity.key == q.key && run.identity.user == q.ctx.user
    && run.identity.tenant == q.ctx.tenant && run.identity.conversation == q.conversation
    && run.identity.fingerprint.conversation == q.conversation
    && run.identity.fingerprint.content == Text.Strip(q.content)
    && run.identity.expectedVersion == version && run.fencingToken == o.token && run.userMessage == Some(question.id)
  }

  /** The rows after the preparation of a new run: the version is one higher, and the question and its
      running run are there. */
  predicate Asked(t: Tables, t': Tables, q: Request, o: Outside, question: Message, run: RunRow) {
    && q.conversation in t.conversations
    && var c := t.conversations[q.conversation];
      && t'.conversations == t.conversations[q.conversation := c.(version := c.version + 1)]
      && t'.messages == t.messages + [question] && t'.runs == t.runs + [run]
      && IsNewTurn(q, o, c.version, question, run)
      && c.tenant == q.ctx.tenant
      && run.status == Running && run.assistantMessage == None && run.errorCode == None
  }

  /** The rows and the reply of an answered message: the question, the answer right behind it and the
      succeeded run that points to both are all that was added, and they are what the caller gets. */
  predicate Answers(t: Tables, t': Tables, q: Request, o: Outside, history: seq<ModelTurn>, reply: Reply) {
    && q.conversation in t.conversations
    && var c := t.conversations[q.conversation];
      && t'.conversations == t.conversations[q.conversation := c.(version := c.version + 1)]
      && IsNewTurn(q, o, c.version, reply.userMessage, reply.run)
      && reply.assistantMessage.Some?
      && var answer := reply.assistantMessage.value;
        && t'.messages == t.messages + [reply.userMessage, answer] && t'.runs == t.runs + [reply.run]
        && answer.id == o.answerId && answer.role == Assistant && o.agent(history) == Some(answer.content)
        && answer.tenant == q.ctx.tenant && answer.conversation == q.conversation
        && answer.sequence == reply.userMessage.sequence + 1
        && reply.run.status == Succeeded && reply.run.assistantMessage == Some(answer.id)
        && reply.run.errorCode == None
  }

  /** The rows after a message that has a question but no answer, with what its run says. */
  predicate Unanswered(t: Tables, t': Tables, q: Request, o: Outside, status: RunStatus, code: Option<string>) {
    && q.conversation in t.conversations
    && var c := t.conversations[q.conversation];
      && t'.conversations == t.conversations[q.conversation := c.(version := c.version + 1)]
      && |t'.messages| == |t.messages| + 1 && |t'.runs| == |t.runs| + 1
      && var question, run := t'.messages[|t.messages|], t'.runs[|t.runs|];
        && t'.messages == t.messages + [question] && t'.runs == t.runs + [run]
        && IsNewTurn(q, o, c.version, question, run)
        && run.status == status && run.errorCode == code && run.assistantMessage == None
  }

  /** Some message has the id, or the place in the conversation, that the answer of this turn would get. */
  predicate AnswerTaken(t: Tables, q: Request, o: Outside, version: nat) {
    exists i :: 0 <= i < |t.messages|
      && (t.messages[i].id == o.answerId
        || (t.messages[i].conversation == q.conversation && t.messages[i].sequence == 2 * version + 2))
  }

  /** How a new question can end without an answer. A failed agent fails the run, and without the lease
      the run is conflicted. Otherwise the commit of the answer was refused: because the version moved
      on, which makes the run conflicted too, or by a constraint, which leaves it running. */
  predicate Abandoned(t: Tables, t': Tables, q: Request, o: Outside, history: seq<ModelTurn>, error: DomainError) {
    if o.agent(history).None? then
      error == DependencyUnavailable && Unanswered(t, t', q, o, Failed, Some("MODEL_UNAVAILABLE"))
    else if !o.leaseValid then
      error == ConcurrentWrite && Unanswered(t, t', q, o, Conflicted, Some("LEASE_LOST"))
    else
      || (error == ConcurrentWrite && Unanswered(t, t', q, o, Conflicted, Some("LEASE_LOST")))
      || (error == IntegrityError && Unanswered(t, t', q, o, Running, None)
          && AnswerTaken(t', q, o, t.conversations[q.conversation].version))
  }

  /** What a new question needs: a free key, a caller who may use the conversation, new ids, and its
      place in the conversation. */
  predicate MayAsk(t: Tables, q: Request, o: Outside) {
    && KeyIsFree(t, q) && MayUse(t, q.ctx, q.conversation)
    && (forall i :: 0 <= i < |t.runs| ==> t.runs[i].identity.id != o.runId)
    && (forall i :: 0 <= i < |t.messages| ==>
      t.messages[i].id != o.messageId
      && !(t.messages[i].conversation == q.conversation
        && t.messages[i].sequence == 2 * t.conversations[q.conversation].version + 1))
  }

  /** The reply of a replay: what is stored under the key. */
  predicate GivesStored(t: Tables, q: Request, reply: Reply) {
    && reply.run in t.runs && reply.run.identity.tenant == q.ctx.tenant && reply.run.identity.key == q.key
    && reply.run.identity.fingerprint.conversation == q.conversation
    && reply.run.identity.fingerprint.content == Text.Strip(q.content)
    && reply.userMessage in t.messages && Some(reply.userMessage.id) == reply.run.userMessage
    && (reply.assistantMessage.Some? ==>
      reply.assistantMessage.value in t.messages
      && Some(reply.assistantMessage.value.id) == reply.run.assistantMessage)
  }

  lemma PrepareAsks(t: Tables, q: Request, o: Outside)
    ensures var (t', r) := Prepare(t, t, q, o.messageId, o.runId, o.token);
      && (r.Ok? && !r.value.replayed <==> MayAsk(t, q, o))
      && (r.Ok? && !r.value.replayed ==> Asked(t, t', q, o, r.value.userMessage, r.value.run))
      && (r.Ok? && r.value.replayed ==> t' == t && GivesStored(t, q, r.value))
      && (r.Err? ==> t' == t)
  {
    hide MayUse;
    WhoMayAsk(t, t, q, o.messageId, o.runId, o.token);
    if KeyIsFree(t, q) && MayUse(t, q.ctx, q.conversation) {
      VersionIsRead(t, q);
      InsertFitsIff(t, q, o);
    }
  }

  lemma VersionIsRead(t: Tables, q: Request)
    requires KeyIsFree(t, q) && MayUse(t, q.ctx, q.conversation)
    ensures PrepareLookup(t, q) == Proceed(t.conversations[q.conversation].version)
    ensures AtVersion(t, q.ctx.tenant, q.conversation, t.conversations[q.conversation].version)
  {
    WhoMayAsk(t, t, q, 0, 0, 0);
  }

  lemma InsertFitsIff(t: Tables, q: Request, o: Outside)
    requires KeyIsFree(t, q) && MayUse(t, q.ctx, q.conversation)
    ensures var version := t.conversations[q.conversation].version;
      MayAsk(t, q, o) <==>
        MessageFits(t.messages, UserMessage(q, version, o.messageId))
        && RunFits(t.runs, NewRun(q, version, o.runId, o.token, o.messageId).identity)
  {
  }

  lemma ReloadGivesStored(t: Tables, q: Request)
    ensures LoadIdempotent(t, q).Ok? ==>
      LoadIdempotent(t, q).value.replayed && GivesStored(t, q, LoadIdempotent(t, q).value)
  {
  }

  /** The run that was inserted last is the one that a lookup finds. */
  lemma LastRunFound(runs: seq<RunRow>, run: RunRow)
    ensures FindRun(runs + [run], run.identity.tenant, run.identity.id) == Some(|runs|)
  {
  }

  lemma MarkLeaves(t: Tables, now: Tables, q: Request, o: Outside, question: Message, run: RunRow, target: RunStatus,
                   code: string)
    requires Asked(t, now, q, o, question, run)
    ensures Unanswered(t, Mark(now, GetRun(now, run.identity.tenant, run.identity.id), target, code), q, o, target,
                       Some(code))
  {
    LastRunFound(t.runs, run);
  }

  lemma FinaliseAnswers(t: Tables, now: Tables, q: Request, o: Outside, history: seq<ModelTurn>, question: Message,
                        run: RunRow, answer: string)
    requires Asked(t, now, q, o, question, run) && o.agent(history) == Some(answer) && o.leaseValid
    ensures var id := run.identity;
      var (t', r) := Finalise(now, GetRun(now, id.tenant, id.id), id, answer, o.answerId);
      if r.Ok? then
        Answers(t, t', q, o, history, Reply(r.value, question, Some(AssistantMessage(id, answer, o.answerId)), false))
      else t' == now && (r.error != ConcurrentWrite ==> Abandoned(t, now, q, o, history, r.error))
  {
    LastRunFound(t.runs, run);
  }

  lemma SummariseKeepsTurns(t: Tables, cfg: MemoryConfig, tenant: Id, c: Id, summary: Option<string>, id: Id)
    ensures var t' := Summarise(t, t, t, cfg, tenant, c, summary, id);
      t'.conversations == t.conversations && t'.messages == t.messages && t'.runs == t.runs
  {
  }

  lemma AnswersKept(t: Tables, a: Tables, b: Tables, q: Request, o: Outside, history: seq<ModelTurn>, reply: Reply)
    requires Answers(t, a, q, o, history, reply) && b == a.(summaries := b.summaries)
    ensures Answers(t, b, q, o, history, reply)
  {
  }

  class Sender {
    const database: Database
    const service: ConversationService
    const memory: MemoryService
    const cfg: Config

    constructor (database: Database, cfg: Config)
      ensures this.database == database && this.cfg == cfg
      ensures service.database == database && memory.database == database && memory.cfg == cfg.memory
    {
      this.database, this.cfg := database, cfg;
      service := new ConversationService(database);
      memory := new MemoryService(database, cfg.memory);
    }

    /** The preparation and the except branch around it. `run` is the new run, if there is one. */
    method PrepareOrReplay(q: Request, o: Outside) returns (r: Result<Reply>, ghost actions: seq<Action>)
      requires service.database == database
      modifies database
      ensures Play(cfg, old(database.tables), q, Begun, actions)
           == (database.tables, if r.Ok? && !r.value.replayed then Prepared(r.value.run.identity)
               else Done(OutcomeOf(r)))
      ensures r.Ok? && !r.value.replayed ==>
        HistoryOf(cfg, old(database.tables), q, o)
        == Context(database.tables, cfg.memory, q.ctx.tenant, q.conversation, r.value.userMessage.sequence)
      ensures forall history :: AllGiven(o, history, actions)
      ensures r.Ok? && !r.value.replayed <==> MayAsk(old(database.tables), q, o)
      ensures r.Ok? && !r.value.replayed ==>
        Asked(old(database.tables), database.tables, q, o, r.value.userMessage, r.value.run)
      ensures r.Ok? && r.value.replayed ==>
        database.tables == old(database.tables) && GivesStored(database.tables, q, r.value)
      ensures r.Err? ==> database.tables == old(database.tables)
    {
      ghost var t := database.tables;
      PrepareAsks(t, q, o);
      ReloadGivesStored(t, q);
      r := service.PrepareRun(database.tables, q, o.messageId, o.runId, o.token);
      actions := PreparePlays(cfg, t, q, o);
      if r.Err? && r.error == IdempotencyConflict {
        PlayTo(cfg, t, q, Begun, actions, Reload, t, KeyTaken, t, Done(OutcomeOf(LoadIdempotent(t, q))));
        forall history
          ensures AllGiven(o, history, actions + [Reload])
        {
          GivenOn(o, history, actions, [Reload]);
        }
        actions := actions + [Reload];
        r := service.LoadIdempotentResult(database.tables, q);
      }
    }

    /** The except branches after the preparation: the run is marked and the error is raised again. */
    method GiveUp(q: Request, run: RunIdentity, target: RunStatus, code: string, error: DomainError)
      returns (ghost actions: seq<Action>)
      requires service.database == database && (target == Failed || target == Conflicted)
      modifies database
      ensures Play(cfg, old(database.tables), q, Failing(run, target, code, error), actions)
        == (database.tables, Done(Refused(error)))
      ensures actions == [ReadRun, WriteFailure]
      ensures database.tables
        == Mark(old(database.tables), GetRun(old(database.tables), run.tenant, run.id), target, code)
    {
      ghost var t, phase := database.tables, Failing(run, target, code, error);
      service.MarkRun(database.tables, run.tenant, run.id, target, code);
      PlayOne(cfg, t, q, phase, [], ReadRun, t, phase);
      PlayOne(cfg, t, q, phase, [] + [ReadRun], WriteFailure, t,
              FailureRead(run, target, code, error, GetRun(t, run.tenant, run.id)));
      actions := [] + [ReadRun] + [WriteFailure];
    }

    /** The except branches, from where the actions before have come. */
    method FailRun(q: Request, o: Outside, prepared: Reply, target: RunStatus, code: string, error: DomainError,
                   ghost t: Tables, ghost before: seq<Action>, ghost history: seq<ModelTurn>)
      returns (ghost actions: seq<Action>)
      requires service.database == database && (target == Failed || target == Conflicted)
      requires Play(cfg, t, q, Begun, before)
        == (database.tables, Failing(prepared.run.identity, target, code, error))
      requires Asked(t, database.tables, q, o, prepared.userMessage, prepared.run)
      requires AllGiven(o, history, before)
      modifies database
      ensures Unanswered(t, database.tables, q, o, target, Some(code))
      ensures Play(cfg, t, q, Begun, actions) == (database.tables, Done(Refused(error)))
        && AllGiven(o, history, actions)
    {
      MarkLeaves(t, database.tables, q, o, prepared.userMessage, prepared.run, target, code);
      ghost var more := GiveUp(q, prepared.run.identity, target, code, error);
      PlayOn(cfg, t, q, Begun, before, more);
      GivenOn(o, history, before, more);
      actions := before + more;
    }

    /** The finalising unit of work, without its except branch. */
    method CommitAnswer(q: Request, run: RunIdentity, answer: string, answerId: Id)
      returns (r: Result<RunRow>, ghost actions: seq<Action>)
      requires service.database == database
      modifies database
      ensures Play(cfg, old(database.tables), q, Fenced(run, answer), actions)
           == (database.tables,
               if r.Ok? then Completed(run)
               else if r.error == ConcurrentWrite then Failing(run, Conflicted, "LEASE_LOST", ConcurrentWrite)
               else Done(Refused(r.error)))
      ensures r.Ok? ==> r.value.identity.id == run.id
      ensures actions == [ReadRun, WriteAnswer(answerId)]
      ensures (database.tables, r)
        == Finalise(old(database.tables), GetRun(old(database.tables), run.tenant, run.id), run, answer, answerId)
    {
      ghost var t, phase := database.tables, Fenced(run, answer);
      r := service.FinaliseRun(database.tables, run, answer, answerId);
      PlayOne(cfg, t, q, phase, [], ReadRun, t, phase);
      PlayOne(cfg, t, q, phase, [] + [ReadRun], WriteAnswer(answerId), t,
              AnswerRead(run, answer, GetRun(t, run.tenant, run.id)));
      actions := [] + [ReadRun] + [WriteAnswer(answerId)];
    }

    /** `maybe_summarize` after a committed answer. */
    method Remember(q: Request, run: RunIdentity, summary: Option<string>, summaryId: Id)
      returns (ghost actions: seq<Action>)
      requires memory.database == database && memory.cfg == cfg.memory
      modifies database
      ensures Play(cfg, old(database.tables), q, Completed(run), actions) == (database.tables, Done(Answered(run.id)))
      ensures forall a :: a in actions ==> IsMemory(a, summary, summaryId)
      ensures database.tables == old(database.tables).(summaries := database.tables.summaries)
    {
      SummariseKeepsTurns(database.tables, cfg.memory, q.ctx.tenant, q.conversation, summary, summaryId);
      actions := RememberPlays(cfg, database.tables, q, run, summary, summaryId);
      memory.MaybeSummarize(database.tables, database.tables, q.ctx.tenant, q.conversation, summary, summaryId);
    }

    /** The end of `send_message`: the answer is committed, or the run is marked as conflicted. */
    method FinishAnswer(q: Request, o: Outside, prepared: Reply, answer: string,
                        ghost t: Tables, ghost before: seq<Action>, ghost history: seq<ModelTurn>)
      returns (r: Result<Reply>, ghost actions: seq<Action>)
      requires service.database == database && memory.database == database && memory.cfg == cfg.memory
      requires Play(cfg, t, q, Begun, before) == (database.tables, Fenced(prepared.run.identity, answer))
      requires AllGiven(o, history, before)
      requires Asked(t, database.tables, q, o, prepared.userMessage, prepared.run)
      requires o.agent(history) == Some(answer) && o.leaseValid
      modifies database
      ensures r.Ok? ==> !r.value.replayed && Answers(t, database.tables, q, o, history, r.value)
      ensures r.Err? ==> Abandoned(t, database.tables, q, o, history, r.error)
      ensures Play(cfg, t, q, Begun, actions) == (database.tables, Done(OutcomeOf(r))) && AllGiven(o, history, actions)
    {
      hide Finalise, Answers, Asked, Unanswered;
      var run := prepared.run.identity;
      FinaliseAnswers(t, database.tables, q, o, history, prepared.userMessage, prepared.run, answer);
      var committed, more := CommitAnswer(q, run, answer, o.answerId);
      PlayOn(cfg, t, q, Begun, before, more);
      GivenOn(o, history, before, more);
      actions := before + more;
      if committed.Err? {
        if committed.error == ConcurrentWrite {
          actions := FailRun(q, o, prepared, Conflicted, "LEASE_LOST", ConcurrentWrite, t, actions, history);
        }
        return Err(committed.error), actions;
      }
      ghost var answered := database.tables;
      var reply := Reply(committed.value, prepared.userMessage, Some(AssistantMessage(run, answer, o.answerId)), false);
      more := Remember(q, run, o.summary, o.summaryId);
      AnswersKept(t, answered, database.tables, q, o, history, reply);
      PlayOn(cfg, t, q, Begun, actions, more);
      MemoryIsGiven(o, history, more);
      GivenOn(o, history, actions, more);
      return Ok(reply), actions + more;
    }

    /** From the answer on: the lease check. */
    method CheckedAnswer(q: Request, o: Outside, prepared: Reply, answer: string,
                         ghost t: Tables, ghost before: seq<Action>, ghost history: seq<ModelTurn>)
      returns (r: Result<Reply>, ghost actions: seq<Action>)
      requires service.database == database && memory.database == database && memory.cfg == cfg.memory
      requires Play(cfg, t, q, Begun, before) == (database.tables, HasAnswer(prepared.run.identity, answer))
      requires AllGiven(o, history, before)
      requires Asked(t, database.tables, q, o, prepared.userMessage, prepared.run)
      requires o.agent(history) == Some(answer)
      modifies database
      ensures r.Ok? ==> !r.value.replayed && o.leaseValid && Answers(t, database.tables, q, o, history, r.value)
      ensures r.Err? ==> Abandoned(t, database.tables, q, o, history, r.error)
      ensures Play(cfg, t, q, Begun, actions) == (database.tables, Done(OutcomeOf(r))) && AllGiven(o, history, actions)
    {
      ghost var now := database.tables;
      var run := prepared.run.identity;
      actions := before + [CheckLease(o.leaseValid)];
      GivenOn(o, history, before, [CheckLease(o.leaseValid)]);
      if !o.leaseValid {
        PlayTo(cfg, t, q, Begun, before, CheckLease(o.leaseValid), now, HasAnswer(run, answer), now,
               Failing(run, Conflicted, "LEASE_LOST", ConcurrentWrite));
        actions := FailRun(q, o, prepared, Conflicted, "LEASE_LOST", ConcurrentWrite, t, actions, history);
        return Err(ConcurrentWrite), actions;
      }
      PlayTo(cfg, t, q, Begun, before, CheckLease(o.leaseValid), now, HasAnswer(run, answer), now, Fenced(run, answer));
      r, actions := FinishAnswer(q, o, prepared, answer, t, actions, history);
    }

    /** From the committed question on: history, agent, lease check, answer. */
    method AnswerRun(q: Request, o: Outside, prepared: Reply,
                     ghost t: Tables, ghost before: seq<Action>, ghost history0: seq<ModelTurn>)
      returns (r: Result<Reply>, ghost actions: seq<Action>)
      requires service.database == database && memory.database == database && memory.cfg == cfg.memory
      requires Play(cfg, t, q, Begun, before) == (database.tables, Prepared(prepared.run.identity))
      requires history0
        == Context(database.tables, cfg.memory, q.ctx.tenant, q.conversation, prepared.userMessage.sequence)
      requires AllGiven(o, history0, before)
      requires Asked(t, database.tables, q, o, prepared.userMessage, prepared.run)
      modifies database
      ensures r.Ok? ==> !r.value.replayed && o.leaseValid && Answers(t, database.tables, q, o, history0, r.value)
      ensures r.Err? ==> Abandoned(t, database.tables, q, o, history0, r.error)
      ensures Play(cfg, t, q, Begun, actions) == (database.tables, Done(OutcomeOf(r))) && AllGiven(o, history0, actions)
    {
      hide Context, Answers, Unanswered, Asked;
      ghost var now := database.tables;
      var run := prepared.run.identity;
      var history := memory.LoadContext(database.tables, q.ctx.tenant, q.conversation, prepared.userMessage.sequence);
      var answer := o.agent(history);
      if answer.None? {
        PlayTo(cfg, t, q, Begun, before, AgentFails, now, Prepared(run), now,
               Failing(run, Failed, "MODEL_UNAVAILABLE", DependencyUnavailable));
        GivenOn(o, history, before, [AgentFails]);
        actions := FailRun(q, o, prepared, Failed, "MODEL_UNAVAILABLE", DependencyUnavailable, t, before + [AgentFails],
                           history);
        return Err(DependencyUnavailable), actions;
      }
      PlayTo(cfg, t, q, Begun, before, AgentAnswers(answer.value), now, Prepared(run), now,
             HasAnswer(run, answer.value));
      GivenOn(o, history, before, [AgentAnswers(answer.value)]);
      actions := before + [AgentAnswers(answer.value)];
      r, actions := CheckedAnswer(q, o, prepared, answer.value, t, actions, history);
    }

    /** `send_message` under its lease. The caller of a new message gets the question, the agent's
        answer on the assembled history and the succeeded run, which are just the rows that were added,
        or else the agent failed, the lease was lost, or the commit of the answer was refused, and the
        run says so. Any other call leaves the rows alone, and gives what is stored or an error. The
        machine takes the same way: these actions of one process end in the same rows and with the same
        outcome, and what they take from outside is what this message met. */
    method SendMessage(q: Request, o: Outside) returns (r: Result<Reply>, ghost actions: seq<Action>)
      requires service.database == database && memory.database == database && memory.cfg == cfg.memory
      modifies database
      ensures Play(cfg, old(database.tables), q, Begun, actions) == (database.tables, Done(OutcomeOf(r)))
      ensures AllGiven(o, HistoryOf(cfg, old(database.tables), q, o), actions)
      ensures MayAsk(old(database.tables), q, o) ==>
        var history := HistoryOf(cfg, old(database.tables), q, o);
        if r.Ok? then
          !r.value.replayed && o.leaseValid && Answers(old(database.tables), database.tables, q, o, history, r.value)
        else Abandoned(old(database.tables), database.tables, q, o, history, r.error)
      ensures !MayAsk(old(database.tables), q, o) ==>
        database.tables == old(database.tables)
        && (r.Ok? ==> r.value.replayed && GivesStored(database.tables, q, r.value))
    {
      ghost var t := database.tables;
      r, actions := PrepareOrReplay(q, o);
      if r.Err? || r.value.replayed {
        return;
      }
      r, actions := AnswerRun(q, o, r.value, t, actions, HistoryOf(cfg, t, q, o));
    }
  }

  /** Where a preparation leads. */
  function AfterPrepare(r: Result<Reply>): Phase {
    if r.Err? then AfterRefusal(r.error)
    else if r.value.replayed then Done(Replayed(r.value.run.identity.id))
    else Prepared(r.value.run.identity)
  }

  lemma PreparePlays(cfg: Config, t: Tables, q: Request, o: Outside) returns (actions: seq<Action>)
    ensures var (t', r) := Prepare(t, t, q, o.messageId, o.runId, o.token);
      Play(cfg, t, q, Begun, actions) == (t', AfterPrepare(r))
    ensures forall history :: AllGiven(o, history, actions)
  {
    actions := [] + [Lookup];
    match PrepareLookup(t, q)
    case Replay(reply) => PlayTo(cfg, t, q, Begun, [], Lookup, t, Begun, t, Done(Replayed(reply.run.identity.id)));
    case Refuse(e) => PlayTo(cfg, t, q, Begun, [], Lookup, t, Begun, t, AfterRefusal(e));
    case Proceed(version) =>
      PlayTo(cfg, t, q, Begun, [], Lookup, t, Begun, t, Looked(version));
      var (t', r) := PrepareInsert(t, q, version, o.messageId, o.runId, o.token);
      PlayTo(cfg, t, q, Begun, actions, Insert(o.messageId, o.runId, o.token), t, Looked(version), t', AfterPrepare(r));
      actions := actions + [Insert(o.messageId, o.runId, o.token)];
  }

  /** What an undisturbed summariser does, by the branches that it takes. */
  lemma SummariseByBranch(t: Tables, cfg: MemoryConfig, tenant: Id, c: Id, summary: Option<string>, id: Id)
    ensures var draft := PlanSummary(t, cfg, tenant, c);
      Summarise(t, t, t, cfg, tenant, c, summary, id)
      == if draft.None? || draft.value.messages == [] || summary.None? then t
         else
           var s := NewSummary(draft.value, tenant, c, 0, Text.Strip(summary.value));
           if StillWanted(t, s) then StoreSummary(t, s.(id := id)) else t
  {
  }

  /** An undisturbed summariser, as actions. */
  lemma RememberPlays(cfg: Config, t: Tables, q: Request, run: RunIdentity, summary: Option<string>, summaryId: Id)
    returns (actions: seq<Action>)
    ensures Play(cfg, t, q, Completed(run), actions)
         == (Summarise(t, t, t, cfg.memory, q.ctx.tenant, q.conversation, summary, summaryId), Done(Answered(run.id)))
    ensures forall a :: a in actions ==> IsMemory(a, summary, summaryId)
  {
    var phase, done := Completed(run), Done(Answered(run.id));
    var draft := PlanSummary(t, cfg.memory, q.ctx.tenant, q.conversation);
    SummariseByBranch(t, cfg.memory, q.ctx.tenant, q.conversation, summary, summaryId);
    actions := [] + [ListForSummary];
    if draft.None? || draft.value.messages == [] {
      PlayTo(cfg, t, q, phase, [], ListForSummary, t, phase, t, done);
    } else {
      PlayTo(cfg, t, q, phase, [], ListForSummary, t, phase, t, Drafted(run, draft.value));
      var rest := DraftPlays(cfg, t, q, run, draft.value, summary, summaryId);
      PlayOn(cfg, t, q, phase, actions, rest);
      actions := actions + rest;
    }
  }

  /** From the model's answer on. */
  lemma WrittenPlays(cfg: Config, t: Tables, q: Request, run: RunIdentity, s: Summary, summary: Option<string>,
                     summaryId: Id)
    returns (actions: seq<Action>)
    ensures Play(cfg, t, q, Written(run, s), actions)
         == (if StillWanted(t, s) then StoreSummary(t, s.(id := summaryId)) else t, Done(Answered(run.id)))
    ensures forall a :: a in actions ==> IsMemory(a, summary, summaryId)
  {
    hide StillWanted, StoreSummary;
    var phase, done := Written(run, s), Done(Answered(run.id));
    actions := [] + [CheckSummary];
    if StillWanted(t, s) {
      PlayTo(cfg, t, q, phase, [], CheckSummary, t, phase, t, Wanted(run, s));
      PlayTo(cfg, t, q, phase, actions, InsertSummary(summaryId), t, Wanted(run, s),
             StoreSummary(t, s.(id := summaryId)), done);
      actions := actions + [InsertSummary(summaryId)];
    } else {
      PlayTo(cfg, t, q, phase, [], CheckSummary, t, phase, t, done);
    }
  }

  lemma DraftPlays(cfg: Config, t: Tables, q: Request, run: RunIdentity, draft: Draft, summary: Option<string>,
                   summaryId: Id)
    returns (actions: seq<Action>)
    requires draft.messages != []
    ensures Play(cfg, t, q, Drafted(run, draft), actions)
         == (if summary.None? then t
             else
               var s := NewSummary(draft, q.ctx.tenant, q.conversation, 0, Text.Strip(summary.value));
               if StillWanted(t, s) then StoreSummary(t, s.(id := summaryId)) else t,
             Done(Answered(run.id)))
    ensures forall a :: a in actions ==> IsMemory(a, summary, summaryId)
  {
    hide StillWanted, StoreSummary;
    var phase := Drafted(run, draft);
    actions := [] + [ModelReplies(summary)];
    if summary.None? {
      PlayTo(cfg, t, q, phase, [], ModelReplies(summary), t, phase, t, Done(Answered(run.id)));
    } else {
      var s := NewSummary(draft, q.ctx.tenant, q.conversation, 0, Text.Strip(summary.value));
      PlayTo(cfg, t, q, phase, [], ModelReplies(summary), t, phase, t, Written(run, s));
      var rest := WrittenPlays(cfg, t, q, run, s, summary, summaryId);
      PlayOn(cfg, t, q, phase, actions, rest);
      actions := actions + rest;
    }
  }

  /** Playing on from where the actions before have come. */
  lemma {:induction false} PlayOn(cfg: Config, t: Tables, q: Request, phase: Phase, before: seq<Action>,
                                  more: seq<Action>)
    ensures var (now, at) := Play(cfg, t, q, phase, before);
      Play(cfg, t, q, phase, before + more) == Play(cfg, now, q, at, more)
  {
    if more == [] {
      assert before + more == before;
    } else {
      PlayOn(cfg, t, q, phase, before, more[..|more| - 1]);
      assert (before + more)[..|before + more| - 1] == before + more[..|more| - 1];
    }
  }

  /** A message sent while nobody else commits: one more run of the step system, so everything that
      is proved of reachable states holds of the rows it leaves. */
  lemma SendingStaysReachable(cfg: Config, steps: seq<Step>, pid: nat, q: Request, actions: seq<Action>)
    requires var s := Run(cfg, INITIAL, steps);
      pid !in s.processes && (cfg.exclusive ==> !Busy(s.processes, q.ctx.tenant, q.conversation))
    ensures Run(cfg, INITIAL, steps + [Begin(pid, q)] + Acts(pid, actions)).tables
         == Play(cfg, Run(cfg, INITIAL, steps).tables, q, Begun, actions).0
  {
    var s := Run(cfg, INITIAL, steps);
    RunConcat(cfg, INITIAL, steps, [Begin(pid, q)]);
    RunOne(cfg, s, Begin(pid, q));
    RunConcat(cfg, INITIAL, steps + [Begin(pid, q)], Acts(pid, actions));
    PlayIsRun(cfg, Apply(cfg, s, Begin(pid, q)), pid, actions);
  }
}
