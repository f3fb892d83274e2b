// Idempotency over whole runs: one run, one question and at most one answer per key.
module Idempotency {
  import opened Entities
  import opened Tables
  import opened Conversations
  import opened Logs
  import opened Protocol
  import opened Invariants
  import opened Safety
  import opened TurnOrder
  import opened ContextBound
  import opened StatusWrites
  import Text

  /** At most one run ever exists for a (tenant, key). */
  lemma OneRunPerKey(cfg: Config, steps: seq<Step>, i: nat, j: nat)
    requires var runs := Run(cfg, INITIAL, steps).tables.runs;
      i < |runs| && j < |runs| && runs[i].identity.tenant == runs[j].identity.tenant
        && runs[i].identity.key == runs[j].identity.key
    ensures i == j
  {
    ReachableInv(cfg, steps);
  }

  /** The message is the question or the answer of this run. */
  predicate IsPartOf(m: Message, run: RunIdentity) {
    m.conversation == run.conversation
    && (m.sequence == 2 * run.expectedVersion + 1 || m.sequence == 2 * run.expectedVersion + 2)
  }

  /** Every committed message is the question or the answer of exactly one run. */
  lemma MessageOfOneRun(cfg: Config, steps: seq<Step>, m: nat) returns (i: nat)
    requires m < |Run(cfg, INITIAL, steps).tables.messages|
    ensures var t := Run(cfg, INITIAL, steps).tables;
      && i < |t.runs| && IsPartOf(t.messages[m], t.runs[i].identity)
      && forall k :: 0 <= k < |t.runs| && IsPartOf(t.messages[m], t.runs[k].identity) ==> k == i
  {
    ReachableInv(cfg, steps);
    i := RunOfMessage(Run(cfg, INITIAL, steps).tables, m, cfg.memory.Keep());
  }

  lemma RunOfMessage(t: Tables, m: nat, keep: nat) returns (i: nat)
    requires TablesOk(t, keep) && m < |t.messages|
    ensures i < |t.runs| && IsPartOf(t.messages[m], t.runs[i].identity)
    ensures forall k :: 0 <= k < |t.runs| && IsPartOf(t.messages[m], t.runs[k].identity) ==> k == i
  {
    var c, sequence := t.messages[m].conversation, t.messages[m].sequence;
    assert Belongs(t, t.messages[m].tenant, c);
    assert ConversationOk(t, c, keep);
    TurnLogShape(Log(t.messages, c), t.conversations[c].version);
    LogHolds(t.messages, c, m);
    var v := (sequence - 1) / 2;
    var r := RunsOf(t.runs, c)[v];
    RunsOnly(t.runs, c, r);
    i :| 0 <= i < |t.runs| && t.runs[i] == r;
    forall k | 0 <= k < |t.runs| && IsPartOf(t.messages[m], t.runs[k].identity)
      ensures k == i
    {
      SameTurnSameRow(t, i, k, keep);
    }
  }

  lemma SameTurnSameRow(t: Tables, i: nat, k: nat, keep: nat)
    requires TablesOk(t, keep) && i < |t.runs| && k < |t.runs|
    requires t.runs[i].identity.conversation == t.runs[k].identity.conversation
    requires t.runs[i].identity.expectedVersion == t.runs[k].identity.expectedVersion
    ensures i == k
  {
    assert HasRun(t.runs, t.runs[i].identity) && HasRun(t.runs, t.runs[k].identity);
    TurnIdentifiesRun(t, t.runs[i].identity, t.runs[k].identity, keep);
  }

  /** A run has one question and at most one answer: its messages have distinct sequences. */
  lemma {:induction false} OneMessagePerPart(cfg: Config, steps: seq<Step>, a: nat, b: nat)
    requires var ms := Run(cfg, INITIAL, steps).tables.messages;
      a < |ms| && b < |ms| && ms[a].conversation == ms[b].conversation && ms[a].sequence == ms[b].sequence
    ensures a == b
  {
    if a < b { AppendOrder(cfg, steps, a, b); }
    if b < a { AppendOrder(cfg, steps, b, a); }
  }

  /** Once a key has a run, that run stays the key's run, with the same conversation, fingerprint
      and question. */
  lemma KeyStaysBound(cfg: Config, steps: seq<Step>, more: seq<Step>, tenant: Id, key: string)
    requires GetRunByKey(Run(cfg, INITIAL, steps).tables, tenant, key).Some?
    ensures var before := GetRunByKey(Run(cfg, INITIAL, steps).tables, tenant, key).value;
      var after := GetRunByKey(Run(cfg, INITIAL, steps + more).tables, tenant, key);
      after.Some? && after.value.identity == before.identity && after.value.userMessage == before.userMessage
  {
    var s := Run(cfg, INITIAL, steps);
    ReachableInv(cfg, steps);
    ReachableInv(cfg, steps + more);
    RunConcat(cfg, INITIAL, steps, more);
    RunKeepsInv(cfg, s, more);
    var t' := Run(cfg, INITIAL, steps + more).tables;
    var i := FindKey(s.tables.runs, tenant, key).value;
    assert t'.runs[i].identity == s.tables.runs[i].identity;
    var k := FindKey(t'.runs, tenant, key);
    assert k.Some? && k.value == i;
  }

  /** The run that a request works for, from its insert to its last step. */
  function WorksFor(phase: Phase): Option<RunIdentity> {
    match phase
    case Failing(run, _, _, _) => Some(run)
    case FailureRead(run, _, _, _, _) => Some(run)
    case Completed(run) => Some(run)
    case Drafted(run, _) => Some(run)
    case Written(run, _) => Some(run)
    case Wanted(run, _) => Some(run)
    case _ => OwnedRun(phase)
  }

  /** The run that a request has been given, by working for it or as its result. */
  function GivenRun(phase: Phase): Option<Id> {
    if WorksFor(phase).Some? then Some(WorksFor(phase).value.id)
    else if phase.Done? && (phase.outcome.Answered? || phase.outcome.Replayed?) then Some(phase.outcome.run)
    else None
  }

  lemma WorkerKnows(t: Tables, q: Request, phase: Phase, keep: nat)
    requires PhaseOk(t, q, phase, keep) && WorksFor(phase).Some?
    ensures Knows(t, q, WorksFor(phase).value)
  {
  }

  lemma GivenIsBound(t: Tables, q: Request, phase: Phase, keep: nat)
    requires PhaseOk(t, q, phase, keep) && GivenRun(phase).Some?
    ensures Bound(t, q, GivenRun(phase).value)
  {
    if WorksFor(phase).Some? {
      WorkerKnows(t, q, phase, keep);
      KnownIsBound(t, q, WorksFor(phase).value);
    }
  }

  /** All requests with one (tenant, key) that have been given a run, whatever they do with it by now,
      have been given the same one, and they asked the same thing: the same conversation and the same
      text up to surrounding whitespace. */
  lemma SameKeySameRun(cfg: Config, steps: seq<Step>, a: nat, b: nat)
    requires var ps := Run(cfg, INITIAL, steps).processes;
      a in ps && b in ps
      && ps[a].request.ctx.tenant == ps[b].request.ctx.tenant && ps[a].request.key == ps[b].request.key
      && GivenRun(ps[a].phase).Some? && GivenRun(ps[b].phase).Some?
    ensures var ps := Run(cfg, INITIAL, steps).processes;
      && GivenRun(ps[a].phase) == GivenRun(ps[b].phase)
      && ps[a].request.conversation == ps[b].request.conversation
      && Text.Strip(ps[a].request.content) == Text.Strip(ps[b].request.content)
  {
    ReachableInv(cfg, steps);
    var s := Run(cfg, INITIAL, steps);
    var p, q := s.processes[a], s.processes[b];
    GivenIsBound(s.tables, p.request, p.phase, cfg.memory.Keep());
    GivenIsBound(s.tables, q.request, q.phase, cfg.memory.Keep());
    BoundAgree(s.tables, p.request, q.request, GivenRun(p.phase).value, GivenRun(q.phase).value);
  }

  lemma BoundAgree(t: Tables, p: Request, q: Request, x: Id, y: Id)
    requires RunRowsOk(t) && Bound(t, p, x) && Bound(t, q, y)
    requires p.ctx.tenant == q.ctx.tenant && p.key == q.key
    ensures x == y && p.conversation == q.conversation && Text.Strip(p.content) == Text.Strip(q.content)
  {
    var i :| 0 <= i < |t.runs| && t.runs[i].identity.id == x && Matches(p, t.runs[i].identity);
    var j :| 0 <= j < |t.runs| && t.runs[j].identity.id == y && Matches(q, t.runs[j].identity);
    assert i == j;
  }

  /** At any moment only one process owes a run its answer. */
  lemma OneOwnerPerRun(cfg: Config, steps: seq<Step>, a: nat, b: nat)
    requires var ps := Run(cfg, INITIAL, steps).processes;
      a in ps && b in ps && OwnedRun(ps[a].phase).Some? && OwnedRun(ps[b].phase).Some?
      && OwnedRun(ps[a].phase).value.id == OwnedRun(ps[b].phase).value.id
    ensures a == b
  {
    ReachableInv(cfg, steps);
  }

  // ---------------------------------------------------------------- the agent runs once

  /** The run whose agent call ends with this step, well or badly. */
  function AgentRunOf(s: State, step: Step): Option<Id> {
    if step.Act? && (step.action.AgentFails? || step.action.AgentAnswers?)
       && step.pid in s.processes && s.processes[step.pid].phase.Prepared?
    then Some(s.processes[step.pid].phase.run.id)
    else None
  }

  predicate Waits(phase: Phase, id: Id) {
    phase.Prepared? && phase.run.id == id
  }

  predicate IsStored(t: Tables, id: Id) {
    exists i :: 0 <= i < |t.runs| && t.runs[i].identity.id == id
  }

  /** The run is stored and no process waits for the agent on its behalf. */
  predicate Spent(s: State, id: Id) {
    IsStored(s.tables, id) && forall pid :: pid in s.processes ==> !Waits(s.processes[pid].phase, id)
  }

  lemma StoredStays(t: Tables, t': Tables, id: Id)
    requires Extends(t, t') && IsStored(t, id)
    ensures IsStored(t', id)
  {
    var i :| 0 <= i < |t.runs| && t.runs[i].identity.id == id;
    assert t'.runs[i].identity == t.runs[i].identity;
  }

  /** A process comes to wait for the agent only with a run that is new. */
  lemma WaitStarts(cfg: Config, t: Tables, q: Request, phase: Phase, action: Action, id: Id)
    requires IsStored(t, id) && !Waits(phase, id)
    ensures !Waits(Advance(cfg, t, q, phase, action).1, id)
  {
    if Advance(cfg, t, q, phase, action).1.Prepared? {
      if phase.Prepared? {
        StillPrepared(cfg, t, q, phase, action);
      } else {
        FromLooked(cfg, t, q, phase, action);
        InsertedIsNew(t, q, phase.version, action.messageId, action.runId, action.token);
      }
    }
  }

  lemma InsertedIsNew(t: Tables, q: Request, version: nat, messageId: Id, runId: Id, token: nat)
    requires PrepareInsert(t, q, version, messageId, runId, token).1.Ok?
    ensures !IsStored(t, PrepareInsert(t, q, version, messageId, runId, token).1.value.run.identity.id)
  {
  }

  lemma StepKeepsSpent(cfg: Config, s: State, step: Step, id: Id)
    requires Inv(cfg, s) && Spent(s, id)
    ensures Spent(Apply(cfg, s, step), id)
  {
    hide Advance, Inv;
    StepKeepsInv(cfg, s, step);
    StoredStays(s.tables, Apply(cfg, s, step).tables, id);
    if step.Act? && step.pid in s.processes {
      var p := s.processes[step.pid];
      WaitStarts(cfg, s.tables, p.request, p.phase, step.action, id);
    }
  }

  lemma {:induction false} RunKeepsSpent(cfg: Config, steps: seq<Step>, m: nat, n: nat, id: Id)
    requires m <= n <= |steps| && Spent(StateAt(cfg, steps, m), id)
    ensures Spent(StateAt(cfg, steps, n), id)
    decreases n
  {
    hide Spent, Apply;
    if m < n {
      RunKeepsSpent(cfg, steps, m, n - 1, id);
      ReachableInv(cfg, steps[..n - 1]);
      StateAfter(cfg, steps, n - 1);
      StepKeepsSpent(cfg, StateAt(cfg, steps, n - 1), steps[n - 1], id);
    }
  }

  predicate WaitsAt(s: State, pid: nat, id: Id) {
    pid in s.processes && Waits(s.processes[pid].phase, id)
  }

  /** While one process waits for the agent of a run, the run is stored and nobody else does. */
  lemma WaitsAlone(cfg: Config, s: State, pid: nat, id: Id)
    requires Inv(cfg, s) && WaitsAt(s, pid, id)
    ensures IsStored(s.tables, id)
    ensures forall other :: other in s.processes && other != pid ==> !Waits(s.processes[other].phase, id)
  {
    hide TablesOk;
    var p := s.processes[pid];
    WorkerKnows(s.tables, p.request, p.phase, cfg.memory.Keep());
    var i :| 0 <= i < |s.tables.runs| && s.tables.runs[i].identity == p.phase.run;
    forall other | other in s.processes && other != pid
      ensures !Waits(s.processes[other].phase, id)
    {
      assert DistinctOwners(s.processes[pid].phase, s.processes[other].phase);
    }
  }

  /** A step after which the process does not wait for the agent of its run any more spends the run. */
  lemma StopsWaiting(cfg: Config, s: State, step: Step, pid: nat, id: Id)
    requires Inv(cfg, s) && WaitsAt(s, pid, id) && !WaitsAt(Apply(cfg, s, step), pid, id)
    ensures Spent(Apply(cfg, s, step), id)
  {
    hide Advance, Inv;
    WaitsAlone(cfg, s, pid, id);
    StepKeepsInv(cfg, s, step);
    StoredStays(s.tables, Apply(cfg, s, step).tables, id);
  }

  /** The process waits for the agent of this run at every moment from m to n. */
  predicate WaitsThroughout(cfg: Config, steps: seq<Step>, m: nat, n: nat, pid: nat, id: Id)
    requires n <= |steps|
  {
    forall k {:trigger StateAt(cfg, steps, k)} :: m <= k <= n ==> WaitsAt(StateAt(cfg, steps, k), pid, id)
  }

  lemma {:induction false} WaitsOrSpent(cfg: Config, steps: seq<Step>, m: nat, n: nat, pid: nat, id: Id)
    requires m <= n <= |steps| && WaitsAt(StateAt(cfg, steps, m), pid, id)
    ensures WaitsThroughout(cfg, steps, m, n, pid, id) || Spent(StateAt(cfg, steps, n), id)
    decreases n
  {
    hide WaitsAt, Spent, Apply;
    if m < n {
      WaitsOrSpent(cfg, steps, m, n - 1, pid, id);
      ReachableInv(cfg, steps[..n - 1]);
      StateAfter(cfg, steps, n - 1);
      if Spent(StateAt(cfg, steps, n - 1), id) {
        StepKeepsSpent(cfg, StateAt(cfg, steps, n - 1), steps[n - 1], id);
      } else if !WaitsAt(StateAt(cfg, steps, n), pid, id) {
        StopsWaiting(cfg, StateAt(cfg, steps, n - 1), steps[n - 1], pid, id);
      }
    }
  }

  /** Over whole runs, crashes included: whoever waits for the agent of a run at some moment is the
      process that has waited for it ever since the first moment at which anybody did. */
  lemma AgentHasOneCaller(cfg: Config, steps: seq<Step>, m: nat, n: nat, a: nat, b: nat, id: Id)
    requires m <= n <= |steps| && WaitsAt(StateAt(cfg, steps, m), a, id) && WaitsAt(StateAt(cfg, steps, n), b, id)
    ensures a == b && WaitsThroughout(cfg, steps, m, n, a, id)
  {
    WaitsOrSpent(cfg, steps, m, n, a, id);
    assert WaitsAt(StateAt(cfg, steps, n), a, id);
    ReachableInv(cfg, steps[..n]);
    WaitsAlone(cfg, StateAt(cfg, steps, n), a, id);
  }

  lemma AgentEndsWait(cfg: Config, s: State, step: Step)
    requires AgentRunOf(s, step).Some?
    ensures WaitsAt(s, step.pid, AgentRunOf(s, step).value)
    ensures !WaitsAt(Apply(cfg, s, step), step.pid, AgentRunOf(s, step).value)
  {
  }

  /** Over whole runs: the agent answers or fails at most once for a run. */
  lemma AgentRunsOnce(cfg: Config, steps: seq<Step>, m: nat, n: nat)
    requires m < n < |steps| && AgentRunOf(StateAt(cfg, steps, m), steps[m]).Some?
    ensures AgentRunOf(StateAt(cfg, steps, n), steps[n]) != AgentRunOf(StateAt(cfg, steps, m), steps[m])
  {
    hide Apply;
    var s, id := StateAt(cfg, steps, m), AgentRunOf(StateAt(cfg, steps, m), steps[m]).value;
    ReachableInv(cfg, steps[..m]);
    AgentEndsWait(cfg, s, steps[m]);
    StopsWaiting(cfg, s, steps[m], steps[m].pid, id);
    StateAfter(cfg, steps, m);
    RunKeepsSpent(cfg, steps, m + 1, n, id);
  }

  // ---------------------------------------------------------------- replays

  /** Primary keys identify messages: looking a stored message up by its id finds that message. */
  lemma MessageFound(t: Tables, i: nat)
    requires MessageRowsOk(t) && i < |t.messages|
    ensures GetMessage(t, t.messages[i].tenant, t.messages[i].id) == Some(t.messages[i])
  {
    var k := FindMessage(t.messages, t.messages[i].tenant, t.messages[i].id);
    assert k.Some? && t.messages[k.value].id == t.messages[i].id;
  }

  lemma QuestionFound(t: Tables, r: RunRow)
    requires MessageRowsOk(t) && RunRowOk(t, r)
    ensures var m := GetMessage(t, r.identity.tenant, r.userMessage.value);
      m.Some? && m.value in t.messages && m.value.id == r.userMessage.value && IsQuestionOf(m.value, r.identity)
  {
    var i :| 0 <= i < |t.messages| && t.messages[i].id == r.userMessage.value
      && IsQuestionOf(t.messages[i], r.identity);
    MessageFound(t, i);
  }

  /** The message is the answer of this run. */
  predicate IsAnswerOf(m: Message, run: RunIdentity) {
    m.tenant == run.tenant && m.conversation == run.conversation && m.sequence == 2 * (run.expectedVersion + 1)
    && m.role == Assistant
  }

  /** A run has an answer id exactly when it has succeeded, and then the id is that of its answer. */
  lemma AnswerFound(t: Tables, r: RunRow)
    requires MessageRowsOk(t) && RunRowOk(t, r) && RowShape(t, r)
    ensures r.assistantMessage.Some? <==> r.status == Succeeded
    ensures r.assistantMessage.Some? ==>
      var m := GetMessage(t, r.identity.tenant, r.assistantMessage.value);
      m.Some? && m.value in t.messages && m.value.id == r.assistantMessage.value && IsAnswerOf(m.value, r.identity)
  {
    if r.status == Succeeded {
      var i :| 0 <= i < |t.messages| && t.messages[i].id == r.assistantMessage.value
        && t.messages[i].conversation == r.identity.conversation
        && t.messages[i].sequence == 2 * (r.identity.expectedVersion + 1) && t.messages[i].role == Assistant;
      assert Belongs(t, t.messages[i].tenant, t.messages[i].conversation);
      MessageFound(t, i);
    }
  }

  /** The reply gives back this run: its row, its question, whose content strips to the fingerprint's,
      and its answer exactly when it has succeeded. */
  predicate GivesBack(t: Tables, row: RunRow, reply: Reply) {
    var run, question := row.identity, reply.userMessage;
    && reply.replayed && reply.run == row
    && question in t.messages && Some(question.id) == row.userMessage
    && question.tenant == run.tenant && question.conversation == run.conversation && question.role == User
    && question.sequence == 2 * run.expectedVersion + 1 && Text.Strip(question.content) == run.fingerprint.content
    && (reply.assistantMessage.Some? <==> row.status == Succeeded)
    && (reply.assistantMessage.Some? <==> row.assistantMessage.Some?)
    && (reply.assistantMessage.Some? ==>
      var answer := reply.assistantMessage.value;
      && answer in t.messages && Some(answer.id) == row.assistantMessage
      && answer.tenant == run.tenant && answer.conversation == run.conversation && answer.role == Assistant
      && answer.sequence == 2 * (run.expectedVersion + 1))
  }

  lemma SoundReplay(t: Tables, row: RunRow)
    requires MessageRowsOk(t) && RunRowOk(t, row) && RowShape(t, row)
    ensures var r := ExistingReply(t, row.identity.tenant, row, row.identity.fingerprint);
      r.Ok? && GivesBack(t, row, r.value)
  {
    QuestionFound(t, row);
    AnswerFound(t, row);
  }

  /** A request whose key is taken is replayed exactly when conversation and stripped content match
      those of the run under the key, and then it is given that run, its question, and its answer if
      the run has succeeded; otherwise it is refused. It changes nothing either way, since the lookup
      has no writes. */
  lemma ReplayExactlyOnMatch(cfg: Config, steps: seq<Step>, q: Request)
    requires GetRunByKey(Run(cfg, INITIAL, steps).tables, q.ctx.tenant, q.key).Some?
    ensures var t := Run(cfg, INITIAL, steps).tables;
      var row := GetRunByKey(t, q.ctx.tenant, q.key).value;
      var r := PrepareLookup(t, q);
      if row.identity.conversation == q.conversation && row.identity.fingerprint.content == Text.Strip(q.content)
      then r.Replay? && GivesBack(t, row, r.reply) && LoadIdempotent(t, q) == Ok(r.reply)
      else r == Refuse(IdempotencyConflict) && LoadIdempotent(t, q) == Err(IdempotencyConflict)
  {
    ReachableStatuses(cfg, steps);
    var t := Run(cfg, INITIAL, steps).tables;
    var i := FindKey(t.runs, q.ctx.tenant, q.key).value;
    SoundReplayByKey(t, q, i);
  }

  lemma SoundReplayByKey(t: Tables, q: Request, i: nat)
    requires MessageRowsOk(t) && RunRowsOk(t) && RowsShaped(t)
    requires FindKey(t.runs, q.ctx.tenant, q.key) == Some(i)
    ensures var row, r := t.runs[i], PrepareLookup(t, q);
      if row.identity.conversation == q.conversation && row.identity.fingerprint.content == Text.Strip(q.content)
      then r.Replay? && GivesBack(t, row, r.reply) && LoadIdempotent(t, q) == Ok(r.reply)
      else r == Refuse(IdempotencyConflict) && LoadIdempotent(t, q) == Err(IdempotencyConflict)
  {
    hide GivesBack, RowShape, HasQuestion;
    var row := t.runs[i];
    assert RunRowOk(t, row) && RowShape(t, row);
    SoundReplay(t, row);
  }

  /** The loser of an insert race: the key was free at its lookup but is taken at its insert. Its
      version bump and its message are rolled back, and the reload then replays or refuses. */
  lemma RaceLoserRollsBack(cfg: Config, steps: seq<Step>, q: Request, version: nat, messageId: Id, runId: Id,
                           token: nat)
    requires GetRunByKey(Run(cfg, INITIAL, steps).tables, q.ctx.tenant, q.key).Some?
    ensures var t := Run(cfg, INITIAL, steps).tables;
      var (t', r) := PrepareInsert(t, q, version, messageId, runId, token);
      && t' == t && r.Err?
      && (AtVersion(t, q.ctx.tenant, q.conversation, version) && !IdTaken(t.messages, messageId) ==>
        r.error == IdempotencyConflict)
  {
    var t := Run(cfg, INITIAL, steps).tables;
    var i := FindKey(t.runs, q.ctx.tenant, q.key).value;
    assert t.runs[i].identity.tenant == q.ctx.tenant && t.runs[i].identity.key == q.key;
    if PrepareInsert(t, q, version, messageId, runId, token).1 == Err(IntegrityError) {
      QuestionSequenceIsFree(cfg, steps, q, version, messageId, runId, token);
    }
  }
}
