// The conversation protocol as a step system: any number of requests, in any number of
// instances, against one database.
//
// A process is one `send_message` or `cancel_run` call. Its phase says how far it has come and
// what it remembers. Every unit of work is split at its early plain reads, so other processes
// may commit between what a transaction read and what it writes:
//   - the version read of `_prepare_run` (Lookup) and its writes (Insert),
//   - the run read of every status change (ReadRun) and its writes,
//   - the check of `maybe_summarize` (CheckSummary) and its insert (InsertSummary).
// The writes of one unit of work are one step: the conversation row stays locked from the
// compare-and-set, or from the locking read, until the commit.
//
// Nothing here depends on the lease: the outcome of the lease check is an arbitrary input, the
// fencing token is an arbitrary number, and a process may stop for ever at any step.
module Protocol {
  import opened Entities
  import opened Tables
  import opened Conversations
  import opened Memory
  import Text

  /** `serialised`: a status write only happens while the run row is still what its unit of work
      read, which is what running units of work one at a time gives.
      `exclusive`: a conversation has at most one live `send_message`, which is what an unbroken
      lease gives. Theorems that do not mention one of them hold without it. */
  datatype Config = Config(serialised: bool, exclusive: bool, memory: MemoryConfig)

  datatype Outcome = Answered(run: Id) | Replayed(run: Id) | CancelledRun(run: Id) | Refused(error: DomainError)

  datatype Phase =
    | Begun
    | Looked(version: nat)                                      // version read, compare-and-set pending
    | KeyTaken                                                  // idempotency conflict caught, reload pending
    | Prepared(run: RunIdentity)                                // user message and run committed
    | HasAnswer(run: RunIdentity, answer: string)               // the agent answered
    | Fenced(run: RunIdentity, answer: string)                  // the lease check passed
    | AnswerRead(run: RunIdentity, answer: string, seen: Option<RunRow>)
    | Failing(run: RunIdentity, target: RunStatus, code: string, error: DomainError)
    | FailureRead(run: RunIdentity, target: RunStatus, code: string, error: DomainError, seen: Option<RunRow>)
    | Completed(run: RunIdentity)                               // answer committed
    | Drafted(run: RunIdentity, draft: Draft)                   // summary planned, model call pending
    | Written(run: RunIdentity, summary: Summary)               // model answered
    | Wanted(run: RunIdentity, summary: Summary)                // checked, insert pending
    | Cancelling(runId: Id)
    | CancelRead(row: RunRow)
    | Done(outcome: Outcome)

  datatype Process = Process(request: Request, phase: Phase)

  datatype State = State(tables: Tables, processes: map<nat, Process>)

  const INITIAL := State(EMPTY, map[])

  datatype Action =
    | Lookup
    | Insert(messageId: Id, runId: Id, token: nat)
    | Reload
    | AgentFails
    | AgentAnswers(answer: string)
    | CheckLease(valid: bool)
    | ReadRun
    | WriteAnswer(messageId: Id)
    | WriteFailure
    | WriteCancel
    | Finish
    | ListForSummary
    | ModelReplies(reply: Option<string>)
    | CheckSummary
    | InsertSummary(id: Id)

  datatype Step =
    | CreateConversation(id: Id, tenant: Id, owner: Id)
    | Begin(pid: nat, request: Request)
    | BeginCancel(pid: nat, request: Request, runId: Id)
    | Act(pid: nat, action: Action)
    | Crash(pid: nat)

  predicate IsLive(phase: Phase) {
    !phase.Done? && !phase.Cancelling? && !phase.CancelRead?
  }

  /** Some live process works on this conversation. */
  predicate Busy(processes: map<nat, Process>, tenant: Id, conversation: Id) {
    exists pid :: pid in processes && IsLive(processes[pid].phase)
      && processes[pid].request.ctx.tenant == tenant && processes[pid].request.conversation == conversation
  }

  /** The except branch of `send_message` around the preparation. */
  function AfterRefusal(e: DomainError): Phase {
    if e == IdempotencyConflict then KeyTaken else Done(Refused(e))
  }

  // ---------------------------------------------------------------- the steps of one process
  //
  // Each gives the new rows and the process's new phase. A step that does not belong to the
  // phase does nothing.

  function LookupStep(t: Tables, q: Request, phase: Phase): Phase {
    if !phase.Begun? then phase
    else
      match PrepareLookup(t, q)
      case Replay(reply) => Done(Replayed(reply.run.identity.id))
      case Refuse(e) => AfterRefusal(e)
      case Proceed(version) => Looked(version)
  }

  function InsertStep(t: Tables, q: Request, phase: Phase, messageId: Id, runId: Id, token: nat): (Tables, Phase) {
    if !phase.Looked? then (t, phase)
    else
      var (t', r) := PrepareInsert(t, q, phase.version, messageId, runId, token);
      (t', if r.Ok? then Prepared(r.value.run.identity) else AfterRefusal(r.error))
  }

  function ReloadStep(t: Tables, q: Request, phase: Phase): Phase {
    if !phase.KeyTaken? then phase
    else
      match LoadIdempotent(t, q)
      case Ok(reply) => Done(Replayed(reply.run.identity.id))
      case Err(e) => Done(Refused(e))
  }

  function LeaseStep(phase: Phase, valid: bool): Phase {
    if !phase.HasAnswer? then phase
    else if valid then Fenced(phase.run, phase.answer)
    else Failing(phase.run, Conflicted, "LEASE_LOST", ConcurrentWrite)
  }

  function ReadStep(t: Tables, q: Request, phase: Phase): Phase {
    match phase
    case Fenced(run, answer) => AnswerRead(run, answer, GetRun(t, run.tenant, run.id))
    case Failing(run, target, code, error) => FailureRead(run, target, code, error, GetRun(t, run.tenant, run.id))
    case Cancelling(runId) => (
      match CancelLookup(t, q.ctx, runId)
      case Ok(seen) => CancelRead(seen)
      case Err(e) => Done(Refused(e)))
    case _ => phase
  }

  /** Under serialised units of work a status write waits until its read is still current. */
  predicate MayWrite(cfg: Config, t: Tables, run: RunIdentity, seen: Option<RunRow>) {
    cfg.serialised ==> seen == GetRun(t, run.tenant, run.id)
  }

  function AnswerStep(cfg: Config, t: Tables, phase: Phase, messageId: Id): (Tables, Phase) {
    if !phase.AnswerRead? || !MayWrite(cfg, t, phase.run, phase.seen) then (t, phase)
    else
      var (t', r) := Finalise(t, phase.seen, phase.run, phase.answer, messageId);
      (t', if r.Ok? then Completed(phase.run)
           else if r.error == ConcurrentWrite then Failing(phase.run, Conflicted, "LEASE_LOST", ConcurrentWrite)
           else Done(Refused(r.error)))
  }

  function FailureStep(cfg: Config, t: Tables, phase: Phase): (Tables, Phase) {
    if !phase.FailureRead? || !MayWrite(cfg, t, phase.run, phase.seen) then (t, phase)
    else (Mark(t, phase.seen, phase.target, phase.code), Done(Refused(phase.error)))
  }

  function CancelStep(cfg: Config, t: Tables, phase: Phase): (Tables, Phase) {
    if !phase.CancelRead? || !MayWrite(cfg, t, phase.row.identity, Some(phase.row)) then (t, phase)
    else
      var (t', r) := CancelSave(t, phase.row);
      (t', Done(if r.Ok? then CancelledRun(phase.row.identity.id) else Refused(r.error)))
  }

  function ListStep(cfg: Config, t: Tables, q: Request, phase: Phase): Phase {
    if !phase.Completed? then phase
    else
      var draft := PlanSummary(t, cfg.memory, q.ctx.tenant, q.conversation);
      if draft.None? || draft.value.messages == [] then Done(Answered(phase.run.id))
      else Drafted(phase.run, draft.value)
  }

  function ModelStep(q: Request, phase: Phase, reply: Option<string>): Phase {
    if !phase.Drafted? then phase
    else if reply.None? || phase.draft.messages == [] then Done(Answered(phase.run.id))
    else Written(phase.run, NewSummary(phase.draft, q.ctx.tenant, q.conversation, 0, Text.Strip(reply.value)))
  }

  function CheckStep(t: Tables, phase: Phase): Phase {
    if !phase.Written? then phase
    else if StillWanted(t, phase.summary) then Wanted(phase.run, phase.summary)
    else Done(Answered(phase.run.id))
  }

  function StoreStep(t: Tables, phase: Phase, id: Id): (Tables, Phase) {
    if !phase.Wanted? then (t, phase)
    else (StoreSummary(t, phase.summary.(id := id)), Done(Answered(phase.run.id)))
  }

  /** The actions that only read. */
  function QuietStep(cfg: Config, t: Tables, q: Request, phase: Phase, action: Action): Phase {
    match action
    case Lookup => LookupStep(t, q, phase)
    case Reload => ReloadStep(t, q, phase)
    case AgentFails =>
      if phase.Prepared? then Failing(phase.run, Failed, "MODEL_UNAVAILABLE", DependencyUnavailable) else phase
    case AgentAnswers(answer) => if phase.Prepared? then HasAnswer(phase.run, answer) else phase
    case CheckLease(valid) => LeaseStep(phase, valid)
    case ReadRun => ReadStep(t, q, phase)
    case Finish => if phase.Completed? then Done(Answered(phase.run.id)) else phase
    case ListForSummary => ListStep(cfg, t, q, phase)
    case ModelReplies(reply) => ModelStep(q, phase, reply)
    case CheckSummary => CheckStep(t, phase)
    case _ => phase
  }

  function Advance(cfg: Config, t: Tables, q: Request, phase: Phase, action: Action): (Tables, Phase) {
    match action
    case Insert(messageId, runId, token) => InsertStep(t, q, phase, messageId, runId, token)
    case WriteAnswer(messageId) => AnswerStep(cfg, t, phase, messageId)
    case WriteFailure => FailureStep(cfg, t, phase)
    case WriteCancel => CancelStep(cfg, t, phase)
    case InsertSummary(id) => StoreStep(t, phase, id)
    case _ => (t, QuietStep(cfg, t, q, phase, action))
  }

  function Apply(cfg: Config, s: State, step: Step): State {
    match step
    case CreateConversation(id, tenant, owner) =>
      if id in s.tables.conversations then s
      else s.(tables := s.tables.(conversations := s.tables.conversations[id := Conversation(tenant, owner, 0)]))
    case Begin(pid, request) =>
      if pid in s.processes || (cfg.exclusive && Busy(s.processes, request.ctx.tenant, request.conversation)) then s
      else s.(processes := s.processes[pid := Process(request, Begun)])
    case BeginCancel(pid, request, runId) =>
      if pid in s.processes then s
      else s.(processes := s.processes[pid := Process(request, Cancelling(runId))])
    case Act(pid, action) =>
      if pid !in s.processes then s
      else
        var p := s.processes[pid];
        var (t', phase) := Advance(cfg, s.tables, p.request, p.phase, action);
        State(t', s.processes[pid := p.(phase := phase)])
    case Crash(pid) => s.(processes := s.processes - {pid})
  }

  /** The state after a sequence of steps. Every reachable state is `Run(cfg, INITIAL, steps)`. */
  function Run(cfg: Config, s: State, steps: seq<Step>): State {
    if steps == [] then s
    else Apply(cfg, Run(cfg, s, steps[..|steps| - 1]), steps[|steps| - 1])
  }

  /** The state of a run after its first n steps. */
  function StateAt(cfg: Config, steps: seq<Step>, n: nat): State
    requires n <= |steps|
  {
    Run(cfg, INITIAL, steps[..n])
  }

  lemma StateAfter(cfg: Config, steps: seq<Step>, n: nat)
    requires n < |steps|
    ensures StateAt(cfg, steps, n + 1) == Apply(cfg, StateAt(cfg, steps, n), steps[n])
  {
    assert steps[..n + 1][..n] == steps[..n];
  }

  lemma {:induction false} RunConcat(cfg: Config, s: State, a: seq<Step>, b: seq<Step>)
    ensures Run(cfg, s, a + b) == Run(cfg, Run(cfg, s, a), b)
  {
    if b == [] {
      assert a + b == a;
    } else {
      assert (a + b)[..|a + b| - 1] == a + b[..|b| - 1];
      RunConcat(cfg, s, a, b[..|b| - 1]);
    }
  }

  lemma RunOne(cfg: Config, s: State, a: Step)
    ensures Run(cfg, s, [a]) == Apply(cfg, s, a)
  {
    assert [a][..0] == [];
  }

  lemma ActTables(cfg: Config, s: State, pid: nat, action: Action)
    requires pid in s.processes
    ensures Apply(cfg, s, Act(pid, action)).tables
      == Advance(cfg, s.tables, s.processes[pid].request, s.processes[pid].phase, action).0
  {
  }

  lemma RunSnoc(cfg: Config, s: State, steps: seq<Step>, step: Step)
    ensures Run(cfg, s, steps + [step]) == Apply(cfg, Run(cfg, s, steps), step)
  {
    assert (steps + [step])[..|steps|] == steps;
  }

  lemma RunThree(cfg: Config, s: State, a: Step, b: Step, c: Step)
    ensures Run(cfg, s, [a, b, c]) == Apply(cfg, Apply(cfg, Apply(cfg, s, a), b), c)
  {
    RunOne(cfg, s, a);
    assert [a, b][..1] == [a] && [a, b, c][..2] == [a, b];
    assert Run(cfg, s, [a, b]) == Apply(cfg, Run(cfg, s, [a]), b);
  }
}
