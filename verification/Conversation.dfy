// The units of work of application/conversation_service.py.
//
// Each unit of work is given twice: as a function from the committed rows (and what the
// transaction's plain reads saw) to the new rows, and as a method of the service that carries
// it out statement by statement and is proved to compute exactly that function. The theorems
// over concurrent runs (Protocol.dfy and the files after it) are about the functions.
module Conversations {
  import opened Entities
  import opened Tables

  // ---------------------------------------------------------------- what each unit of work does

  datatype Lookup =
    | Replay(reply: Reply)
    | Refuse(error: DomainError)
    | Proceed(version: nat)

  /** `_build_existing_result` */
  function ExistingReply(t: Tables, tenant: Id, run: RunRow, fingerprint: Fingerprint): Result<Reply> {
    if run.identity.fingerprint != fingerprint then Err(IdempotencyConflict)
    else if run.userMessage.None? then Err(AssertionError)
    else
      var user := GetMessage(t, tenant, run.userMessage.value);
      if user.None? then Err(ResourceNotFound)
      else
        var assistant := if run.assistantMessage.Some? then GetMessage(t, tenant, run.assistantMessage.value) else None;
        Ok(Reply(run, user.value, assistant, true))
  }

  /** The reads of `_prepare_run`, up to and including the early read of the version. */
  function PrepareLookup(t: Tables, q: Request): Lookup {
    var existing := GetRunByKey(t, q.ctx.tenant, q.key);
    if existing.Some? then
      match ExistingReply(t, q.ctx.tenant, existing.value, FingerprintOf(q.conversation, q.content))
      case Ok(reply) => Replay(reply)
      case Err(e) => Refuse(e)
    else
      var conversation := GetConversation(t, q.ctx.tenant, q.conversation);
      if conversation.None? then Refuse(ResourceNotFound)
      else if AccessError(conversation.value, q.ctx).Some? then Refuse(AccessError(conversation.value, q.ctx).value)
      else Proceed(conversation.value.version)
  }

  function UserMessage(q: Request, version: nat, id: Id): Message {
    Message(id, q.ctx.tenant, q.conversation, User, q.content, (version + 1) * 2 - 1)
  }

  function NewRun(q: Request, version: nat, id: Id, token: nat, message: Id): RunRow {
    RunRow(
      RunIdentity(id, q.ctx.tenant, q.conversation, q.ctx.user, q.key, FingerprintOf(q.conversation, q.content),
                  version),
      token, Running, Some(message), None, None)
  }

  /** The rows after one more turn: the version bumped, the question and its run inserted. */
  function WithTurn(t: Tables, version: nat, message: Message, run: RunRow): Tables
    requires message.conversation in t.conversations
  {
    WithRun(WithMessage(WithVersion(t, message.conversation, version + 1), message), run)
  }

  /** The writes of `_prepare_run` on the current rows, with the version that was read earlier. */
  function PrepareInsert(t: Tables, q: Request, version: nat, messageId: Id, runId: Id,
                         token: nat): (Tables, Result<Reply>)
  {
    var message := UserMessage(q, version, messageId);
    var run := NewRun(q, version, runId, token, messageId);
    if !AtVersion(t, q.ctx.tenant, q.conversation, version) then (t, Err(ConcurrentWrite))
    else if !MessageFits(t.messages, message) then (t, Err(IntegrityError))
    else if !RunFits(t.runs, run.identity) then (t, Err(IdempotencyConflict))
    else (WithTurn(t, version, message, run), Ok(Reply(run, message, None, false)))
  }

  function Prepare(t: Tables, snapshot: Tables, q: Request, messageId: Id, runId: Id,
                   token: nat): (Tables, Result<Reply>)
  {
    match PrepareLookup(snapshot, q)
    case Replay(reply) => (t, Ok(reply))
    case Refuse(e) => (t, Err(e))
    case Proceed(version) => PrepareInsert(t, q, version, messageId, runId, token)
  }

  /** `_load_idempotent_result` */
  function LoadIdempotent(t: Tables, q: Request): Result<Reply> {
    var run := GetRunByKey(t, q.ctx.tenant, q.key);
    if run.None? then Err(ConcurrentWrite)
    else ExistingReply(t, q.ctx.tenant, run.value, FingerprintOf(q.conversation, q.content))
  }

  function AssistantMessage(run: RunIdentity, answer: string, id: Id): Message {
    Message(id, run.tenant, run.conversation, Assistant, answer, (run.expectedVersion + 1) * 2)
  }

  /** The finalising unit of work: `seen` is the run as its plain read saw it. */
  function Finalise(t: Tables, seen: Option<RunRow>, run: RunIdentity, answer: string,
                    messageId: Id): (Tables, Result<RunRow>)
  {
    var message := AssistantMessage(run, answer, messageId);
    if !AtVersion(t, run.tenant, run.conversation, run.expectedVersion + 1) then (t, Err(ConcurrentWrite))
    else if seen.None? then (t, Err(ResourceNotFound))
    else if seen.value.status != Running then (t, Err(InvalidStateTransition))
    else if !MessageFits(t.messages, message) then (t, Err(IntegrityError))
    else
      var row := seen.value.(assistantMessage := Some(messageId), status := Succeeded, errorCode := None);
      if FindRun(t.runs, row.identity.tenant, row.identity.id).None? then (t, Err(ConcurrentWrite))
      else (WithSaved(WithMessage(t, message), row), Ok(row))
  }

  /** `_mark_run_failed` and `_mark_run_conflicted` */
  function Mark(t: Tables, seen: Option<RunRow>, target: RunStatus, code: string): Tables {
    if seen.None? || seen.value.status != Running then t
    else WithSaved(t, seen.value.(status := target, errorCode := Some(code)))
  }

  /** The reads of `cancel_run`. */
  function CancelLookup(t: Tables, ctx: AuthContext, runId: Id): Result<RunRow> {
    var run := GetRun(t, ctx.tenant, runId);
    if run.None? then Err(ResourceNotFound)
    else
      var conversation := GetConversation(t, ctx.tenant, run.value.identity.conversation);
      if conversation.None? then Err(ResourceNotFound)
      else if AccessError(conversation.value, ctx).Some? then Err(AccessError(conversation.value, ctx).value)
      else Ok(run.value)
  }

  /** The transition and the save of `cancel_run`. */
  function CancelSave(t: Tables, seen: RunRow): (Tables, Result<RunRow>) {
    if Cancelled !in Transitions(seen.status) then (t, Err(InvalidStateTransition))
    else
      var row := seen.(status := Cancelled, errorCode := None);
      if FindRun(t.runs, row.identity.tenant, row.identity.id).None? then (t, Err(ConcurrentWrite))
      else (WithSaved(t, row), Ok(row))
  }

  function Cancel(t: Tables, snapshot: Tables, ctx: AuthContext, runId: Id): (Tables, Result<RunRow>) {
    match CancelLookup(snapshot, ctx, runId)
    case Err(e) => (t, Err(e))
    case Ok(seen) => CancelSave(t, seen)
  }

  // ---------------------------------------------------------------- the service

  class ConversationService {
    const database: Database

    constructor (database: Database)
      ensures this.database == database
    {
      this.database := database;
    }

    method BuildExistingResult(work: UnitOfWork, tenant: Id, run: AgentRun, fingerprint: Fingerprint)
      returns (r: Result<Reply>)
      ensures r == ExistingReply(work.snapshot, tenant, run.Row(), fingerprint)
    {
      if run.identity.fingerprint != fingerprint {
        return Err(IdempotencyConflict);
      }
      if run.userMessage.None? {
        return Err(AssertionError);
      }
      var user := GetMessage(work.snapshot, tenant, run.userMessage.value);
      if user.None? {
        return Err(ResourceNotFound);
      }
      var assistant: Option<Message> := None;
      if run.assistantMessage.Some? {
        assistant := GetMessage(work.snapshot, tenant, run.assistantMessage.value);
      }
      return Ok(Reply(run.Row(), user.value, assistant, true));
    }

    /** `_prepare_run`: replay, or bump the version and insert the user message and the run. */
    method PrepareRun(snapshot: Tables, q: Request, messageId: Id, runId: Id, token: nat) returns (r: Result<Reply>)
      modifies database
      ensures (database.tables, r) == Prepare(old(database.tables), snapshot, q, messageId, runId, token)
    {
      var fingerprint := FingerprintOf(q.conversation, q.content);
      var work := new UnitOfWork(database, snapshot);
      var existing := work.LoadRunByKey(q.ctx.tenant, q.key);
      if existing != null {
        r := BuildExistingResult(work, q.ctx.tenant, existing, fingerprint);
        return;
      }
      var conversation := GetConversation(work.snapshot, q.ctx.tenant, q.conversation);
      if conversation.None? {
        return Err(ResourceNotFound);
      }
      var denied := AccessError(conversation.value, q.ctx);
      if denied.Some? {
        return Err(denied.value);
      }
      var oldVersion := conversation.value.version;
      var bumped := work.BumpVersion(q.ctx.tenant, q.conversation, oldVersion);
      if bumped.Err? {
        return Err(bumped.error);
      }
      var message := Message(messageId, q.ctx.tenant, q.conversation, User, q.content, bumped.value * 2 - 1);
      var run := new AgentRun(RunRow(
        RunIdentity(runId, q.ctx.tenant, q.conversation, q.ctx.user, q.key, fingerprint, oldVersion),
        token, Created, Some(messageId), None, None));
      var ok := run.TransitionTo(Running, None);
      ok := work.AddMessage(message);
      if !ok {
        return Err(IntegrityError);
      }
      ok := work.AddRun(run);
      if !ok {
        return Err(IdempotencyConflict);
      }
      work.Commit();
      return Ok(Reply(run.Row(), message, None, false));
    }

    method LoadIdempotentResult(snapshot: Tables, q: Request) returns (r: Result<Reply>)
      ensures r == LoadIdempotent(snapshot, q)
    {
      var work := new UnitOfWork(database, snapshot);
      var run := work.LoadRunByKey(q.ctx.tenant, q.key);
      if run == null {
        return Err(ConcurrentWrite);
      }
      r := BuildExistingResult(work, q.ctx.tenant, run, FingerprintOf(q.conversation, q.content));
    }

    /** The unit of work of `send_message` that commits the answer. */
    method FinaliseRun(snapshot: Tables, prepared: RunIdentity, answer: string, messageId: Id)
      returns (r: Result<RunRow>)
      modifies database
      ensures (database.tables, r)
           == Finalise(old(database.tables), GetRun(snapshot, prepared.tenant, prepared.id), prepared, answer,
                       messageId)
    {
      var message := Message(
        messageId, prepared.tenant, prepared.conversation, Assistant, answer, (prepared.expectedVersion + 1) * 2);
      var work := new UnitOfWork(database, snapshot);
      var ok := work.LockAtVersion(prepared.tenant, prepared.conversation, prepared.expectedVersion + 1);
      if !ok {
        return Err(ConcurrentWrite);
      }
      var run := work.LoadRun(prepared.tenant, prepared.id);
      if run == null {
        return Err(ResourceNotFound);
      }
      if run.status != Running {
        return Err(InvalidStateTransition);
      }
      ok := work.AddMessage(message);
      if !ok {
        return Err(IntegrityError);
      }
      run.assistantMessage := Some(messageId);
      ok := run.TransitionTo(Succeeded, None);
      ok := work.SaveRun(run);
      if !ok {
        return Err(ConcurrentWrite);
      }
      work.Commit();
      return Ok(run.Row());
    }

    /** `_mark_run_failed` with Failed and `_mark_run_conflicted` with Conflicted. */
    method MarkRun(snapshot: Tables, tenant: Id, runId: Id, target: RunStatus, code: string)
      requires target == Failed || target == Conflicted
      modifies database
      ensures database.tables == Mark(old(database.tables), GetRun(snapshot, tenant, runId), target, code)
    {
      var work := new UnitOfWork(database, snapshot);
      var run := work.LoadRun(tenant, runId);
      if run == null || run.status != Running {
        return;
      }
      var ok := run.TransitionTo(target, Some(code));
      ok := work.SaveRun(run);
      if !ok {
        return;
      }
      work.Commit();
    }

    method CancelRun(snapshot: Tables, ctx: AuthContext, runId: Id) returns (r: Result<RunRow>)
      modifies database
      ensures (database.tables, r) == Cancel(old(database.tables), snapshot, ctx, runId)
    {
      var work := new UnitOfWork(database, snapshot);
      var run := work.LoadRun(ctx.tenant, runId);
      if run == null {
        return Err(ResourceNotFound);
      }
      var conversation := GetConversation(work.snapshot, ctx.tenant, run.identity.conversation);
      if conversation.None? {
        return Err(ResourceNotFound);
      }
      var denied := AccessError(conversation.value, ctx);
      if denied.Some? {
        return Err(denied.value);
      }
      var ok := run.TransitionTo(Cancelled, None);
      if !ok {
        return Err(InvalidStateTransition);
      }
      ok := work.SaveRun(run);
      if !ok {
        return Err(ConcurrentWrite);
      }
      work.Commit();
      return Ok(run.Row());
    }
  }
}
