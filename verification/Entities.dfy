// The records of domain/entities.py.
module Entities {
  import Text

  /** UUIDs: only their identity matters. */
  type Id = nat

  datatype Option<+T> = None | Some(value: T)

  datatype Result<+T> = Ok(value: T) | Err(error: DomainError)

  /** The exceptions of domain/errors.py that the modelled code raises, the database's own
      constraint violation where the code lets it through, and a failed `assert`. */
  datatype DomainError =
    | ResourceNotFound
    | ResourceForbidden
    | ConcurrentWrite
    | IdempotencyConflict
    | InvalidStateTransition
    | DependencyUnavailable
    | IntegrityError
    | AssertionError

  datatype Role = User | Assistant | System | Tool

  datatype RunStatus = Created | Running | Succeeded | Failed | Cancelled | Conflicted

  /** The transition table of a run. */
  function Transitions(from: RunStatus): set<RunStatus> {
    match from
    case Created => {Running, Cancelled}
    case Running => {Succeeded, Failed, Cancelled, Conflicted}
    case _ => {}
  }

  predicate IsTerminal(status: RunStatus) {
    Transitions(status) == {}
  }

  datatype AuthContext = AuthContext(tenant: Id, user: Id, readAny: bool)

  datatype Conversation = Conversation(tenant: Id, owner: Id, version: nat)

  /** `assert_access` after a lookup that is already scoped to the caller's tenant. */
  function AccessError(conversation: Conversation, ctx: AuthContext): Option<DomainError> {
    if conversation.tenant != ctx.tenant then Some(ResourceNotFound)
    else if conversation.owner != ctx.user && !ctx.readAny then Some(ResourceForbidden)
    else None
  }

  datatype Message = Message(id: Id, tenant: Id, conversation: Id, role: Role, content: string, sequence: nat)

  /** SHA-256 over the conversation id and the stripped content, taken as injective. */
  datatype Fingerprint = Fingerprint(conversation: Id, content: string)

  function FingerprintOf(conversation: Id, content: string): Fingerprint {
    Fingerprint(conversation, Text.Strip(content))
  }

  /** The columns of a run that no update touches. */
  datatype RunIdentity = RunIdentity(
    id: Id, tenant: Id, conversation: Id, user: Id, key: string, fingerprint: Fingerprint, expectedVersion: nat)

  /** One row of `agent_runs`. */
  datatype RunRow = RunRow(
    identity: RunIdentity,
    fencingToken: nat,
    status: RunStatus,
    userMessage: Option<Id>,
    assistantMessage: Option<Id>,
    errorCode: Option<string>)

  /** What the model was shown when a summary was made: the text carried over (empty when there
      was none), the messages, and how many messages were uncovered at the listing. It is the
      provenance that the theorems speak about; no code reads it. */
  datatype Origin = Origin(prior: string, messages: seq<Message>, uncovered: nat)

  datatype Summary = Summary(
    id: Id, tenant: Id, conversation: Id, text: string, coveredThrough: nat, sourceVersion: nat, origin: Origin)

  /** A request to add a message: who asks, where, what, and under which idempotency key. */
  datatype Request = Request(ctx: AuthContext, conversation: Id, content: string, key: string)

  /** `SendMessageResult` */
  datatype Reply = Reply(run: RunRow, userMessage: Message, assistantMessage: Option<Message>, replayed: bool)

  datatype ModelTurn = ModelTurn(role: Role, content: string)

  /** The mutable entity that the services load, change and save. */
  class AgentRun {
    const identity: RunIdentity
    var fencingToken: nat
    var status: RunStatus
    var userMessage: Option<Id>
    var assistantMessage: Option<Id>
    var errorCode: Option<string>

    constructor (row: RunRow)
      ensures Row() == row
    {
      identity := row.identity;
      fencingToken := row.fencingToken;
      status := row.status;
      userMessage := row.userMessage;
      assistantMessage := row.assistantMessage;
      errorCode := row.errorCode;
    }

    function Row(): RunRow
      reads this
    {
      RunRow(identity, fencingToken, status, userMessage, assistantMessage, errorCode)
    }

    method TransitionTo(target: RunStatus, code: Option<string>) returns (ok: bool)
      modifies this`status, this`errorCode
      ensures ok == (target in Transitions(old(status)))
      ensures Row() == if ok then old(Row()).(status := target, errorCode := code) else old(Row())
    {
      if target !in Transitions(status) {
        return false;
      }
      status := target;
      errorCode := code;
      return true;
    }
  }
}
