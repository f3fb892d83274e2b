// The writes of run statuses, with no assumption about how units of work interleave: what a status
// write finds, what it leaves, and exactly when it changes a run that had ended.
module StatusWrites {
  import opened Entities
  import opened Tables
  import opened Conversations
  import opened Protocol
  import opened Invariants
  import opened Safety

  // ---------------------------------------------------------------- what a status write saves

  /** The copy of the run that a process has read and is about to change. */
  function ReadCopy(phase: Phase): Option<RunRow> {
    match phase
    case AnswerRead(_, _, seen) => seen
    case FailureRead(_, _, _, _, seen) => seen
    case CancelRead(row) => Some(row)
    case _ => None
  }

  /** The row that an action saves, if it is a status write that passes its own guards. */
  function StatusWrite(cfg: Config, t: Tables, phase: Phase, action: Action): Option<RunRow> {
    match action
    case WriteAnswer(messageId) =>
      if !phase.AnswerRead? || !MayWrite(cfg, t, phase.run, phase.seen) then None
      else
        var r := Finalise(t, phase.seen, phase.run, phase.answer, messageId).1;
        if r.Ok? then Some(r.value) else None
    case WriteFailure =>
      if !phase.FailureRead? || !MayWrite(cfg, t, phase.run, phase.seen) then None
      else if phase.seen.None? || phase.seen.value.status != Running then None
      else Some(phase.seen.value.(status := phase.target, errorCode := Some(phase.code)))
    case WriteCancel =>
      if !phase.CancelRead? || !MayWrite(cfg, t, phase.row.identity, Some(phase.row)) then None
      else
        var r := CancelSave(t, phase.row).1;
        if r.Ok? then Some(r.value) else None
    case _ => None
  }

  // ---------------------------------------------------------------- rows and copies

  /** The row as its insert left it. */
  function Start(r: RunRow): RunRow {
    r.(status := Running, assistantMessage := None, errorCode := None)
  }

  predicate HasReply(messages: seq<Message>, id: Id, conversation: Id, sequence: nat) {
    exists i :: 0 <= i < |messages| && messages[i].id == id && messages[i].conversation == conversation
      && messages[i].sequence == sequence && messages[i].role == Assistant
  }

  /** How a run ends without an answer: the agent failed, or the lease or the conversation was lost. */
  predicate IsEnding(target: RunStatus, code: string) {
    (target == Failed && code == "MODEL_UNAVAILABLE") || (target == Conflicted && code == "LEASE_LOST")
  }

  /** What the mutable columns of a row hold, by its status. */
  predicate RowShape(t: Tables, r: RunRow) {
    match r.status
    case Created => false
    case Running => r == Start(r)
    case Succeeded =>
      r.assistantMessage.Some? && r.errorCode.None?
      && HasReply(t.messages, r.assistantMessage.value, r.identity.conversation, 2 * (r.identity.expectedVersion + 1))
    case Failed => r == Start(r).(status := Failed, errorCode := Some("MODEL_UNAVAILABLE"))
    case Cancelled => r == Start(r).(status := Cancelled)
    case Conflicted => r == Start(r).(status := Conflicted, errorCode := Some("LEASE_LOST"))
  }

  predicate RowsShaped(t: Tables) {
    forall i :: 0 <= i < |t.runs| ==> RowShape(t, t.runs[i])
  }

  /** The copy is a row as it was at some time. */
  predicate CopyOk(t: Tables, copy: RunRow) {
    RowShape(t, copy) && exists i :: 0 <= i < |t.runs| && Start(t.runs[i]) == Start(copy)
  }

  /** The run that this process alone may still end otherwise than by cancelling it. */
  function OpenRun(phase: Phase): Option<RunIdentity> {
    match phase
    case Failing(run, _, _, _) => Some(run)
    case FailureRead(run, _, _, _, _) => Some(run)
    case _ => OwnedRun(phase)
  }

  predicate IsOpen(t: Tables, run: RunIdentity) {
    exists i :: 0 <= i < |t.runs| && t.runs[i].identity == run
      && (t.runs[i].status == Running || t.runs[i].status == Cancelled)
  }

  predicate EndingOk(phase: Phase) {
    match phase
    case Failing(_, target, code, _) => IsEnding(target, code)
    case FailureRead(_, target, code, _, _) => IsEnding(target, code)
    case _ => true
  }

  predicate PhaseStatusOk(t: Tables, phase: Phase) {
    (ReadCopy(phase).Some? ==> CopyOk(t, ReadCopy(phase).value))
    && (OpenRun(phase).Some? ==> IsOpen(t, OpenRun(phase).value))
    && EndingOk(phase)
  }

  predicate OpenApart(a: Phase, b: Phase) {
    OpenRun(a).Some? && OpenRun(b).Some? ==> OpenRun(a).value.id != OpenRun(b).value.id
  }

  predicate StatusInv(s: State) {
    && RowsShaped(s.tables)
    && (forall pid :: pid in s.processes ==> PhaseStatusOk(s.tables, s.processes[pid].phase))
    && (forall a, b :: a in s.processes && b in s.processes && a != b ==>
      OpenApart(s.processes[a].phase, s.processes[b].phase))
  }

  // ---------------------------------------------------------------- what one action does to the runs

  /** Row i is replaced by another state of the same run, which has ended. */
  predicate Replaces(t: Tables, t': Tables, i: nat, w: RunRow) {
    && i < |t.runs| && t'.runs == t.runs[i := w]
    && Start(w) == Start(t.runs[i]) && IsTerminal(w.status) && RowShape(t', w)
  }

  /** The runs stay as they are, or one more has just started. */
  predicate StartsAtMostOne(t: Tables, t': Tables) {
    t'.runs == t.runs || (t'.runs != [] && t'.runs == t.runs + [t'.runs[|t'.runs| - 1]]
                          && t'.runs[|t'.runs| - 1] == Start(t'.runs[|t'.runs| - 1]))
  }

  lemma CopyIsRow(t: Tables, copy: RunRow) returns (i: nat)
    requires RunRowsOk(t) && CopyOk(t, copy)
    ensures i < |t.runs| && Start(t.runs[i]) == Start(copy)
    ensures FindRun(t.runs, copy.identity.tenant, copy.identity.id) == Some(i)
  {
    hide RowShape, RunRowOk;
    i :| 0 <= i < |t.runs| && Start(t.runs[i]) == Start(copy);
    assert t.runs[i].identity == copy.identity;
    var k := FindRun(t.runs, copy.identity.tenant, copy.identity.id);
    assert k.Some? ==> t.runs[k.value].identity.id == t.runs[i].identity.id;
  }

  lemma SaveReplaces(t: Tables, copy: RunRow, w: RunRow) returns (i: nat)
    requires RunRowsOk(t) && CopyOk(t, copy) && Start(w) == Start(copy)
    ensures i < |t.runs| && FindRun(t.runs, w.identity.tenant, w.identity.id) == Some(i)
    ensures WithSaved(t, w).runs == t.runs[i := w] && Start(w) == Start(t.runs[i])
  {
    i := CopyIsRow(t, copy);
    assert w.identity == copy.identity == t.runs[i].identity;
  }

  lemma AnswerReplaces(t: Tables, seen: RunRow, run: RunIdentity, answer: string, messageId: Id) returns (i: nat)
    requires RunRowsOk(t) && CopyOk(t, seen) && seen.identity == run
    requires Finalise(t, Some(seen), run, answer, messageId).1.Ok?
    ensures var (t', r) := Finalise(t, Some(seen), run, answer, messageId);
      && seen == Start(seen) && r.value == seen.(assistantMessage := Some(messageId), status := Succeeded)
      && t'.messages == t.messages + [AssistantMessage(run, answer, messageId)]
      && FindRun(t.runs, run.tenant, run.id) == Some(i) && Replaces(t, t', i, r.value)
  {
    var m := AssistantMessage(run, answer, messageId);
    var w := seen.(assistantMessage := Some(messageId), status := Succeeded, errorCode := None);
    var t1 := WithMessage(t, m);
    assert seen == Start(seen);
    i := SaveReplaces(t, seen, w);
    assert WithSaved(t1, w).runs == t.runs[i := w];
    assert t1.messages[|t.messages|] == m;
  }

  lemma AnswerNeedsRow(t: Tables, seen: Option<RunRow>, run: RunIdentity, answer: string, messageId: Id)
    requires Finalise(t, seen, run, answer, messageId).1.Ok?
    ensures seen.Some?
  {
  }

  lemma FailureReplaces(t: Tables, seen: RunRow, target: RunStatus, code: string) returns (i: nat)
    requires RunRowsOk(t) && CopyOk(t, seen) && seen.status == Running && IsEnding(target, code)
    ensures var w := seen.(status := target, errorCode := Some(code));
      && seen == Start(seen) && Mark(t, Some(seen), target, code) == WithSaved(t, w)
      && FindRun(t.runs, w.identity.tenant, w.identity.id) == Some(i) && Replaces(t, WithSaved(t, w), i, w)
  {
    i := SaveReplaces(t, seen, seen.(status := target, errorCode := Some(code)));
  }

  lemma CancelReplaces(t: Tables, seen: RunRow) returns (i: nat)
    requires RunRowsOk(t) && CopyOk(t, seen) && CancelSave(t, seen).1.Ok?
    ensures var (t', r) := CancelSave(t, seen);
      && seen == Start(seen) && r.value == seen.(status := Cancelled) && t'.messages == t.messages
      && FindRun(t.runs, seen.identity.tenant, seen.identity.id) == Some(i) && Replaces(t, t', i, r.value)
  {
    i := SaveReplaces(t, seen, seen.(status := Cancelled, errorCode := None));
  }

  /** A status write replaces the row of its run; the copy that it changes was read while the run
      was running. */
  lemma WriteReplaces(cfg: Config, t: Tables, q: Request, phase: Phase, action: Action) returns (i: nat)
    requires Ready(t, q, phase, cfg.memory.Keep()) && PhaseStatusOk(t, phase)
    requires StatusWrite(cfg, t, phase, action).Some?
    ensures var w := StatusWrite(cfg, t, phase, action).value;
      && FindRun(t.runs, w.identity.tenant, w.identity.id) == Some(i)
      && Replaces(t, Advance(cfg, t, q, phase, action).0, i, w)
      && ReadCopy(phase) == Some(Start(w))
      && w.status == (match action case WriteAnswer(_) => Succeeded case WriteFailure => phase.target
        case _ => Cancelled)
  {
    hide CancelSave, Mark, Finalise, FindRun;
    match action
    case WriteAnswer(messageId) =>
      AnswerNeedsRow(t, phase.seen, phase.run, phase.answer, messageId);
      i := AnswerReplaces(t, phase.seen.value, phase.run, phase.answer, messageId);
    case WriteFailure => i := FailureReplaces(t, phase.seen.value, phase.target, phase.code);
    case WriteCancel => i := CancelReplaces(t, phase.row);
  }

  /** Any other action leaves the rows that are there. */
  lemma OthersLeaveRuns(cfg: Config, t: Tables, q: Request, phase: Phase, action: Action)
    requires StatusWrite(cfg, t, phase, action).None?
    ensures StartsAtMostOne(t, Advance(cfg, t, q, phase, action).0)
  {
    match action
    case Insert(messageId, runId, token) => InsertStarts(t, q, phase, messageId, runId, token);
    case WriteAnswer(_) =>
    case WriteFailure =>
    case WriteCancel =>
    case InsertSummary(_) =>
    case _ => assert Advance(cfg, t, q, phase, action).0 == t;
  }

  lemma InsertStarts(t: Tables, q: Request, phase: Phase, messageId: Id, runId: Id, token: nat)
    ensures StartsAtMostOne(t, InsertStep(t, q, phase, messageId, runId, token).0)
  {
    var t' := InsertStep(t, q, phase, messageId, runId, token).0;
    if t'.runs != t.runs {
      assert t'.runs == t.runs + [NewRun(q, phase.version, runId, token, messageId)];
    }
  }

  // ---------------------------------------------------------------- every action keeps the invariant

  /** Rows keep what their insert gave them, and all rows have the shape of their status. */
  predicate RunsMove(t: Tables, t': Tables) {
    && |t.runs| <= |t'.runs|
    && (forall i :: 0 <= i < |t.runs| ==> Start(t'.runs[i]) == Start(t.runs[i]))
    && RowsShaped(t')
  }

  lemma ReplyStays(messages: seq<Message>, later: seq<Message>, id: Id, c: Id, sequence: nat)
    requires HasReply(messages, id, c, sequence) && messages <= later
    ensures HasReply(later, id, c, sequence)
  {
    var i :| 0 <= i < |messages| && messages[i].id == id && messages[i].conversation == c
      && messages[i].sequence == sequence && messages[i].role == Assistant;
    assert later[i] == messages[i];
  }

  lemma ShapeStable(t: Tables, t': Tables, r: RunRow)
    requires RowShape(t, r) && t.messages <= t'.messages
    ensures RowShape(t', r)
  {
    if r.status == Succeeded {
      ReplyStays(t.messages, t'.messages, r.assistantMessage.value, r.identity.conversation,
                 2 * (r.identity.expectedVersion + 1));
    }
  }

  lemma StartMoves(t: Tables, t': Tables)
    requires RowsShaped(t) && t.messages <= t'.messages && StartsAtMostOne(t, t')
    ensures RunsMove(t, t')
  {
    forall i | 0 <= i < |t'.runs|
      ensures RowShape(t', t'.runs[i])
    {
      if i < |t.runs| {
        ShapeStable(t, t', t.runs[i]);
      }
    }
  }

  lemma ReplaceMoves(t: Tables, t': Tables, i: nat, w: RunRow)
    requires RowsShaped(t) && t.messages <= t'.messages && Replaces(t, t', i, w)
    ensures RunsMove(t, t')
  {
    forall k | 0 <= k < |t'.runs|
      ensures RowShape(t', t'.runs[k])
    {
      if k != i {
        ShapeStable(t, t', t.runs[k]);
      }
    }
  }

  lemma AdvanceMoves(cfg: Config, t: Tables, q: Request, phase: Phase, action: Action)
    requires Ready(t, q, phase, cfg.memory.Keep()) && PhaseStatusOk(t, phase)
    requires RowsShaped(t)
    ensures RunsMove(t, Advance(cfg, t, q, phase, action).0)
  {
    var t' := Advance(cfg, t, q, phase, action).0;
    AdvanceKeepsTables(cfg, t, q, phase, action);
    if StatusWrite(cfg, t, phase, action).Some? {
      var i := WriteReplaces(cfg, t, q, phase, action);
      ReplaceMoves(t, t', i, StatusWrite(cfg, t, phase, action).value);
    } else {
      OthersLeaveRuns(cfg, t, q, phase, action);
      StartMoves(t, t');
    }
  }

  lemma CopyStable(t: Tables, t': Tables, copy: RunRow)
    requires CopyOk(t, copy) && RunsMove(t, t') && t.messages <= t'.messages
    ensures CopyOk(t', copy)
  {
    ShapeStable(t, t', copy);
    var i :| 0 <= i < |t.runs| && Start(t.runs[i]) == Start(copy);
    assert Start(t'.runs[i]) == Start(copy);
  }

  lemma RowIsCopy(t: Tables, tenant: Id, id: Id)
    requires RowsShaped(t) && GetRun(t, tenant, id).Some?
    ensures CopyOk(t, GetRun(t, tenant, id).value)
  {
    var i := FindRun(t.runs, tenant, id).value;
    assert t.runs[i] == GetRun(t, tenant, id).value;
  }

  /** The copy of the new phase is the one it had, or the row as it is. */
  predicate CopyKeptOrRead(t: Tables, t': Tables, phase: Phase, phase': Phase) {
    var copy := ReadCopy(phase');
    copy.Some? && copy != ReadCopy(phase) ==>
        t' == t && GetRun(t, copy.value.identity.tenant, copy.value.identity.id) == copy
  }

  /** A process obtains its copy by reading the row. */
  lemma CopyIsRead(cfg: Config, t: Tables, q: Request, phase: Phase, action: Action)
    ensures var (t', phase') := Advance(cfg, t, q, phase, action); CopyKeptOrRead(t, t', phase, phase')
  {
    hide InsertStep, QuietStep, GetRun, Finalise, Mark, CancelSave;
    match action
    case Insert(messageId, runId, token) => InsertReadsNothing(t, q, phase, messageId, runId, token);
    case WriteAnswer(_) =>
    case WriteFailure =>
    case WriteCancel =>
    case InsertSummary(_) =>
    case _ => QuietCopy(cfg, t, q, phase, action);
  }

  lemma InsertReadsNothing(t: Tables, q: Request, phase: Phase, messageId: Id, runId: Id, token: nat)
    ensures var phase' := InsertStep(t, q, phase, messageId, runId, token).1;
      ReadCopy(phase').Some? ==> ReadCopy(phase') == ReadCopy(phase)
  {
    hide PrepareInsert;
  }

  lemma QuietCopy(cfg: Config, t: Tables, q: Request, phase: Phase, action: Action)
    ensures CopyKeptOrRead(t, t, phase, QuietStep(cfg, t, q, phase, action))
  {
    hide PrepareLookup, LoadIdempotent, CancelLookup, ReadStep;
    if action.ReadRun? {
      ReadCopyIs(t, q, phase);
    }
  }

  lemma ReadCopyIs(t: Tables, q: Request, phase: Phase)
    ensures CopyKeptOrRead(t, t, phase, ReadStep(t, q, phase))
  {
  }

  lemma NewCopyOk(cfg: Config, t: Tables, q: Request, phase: Phase, action: Action)
    requires Ready(t, q, phase, cfg.memory.Keep()) && PhaseStatusOk(t, phase)
    requires RowsShaped(t)
    ensures var (t', phase') := Advance(cfg, t, q, phase, action);
      ReadCopy(phase').Some? ==> CopyOk(t', ReadCopy(phase').value)
  {
    var (t', phase') := Advance(cfg, t, q, phase, action);
    hide Advance;
    var copy := ReadCopy(phase');
    if copy.Some? {
      if copy == ReadCopy(phase) {
        AdvanceMoves(cfg, t, q, phase, action);
        AdvanceKeepsTables(cfg, t, q, phase, action);
        CopyStable(t, t', copy.value);
      } else {
        CopyIsRead(cfg, t, q, phase, action);
        RowIsCopy(t, copy.value.identity.tenant, copy.value.identity.id);
      }
    }
  }

  /** The process goes on with its run, whose row it has not touched, or it has just inserted it. */
  predicate KeepsOrStarts(t: Tables, t': Tables, phase: Phase, phase': Phase) {
    OpenRun(phase').Some? ==>
      || (OpenRun(phase') == OpenRun(phase) && t'.runs == t.runs)
      || (RunFits(t.runs, OpenRun(phase').value)
          && t'.runs != [] && t'.runs == t.runs + [t'.runs[|t'.runs| - 1]]
          && t'.runs[|t'.runs| - 1].identity == OpenRun(phase').value && t'.runs[|t'.runs| - 1].status == Running)
  }

  lemma OpenRunKept(cfg: Config, t: Tables, q: Request, phase: Phase, action: Action)
    ensures var (t', phase') := Advance(cfg, t, q, phase, action); KeepsOrStarts(t, t', phase, phase')
  {
    hide InsertStep, QuietStep, AnswerStep, KeepsOrStarts;
    match action
    case Insert(messageId, runId, token) => OpenRunInserted(t, q, phase, messageId, runId, token);
    case WriteAnswer(messageId) => OpenRunAnswered(cfg, t, phase, messageId);
    case WriteFailure => OpenRunFailed(cfg, t, phase);
    case WriteCancel => OpenRunNotCancelled(cfg, t, phase);
    case InsertSummary(id) => OpenRunNotStored(t, phase, id);
    case _ => OpenRunQuiet(cfg, t, q, phase, action);
  }

  lemma OpenRunAnswered(cfg: Config, t: Tables, phase: Phase, messageId: Id)
    ensures var (t', phase') := AnswerStep(cfg, t, phase, messageId); KeepsOrStarts(t, t', phase, phase')
  {
  }

  lemma OpenRunFailed(cfg: Config, t: Tables, phase: Phase)
    ensures var (t', phase') := FailureStep(cfg, t, phase); KeepsOrStarts(t, t', phase, phase')
  {
  }

  lemma OpenRunNotCancelled(cfg: Config, t: Tables, phase: Phase)
    ensures var (t', phase') := CancelStep(cfg, t, phase); KeepsOrStarts(t, t', phase, phase')
  {
  }

  lemma OpenRunNotStored(t: Tables, phase: Phase, id: Id)
    ensures var (t', phase') := StoreStep(t, phase, id); KeepsOrStarts(t, t', phase, phase')
  {
  }

  lemma OpenRunQuiet(cfg: Config, t: Tables, q: Request, phase: Phase, action: Action)
    ensures KeepsOrStarts(t, t, phase, QuietStep(cfg, t, q, phase, action))
  {
    hide PrepareLookup, LoadIdempotent, CancelLookup, GetRun;
  }

  lemma OpenRunInserted(t: Tables, q: Request, phase: Phase, messageId: Id, runId: Id, token: nat)
    ensures var (t', phase') := InsertStep(t, q, phase, messageId, runId, token); KeepsOrStarts(t, t', phase, phase')
  {
    if phase.Looked? {
      var (t', r) := PrepareInsert(t, q, phase.version, messageId, runId, token);
      if r.Ok? {
        assert t'.runs == t.runs + [r.value.run];
      }
    }
  }

  lemma EndingKept(cfg: Config, t: Tables, q: Request, phase: Phase, action: Action)
    requires EndingOk(phase)
    ensures EndingOk(Advance(cfg, t, q, phase, action).1)
  {
    hide PrepareLookup, PrepareInsert, LoadIdempotent, CancelLookup, GetRun, Finalise, CancelSave;
  }

  lemma OwnRunOpen(t: Tables, t': Tables, phase: Phase, phase': Phase)
    requires KeepsOrStarts(t, t', phase, phase') && (OpenRun(phase).Some? ==> IsOpen(t, OpenRun(phase).value))
    ensures OpenRun(phase').Some? ==> IsOpen(t', OpenRun(phase').value)
  {
  }

  lemma StillApart(t: Tables, t': Tables, phase: Phase, phase': Phase, other: Phase)
    requires KeepsOrStarts(t, t', phase, phase') && OpenApart(phase, other)
    requires OpenRun(other).Some? ==> IsOpen(t, OpenRun(other).value)
    ensures OpenApart(phase', other) && OpenApart(other, phase')
  {
  }

  /** Only the process whose open run it is ends a run otherwise than by cancelling it. */
  lemma WriterOwns(cfg: Config, t: Tables, q: Request, phase: Phase, action: Action)
    requires PhaseOk(t, q, phase, cfg.memory.Keep()) && StatusWrite(cfg, t, phase, action).Some?
    ensures var w := StatusWrite(cfg, t, phase, action).value;
      if action.WriteCancel? then w.status == Cancelled else OpenRun(phase) == Some(w.identity)
  {
    match action
    case WriteAnswer(_) =>
    case WriteFailure =>
    case WriteCancel =>
  }

  lemma OpenStays(t: Tables, t': Tables, i: nat, w: RunRow, run: RunIdentity)
    requires RunRowsOk(t) && Replaces(t, t', i, w) && IsOpen(t, run)
    requires w.status == Cancelled || w.identity.id != run.id
    ensures IsOpen(t', run)
  {
    var k :| 0 <= k < |t.runs| && t.runs[k].identity == run
      && (t.runs[k].status == Running || t.runs[k].status == Cancelled);
    assert t'.runs[k] == if k == i then w else t.runs[k];
    assert Start(w).identity == t.runs[i].identity;
  }

  lemma OpenStaysInGrown(t: Tables, t': Tables, run: RunIdentity)
    requires StartsAtMostOne(t, t') && IsOpen(t, run)
    ensures IsOpen(t', run)
  {
    var k :| 0 <= k < |t.runs| && t.runs[k].identity == run
      && (t.runs[k].status == Running || t.runs[k].status == Cancelled);
    assert t'.runs[k] == t.runs[k];
  }

  lemma OtherRunStaysOpen(cfg: Config, t: Tables, q: Request, phase: Phase, action: Action, other: Phase)
    requires Ready(t, q, phase, cfg.memory.Keep()) && PhaseStatusOk(t, phase)
    requires PhaseStatusOk(t, other) && OpenApart(phase, other) && OpenRun(other).Some?
    ensures IsOpen(Advance(cfg, t, q, phase, action).0, OpenRun(other).value)
  {
    var t' := Advance(cfg, t, q, phase, action).0;
    if StatusWrite(cfg, t, phase, action).Some? {
      var i := WriteReplaces(cfg, t, q, phase, action);
      WriterOwns(cfg, t, q, phase, action);
      OpenStays(t, t', i, StatusWrite(cfg, t, phase, action).value, OpenRun(other).value);
    } else {
      OthersLeaveRuns(cfg, t, q, phase, action);
      OpenStaysInGrown(t, t', OpenRun(other).value);
    }
  }

  lemma OtherPhaseStatusOk(cfg: Config, t: Tables, q: Request, phase: Phase, action: Action, other: Phase)
    requires Ready(t, q, phase, cfg.memory.Keep()) && PhaseStatusOk(t, phase)
    requires RowsShaped(t) && PhaseStatusOk(t, other) && OpenApart(phase, other)
    ensures PhaseStatusOk(Advance(cfg, t, q, phase, action).0, other)
  {
    if ReadCopy(other).Some? {
      AdvanceMoves(cfg, t, q, phase, action);
      AdvanceKeepsTables(cfg, t, q, phase, action);
      CopyStable(t, Advance(cfg, t, q, phase, action).0, ReadCopy(other).value);
    }
    if OpenRun(other).Some? {
      OtherRunStaysOpen(cfg, t, q, phase, action, other);
    }
  }

  lemma OwnPhaseStatusOk(cfg: Config, t: Tables, q: Request, phase: Phase, action: Action)
    requires Ready(t, q, phase, cfg.memory.Keep()) && PhaseStatusOk(t, phase)
    requires RowsShaped(t)
    ensures var (t', phase') := Advance(cfg, t, q, phase, action); PhaseStatusOk(t', phase')
  {
    var (t', phase') := Advance(cfg, t, q, phase, action);
    NewCopyOk(cfg, t, q, phase, action);
    OpenRunKept(cfg, t, q, phase, action);
    OwnRunOpen(t, t', phase, phase');
    EndingKept(cfg, t, q, phase, action);
  }

  lemma ActKeepsStatusInv(cfg: Config, s: State, pid: nat, action: Action)
    requires Inv(cfg, s) && StatusInv(s) && pid in s.processes
    ensures StatusInv(Apply(cfg, s, Act(pid, action)))
  {
    hide Advance, PhaseOk, TablesOk;
    var p := s.processes[pid];
    var (t', phase') := Advance(cfg, s.tables, p.request, p.phase, action);
    OwnPhaseStatusOk(cfg, s.tables, p.request, p.phase, action);
    AdvanceMoves(cfg, s.tables, p.request, p.phase, action);
    OpenRunKept(cfg, s.tables, p.request, p.phase, action);
    forall other | other in s.processes && other != pid
      ensures PhaseStatusOk(t', s.processes[other].phase)
      ensures OpenApart(phase', s.processes[other].phase) && OpenApart(s.processes[other].phase, phase')
    {
      OtherPhaseStatusOk(cfg, s.tables, p.request, p.phase, action, s.processes[other].phase);
      StillApart(s.tables, t', p.phase, phase', s.processes[other].phase);
    }
    assert Apply(cfg, s, Act(pid, action)) == State(t', s.processes[pid := p.(phase := phase')]);
    AssembleStatusInv(t', s.processes, pid, p.(phase := phase'));
  }

  lemma AssembleStatusInv(t: Tables, processes: map<nat, Process>, pid: nat, p: Process)
    requires RowsShaped(t) && PhaseStatusOk(t, p.phase)
    requires forall a, b :: a in processes && b in processes && a != b ==>
      OpenApart(processes[a].phase, processes[b].phase)
    requires forall other :: other in processes && other != pid ==>
      PhaseStatusOk(t, processes[other].phase)
      && OpenApart(p.phase, processes[other].phase) && OpenApart(processes[other].phase, p.phase)
    ensures StatusInv(State(t, processes[pid := p]))
  {
  }

  lemma CreateKeepsStatusInv(cfg: Config, s: State, id: Id, tenant: Id, owner: Id)
    requires StatusInv(s)
    ensures StatusInv(Apply(cfg, s, CreateConversation(id, tenant, owner)))
  {
    var t := s.tables;
    var t' := Apply(cfg, s, CreateConversation(id, tenant, owner)).tables;
    assert t'.runs == t.runs && t'.messages == t.messages;
    StartMoves(t, t');
    forall pid | pid in s.processes
      ensures PhaseStatusOk(t', s.processes[pid].phase)
    {
      var phase := s.processes[pid].phase;
      assert PhaseStatusOk(t, phase);
      if ReadCopy(phase).Some? { CopyStable(t, t', ReadCopy(phase).value); }
      if OpenRun(phase).Some? { OpenStaysInGrown(t, t', OpenRun(phase).value); }
    }
  }

  lemma StepKeepsStatusInv(cfg: Config, s: State, step: Step)
    requires Inv(cfg, s) && StatusInv(s)
    ensures StatusInv(Apply(cfg, s, step))
  {
    hide Advance, Inv, StatusInv;
    match step
    case CreateConversation(id, tenant, owner) => CreateKeepsStatusInv(cfg, s, id, tenant, owner);
    case Act(pid, action) => if pid in s.processes { ActKeepsStatusInv(cfg, s, pid, action); }
    case Begin(pid, request) => BeginKeepsStatusInv(s, pid, Process(request, Begun));
    case BeginCancel(pid, request, runId) => BeginKeepsStatusInv(s, pid, Process(request, Cancelling(runId)));
    case Crash(pid) => CrashKeepsStatusInv(s, pid);
  }

  predicate JustBegun(phase: Phase) {
    phase.Begun? || phase.Cancelling?
  }

  lemma BegunIsOk(t: Tables, phase: Phase, other: Phase)
    requires JustBegun(phase)
    ensures PhaseStatusOk(t, phase) && OpenApart(phase, other) && OpenApart(other, phase)
  {
  }

  lemma BeginKeepsStatusInv(s: State, pid: nat, p: Process)
    requires StatusInv(s) && JustBegun(p.phase)
    ensures StatusInv(s.(processes := s.processes[pid := p]))
  {
    hide RowsShaped, PhaseStatusOk, OpenApart;
    BegunIsOk(s.tables, p.phase, p.phase);
    forall other | other in s.processes
      ensures OpenApart(p.phase, s.processes[other].phase) && OpenApart(s.processes[other].phase, p.phase)
    {
      BegunIsOk(s.tables, p.phase, s.processes[other].phase);
    }
  }

  lemma CrashKeepsStatusInv(s: State, pid: nat)
    requires StatusInv(s)
    ensures StatusInv(s.(processes := s.processes - {pid}))
  {
    hide RowsShaped, PhaseStatusOk, OpenApart;
  }

  /** In every reachable state, however units of work interleave: all rows and all copies have the
      shape of their status, and a run that a process may still answer or fail is running or
      cancelled. */
  lemma {:induction false} ReachableStatuses(cfg: Config, steps: seq<Step>)
    ensures Inv(cfg, Run(cfg, INITIAL, steps)) && StatusInv(Run(cfg, INITIAL, steps))
  {
    ReachableInv(cfg, steps);
    if steps != [] {
      var before := steps[..|steps| - 1];
      ReachableStatuses(cfg, before);
      StepKeepsStatusInv(cfg, Run(cfg, INITIAL, before), steps[|steps| - 1]);
    }
  }
}
