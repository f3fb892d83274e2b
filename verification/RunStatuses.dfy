// The life of a run, however units of work interleave: when a run that has ended changes again, and
// when succeeding and having an answer are the same thing.
module RunStatuses {
  import opened Entities
  import opened Tables
  import opened Conversations
  import opened Protocol
  import opened Invariants
  import opened Safety
  import opened StatusWrites

  /** No terminal row has changed in any column. */
  predicate TerminalKept(t: Tables, t': Tables) {
    |t.runs| <= |t'.runs| && forall i :: 0 <= i < |t.runs| && IsTerminal(t.runs[i].status) ==> t'.runs[i] == t.runs[i]
  }

  /** The row that the step saves, if it is a status write that passes its own guards. */
  function Saves(cfg: Config, s: State, step: Step): Option<RunRow> {
    if step.Act? && step.pid in s.processes then StatusWrite(cfg, s.tables, s.processes[step.pid].phase, step.action)
    else None
  }

  /** The row that a save is about to replace. */
  function Current(t: Tables, w: RunRow): Option<RunRow> {
    GetRun(t, w.identity.tenant, w.identity.id)
  }

  /** The step is a status write and its run is no longer running. */
  predicate FindsEnded(cfg: Config, s: State, step: Step) {
    var w := Saves(cfg, s, step);
    w.Some? && Current(s.tables, w.value).Some? && Current(s.tables, w.value).value.status != Running
  }

  /** The step cancels a run that is cancelled. */
  predicate CancelsAgain(cfg: Config, s: State, step: Step) {
    var w := Saves(cfg, s, step);
    w.Some? && Current(s.tables, w.value).Some? && Current(s.tables, w.value).value.status == Cancelled
      && step.action.WriteCancel?
  }

  // ---------------------------------------------------------------- one status write

  /** Replacing a row that has ended changes it, unless the same cancellation is written again. */
  lemma ReplacedTerminal(t: Tables, t': Tables, i: nat, w: RunRow)
    requires RowsShaped(t) && Replaces(t, t', i, w)
    requires t.runs[i].status == Cancelled || w.status == Cancelled
    ensures TerminalKept(t, t') <==> t.runs[i].status == Running || t.runs[i].status == w.status
  {
    assert RowShape(t, t.runs[i]) && RowShape(t', w);
    if t.runs[i].status != Running && t.runs[i].status != w.status {
      assert t'.runs[i] != t.runs[i];
    }
  }

  /** The row is cancelled, or the write is a cancellation: an open run has not ended otherwise. */
  lemma OpenOrCancel(cfg: Config, t: Tables, q: Request, phase: Phase, action: Action, i: nat)
    requires RunRowsOk(t) && PhaseOk(t, q, phase, cfg.memory.Keep()) && PhaseStatusOk(t, phase)
    requires StatusWrite(cfg, t, phase, action).Some?
    requires var w := StatusWrite(cfg, t, phase, action).value;
      FindRun(t.runs, w.identity.tenant, w.identity.id) == Some(i)
    ensures t.runs[i].status == Running || t.runs[i].status == Cancelled || action.WriteCancel?
  {
    hide StatusWrite, RunRowOk;
    WriterOwns(cfg, t, q, phase, action);
    if !action.WriteCancel? {
      var run := StatusWrite(cfg, t, phase, action).value.identity;
      assert OpenRun(phase) == Some(run);
      var k :| 0 <= k < |t.runs| && t.runs[k].identity == run
        && (t.runs[k].status == Running || t.runs[k].status == Cancelled);
      assert k == i;
    }
  }

  /** What a status write finds and leaves, for one process at sound rows. */
  lemma WriteEffect(cfg: Config, t: Tables, q: Request, phase: Phase, action: Action)
    requires Ready(t, q, phase, cfg.memory.Keep())
    requires RowsShaped(t) && PhaseStatusOk(t, phase) && StatusWrite(cfg, t, phase, action).Some?
    ensures var w := StatusWrite(cfg, t, phase, action).value;
      var now := Current(t, w);
      && now.Some?
      && (ReadCopy(phase) == now <==> now.value.status == Running)
      && (TerminalKept(t, Advance(cfg, t, q, phase, action).0)
          <==> now.value.status == Running || (action.WriteCancel? && now.value.status == Cancelled))
  {
    hide Advance, Finalise, Mark, CancelSave;
    var w := StatusWrite(cfg, t, phase, action).value;
    var i := WriteReplaces(cfg, t, q, phase, action);
    assert RowShape(t, t.runs[i]);
    OpenOrCancel(cfg, t, q, phase, action, i);
    if t.runs[i].status == Running {
      assert TerminalKept(t, Advance(cfg, t, q, phase, action).0);
    } else {
      ReplacedTerminal(t, Advance(cfg, t, q, phase, action).0, i, w);
    }
  }

  /** What a status write of process pid finds and leaves. */
  predicate WriteMeets(cfg: Config, s: State, pid: nat, action: Action)
    requires Saves(cfg, s, Act(pid, action)).Some?
  {
    var now := Current(s.tables, Saves(cfg, s, Act(pid, action)).value);
    && now.Some?
    && (ReadCopy(s.processes[pid].phase) != now <==> now.value.status != Running)
    && (!TerminalKept(s.tables, Apply(cfg, s, Act(pid, action)).tables)
        <==> now.value.status != Running && !(action.WriteCancel? && now.value.status == Cancelled))
  }

  lemma SoundWriteMeets(cfg: Config, s: State, pid: nat, action: Action)
    requires Inv(cfg, s) && StatusInv(s) && Saves(cfg, s, Act(pid, action)).Some?
    ensures WriteMeets(cfg, s, pid, action)
  {
    var p := s.processes[pid];
    assert PhaseOk(s.tables, p.request, p.phase, cfg.memory.Keep()) && PhaseStatusOk(s.tables, p.phase);
    ActTables(cfg, s, pid, action);
    WriteEffect(cfg, s.tables, p.request, p.phase, action);
  }

  /** In every reachable state, for every status write that passes its own guards: the copy it read
      is out of date exactly when the run is no longer running, and then the write changes a terminal
      row, except that a second cancellation writes the same row again. */
  lemma WriteChangesTerminalIff(cfg: Config, steps: seq<Step>, pid: nat, action: Action)
    requires Saves(cfg, Run(cfg, INITIAL, steps), Act(pid, action)).Some?
    ensures var s := Run(cfg, INITIAL, steps);
      var now := Current(s.tables, Saves(cfg, s, Act(pid, action)).value);
      && now.Some?
      && (ReadCopy(s.processes[pid].phase) != now <==> now.value.status != Running)
      && (!TerminalKept(s.tables, Apply(cfg, s, Act(pid, action)).tables)
          <==> now.value.status != Running && !(action.WriteCancel? && now.value.status == Cancelled))
  {
    ReachableStatuses(cfg, steps);
    SoundWriteMeets(cfg, Run(cfg, INITIAL, steps), pid, action);
  }

  // ---------------------------------------------------------------- whole runs

  lemma StepTerminalIff(cfg: Config, steps: seq<Step>, step: Step)
    ensures var s := Run(cfg, INITIAL, steps);
      TerminalKept(s.tables, Apply(cfg, s, step).tables) <==> (FindsEnded(cfg, s, step) ==> CancelsAgain(cfg, s, step))
  {
    var s := Run(cfg, INITIAL, steps);
    if Saves(cfg, s, step).Some? {
      WriteChangesTerminalIff(cfg, steps, step.pid, step.action);
    } else if step.Act? && step.pid in s.processes {
      OthersLeaveRuns(cfg, s.tables, s.processes[step.pid].request, s.processes[step.pid].phase, step.action);
    }
  }

  /** Every status write of the run, up to step n, finds its run still running or writes a
      cancellation again. */
  predicate WritesInTime(cfg: Config, steps: seq<Step>, n: nat)
    requires n <= |steps|
  {
    forall k {:trigger StateAt(cfg, steps, k)} :: 0 <= k < n ==>
      (FindsEnded(cfg, StateAt(cfg, steps, k), steps[k]) ==> CancelsAgain(cfg, StateAt(cfg, steps, k), steps[k]))
  }

  lemma {:induction false} TerminalKeptSince(cfg: Config, steps: seq<Step>, m: nat, n: nat)
    requires m <= n <= |steps| && WritesInTime(cfg, steps, n)
    ensures TerminalKept(StateAt(cfg, steps, m).tables, StateAt(cfg, steps, n).tables)
    decreases n
  {
    if m < n {
      TerminalKeptSince(cfg, steps, m, n - 1);
      StateAfter(cfg, steps, n - 1);
      StepTerminalIff(cfg, steps[..n - 1], steps[n - 1]);
      var k := n - 1;
      assert StateAt(cfg, steps, k) == Run(cfg, INITIAL, steps[..k]);
    }
  }

  /** Over a whole run, in any interleaving: terminal rows stay as they are between any two moments
      exactly when every status write finds its run still running or cancels it again. */
  lemma TerminalKeptIff(cfg: Config, steps: seq<Step>)
    ensures (forall m, n :: 0 <= m <= n <= |steps| ==>
      TerminalKept(StateAt(cfg, steps, m).tables, StateAt(cfg, steps, n).tables))
      <==> WritesInTime(cfg, steps, |steps|)
  {
    if WritesInTime(cfg, steps, |steps|) {
      forall m, n | 0 <= m <= n <= |steps|
        ensures TerminalKept(StateAt(cfg, steps, m).tables, StateAt(cfg, steps, n).tables)
      {
        TerminalKeptSince(cfg, steps, m, n);
      }
    } else {
      var k :| 0 <= k < |steps|
        && FindsEnded(cfg, StateAt(cfg, steps, k), steps[k]) && !CancelsAgain(cfg, StateAt(cfg, steps, k), steps[k]);
      StateAfter(cfg, steps, k);
      StepTerminalIff(cfg, steps[..k], steps[k]);
      assert !TerminalKept(StateAt(cfg, steps, k).tables, StateAt(cfg, steps, k + 1).tables);
    }
  }

  lemma StepEnds(cfg: Config, s: State, step: Step, i: nat)
    requires Inv(cfg, s) && StatusInv(s) && i < |s.tables.runs| && s.tables.runs[i].status != Running
    ensures i < |Apply(cfg, s, step).tables.runs| && IsTerminal(Apply(cfg, s, step).tables.runs[i].status)
  {
    hide Advance, StatusWrite;
    assert RowShape(s.tables, s.tables.runs[i]);
    if step.Act? && step.pid in s.processes {
      var p := s.processes[step.pid];
      assert PhaseOk(s.tables, p.request, p.phase, cfg.memory.Keep()) && PhaseStatusOk(s.tables, p.phase);
      if StatusWrite(cfg, s.tables, p.phase, step.action).Some? {
        var k := WriteReplaces(cfg, s.tables, p.request, p.phase, step.action);
      } else {
        OthersLeaveRuns(cfg, s.tables, p.request, p.phase, step.action);
      }
    }
  }

  /** A run leaves Running only for a terminal status, and never becomes Running again. */
  lemma {:induction false} EndedStaysEnded(cfg: Config, steps: seq<Step>, more: seq<Step>, i: nat)
    requires i < |Run(cfg, INITIAL, steps).tables.runs| && Run(cfg, INITIAL, steps).tables.runs[i].status != Running
    ensures i < |Run(cfg, INITIAL, steps + more).tables.runs|
    ensures IsTerminal(Run(cfg, INITIAL, steps).tables.runs[i].status)
    ensures IsTerminal(Run(cfg, INITIAL, steps + more).tables.runs[i].status)
    decreases |more|
  {
    ReachableStatuses(cfg, steps);
    assert RowShape(Run(cfg, INITIAL, steps).tables, Run(cfg, INITIAL, steps).tables.runs[i]);
    if more == [] {
      assert steps + more == steps;
    } else {
      var before := steps + more[..|more| - 1];
      assert (steps + more)[..|steps + more| - 1] == before;
      EndedStaysEnded(cfg, steps, more[..|more| - 1], i);
      ReachableStatuses(cfg, before);
      StepEnds(cfg, Run(cfg, INITIAL, before), more[|more| - 1], i);
    }
  }

  // ---------------------------------------------------------------- succeeding and being answered

  /** A status write replaces row i although it has succeeded. */
  predicate OverwritesAnswer(cfg: Config, s: State, step: Step, i: nat) {
    var w := Saves(cfg, s, step);
    w.Some? && FindRun(s.tables.runs, w.value.identity.tenant, w.value.identity.id) == Some(i)
      && s.tables.runs[i].status == Succeeded
  }

  predicate Overwritten(cfg: Config, steps: seq<Step>, i: nat) {
    exists n {:trigger StateAt(cfg, steps, n)} :: 0 <= n < |steps|
      && OverwritesAnswer(cfg, StateAt(cfg, steps, n), steps[n], i)
  }

  lemma OverwrittenSnoc(cfg: Config, steps: seq<Step>, step: Step, i: nat)
    ensures Overwritten(cfg, steps + [step], i)
      <==> Overwritten(cfg, steps, i) || OverwritesAnswer(cfg, Run(cfg, INITIAL, steps), step, i)
  {
    var all := steps + [step];
    assert forall n :: 0 <= n <= |steps| ==> all[..n] == steps[..n];
    assert StateAt(cfg, all, |steps|) == Run(cfg, INITIAL, steps) by { assert all[..|steps|] == steps; }
    if Overwritten(cfg, steps, i) {
      var n :| 0 <= n < |steps| && OverwritesAnswer(cfg, StateAt(cfg, steps, n), steps[n], i);
      assert StateAt(cfg, all, n) == StateAt(cfg, steps, n) && all[n] == steps[n];
    }
    if Overwritten(cfg, all, i) {
      var n :| 0 <= n < |all| && OverwritesAnswer(cfg, StateAt(cfg, all, n), all[n], i);
      if n < |steps| {
        assert StateAt(cfg, all, n) == StateAt(cfg, steps, n) && all[n] == steps[n];
      }
    }
  }

  lemma {:induction false} OverwrittenIsRow(cfg: Config, steps: seq<Step>, i: nat)
    requires Overwritten(cfg, steps, i)
    ensures i < |Run(cfg, INITIAL, steps).tables.runs|
  {
    hide Apply, Inv, StatusWrite;
    var last := |steps| - 1;
    assert steps == steps[..last] + [steps[last]];
    OverwrittenSnoc(cfg, steps[..last], steps[last], i);
    if Overwritten(cfg, steps[..last], i) {
      OverwrittenIsRow(cfg, steps[..last], i);
    }
    ReachableInv(cfg, steps[..last]);
    StepKeepsInv(cfg, Run(cfg, INITIAL, steps[..last]), steps[last]);
  }

  /** Message 2v exists exactly when the run has succeeded or had succeeded when it was overwritten. */
  predicate AnswerAccounted(t: Tables, i: nat, overwritten: bool)
    requires i < |t.runs|
  {
    (!AnswerFree(t, t.runs[i].identity) <==> t.runs[i].status == Succeeded || overwritten)
    && !(t.runs[i].status == Succeeded && overwritten)
  }

  predicate SameTurn(a: RunIdentity, b: RunIdentity) {
    a.conversation == b.conversation && a.expectedVersion == b.expectedVersion
  }

  lemma OtherTurn(t: Tables, i: nat, k: nat, keep: nat)
    requires TablesOk(t, keep) && i < |t.runs| && k < |t.runs| && i != k
    ensures !SameTurn(t.runs[i].identity, t.runs[k].identity)
  {
    var a, b := t.runs[i].identity, t.runs[k].identity;
    assert HasRun(t.runs, a) && HasRun(t.runs, b);
    if SameTurn(a, b) {
      TurnIdentifiesRun(t, a, b, keep);
    }
  }

  /** A message of another turn, or a question, leaves the place of an answer as it is. */
  lemma PlaceStays(messages: seq<Message>, m: Message, c: Id, sequence: nat)
    requires !(m.conversation == c && m.sequence == sequence)
    ensures SequenceFree(messages + [m], c, sequence) <==> SequenceFree(messages, c, sequence)
  {
    if SequenceFree(messages + [m], c, sequence) {
      assert forall k :: 0 <= k < |messages| ==> (messages + [m])[k] == messages[k];
    } else if SequenceFree(messages, c, sequence) {
      SequenceFreeAppend(messages, m, c, sequence);
    }
  }

  lemma QuestionPlaceStays(t: Tables, t': Tables, q: Request, version: nat, messageId: Id, run: RunIdentity)
    requires t'.messages == t.messages + [UserMessage(q, version, messageId)]
    ensures AnswerFree(t', run) <==> AnswerFree(t, run)
  {
    PlaceStays(t.messages, UserMessage(q, version, messageId), run.conversation, 2 * (run.expectedVersion + 1));
  }

  /** An action that saves no answer leaves the places of all answers as they are. */
  lemma OthersLeavePlaces(cfg: Config, t: Tables, q: Request, phase: Phase, action: Action, run: RunIdentity)
    requires StatusWrite(cfg, t, phase, action).None? || !action.WriteAnswer?
    ensures AnswerFree(Advance(cfg, t, q, phase, action).0, run) <==> AnswerFree(t, run)
  {
    var t' := Advance(cfg, t, q, phase, action).0;
    AdvanceMessages(cfg, t, q, phase, action);
    if action.WriteAnswer? {
      assert t' == t;
    } else if t'.messages != t.messages {
      QuestionPlaceStays(t, t', q, phase.version, action.messageId, run);
    }
  }

  /** The run that starts has no answer yet. */
  lemma NewRunUnanswered(cfg: Config, t: Tables, q: Request, phase: Phase, action: Action)
    requires TablesOk(t, cfg.memory.Keep()) && StatusWrite(cfg, t, phase, action).None?
    requires |Advance(cfg, t, q, phase, action).0.runs| > |t.runs|
    ensures var t' := Advance(cfg, t, q, phase, action).0;
      |t'.runs| == |t.runs| + 1 && t'.runs[|t.runs|].status == Running && AnswerFree(t', t'.runs[|t.runs|].identity)
  {
    OthersLeaveRuns(cfg, t, q, phase, action);
    assert action.Insert? && phase.Looked? by {
      assert Advance(cfg, t, q, phase, action).0.runs != t.runs;
    }
    NewRunOwned(t, q, phase.version, action.messageId, action.runId, action.token, cfg.memory.Keep());
  }

  /** The answer goes to its own run, whose place was free. */
  lemma AnswerTakesPlace(cfg: Config, t: Tables, q: Request, phase: Phase, messageId: Id, j: nat, i: nat)
    requires Ready(t, q, phase, cfg.memory.Keep()) && i < |t.runs|
    requires StatusWrite(cfg, t, phase, WriteAnswer(messageId)).Some?
    requires FindRun(t.runs, phase.run.tenant, phase.run.id) == Some(j) && t.runs[j].identity == phase.run
    ensures var t' := AnswerStep(cfg, t, phase, messageId).0;
      if i == j then AnswerFree(t, t.runs[i].identity) && !AnswerFree(t', t.runs[i].identity)
      else AnswerFree(t', t.runs[i].identity) <==> AnswerFree(t, t.runs[i].identity)
  {
    var m := AssistantMessage(phase.run, phase.answer, messageId);
    var t' := AnswerStep(cfg, t, phase, messageId).0;
    assert t'.messages == t.messages + [m];
    if i == j {
      assert t'.messages[|t.messages|] == m;
    } else {
      OtherTurn(t, i, j, cfg.memory.Keep());
      PlaceStays(t.messages, m, t.runs[i].identity.conversation, 2 * (t.runs[i].identity.expectedVersion + 1));
    }
  }

  lemma StartKeepsAccount(t: Tables, t': Tables, i: nat, overwritten: bool)
    requires i < |t.runs| && AnswerAccounted(t, i, overwritten) && StartsAtMostOne(t, t')
    requires AnswerFree(t', t.runs[i].identity) <==> AnswerFree(t, t.runs[i].identity)
    ensures AnswerAccounted(t', i, overwritten)
  {
    assert t'.runs[i] == t.runs[i];
  }

  /** A save to row j, seen from row i. */
  lemma SaveKeepsAccount(t: Tables, t': Tables, j: nat, w: RunRow, i: nat, overwritten: bool)
    requires i < |t.runs| && AnswerAccounted(t, i, overwritten) && Replaces(t, t', j, w)
    requires if i == j && w.status == Succeeded
      then AnswerFree(t, t.runs[i].identity) && !AnswerFree(t', t.runs[i].identity)
             else AnswerFree(t', t.runs[i].identity) <==> AnswerFree(t, t.runs[i].identity)
    ensures AnswerAccounted(t', i, overwritten || (i == j && t.runs[i].status == Succeeded))
  {
    assert Start(w).identity == t.runs[j].identity;
    if i != j {
      assert t'.runs[i] == t.runs[i];
    }
  }

  lemma WriteKeepsAccount(cfg: Config, t: Tables, q: Request, phase: Phase, action: Action, i: nat, overwritten: bool)
    requires Ready(t, q, phase, cfg.memory.Keep()) && PhaseStatusOk(t, phase)
    requires StatusWrite(cfg, t, phase, action).Some? && i < |t.runs| && AnswerAccounted(t, i, overwritten)
    ensures var t' := Advance(cfg, t, q, phase, action).0;
      var w := StatusWrite(cfg, t, phase, action).value;
      i < |t'.runs|
      && AnswerAccounted(t', i, overwritten
           || (FindRun(t.runs, w.identity.tenant, w.identity.id) == Some(i) && t.runs[i].status == Succeeded))
  {
    var j := WriteReplaces(cfg, t, q, phase, action);
    var w := StatusWrite(cfg, t, phase, action).value;
    if action.WriteAnswer? {
      WriterOwns(cfg, t, q, phase, action);
      assert w.identity == phase.run && t.runs[j].identity == Start(w).identity;
      AnswerTakesPlace(cfg, t, q, phase, action.messageId, j, i);
    } else {
      WriteIsNoAnswer(cfg, t, q, phase, action);
      OthersLeavePlaces(cfg, t, q, phase, action, t.runs[i].identity);
    }
    SaveKeepsAccount(t, Advance(cfg, t, q, phase, action).0, j, w, i, overwritten);
  }

  lemma WriteIsNoAnswer(cfg: Config, t: Tables, q: Request, phase: Phase, action: Action)
    requires PhaseOk(t, q, phase, cfg.memory.Keep()) && StatusWrite(cfg, t, phase, action).Some? && !action.WriteAnswer?
    ensures StatusWrite(cfg, t, phase, action).value.status != Succeeded
  {
    match action
    case WriteFailure =>
    case WriteCancel =>
  }

  lemma ActKeepsAccount(cfg: Config, s: State, pid: nat, action: Action, i: nat, overwritten: bool)
    requires Inv(cfg, s) && StatusInv(s) && pid in s.processes
    requires if i < |s.tables.runs| then AnswerAccounted(s.tables, i, overwritten) else !overwritten
    ensures var s' := Apply(cfg, s, Act(pid, action));
      i < |s'.tables.runs| ==>
          AnswerAccounted(s'.tables, i, overwritten || OverwritesAnswer(cfg, s, Act(pid, action), i))
  {
    hide Advance, StatusWrite, AnswerAccounted;
    var t, p := s.tables, s.processes[pid];
    assert PhaseOk(t, p.request, p.phase, cfg.memory.Keep()) && PhaseStatusOk(t, p.phase);
    ActTables(cfg, s, pid, action);
    if StatusWrite(cfg, t, p.phase, action).Some? {
      if i < |t.runs| {
        WriteKeepsAccount(cfg, t, p.request, p.phase, action, i, overwritten);
      } else {
        var j := WriteReplaces(cfg, t, p.request, p.phase, action);
      }
    } else {
      ActionKeepsAccount(cfg, t, p.request, p.phase, action, i, overwritten);
    }
  }

  lemma ActionKeepsAccount(cfg: Config, t: Tables, q: Request, phase: Phase, action: Action, i: nat, overwritten: bool)
    requires TablesOk(t, cfg.memory.Keep()) && StatusWrite(cfg, t, phase, action).None?
    requires if i < |t.runs| then AnswerAccounted(t, i, overwritten) else !overwritten
    ensures var t' := Advance(cfg, t, q, phase, action).0; i < |t'.runs| ==> AnswerAccounted(t', i, overwritten)
  {
    var t' := Advance(cfg, t, q, phase, action).0;
    OthersLeaveRuns(cfg, t, q, phase, action);
    if i < |t.runs| {
      OthersLeavePlaces(cfg, t, q, phase, action, t.runs[i].identity);
      StartKeepsAccount(t, t', i, overwritten);
    } else if i < |t'.runs| {
      NewRunUnanswered(cfg, t, q, phase, action);
    }
  }

  lemma StepKeepsAccount(cfg: Config, s: State, step: Step, i: nat, overwritten: bool)
    requires Inv(cfg, s) && StatusInv(s)
    requires if i < |s.tables.runs| then AnswerAccounted(s.tables, i, overwritten) else !overwritten
    ensures var s' := Apply(cfg, s, step);
      i < |s'.tables.runs| ==> AnswerAccounted(s'.tables, i, overwritten || OverwritesAnswer(cfg, s, step, i))
  {
    if step.Act? && step.pid in s.processes {
      ActKeepsAccount(cfg, s, step.pid, step.action, i, overwritten);
    } else {
      var t' := Apply(cfg, s, step).tables;
      assert t'.runs == s.tables.runs && t'.messages == s.tables.messages;
    }
  }

  lemma {:induction false} ReachableAccount(cfg: Config, steps: seq<Step>, i: nat)
    requires i < |Run(cfg, INITIAL, steps).tables.runs|
    ensures AnswerAccounted(Run(cfg, INITIAL, steps).tables, i, Overwritten(cfg, steps, i))
  {
    var last := |steps| - 1;
    var s := Run(cfg, INITIAL, steps[..last]);
    assert steps == steps[..last] + [steps[last]];
    OverwrittenSnoc(cfg, steps[..last], steps[last], i);
    ReachableStatuses(cfg, steps[..last]);
    if i < |s.tables.runs| {
      ReachableAccount(cfg, steps[..last], i);
    } else if Overwritten(cfg, steps[..last], i) {
      OverwrittenIsRow(cfg, steps[..last], i);
    }
    StepKeepsAccount(cfg, s, steps[last], i, Overwritten(cfg, steps[..last], i));
  }

  /** In every reachable state, in any interleaving: a run has succeeded exactly when it has an
      answer id, and then message 2v of its turn is that answer. Message 2v exists only of runs that
      have succeeded exactly as long as no status write has replaced the run after it succeeded. */
  lemma SucceededIffAnswered(cfg: Config, steps: seq<Step>, i: nat)
    requires i < |Run(cfg, INITIAL, steps).tables.runs|
    ensures var t := Run(cfg, INITIAL, steps).tables;
      var r := t.runs[i];
      && (r.status == Succeeded <==> r.assistantMessage.Some?)
      && (r.status == Succeeded ==>
        HasReply(t.messages, r.assistantMessage.value, r.identity.conversation, 2 * (r.identity.expectedVersion + 1)))
      && ((r.status == Succeeded <==> !AnswerFree(t, r.identity)) <==> !Overwritten(cfg, steps, i))
  {
    ReachableStatuses(cfg, steps);
    ReachableAccount(cfg, steps, i);
    var t := Run(cfg, INITIAL, steps).tables;
    assert RowShape(t, t.runs[i]);
  }

  lemma CancelOverwrites(cfg: Config, t: Tables, q: Request, phase: Phase, i: nat)
    requires Ready(t, q, phase, cfg.memory.Keep()) && PhaseStatusOk(t, phase)
    requires StatusWrite(cfg, t, phase, WriteCancel).Some?
    requires FindRun(t.runs, phase.row.identity.tenant, phase.row.identity.id) == Some(i)
    ensures phase.row == Start(phase.row) && phase.row.identity == t.runs[i].identity
    ensures CancelStep(cfg, t, phase).0.runs[i] == phase.row.(status := Cancelled)
  {
    var k := CancelReplaces(t, phase.row);
  }

  /** A save that replaces a run that has succeeded is a cancellation. */
  lemma OverwriteIsCancel(cfg: Config, t: Tables, q: Request, phase: Phase, action: Action, i: nat)
    requires Ready(t, q, phase, cfg.memory.Keep()) && PhaseStatusOk(t, phase)
    requires StatusWrite(cfg, t, phase, action).Some?
    requires var w := StatusWrite(cfg, t, phase, action).value;
      FindRun(t.runs, w.identity.tenant, w.identity.id) == Some(i)
    requires t.runs[i].status == Succeeded
    ensures action == WriteCancel && phase.CancelRead? && phase.row.status == Running
    ensures phase.row.identity == t.runs[i].identity
    ensures Advance(cfg, t, q, phase, action).0.runs[i] == phase.row.(status := Cancelled)
    ensures phase.row.assistantMessage == None
  {
    hide FindRun;
    OpenOrCancel(cfg, t, q, phase, action, i);
    CancelOverwrites(cfg, t, q, phase, i);
  }

  /** Only a cancellation ever replaces a run that has succeeded: it had read the run before the
      answer was saved. The run loses its answer id, and the message of the answer stays. */
  lemma OnlyCancelsOverwrite(cfg: Config, steps: seq<Step>, step: Step, i: nat)
    requires OverwritesAnswer(cfg, Run(cfg, INITIAL, steps), step, i)
    ensures step.action == WriteCancel
    ensures var s := Run(cfg, INITIAL, steps);
      var copy := s.processes[step.pid].phase.row;
      var r := Apply(cfg, s, step).tables.runs[i];
      copy.status == Running && r == copy.(status := Cancelled) && r.assistantMessage == None
        && !AnswerFree(s.tables, r.identity)
  {
    hide StatusWrite, Advance;
    var s := Run(cfg, INITIAL, steps);
    var p := s.processes[step.pid];
    ReachableStatuses(cfg, steps);
    assert PhaseOk(s.tables, p.request, p.phase, cfg.memory.Keep()) && PhaseStatusOk(s.tables, p.phase);
    OverwriteIsCancel(cfg, s.tables, p.request, p.phase, step.action, i);
    ReachableAccount(cfg, steps, i);
    ActTables(cfg, s, step.pid, step.action);
  }

  // ---------------------------------------------------------------- serialised units of work

  /** A status write of a serialised system finds the row that was read. */
  lemma SerialisedFindsCopy(cfg: Config, t: Tables, q: Request, phase: Phase, action: Action)
    requires cfg.serialised && PhaseOk(t, q, phase, cfg.memory.Keep()) && StatusWrite(cfg, t, phase, action).Some?
    ensures Current(t, StatusWrite(cfg, t, phase, action).value) == ReadCopy(phase)
  {
    match action
    case WriteAnswer(_) =>
    case WriteFailure =>
    case WriteCancel =>
  }

  lemma SerialisedFindsRunning(cfg: Config, steps: seq<Step>, step: Step)
    requires cfg.serialised
    ensures !FindsEnded(cfg, Run(cfg, INITIAL, steps), step)
  {
    var s := Run(cfg, INITIAL, steps);
    if Saves(cfg, s, step).Some? {
      var p := s.processes[step.pid];
      ReachableInv(cfg, steps);
      assert PhaseOk(s.tables, p.request, p.phase, cfg.memory.Keep());
      SerialisedFindsCopy(cfg, s.tables, p.request, p.phase, step.action);
      WriteChangesTerminalIff(cfg, steps, step.pid, step.action);
    }
  }

  /** With serialised units of work a run has succeeded exactly when message 2v of its turn exists. */
  lemma SucceededMeansAnswered(cfg: Config, steps: seq<Step>, i: nat)
    requires cfg.serialised && i < |Run(cfg, INITIAL, steps).tables.runs|
    ensures var t := Run(cfg, INITIAL, steps).tables;
      t.runs[i].status == Succeeded <==> !AnswerFree(t, t.runs[i].identity)
  {
    SucceededIffAnswered(cfg, steps, i);
    if Overwritten(cfg, steps, i) {
      var n :| 0 <= n < |steps| && OverwritesAnswer(cfg, StateAt(cfg, steps, n), steps[n], i);
      SerialisedFindsRunning(cfg, steps[..n], steps[n]);
      assert FindsEnded(cfg, StateAt(cfg, steps, n), steps[n]);
    }
  }

  /** With serialised units of work a terminal run never changes again, in any column. */
  lemma TerminalIsForever(cfg: Config, steps: seq<Step>, m: nat, n: nat)
    requires cfg.serialised && m <= n <= |steps|
    ensures TerminalKept(StateAt(cfg, steps, m).tables, StateAt(cfg, steps, n).tables)
  {
    forall k | 0 <= k < n
      ensures !FindsEnded(cfg, StateAt(cfg, steps, k), steps[k])
    {
      SerialisedFindsRunning(cfg, steps[..k], steps[k]);
    }
    TerminalKeptSince(cfg, steps, m, n);
  }
}
