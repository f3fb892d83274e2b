// Append order and the refinement of the message table to a sequential turn log. No lease and
// no serialisation is assumed.
module TurnOrder {
  import opened Entities
  import opened Tables
  import opened Conversations
  import opened Logs
  import opened Protocol
  import opened Invariants
  import opened Safety

  /** Every committed message has a sequence strictly above all earlier ones of its conversation. */
  lemma AppendOrder(cfg: Config, steps: seq<Step>, i: nat, j: nat)
    requires var ms := Run(cfg, INITIAL, steps).tables.messages;
      i < j < |ms| && ms[i].conversation == ms[j].conversation
    ensures var ms := Run(cfg, INITIAL, steps).tables.messages; ms[i].sequence < ms[j].sequence
  {
    ReachableInv(cfg, steps);
    var t := Run(cfg, INITIAL, steps).tables;
    var c := t.messages[i].conversation;
    assert Belongs(t, t.messages[i].tenant, c);
    assert ConversationOk(t, c, cfg.memory.Keep());
    TurnLogShape(Log(t.messages, c), t.conversations[c].version);
    LogOrderIsTableOrder(t.messages, i, j);
  }

  predicate IdTaken(messages: seq<Message>, id: Id) {
    exists i :: 0 <= i < |messages| && messages[i].id == id
  }

  /** The (conversation, sequence) constraint never refuses a question: only a repeated primary key can. */
  lemma QuestionSequenceIsFree(cfg: Config, steps: seq<Step>, q: Request, version: nat, messageId: Id, runId: Id,
                               token: nat)
    requires PrepareInsert(Run(cfg, INITIAL, steps).tables, q, version, messageId, runId, token).1
      == Err(IntegrityError)
    ensures IdTaken(Run(cfg, INITIAL, steps).tables.messages, messageId)
  {
    ReachableInv(cfg, steps);
    var t := Run(cfg, INITIAL, steps).tables;
    AboveIsFree(t, q.conversation, 2 * version + 1, cfg.memory.Keep());
    TakenUnlessFits(t.messages, UserMessage(q, version, messageId));
  }

  /** The (conversation, sequence) constraint never refuses an answer either. */
  lemma AnswerSequenceIsFree(cfg: Config, steps: seq<Step>, pid: nat, messageId: Id)
    requires var s := Run(cfg, INITIAL, steps);
      pid in s.processes && s.processes[pid].phase.AnswerRead?
      && Finalise(s.tables, s.processes[pid].phase.seen, s.processes[pid].phase.run, s.processes[pid].phase.answer,
                  messageId).1
         == Err(IntegrityError)
    ensures IdTaken(Run(cfg, INITIAL, steps).tables.messages, messageId)
  {
    ReachableInv(cfg, steps);
    var s := Run(cfg, INITIAL, steps);
    var phase := s.processes[pid].phase;
    assert PhaseOk(s.tables, s.processes[pid].request, phase, cfg.memory.Keep());
    TakenUnlessFits(s.tables.messages, AssistantMessage(phase.run, phase.answer, messageId));
  }

  lemma TakenUnlessFits(messages: seq<Message>, m: Message)
    requires !MessageFits(messages, m) && SequenceFree(messages, m.conversation, m.sequence)
    ensures IdTaken(messages, m.id)
  {
    var i :| 0 <= i < |messages|
      && !(messages[i].id != m.id
        && !(messages[i].conversation == m.conversation && messages[i].sequence == m.sequence));
    assert messages[i].id == m.id;
  }

  /** A run that has no answer when another request bumps the version never gets one, whatever
      its process and the lease do afterwards. */
  lemma OvertakenRunNeverAnswers(cfg: Config, steps: seq<Step>, more: seq<Step>, run: RunIdentity)
    requires var t := Run(cfg, INITIAL, steps).tables;
      HasRun(t.runs, run) && AnswerFree(t, run)
      && run.conversation in t.conversations && t.conversations[run.conversation].version > run.expectedVersion + 1
    ensures AnswerFree(Run(cfg, INITIAL, steps + more).tables, run)
  {
    var s := Run(cfg, INITIAL, steps);
    ReachableInv(cfg, steps);
    RunConcat(cfg, INITIAL, steps, more);
    RunKeepsInv(cfg, s, more);
    LaterIsHigher(s.tables, Run(cfg, s, more).tables, run.conversation, 2 * (run.expectedVersion + 1),
                  cfg.memory.Keep());
  }

  /** Between two sound states only sequences from the current turn on are added. */
  lemma LaterIsHigher(t: Tables, t': Tables, c: Id, sequence: nat, keep: nat)
    requires TablesOk(t, keep) && TablesOk(t', keep) && Extends(t, t')
    requires c in t.conversations && sequence < 2 * t.conversations[c].version - 1
    requires SequenceFree(t.messages, c, sequence)
    ensures SequenceFree(t'.messages, c, sequence)
  {
    var k := LastOfLog(t, c, keep);
    assert ConversationOk(t', c, keep);
    TurnLogShape(Log(t'.messages, c), t'.conversations[c].version);
    assert t'.messages[k] == t.messages[k];
    forall i | 0 <= i < |t'.messages| && t'.messages[i].conversation == c
      ensures t'.messages[i].sequence != sequence
    {
      if i < |t.messages| {
        assert t'.messages[i] == t.messages[i];
      } else {
        LogOrderIsTableOrder(t'.messages, k, i);
      }
    }
  }

  lemma LastOfLog(t: Tables, c: Id, keep: nat) returns (k: nat)
    requires TablesOk(t, keep) && c in t.conversations && t.conversations[c].version > 0
    ensures k < |t.messages| && t.messages[k].conversation == c
    ensures t.messages[k].sequence >= 2 * t.conversations[c].version - 1
  {
    var log := Log(t.messages, c);
    assert ConversationOk(t, c, keep);
    TurnLogShape(log, t.conversations[c].version);
    LogOnly(t.messages, c, log[|log| - 1]);
    k :| 0 <= k < |t.messages| && t.messages[k] == log[|log| - 1];
  }

  // ---------------------------------------------------------------- refinement

  /** One turn of the abstract conversation. */
  datatype Turn = Turn(question: Message, answer: Option<Message>)

  /** The turns of a log: an assistant message answers the message right before it. */
  function Turns(log: seq<Message>): seq<Turn> {
    var n := |log|;
    if n == 0 then []
    else if log[n - 1].role == Assistant && n >= 2 then Turns(log[..n - 2]) + [Turn(log[n - 2], Some(log[n - 1]))]
    else Turns(log[..n - 1]) + [Turn(log[n - 1], None)]
  }

  function Flatten(turns: seq<Turn>): seq<Message> {
    if turns == [] then []
    else
      var last := turns[|turns| - 1];
      Flatten(turns[..|turns| - 1]) + [last.question] + if last.answer.Some? then [last.answer.value] else []
  }

  predicate TurnOk(turn: Turn, number: nat) {
    IsQuestion(turn.question, number) && (turn.answer.Some? ==> IsAnswer(turn.answer.value, number))
  }

  lemma FlattenAppend(turns: seq<Turn>, turn: Turn)
    ensures Flatten(turns + [turn])
         == Flatten(turns) + [turn.question] + if turn.answer.Some? then [turn.answer.value] else []
  {
    assert (turns + [turn])[..|turns|] == turns;
  }

  /** The log consists of exactly `version` turns, turn v made of the messages 2v - 1 and 2v. */
  predicate Decomposes(log: seq<Message>, version: nat) {
    && |Turns(log)| == version && Flatten(Turns(log)) == log
    && forall k :: 0 <= k < version ==> TurnOk(Turns(log)[k], k + 1)
  }

  lemma DecomposeQuestion(log: seq<Message>, q: Message, version: nat)
    requires Decomposes(log, version) && IsQuestion(q, version + 1)
    ensures Decomposes(log + [q], version + 1)
  {
    assert (log + [q])[..|log|] == log;
    FlattenAppend(Turns(log), Turn(q, None));
  }

  lemma DecomposeAnswered(log: seq<Message>, q: Message, a: Message, version: nat)
    requires Decomposes(log, version) && IsQuestion(q, version + 1) && IsAnswer(a, version + 1)
    ensures Decomposes(log + [q, a], version + 1)
  {
    var log' := log + [q, a];
    assert log'[..|log|] == log && log'[|log|] == q && log'[|log| + 1] == a;
    FlattenAppend(Turns(log), Turn(q, Some(a)));
    assert Turns(log') == Turns(log) + [Turn(q, Some(a))];
    assert log + [q] + [a] == log';
  }

  /** A turn log is exactly the messages of its turns, one turn per version. */
  lemma {:induction false} TurnsOfLog(log: seq<Message>, version: nat)
    requires TurnLog(log, version)
    ensures Decomposes(log, version)
    decreases version
  {
    var n := |log|;
    if version > 0 {
      if IsQuestion(log[n - 1], version) && TurnLog(log[..n - 1], version - 1) {
        TurnsOfLog(log[..n - 1], version - 1);
        DecomposeQuestion(log[..n - 1], log[n - 1], version - 1);
        assert log == log[..n - 1] + [log[n - 1]];
      } else {
        TurnsOfLog(log[..n - 2], version - 1);
        DecomposeAnswered(log[..n - 2], log[n - 2], log[n - 1], version - 1);
        assert log == log[..n - 2] + [log[n - 2], log[n - 1]];
      }
    }
  }

  /** The sequential specification: nothing happens, a question opens a turn, or the last turn,
      while it is open, gets its answer. */
  predicate TurnStep(before: seq<Turn>, after: seq<Turn>) {
    || after == before
    || (|after| == |before| + 1 && after[..|before|] == before && after[|before|].answer == None)
    || (|after| == |before| > 0
        && after[..|before| - 1] == before[..|before| - 1]
        && before[|before| - 1].answer == None
        && after[|before| - 1].answer.Some?
        && after[|before| - 1].question == before[|before| - 1].question)
  }

  lemma AddedMessageRefines(log: seq<Message>, m: Message, version: nat, version': nat)
    requires TurnLog(log, version) && TurnLog(log + [m], version') && version <= version' <= version + 1
    ensures TurnStep(Turns(log), Turns(log + [m]))
  {
    var n := |log|;
    var log' := log + [m];
    assert log'[..n] == log;
    TurnLogShape(log, version);
    if !(IsQuestion(m, version') && TurnLog(log'[..n], version' - 1)) {
      assert log'[..n - 1] == log[..n - 1];
      assert log'[n - 1] == log[n - 1];
      assert Turns(log') == Turns(log[..n - 1]) + [Turn(log[n - 1], Some(m))];
      assert Turns(log) == Turns(log[..n - 1]) + [Turn(log[n - 1], None)];
    }
  }

  /** How one step changes the messages: not at all, or by one more row. */
  lemma StepAddsAtMostOne(cfg: Config, s: State, step: Step) returns (added: seq<Message>)
    ensures |added| <= 1 && Apply(cfg, s, step).tables.messages == s.tables.messages + added
  {
    added := Apply(cfg, s, step).tables.messages[|s.tables.messages|..];
    if step.Act? && step.pid in s.processes {
      var p := s.processes[step.pid];
      AdvanceMessages(cfg, s.tables, p.request, p.phase, step.action);
    }
  }

  lemma VersionGrowsByOne(cfg: Config, s: State, step: Step, c: Id)
    requires c in s.tables.conversations
    ensures var s' := Apply(cfg, s, step);
      c in s'.tables.conversations
      && s.tables.conversations[c].version <= s'.tables.conversations[c].version
        <= s.tables.conversations[c].version + 1
  {
    if step.Act? && step.pid in s.processes && step.action.Insert? {
      var p := s.processes[step.pid];
      InsertConversations(s.tables, p.request, p.phase, step.action.messageId, step.action.runId, step.action.token, c);
    }
  }

  lemma InsertConversations(t: Tables, q: Request, phase: Phase, messageId: Id, runId: Id, token: nat, c: Id)
    requires c in t.conversations
    ensures var t' := InsertStep(t, q, phase, messageId, runId, token).0;
      c in t'.conversations
        && t.conversations[c].version <= t'.conversations[c].version <= t.conversations[c].version + 1
  {
  }

  /** Each step of any process, seen from any conversation, is a step of the sequential turn log. */
  lemma StepRefinesTurnLog(cfg: Config, steps: seq<Step>, step: Step, c: Id)
    requires c in Run(cfg, INITIAL, steps).tables.conversations
    ensures TurnStep(
      Turns(Log(Run(cfg, INITIAL, steps).tables.messages, c)),
      Turns(Log(Run(cfg, INITIAL, steps + [step]).tables.messages, c)))
  {
    var s := Run(cfg, INITIAL, steps);
    assert (steps + [step])[..|steps|] == steps;
    assert Run(cfg, INITIAL, steps + [step]) == Apply(cfg, s, step);
    ReachableInv(cfg, steps);
    ReachableInv(cfg, steps + [step]);
    VersionGrowsByOne(cfg, s, step, c);
    var added := StepAddsAtMostOne(cfg, s, step);
    TablesRefine(s.tables, Apply(cfg, s, step).tables, added, c, cfg.memory.Keep());
  }

  lemma TablesRefine(t: Tables, t': Tables, added: seq<Message>, c: Id, keep: nat)
    requires TablesOk(t, keep) && TablesOk(t', keep) && t'.messages == t.messages + added && |added| <= 1
    requires c in t.conversations && c in t'.conversations
    requires t.conversations[c].version <= t'.conversations[c].version <= t.conversations[c].version + 1
    ensures TurnStep(Turns(Log(t.messages, c)), Turns(Log(t'.messages, c)))
  {
    assert ConversationOk(t, c, keep);
    assert ConversationOk(t', c, keep);
    if added != [] {
      assert added == [added[0]];
      LogAppend(t.messages, added[0], c);
      if added[0].conversation == c {
        AddedMessageRefines(Log(t.messages, c), added[0], t.conversations[c].version, t'.conversations[c].version);
      }
    } else {
      assert t'.messages == t.messages;
    }
  }

  /** The whole conversation: as many turns as versions and as runs, turn v holding the messages
      2v - 1 and 2v, and the run of turn v pointing to its question. */
  lemma ConversationIsItsTurns(cfg: Config, steps: seq<Step>, c: Id)
    requires c in Run(cfg, INITIAL, steps).tables.conversations
    ensures var t := Run(cfg, INITIAL, steps).tables;
      var turns, runs := Turns(Log(t.messages, c)), RunsOf(t.runs, c);
      && |turns| == |runs| == t.conversations[c].version
      && Flatten(turns) == Log(t.messages, c)
      && (forall v :: 0 <= v < |turns| ==> TurnOk(turns[v], v + 1))
      && (forall v :: 0 <= v < |turns| ==>
        runs[v].identity.expectedVersion == v && runs[v].userMessage == Some(turns[v].question.id))
  {
    ReachableInv(cfg, steps);
    var t := Run(cfg, INITIAL, steps).tables;
    var log, runs := Log(t.messages, c), RunsOf(t.runs, c);
    assert ConversationOk(t, c, cfg.memory.Keep());
    TurnsOfLog(log, t.conversations[c].version);
    forall v | 0 <= v < |runs|
      ensures runs[v].userMessage == Some(Turns(log)[v].question.id)
    {
      RunPointsToQuestion(t, c, v, cfg.memory.Keep());
    }
  }

  lemma {:induction false} RunsOnly(runs: seq<RunRow>, c: Id, r: RunRow)
    requires r in RunsOf(runs, c)
    ensures r in runs && r.identity.conversation == c
  {
    if runs != [] {
      var last := |runs| - 1;
      if r in RunsOf(runs[..last], c) {
        RunsOnly(runs[..last], c, r);
      }
    }
  }

  lemma {:induction false} QuestionsInLog(turns: seq<Turn>, v: nat)
    requires v < |turns|
    ensures turns[v].question in Flatten(turns)
  {
    if v < |turns| - 1 {
      QuestionsInLog(turns[..|turns| - 1], v);
    }
  }

  lemma RunPointsToQuestion(t: Tables, c: Id, v: nat, keep: nat)
    requires TablesOk(t, keep) && c in t.conversations && v < t.conversations[c].version
    ensures |RunsOf(t.runs, c)| == |Turns(Log(t.messages, c))| == t.conversations[c].version
    ensures RunsOf(t.runs, c)[v].userMessage == Some(Turns(Log(t.messages, c))[v].question.id)
  {
    var log := Log(t.messages, c);
    assert ConversationOk(t, c, keep);
    TurnsOfLog(log, t.conversations[c].version);
    TurnLogShape(log, t.conversations[c].version);
    var m := PointedMessage(t, c, v, keep);
    QuestionIs(log, Turns(log), v, m);
  }

  /** The message that the run of a turn points to. */
  lemma PointedMessage(t: Tables, c: Id, v: nat, keep: nat) returns (m: Message)
    requires TablesOk(t, keep) && c in t.conversations && v < |RunsOf(t.runs, c)|
    requires RunsOf(t.runs, c)[v].identity.expectedVersion == v
    ensures RunsOf(t.runs, c)[v].userMessage == Some(m.id) && m in Log(t.messages, c) && m.sequence == 2 * v + 1
  {
    var r := RunsOf(t.runs, c)[v];
    RunsOnly(t.runs, c, r);
    var i :| 0 <= i < |t.runs| && t.runs[i] == r;
    assert RunRowOk(t, t.runs[i]);
    var k :| 0 <= k < |t.messages| && t.messages[k].id == r.userMessage.value && t.messages[k].conversation == c
      && t.messages[k].sequence == 2 * v + 1;
    LogHolds(t.messages, c, k);
    m := t.messages[k];
  }

  lemma {:induction false} QuestionIs(log: seq<Message>, turns: seq<Turn>, v: nat, m: Message)
    requires Increasing(log) && Flatten(turns) == log && v < |turns| && TurnOk(turns[v], v + 1)
    requires m in log && m.sequence == 2 * v + 1
    ensures turns[v].question == m
  {
    QuestionsInLog(turns, v);
    var a :| 0 <= a < |log| && log[a] == m;
    var b :| 0 <= b < |log| && log[b] == turns[v].question;
  }
}
