// The invariant of the protocol and the proof that every step of every process keeps it.
module Invariants {
  import opened Entities
  import opened Tables
  import opened Conversations
  import opened Memory
  import opened Logs
  import Text

  // ---------------------------------------------------------------- the rows

  /** The message is the question of this run, as its fingerprint has it. */
  predicate IsQuestionOf(m: Message, run: RunIdentity) {
    m.tenant == run.tenant && m.conversation == run.conversation && m.sequence == 2 * run.expectedVersion + 1
    && m.role == User && Text.Strip(m.content) == run.fingerprint.content
  }

  predicate HasQuestion(messages: seq<Message>, id: Id, run: RunIdentity) {
    exists i :: 0 <= i < |messages| && messages[i].id == id && IsQuestionOf(messages[i], run)
  }

  predicate HasRun(runs: seq<RunRow>, identity: RunIdentity) {
    exists i :: 0 <= i < |runs| && runs[i].identity == identity
  }

  predicate Belongs(t: Tables, tenant: Id, conversation: Id) {
    conversation in t.conversations && t.conversations[conversation].tenant == tenant
  }

  predicate MessageRowsOk(t: Tables) {
    && (forall i :: 0 <= i < |t.messages| ==> Belongs(t, t.messages[i].tenant, t.messages[i].conversation))
    && (forall i, j :: 0 <= i < j < |t.messages| ==> t.messages[i].id != t.messages[j].id)
  }

  predicate RunRowOk(t: Tables, r: RunRow) {
    && Belongs(t, r.identity.tenant, r.identity.conversation)
    && r.identity.fingerprint.conversation == r.identity.conversation
    && r.userMessage.Some?
    && HasQuestion(t.messages, r.userMessage.value, r.identity)
  }

  predicate RunRowsOk(t: Tables) {
    && (forall i :: 0 <= i < |t.runs| ==> RunRowOk(t, t.runs[i]))
    && (forall i, j :: 0 <= i < j < |t.runs| ==>
      t.runs[i].identity.id != t.runs[j].identity.id
      && !(t.runs[i].identity.tenant == t.runs[j].identity.tenant && t.runs[i].identity.key == t.runs[j].identity.key))
  }

  predicate SummaryRowsOk(t: Tables) {
    forall i :: 0 <= i < |t.summaries| ==> Belongs(t, t.summaries[i].tenant, t.summaries[i].conversation)
  }

  /** The covered sequence of the summary before version `version`. */
  function CoveredBefore(rows: seq<Summary>, version: nat): nat
    requires version <= |rows| + 1
  {
    if version <= 1 then 0 else rows[version - 2].coveredThrough
  }

  function TextBefore(rows: seq<Summary>, version: nat): string
    requires version <= |rows| + 1
  {
    if version <= 1 then "" else rows[version - 2].text
  }

  /** The part of the log that a summary adds to the coverage. */
  function Added(log: seq<Message>, prior: nat, covered: nat): seq<Message>
    requires |UpTo(log, prior)| <= |UpTo(log, covered)|
  {
    UpTo(log, covered)[|UpTo(log, prior)|..]
  }

  predicate IsSuffix<T(==)>(s: seq<T>, whole: seq<T>) {
    |s| <= |whole| && s == whole[|whole| - |s|..]
  }

  /** How many of this many uncovered messages a listing holds. */
  function Listed(uncovered: nat): nat {
    if uncovered <= LISTING_LIMIT then uncovered else LISTING_LIMIT
  }

  /** A summary built on coverage `prior` and text `text`: it moves the coverage forward to the
      sequence of a message, `keep` messages before the end of the log as it was listed, and its
      model call saw the newest part of what it adds, as far as the listing went. */
  predicate EntryOk(log: seq<Message>, prior: nat, text: string, s: Summary, keep: nat) {
    && |UpTo(log, prior)| < |UpTo(log, s.coveredThrough)|
    && prior < s.coveredThrough
    && HasSequence(log, s.coveredThrough)
    && s.origin.messages != []
    && IsSuffix(s.origin.messages, Added(log, prior, s.coveredThrough))
    && |UpTo(log, s.coveredThrough)| + keep == |UpTo(log, prior)| + s.origin.uncovered
    && |s.origin.messages| + keep == Listed(s.origin.uncovered)
    && s.origin.prior == text
    && |WhereAfter(log, s.coveredThrough)| >= keep
  }

  predicate ChainEntryOk(log: seq<Message>, rows: seq<Summary>, k: nat, keep: nat)
    requires k < |rows|
  {
    rows[k].sourceVersion == k + 1 && EntryOk(log, CoveredBefore(rows, k + 1), TextBefore(rows, k + 1), rows[k], keep)
  }

  /** The stored summaries of a conversation: versions 1, 2, 3, ..., each built on the one before. */
  predicate ChainOk(log: seq<Message>, rows: seq<Summary>, keep: nat) {
    forall k :: 0 <= k < |rows| ==> ChainEntryOk(log, rows, k, keep)
  }

  /** One conversation: its log, its version, its runs and its summaries. */
  predicate HistoryOk(log: seq<Message>, version: nat, runs: seq<RunRow>, rows: seq<Summary>, keep: nat) {
    && TurnLog(log, version)
    && RunsInOrder(runs, version)
    && ChainOk(log, rows, keep)
  }

  predicate ConversationOk(t: Tables, c: Id, keep: nat)
    requires c in t.conversations
  {
    HistoryOk(Log(t.messages, c), t.conversations[c].version, RunsOf(t.runs, c), SummariesOf(t.summaries, c), keep)
  }

  predicate TablesOk(t: Tables, keep: nat) {
    && MessageRowsOk(t)
    && RunRowsOk(t)
    && SummaryRowsOk(t)
    && (forall c {:trigger ConversationOk(t, c, keep)} :: c in t.conversations ==> ConversationOk(t, c, keep))
  }

  /** What no step undoes: conversations stay and their versions grow, messages and summaries are
      only appended, and of a run only status, error, token and answer change. */
  predicate Extends(t: Tables, t': Tables) {
    && (forall c :: c in t.conversations ==>
      c in t'.conversations && t'.conversations[c].tenant == t.conversations[c].tenant
      && t'.conversations[c].owner == t.conversations[c].owner
        && t.conversations[c].version <= t'.conversations[c].version)
    && t.messages <= t'.messages
    && |t.runs| <= |t'.runs|
    && (forall i :: 0 <= i < |t.runs| ==>
      t'.runs[i].identity == t.runs[i].identity && t'.runs[i].userMessage == t.runs[i].userMessage)
    && t.summaries <= t'.summaries
  }

  lemma ExtendsTransitive(a: Tables, b: Tables, c: Tables)
    requires Extends(a, b) && Extends(b, c)
    ensures Extends(a, c)
  {
    assert forall i :: 0 <= i < |a.runs| ==> c.runs[i].identity == b.runs[i].identity;
  }

  // ---------------------------------------------------------------- changes of the rows

  /** A run row stays sound when the rest of the tables grows and its own status changes. */
  lemma RunRowStable(t: Tables, t': Tables, r: RunRow, r': RunRow)
    requires Extends(t, t') && RunRowOk(t, r) && r'.identity == r.identity && r'.userMessage == r.userMessage
    ensures RunRowOk(t', r')
  {
    var i :| 0 <= i < |t.messages| && t.messages[i].id == r.userMessage.value
      && IsQuestionOf(t.messages[i], r.identity);
    assert t'.messages[i] == t.messages[i];
  }

  lemma RunRowsStable(t: Tables, t': Tables)
    requires Extends(t, t') && RunRowsOk(t) && |t'.runs| == |t.runs|
    ensures RunRowsOk(t')
  {
    forall i | 0 <= i < |t'.runs|
      ensures RunRowOk(t', t'.runs[i])
    {
      RunRowStable(t, t', t.runs[i], t'.runs[i]);
    }
  }

  lemma MessageRowsStable(t: Tables, t': Tables)
    requires Extends(t, t') && MessageRowsOk(t) && t'.messages == t.messages
    ensures MessageRowsOk(t')
  {
  }

  lemma SummaryRowsStable(t: Tables, t': Tables)
    requires Extends(t, t') && SummaryRowsOk(t) && t'.summaries == t.summaries
    ensures SummaryRowsOk(t')
  {
  }

  /** Adding messages with greater sequences keeps a summary entry as it is. */
  lemma EntryStable(log: seq<Message>, later: seq<Message>, prior: nat, text: string, s: Summary, keep: nat)
    requires EntryOk(log, prior, text, s, keep) && Increasing(log + later)
    ensures EntryOk(log + later, prior, text, s, keep)
  {
    assert Increasing(log) by {
      assert forall i :: 0 <= i < |log| ==> (log + later)[i] == log[i];
    }
    var k :| 0 <= k < |log| && log[k].sequence == s.coveredThrough;
    UpToIsStable(log, later, s.coveredThrough);
    UpToIsStable(log, later, prior);
    assert (log + later)[k].sequence == s.coveredThrough;
    CoveredThenUncovered(log, s.coveredThrough);
    CoveredThenUncovered(log + later, s.coveredThrough);
    assert |UpTo(log, s.coveredThrough)| + |WhereAfter(log, s.coveredThrough)| == |log|;
    assert |UpTo(log + later, s.coveredThrough)| + |WhereAfter(log + later, s.coveredThrough)| == |log + later|;
  }

  lemma ChainStable(log: seq<Message>, later: seq<Message>, rows: seq<Summary>, keep: nat)
    requires ChainOk(log, rows, keep) && Increasing(log + later)
    ensures ChainOk(log + later, rows, keep)
  {
    forall k | 0 <= k < |rows|
      ensures ChainEntryOk(log + later, rows, k, keep)
    {
      assert ChainEntryOk(log, rows, k, keep);
      EntryStable(log, later, CoveredBefore(rows, k + 1), TextBefore(rows, k + 1), rows[k], keep);
    }
  }

  lemma EmptyLogs(t: Tables, c: Id, keep: nat)
    requires TablesOk(t, keep) && c !in t.conversations
    ensures Log(t.messages, c) == [] && RunsOf(t.runs, c) == [] && SummariesOf(t.summaries, c) == []
  {
    hide ConversationOk, HasQuestion;
    if Log(t.messages, c) != [] {
      LogOnly(t.messages, c, Log(t.messages, c)[0]);
    }
    if SummariesOf(t.summaries, c) != [] {
      SummariesOnly(t.summaries, c, SummariesOf(t.summaries, c)[0]);
    }
    NoRuns(t.runs, c);
  }

  lemma {:induction false} NoRuns(runs: seq<RunRow>, c: Id)
    requires forall i :: 0 <= i < |runs| ==> runs[i].identity.conversation != c
    ensures RunsOf(runs, c) == []
  {
    if runs != [] {
      NoRuns(runs[..|runs| - 1], c);
    }
  }

  lemma CreateKeeps(t: Tables, id: Id, tenant: Id, owner: Id, keep: nat)
    requires TablesOk(t, keep) && id !in t.conversations
    ensures var t' := t.(conversations := t.conversations[id := Conversation(tenant, owner, 0)]);
      TablesOk(t', keep) && Extends(t, t')
  {
    var t' := t.(conversations := t.conversations[id := Conversation(tenant, owner, 0)]);
    EmptyLogs(t, id, keep);
    assert Extends(t, t');
    RunRowsStable(t, t');
    MessageRowsStable(t, t');
    SummaryRowsStable(t, t');
    forall c | c in t'.conversations
      ensures ConversationOk(t', c, keep)
    {
      if c != id {
        assert ConversationOk(t, c, keep);
      }
    }
  }

  /** The writes of the preparation. */
  lemma TurnKeeps(t: Tables, q: Request, version: nat, messageId: Id, runId: Id, token: nat, keep: nat)
    requires TablesOk(t, keep) && PrepareInsert(t, q, version, messageId, runId, token).1.Ok?
    ensures var t' := PrepareInsert(t, q, version, messageId, runId, token).0;
      TablesOk(t', keep) && Extends(t, t')
  {
    var m := UserMessage(q, version, messageId);
    var run := NewRun(q, version, runId, token, messageId);
    TurnExtends(t, m, run);
    TurnRowsKeep(t, m, run, keep);
  }

  lemma TurnExtends(t: Tables, m: Message, run: RunRow)
    requires m.conversation in t.conversations
    ensures Extends(t, WithTurn(t, t.conversations[m.conversation].version, m, run))
  {
  }

  lemma TurnRowsKeep(t: Tables, m: Message, run: RunRow, keep: nat)
    requires TablesOk(t, keep) && Belongs(t, m.tenant, m.conversation)
    requires MessageFits(t.messages, m) && RunFits(t.runs, run.identity)
    requires m.conversation == run.identity.conversation && m.tenant == run.identity.tenant
    requires run.identity.expectedVersion == t.conversations[m.conversation].version
    requires IsQuestion(m, t.conversations[m.conversation].version + 1)
    requires run.userMessage == Some(m.id) && run.identity.fingerprint.conversation == run.identity.conversation
    requires Text.Strip(m.content) == run.identity.fingerprint.content
    ensures TablesOk(WithTurn(t, t.conversations[m.conversation].version, m, run), keep)
  {
    var t' := WithTurn(t, t.conversations[m.conversation].version, m, run);
    TurnExtends(t, m, run);
    SummaryRowsStable(t, t');
    NewRowsOk(t, t', m, run);
    TurnKeepsConversations(t, t', m, run, keep);
  }

  lemma TurnKeepsConversations(t: Tables, t': Tables, m: Message, run: RunRow, keep: nat)
    requires TablesOk(t, keep) && m.conversation in t.conversations && run.identity.conversation == m.conversation
    requires run.identity.expectedVersion == t.conversations[m.conversation].version
    requires IsQuestion(m, t.conversations[m.conversation].version + 1)
    requires t' == WithTurn(t, t.conversations[m.conversation].version, m, run)
    ensures forall c :: c in t'.conversations ==> ConversationOk(t', c, keep)
  {
    forall c | c in t'.conversations
      ensures ConversationOk(t', c, keep)
    {
      assert ConversationOk(t, c, keep);
      TurnKeepsConversation(t, t', c, m, run, keep);
    }
  }

  lemma NewRowsOk(t: Tables, t': Tables, m: Message, run: RunRow)
    requires Extends(t, t') && MessageRowsOk(t) && RunRowsOk(t)
    requires t'.messages == t.messages + [m] && MessageFits(t.messages, m)
    requires t'.runs == t.runs + [run] && RunFits(t.runs, run.identity)
    requires Belongs(t', m.tenant, m.conversation)
    requires m.role == User && m.tenant == run.identity.tenant && m.conversation == run.identity.conversation
    requires m.sequence == 2 * run.identity.expectedVersion + 1 && run.userMessage == Some(m.id)
    requires run.identity.fingerprint.conversation == run.identity.conversation
    requires Text.Strip(m.content) == run.identity.fingerprint.content
    ensures MessageRowsOk(t') && RunRowsOk(t')
  {
    forall i | 0 <= i < |t'.runs|
      ensures RunRowOk(t', t'.runs[i])
    {
      if i < |t.runs| {
        RunRowStable(t, t', t.runs[i], t'.runs[i]);
      } else {
        assert t'.messages[|t.messages|] == m;
      }
    }
  }

  lemma TurnKeepsConversation(t: Tables, t': Tables, c: Id, m: Message, run: RunRow, keep: nat)
    requires c in t.conversations && m.conversation in t.conversations && ConversationOk(t, c, keep)
    requires run.identity.conversation == m.conversation
    requires run.identity.expectedVersion == t.conversations[m.conversation].version
    requires IsQuestion(m, t.conversations[m.conversation].version + 1)
    requires t' == WithTurn(t, t.conversations[m.conversation].version, m, run)
    ensures ConversationOk(t', c, keep)
  {
    LogAppend(t.messages, m, c);
    RunsAppend(t.runs, run, c);
    if c == m.conversation {
      AskKeeps(Log(t.messages, c), t.conversations[c].version, RunsOf(t.runs, c), SummariesOf(t.summaries, c), m, run,
               keep);
    }
  }

  lemma AskKeeps(log: seq<Message>, version: nat, runs: seq<RunRow>, rows: seq<Summary>, m: Message, run: RunRow,
                 keep: nat)
    requires HistoryOk(log, version, runs, rows, keep)
    requires IsQuestion(m, version + 1) && run.identity.expectedVersion == version
    ensures HistoryOk(log + [m], version + 1, runs + [run], rows, keep)
  {
    AskExtends(log, version, m);
    TurnLogShape(log + [m], version + 1);
    ChainStable(log, [m], rows, keep);
  }

  lemma ReplyKeeps(log: seq<Message>, version: nat, runs: seq<RunRow>, rows: seq<Summary>, m: Message, keep: nat)
    requires HistoryOk(log, version, runs, rows, keep)
    requires version > 0 && IsAnswer(m, version) && !HasSequence(log, 2 * version)
    ensures HistoryOk(log + [m], version, runs, rows, keep)
  {
    AnswerExtends(log, version, m);
    TurnLogShape(log + [m], version);
    ChainStable(log, [m], rows, keep);
  }

  /** Adding the answer of the current turn. */
  lemma AnswerKeeps(t: Tables, m: Message, keep: nat)
    requires TablesOk(t, keep) && MessageFits(t.messages, m)
    requires Belongs(t, m.tenant, m.conversation)
    requires t.conversations[m.conversation].version > 0 && IsAnswer(m, t.conversations[m.conversation].version)
    ensures TablesOk(WithMessage(t, m), keep) && Extends(t, WithMessage(t, m))
  {
    hide ConversationOk, HasQuestion;
    var t' := WithMessage(t, m);
    assert Extends(t, t');
    RunRowsStable(t, t');
    SummaryRowsStable(t, t');
    forall c | c in t'.conversations
      ensures ConversationOk(t', c, keep)
    {
      AnswerKeepsConversation(t, c, m, keep);
    }
  }

  lemma AnswerKeepsConversation(t: Tables, c: Id, m: Message, keep: nat)
    requires c in t.conversations && m.conversation in t.conversations && ConversationOk(t, c, keep)
    requires t.conversations[m.conversation].version > 0 && IsAnswer(m, t.conversations[m.conversation].version)
    requires MessageFits(t.messages, m)
    ensures ConversationOk(WithMessage(t, m), c, keep)
  {
    LogAppend(t.messages, m, c);
    if c == m.conversation {
      var version := t.conversations[c].version;
      NotInLog(t.messages, c, 2 * version);
      ReplyKeeps(Log(t.messages, c), version, RunsOf(t.runs, c), SummariesOf(t.summaries, c), m, keep);
    }
  }

  /** No row of the conversation has this sequence. */
  predicate SequenceFree(messages: seq<Message>, c: Id, sequence: nat) {
    forall i :: 0 <= i < |messages| ==> !(messages[i].conversation == c && messages[i].sequence == sequence)
  }

  lemma NotInLog(messages: seq<Message>, c: Id, sequence: nat)
    requires SequenceFree(messages, c, sequence)
    ensures !HasSequence(Log(messages, c), sequence)
  {
    var log := Log(messages, c);
    forall i | 0 <= i < |log|
      ensures log[i].sequence != sequence
    {
      LogOnly(messages, c, log[i]);
    }
  }

  /** Saving a run that kept its user message. */
  lemma SaveKeeps(t: Tables, row: RunRow, keep: nat)
    requires TablesOk(t, keep)
    requires var i := FindRun(t.runs, row.identity.tenant, row.identity.id);
      i.Some? ==> t.runs[i.value].userMessage == row.userMessage
    ensures TablesOk(WithSaved(t, row), keep) && Extends(t, WithSaved(t, row))
  {
    hide ConversationOk, HasQuestion;
    var t' := WithSaved(t, row);
    assert Extends(t, t');
    RunRowsStable(t, t');
    MessageRowsStable(t, t');
    SummaryRowsStable(t, t');
    SaveKeepsConversations(t, t', keep);
  }

  lemma SaveKeepsConversations(t: Tables, t': Tables, keep: nat)
    requires forall c :: c in t.conversations ==> ConversationOk(t, c, keep)
    requires t' == t.(runs := t'.runs) && |t'.runs| == |t.runs|
    requires forall i :: 0 <= i < |t.runs| ==> t'.runs[i].identity == t.runs[i].identity
    ensures forall c :: c in t'.conversations ==> ConversationOk(t', c, keep)
  {
    forall c | c in t'.conversations
      ensures ConversationOk(t', c, keep)
    {
      assert ConversationOk(t, c, keep);
      RunsSameIdentities(t.runs, t'.runs, c);
    }
  }

  /** The summary continues the chain of its conversation. */
  predicate Continues(t: Tables, s: Summary, keep: nat) {
    var rows := SummariesOf(t.summaries, s.conversation);
    s.sourceVersion == |rows| + 1
    && EntryOk(Log(t.messages, s.conversation), CoveredBefore(rows, s.sourceVersion), TextBefore(rows, s.sourceVersion),
               s, keep)
  }

  /** Storing the next summary of a conversation. */
  lemma SummaryKeeps(t: Tables, s: Summary, keep: nat)
    requires TablesOk(t, keep) && Belongs(t, s.tenant, s.conversation) && Continues(t, s, keep)
    ensures TablesOk(WithSummary(t, s), keep) && Extends(t, WithSummary(t, s))
  {
    var t' := WithSummary(t, s);
    assert Extends(t, t');
    RunRowsStable(t, t');
    MessageRowsStable(t, t');
    SummaryKeepsConversations(t, s, keep);
  }

  lemma SummaryKeepsConversations(t: Tables, s: Summary, keep: nat)
    requires forall c :: c in t.conversations ==> ConversationOk(t, c, keep)
    requires s.conversation in t.conversations && Continues(t, s, keep)
    ensures forall c :: c in t.conversations ==> ConversationOk(WithSummary(t, s), c, keep)
  {
    forall c | c in t.conversations
      ensures ConversationOk(WithSummary(t, s), c, keep)
    {
      assert ConversationOk(t, c, keep);
      SummariesAppend(t.summaries, s, c);
      if c == s.conversation {
        ChainExtends(Log(t.messages, c), SummariesOf(t.summaries, c), s, keep);
      }
    }
  }

  lemma ChainExtends(log: seq<Message>, rows: seq<Summary>, s: Summary, keep: nat)
    requires ChainOk(log, rows, keep) && s.sourceVersion == |rows| + 1
    requires EntryOk(log, CoveredBefore(rows, s.sourceVersion), TextBefore(rows, s.sourceVersion), s, keep)
    ensures ChainOk(log, rows + [s], keep)
  {
    forall k | 0 <= k < |rows + [s]|
      ensures ChainEntryOk(log, rows + [s], k, keep)
    {
      if k < |rows| {
        assert ChainEntryOk(log, rows, k, keep);
        SameBefore(rows, s, k);
      } else {
        SameBefore(rows, s, k);
      }
    }
  }

  lemma SameBefore(rows: seq<Summary>, s: Summary, k: nat)
    requires k <= |rows|
    ensures CoveredBefore(rows + [s], k + 1) == CoveredBefore(rows, k + 1)
    ensures TextBefore(rows + [s], k + 1) == TextBefore(rows, k + 1)
  {
  }
}
