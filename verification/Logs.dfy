// What a conversation's log looks like, and the facts about queries over such a log.
module Logs {
  import opened Entities
  import opened Tables

  predicate Increasing(log: seq<Message>) {
    forall i, j :: 0 <= i < j < |log| ==> log[i].sequence < log[j].sequence
  }

  /** The sequential turn log: for every v in 1..version one user message with sequence 2v - 1,
      directly followed by at most one assistant message with sequence 2v. */
  predicate TurnLog(log: seq<Message>, version: nat) {
    if version == 0 then log == []
    else
      var n := |log|;
      || (n >= 1 && IsQuestion(log[n - 1], version) && TurnLog(log[..n - 1], version - 1))
      || (n >= 2 && IsAnswer(log[n - 1], version) && IsQuestion(log[n - 2], version)
        && TurnLog(log[..n - 2], version - 1))
  }

  predicate IsQuestion(m: Message, turn: nat) {
    m.role == User && m.sequence == 2 * turn - 1
  }

  predicate IsAnswer(m: Message, turn: nat) {
    m.role == Assistant && m.sequence == 2 * turn
  }

  predicate HasSequence(log: seq<Message>, sequence: nat) {
    exists i :: 0 <= i < |log| && log[i].sequence == sequence
  }

  /** The part of a log up to and including sequence `covered`. */
  function UpTo(log: seq<Message>, covered: nat): seq<Message> {
    WhereBefore(log, covered + 1)
  }

  // ---------------------------------------------------------------- turn logs

  /** The sequences of a log of this version. */
  predicate TurnShape(log: seq<Message>, version: nat) {
    && Increasing(log)
    && (forall i :: 0 <= i < |log| ==> 1 <= log[i].sequence <= 2 * version)
    && (version > 0 ==> |log| > 0 && log[|log| - 1].sequence >= 2 * version - 1)
  }

  lemma ShapeAppend(log: seq<Message>, front: seq<Message>, m: Message, bound: nat)
    requires log == front + [m] && Increasing(front)
    requires (forall i :: 0 <= i < |front| ==> 1 <= front[i].sequence < m.sequence)
    requires 1 <= m.sequence <= bound
    ensures Increasing(log) && forall i :: 0 <= i < |log| ==> 1 <= log[i].sequence <= bound
  {
  }

  lemma {:induction false} TurnLogShape(log: seq<Message>, version: nat)
    requires TurnLog(log, version)
    ensures TurnShape(log, version)
    decreases version
  {
    if version > 0 {
      var n := |log|;
      if IsQuestion(log[n - 1], version) && TurnLog(log[..n - 1], version - 1) {
        TurnLogShape(log[..n - 1], version - 1);
        ShapeAppend(log, log[..n - 1], log[n - 1], 2 * version);
      } else {
        TurnLogShape(log[..n - 2], version - 1);
        ShapeAppend(log[..n - 1], log[..n - 2], log[n - 2], 2 * version - 1);
        ShapeAppend(log, log[..n - 1], log[n - 1], 2 * version);
      }
    }
  }

  lemma AskExtends(log: seq<Message>, version: nat, m: Message)
    requires TurnLog(log, version) && IsQuestion(m, version + 1)
    ensures TurnLog(log + [m], version + 1)
  {
    assert (log + [m])[..|log|] == log;
  }

  lemma AnswerExtends(log: seq<Message>, version: nat, m: Message)
    requires TurnLog(log, version) && version > 0 && IsAnswer(m, version) && !HasSequence(log, 2 * version)
    ensures TurnLog(log + [m], version)
  {
    var n := |log|;
    assert !IsAnswer(log[n - 1], version);
    assert (log + [m])[..n - 1] == log[..n - 1];
  }

  // ---------------------------------------------------------------- filters of the tables

  lemma {:induction false} LogConcat(a: seq<Message>, b: seq<Message>, c: Id)
    ensures Log(a + b, c) == Log(a, c) + Log(b, c)
  {
    if b == [] {
      assert a + b == a;
    } else {
      var last := |b| - 1;
      assert (a + b)[..|a + b| - 1] == a + b[..last];
      LogConcat(a, b[..last], c);
    }
  }

  lemma LogAppend(a: seq<Message>, m: Message, c: Id)
    ensures Log(a + [m], c) == if m.conversation == c then Log(a, c) + [m] else Log(a, c)
  {
    assert (a + [m])[..|a|] == a;
  }

  lemma {:induction false} LogHolds(messages: seq<Message>, c: Id, i: nat)
    requires i < |messages| && messages[i].conversation == c
    ensures messages[i] in Log(messages, c)
  {
    if i < |messages| - 1 {
      LogHolds(messages[..|messages| - 1], c, i);
    }
  }

  lemma {:induction false} LogOnly(messages: seq<Message>, c: Id, m: Message)
    requires m in Log(messages, c)
    ensures m in messages && m.conversation == c
  {
    if messages != [] {
      var last := |messages| - 1;
      if m in Log(messages[..last], c) {
        LogOnly(messages[..last], c, m);
      }
    }
  }

  /** Rows that are ordered in the log of their conversation are ordered in the table. */
  lemma {:induction false} LogOrderIsTableOrder(messages: seq<Message>, i: nat, j: nat)
    requires i < j < |messages| && messages[i].conversation == messages[j].conversation
    requires Increasing(Log(messages, messages[i].conversation))
    ensures messages[i].sequence < messages[j].sequence
    decreases |messages|
  {
    var c := messages[i].conversation;
    var last := |messages| - 1;
    var before := Log(messages[..last], c);
    var log := Log(messages, c);
    if j == last {
      LogHolds(messages[..last], c, i);
      var k :| 0 <= k < |before| && before[k] == messages[i];
      assert log[k] == messages[i] && log[|before|] == messages[j];
    } else {
      assert forall k :: 0 <= k < |before| ==> before[k] == log[k];
      LogOrderIsTableOrder(messages[..last], i, j);
    }
  }

  lemma RunsAppend(a: seq<RunRow>, r: RunRow, c: Id)
    ensures RunsOf(a + [r], c) == if r.identity.conversation == c then RunsOf(a, c) + [r] else RunsOf(a, c)
  {
    assert (a + [r])[..|a|] == a;
  }

  lemma {:induction false} RunsHold(runs: seq<RunRow>, c: Id, i: nat)
    requires i < |runs| && runs[i].identity.conversation == c
    ensures runs[i] in RunsOf(runs, c)
  {
    if i < |runs| - 1 {
      RunsHold(runs[..|runs| - 1], c, i);
    }
  }

  /** The runs of a conversation are numbered 0..version - 1 by the version they expected. */
  predicate RunsInOrder(runs: seq<RunRow>, version: nat) {
    |runs| == version && forall k :: 0 <= k < |runs| ==> runs[k].identity.expectedVersion == k
  }

  lemma {:induction false} RunsOrderIsTableOrder(runs: seq<RunRow>, i: nat, j: nat, version: nat)
    requires i < j < |runs| && runs[i].identity.conversation == runs[j].identity.conversation
    requires RunsInOrder(RunsOf(runs, runs[i].identity.conversation), version)
    ensures runs[i].identity.expectedVersion < runs[j].identity.expectedVersion
    decreases |runs|
  {
    var c := runs[i].identity.conversation;
    var last := |runs| - 1;
    var before := RunsOf(runs[..last], c);
    var all := RunsOf(runs, c);
    assert forall k :: 0 <= k < |before| ==> before[k] == all[k];
    if j == last {
      RunsHold(runs[..last], c, i);
      var k :| 0 <= k < |before| && before[k] == runs[i];
      assert all[k] == runs[i] && all[|before|] == runs[j];
    } else {
      RunsOrderIsTableOrder(runs[..last], i, j, |before|);
    }
  }

  /** Changing rows but not what identifies them changes no conversation's run numbering. */
  lemma {:induction false} RunsSameIdentities(a: seq<RunRow>, b: seq<RunRow>, c: Id)
    requires |a| == |b| && forall i :: 0 <= i < |a| ==> a[i].identity == b[i].identity
    ensures |RunsOf(a, c)| == |RunsOf(b, c)|
    ensures forall k :: 0 <= k < |RunsOf(a, c)| ==> RunsOf(a, c)[k].identity == RunsOf(b, c)[k].identity
  {
    if a != [] {
      RunsSameIdentities(a[..|a| - 1], b[..|b| - 1], c);
    }
  }

  lemma SummariesAppend(a: seq<Summary>, s: Summary, c: Id)
    ensures SummariesOf(a + [s], c) == if s.conversation == c then SummariesOf(a, c) + [s] else SummariesOf(a, c)
  {
    assert (a + [s])[..|a|] == a;
  }

  lemma {:induction false} SummariesConcat(a: seq<Summary>, b: seq<Summary>, c: Id)
    ensures SummariesOf(a + b, c) == SummariesOf(a, c) + SummariesOf(b, c)
  {
    if b == [] {
      assert a + b == a;
    } else {
      var last := |b| - 1;
      assert (a + b)[..|a + b| - 1] == a + b[..last];
      SummariesConcat(a, b[..last], c);
    }
  }

  lemma {:induction false} SummariesHold(summaries: seq<Summary>, c: Id, i: nat)
    requires i < |summaries| && summaries[i].conversation == c
    ensures summaries[i] in SummariesOf(summaries, c)
  {
    if i < |summaries| - 1 {
      SummariesHold(summaries[..|summaries| - 1], c, i);
    }
  }

  lemma {:induction false} SummariesOnly(summaries: seq<Summary>, c: Id, s: Summary)
    requires s in SummariesOf(summaries, c)
    ensures s in summaries && s.conversation == c
  {
    if summaries != [] {
      var last := |summaries| - 1;
      if s in SummariesOf(summaries[..last], c) {
        SummariesOnly(summaries[..last], c, s);
      }
    }
  }

  // ---------------------------------------------------------------- queries over an increasing log

  lemma {:induction false} OrderOfIncreasing(rows: seq<Message>)
    requires Increasing(rows)
    ensures OrderBySequence(rows) == rows
  {
    if rows != [] {
      OrderOfIncreasing(rows[..|rows| - 1]);
      assert rows == rows[..|rows| - 1] + [rows[|rows| - 1]];
    }
  }

  lemma {:induction false} TenantOfAll(rows: seq<Message>, tenant: Id)
    requires forall i :: 0 <= i < |rows| ==> rows[i].tenant == tenant
    ensures WhereTenant(rows, tenant) == rows
  {
    if rows != [] {
      TenantOfAll(rows[..|rows| - 1], tenant);
    }
  }

  /** `cut` separates the rows below `before` from the others. */
  predicate IsCut(log: seq<Message>, before: nat, cut: nat) {
    cut <= |log|
    && (forall i :: 0 <= i < cut ==> log[i].sequence < before)
    && (forall i :: cut <= i < |log| ==> log[i].sequence >= before)
  }

  lemma SliceOfSnoc<T>(front: seq<T>, last: T, cut: nat)
    requires cut <= |front|
    ensures (front + [last])[..cut] == front[..cut]
    ensures (front + [last])[cut..] == front[cut..] + [last]
  {
  }

  lemma CutOfFront(front: seq<Message>, last: Message, before: nat, cut: nat)
    requires IsCut(front + [last], before, cut)
    ensures if cut <= |front| then IsCut(front, before, cut) && last.sequence >= before
            else cut == |front| + 1 && IsCut(front, before, |front|) && last.sequence < before
  {
    var log := front + [last];
    assert log[|front|] == last;
    assert forall i :: 0 <= i < |front| ==> log[i] == front[i];
  }

  lemma {:induction false} BeforeCut(log: seq<Message>, before: nat, cut: nat)
    requires IsCut(log, before, cut)
    ensures WhereBefore(log, before) == log[..cut]
  {
    if log != [] {
      var front, last := log[..|log| - 1], log[|log| - 1];
      assert log == front + [last];
      CutOfFront(front, last, before, cut);
      if cut <= |front| {
        BeforeCut(front, before, cut);
        SliceOfSnoc(front, last, cut);
      } else {
        BeforeCut(front, before, |front|);
        assert front[..|front|] == front && log[..cut] == log;
      }
    }
  }

  lemma {:induction false} AfterCut(log: seq<Message>, before: nat, cut: nat)
    requires IsCut(log, before, cut) && before > 0
    ensures WhereAfter(log, before - 1) == log[cut..]
  {
    if log != [] {
      var front, last := log[..|log| - 1], log[|log| - 1];
      assert log == front + [last];
      CutOfFront(front, last, before, cut);
      if cut <= |front| {
        AfterCut(front, before, cut);
        SliceOfSnoc(front, last, cut);
      } else {
        AfterCut(front, before, |front|);
        assert front[|front|..] == log[cut..] == [];
      }
    }
  }

  lemma AtCut(log: seq<Message>, before: nat, cut: nat)
    requires IsCut(log, before, cut)
    ensures WhereBefore(log, before) == log[..cut]
    ensures before > 0 ==> WhereAfter(log, before - 1) == log[cut..]
  {
    BeforeCut(log, before, cut);
    if before > 0 {
      AfterCut(log, before, cut);
    }
  }

  lemma {:induction false} CutExists(log: seq<Message>, before: nat) returns (cut: nat)
    requires Increasing(log)
    ensures IsCut(log, before, cut)
    ensures WhereBefore(log, before) == log[..cut]
    ensures before > 0 ==> WhereAfter(log, before - 1) == log[cut..]
  {
    cut := 0;
    while cut < |log| && log[cut].sequence < before
      invariant cut <= |log| && forall i :: 0 <= i < cut ==> log[i].sequence < before
    {
      cut := cut + 1;
    }
    AtCut(log, before, cut);
  }

  /** An increasing log is its covered part followed by its uncovered part. */
  lemma CoveredThenUncovered(log: seq<Message>, covered: nat)
    requires Increasing(log)
    ensures UpTo(log, covered) + WhereAfter(log, covered) == log
  {
    var cut := CutExists(log, covered + 1);
  }

  /** Later messages do not change the part of a log that a summary covers. */
  lemma {:induction false} UpToIsStable(log: seq<Message>, later: seq<Message>, covered: nat)
    requires Increasing(log + later) && exists i :: 0 <= i < |log| && log[i].sequence >= covered
    ensures UpTo(log + later, covered) == UpTo(log, covered)
  {
    if later == [] {
      assert log + later == log;
    } else {
      var last := |later| - 1;
      var whole := log + later;
      assert whole[..|whole| - 1] == log + later[..last];
      assert forall i :: 0 <= i < |whole| - 1 ==> (log + later[..last])[i] == whole[i];
      UpToIsStable(log, later[..last], covered);
      var i :| 0 <= i < |log| && log[i].sequence >= covered;
      assert whole[i].sequence < whole[|whole| - 1].sequence;
    }
  }

  lemma UpToMonotone(log: seq<Message>, a: nat, b: nat)
    requires Increasing(log) && a <= b
    ensures |UpTo(log, a)| <= |UpTo(log, b)| && UpTo(log, b)[..|UpTo(log, a)|] == UpTo(log, a)
  {
    var cutA := CutExists(log, a + 1);
    var cutB := CutExists(log, b + 1);
    assert cutA <= cutB by {
      assert cutB < |log| ==> log[cutB].sequence >= b + 1;
    }
  }

  lemma CutOfSuffix(log: seq<Message>, before: nat, cut: nat, start: nat)
    requires IsCut(log, before, cut) && start <= |log|
    ensures IsCut(log[start..], before, if start <= cut then cut - start else 0)
  {
    var rest := log[start..];
    assert forall i :: 0 <= i < |rest| ==> rest[i] == log[start + i];
  }

  function TailStart<T>(rows: seq<T>, limit: nat): nat {
    if |rows| <= limit then 0 else |rows| - limit
  }

  lemma NewestIsTail<T>(rows: seq<T>, limit: nat)
    ensures Newest(rows, limit) == rows[TailStart(rows, limit)..]
  {
  }

  /** The uncovered messages of the newest rows are the newest of the uncovered messages. */
  lemma AfterOfNewest(log: seq<Message>, limit: nat, covered: nat)
    requires Increasing(log)
    ensures WhereAfter(Newest(log, limit), covered) == Newest(WhereAfter(log, covered), limit)
  {
    var cut := CutExists(log, covered + 1);
    var start := TailStart(log, limit);
    var inner := if start <= cut then cut - start else 0;
    CutOfSuffix(log, covered + 1, cut, start);
    AtCut(log[start..], covered + 1, inner);
    NewestIsTail(log, limit);
    NewestIsTail(log[cut..], limit);
    TailOfSuffix(log, cut, limit);
  }

  lemma TailOfSuffix<T>(log: seq<T>, cut: nat, limit: nat)
    requires cut <= |log|
    ensures var start := TailStart(log, limit);
      log[cut..][TailStart(log[cut..], limit)..] == log[start..][if start <= cut then cut - start else 0..]
  {
    var start := TailStart(log, limit);
    if start <= cut {
      assert log[start..][cut - start..] == log[cut..];
    } else {
      assert log[cut..][start - cut..] == log[start..];
    }
  }
}
