// Where the text of a stored summary comes from.
module SummaryTexts {
  import opened Entities
  import opened Tables
  import opened Conversations
  import opened Memory
  import opened Protocol
  import opened ContextBound
  import Text

  predicate HoldsSummary(phase: Phase) {
    phase.Written? || phase.Wanted?
  }

  /** The summary is made from this draft and this reply of the model. */
  predicate IsMadeFrom(s: Summary, q: Request, draft: Draft, reply: string) {
    && s.tenant == q.ctx.tenant && s.conversation == q.conversation
    && s.text == Text.Strip(reply)
    && draft.messages != [] && s.coveredThrough == draft.messages[|draft.messages| - 1].sequence
    && s.sourceVersion == (if draft.prior.Some? then draft.prior.value.sourceVersion else 0) + 1
    && s.origin.prior == (if draft.prior.Some? then draft.prior.value.text else "")
    && s.origin.messages == draft.messages && s.origin.uncovered == draft.uncovered
  }

  /** At step m the model answered process pid, which had drafted this summary. */
  predicate Replied(cfg: Config, steps: seq<Step>, m: nat, pid: nat, s: Summary)
    requires m < |steps|
  {
    && steps[m].Act? && steps[m].pid == pid && steps[m].action.ModelReplies? && steps[m].action.reply.Some?
    && pid in StateAt(cfg, steps, m).processes
    && var p := StateAt(cfg, steps, m).processes[pid];
      p.phase.Drafted? && IsMadeFrom(s, p.request, p.phase.draft, steps[m].action.reply.value)
  }

  lemma RepliedLater(cfg: Config, steps: seq<Step>, longer: seq<Step>, m: nat, pid: nat, s: Summary)
    requires m < |steps| && steps <= longer && Replied(cfg, steps, m, pid, s)
    ensures Replied(cfg, longer, m, pid, s)
  {
    assert longer[..m] == steps[..m];
  }

  /** A process comes by a summary through the model's reply and keeps it as it is. */
  lemma AdvanceHolds(cfg: Config, t: Tables, q: Request, phase: Phase, action: Action)
    ensures var phase' := Advance(cfg, t, q, phase, action).1;
      HoldsSummary(phase') ==>
        || (HoldsSummary(phase) && phase'.summary == phase.summary)
        || (phase.Drafted? && action.ModelReplies? && action.reply.Some?
            && IsMadeFrom(phase'.summary, q, phase.draft, action.reply.value))
  {
    hide PrepareLookup, PrepareInsert, LoadIdempotent, CancelLookup, GetRun, Finalise, Mark, CancelSave, PlanSummary,
      StillWanted, StoreSummary;
  }

  lemma {:induction false} HeldWasReplied(cfg: Config, steps: seq<Step>, pid: nat) returns (m: nat)
    requires var s := Run(cfg, INITIAL, steps); pid in s.processes && HoldsSummary(s.processes[pid].phase)
    ensures m < |steps| && Replied(cfg, steps, m, pid, Run(cfg, INITIAL, steps).processes[pid].phase.summary)
  {
    hide Advance, IsMadeFrom;
    var before, step := steps[..|steps| - 1], steps[|steps| - 1];
    var s, s' := Run(cfg, INITIAL, before), Run(cfg, INITIAL, steps);
    if step.Act? && step.pid == pid && !(pid in s.processes && HoldsSummary(s.processes[pid].phase)) {
      AdvanceHolds(cfg, s.tables, s.processes[pid].request, s.processes[pid].phase, step.action);
      m := |before|;
    } else {
      if step.Act? && step.pid == pid {
        HeldIsKept(cfg, s.tables, s.processes[pid].request, s.processes[pid].phase, step.action);
      }
      assert s'.processes[pid].phase.summary == s.processes[pid].phase.summary;
      m := HeldWasReplied(cfg, before, pid);
      RepliedLater(cfg, before, steps, m, pid, s'.processes[pid].phase.summary);
    }
  }

  lemma HeldIsKept(cfg: Config, t: Tables, q: Request, phase: Phase, action: Action)
    requires HoldsSummary(phase)
    ensures var phase' := Advance(cfg, t, q, phase, action).1;
      HoldsSummary(phase') ==> phase'.summary == phase.summary
  {
    AdvanceHolds(cfg, t, q, phase, action);
  }

  /** Over whole runs, whoever else is at work: every stored summary was inserted by a process that the
      model had answered before. It holds that reply, stripped, and it covers the messages that the
      model was shown for it, up to the last of them. */
  lemma {:induction false} SummaryHoldsReply(cfg: Config, steps: seq<Step>, k: nat)
    returns (m: nat, n: nat, pid: nat)
    requires k < |Run(cfg, INITIAL, steps).tables.summaries|
    ensures m < n < |steps|
    ensures steps[n] == Act(pid, InsertSummary(Run(cfg, INITIAL, steps).tables.summaries[k].id))
    ensures Replied(cfg, steps, m, pid, Run(cfg, INITIAL, steps).tables.summaries[k])
  {
    hide Advance, IsMadeFrom;
    var before, step := steps[..|steps| - 1], steps[|steps| - 1];
    var s := Run(cfg, INITIAL, before);
    var row := Run(cfg, INITIAL, steps).tables.summaries[k];
    if step.Act? && step.pid in s.processes {
      ActTables(cfg, s, step.pid, step.action);
      AdvanceSummaries(cfg, s.tables, s.processes[step.pid].request, s.processes[step.pid].phase, step.action);
    }
    if k < |s.tables.summaries| {
      m, n, pid := SummaryHoldsReply(cfg, before, k);
      RepliedLater(cfg, before, steps, m, pid, row);
    } else {
      n, pid := |before|, step.pid;
      m := HeldWasReplied(cfg, before, pid);
      RepliedLater(cfg, before, steps, m, pid, s.processes[pid].phase.summary);
      IdDoesNotMatter(cfg, steps, m, pid, s.processes[pid].phase.summary, row.id);
    }
  }

  lemma IdDoesNotMatter(cfg: Config, steps: seq<Step>, m: nat, pid: nat, s: Summary, id: Id)
    requires m < |steps| && Replied(cfg, steps, m, pid, s)
    ensures Replied(cfg, steps, m, pid, s.(id := id))
  {
  }
}
