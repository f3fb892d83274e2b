// Short-term memory: application/memory_service.py.
module Memory {
  import opened Entities
  import opened Tables
  import Text

  const SUMMARY_HEADER := "[早期对话摘要]\n"
  const LISTING_LIMIT := 1000

  datatype MemoryConfig = MemoryConfig(recentTurns: nat, triggerTurns: nat) {
    /** How many messages the sliding window holds. */
    function Keep(): nat { recentTurns * 2 }

    /** How many uncovered messages are tolerated before a summary is made. */
    function Threshold(): nat { if triggerTurns > Keep() then triggerTurns else Keep() }
  }

  // ---------------------------------------------------------------- the reads and writes

  /** The raw part of the context of a turn whose user message has sequence `before`. */
  function Window(t: Tables, cfg: MemoryConfig, tenant: Id, conversation: Id, before: nat): seq<Message> {
    ListMessages(t, tenant, conversation, cfg.Keep(), Some(before))
  }

  function OldestRecent(window: seq<Message>, before: nat): nat {
    if window != [] then window[0].sequence else before
  }

  function RawTurns(messages: seq<Message>): seq<ModelTurn> {
    if messages == [] then []
    else
      var m := messages[|messages| - 1];
      RawTurns(messages[..|messages| - 1]) + if m.role == User || m.role == Assistant
          then [ModelTurn(m.role, m.content)] else []
  }

  lemma RawTurnsStep(messages: seq<Message>, i: nat)
    requires i < |messages|
    ensures var m := messages[i];
      RawTurns(messages[..i + 1])
      == RawTurns(messages[..i]) + if m.role == User || m.role == Assistant then [ModelTurn(m.role, m.content)] else []
  {
    assert messages[..i + 1][..i] == messages[..i];
  }

  function SummaryTurn(s: Summary): ModelTurn {
    ModelTurn(System, SUMMARY_HEADER + s.text)
  }

  /** `load_context` */
  function Context(t: Tables, cfg: MemoryConfig, tenant: Id, conversation: Id, before: nat): seq<ModelTurn> {
    var window := Window(t, cfg, tenant, conversation, before);
    var summary := LatestSummary(t, tenant, conversation);
    (if summary.Some? && summary.value.coveredThrough < OldestRecent(window, before) then [SummaryTurn(summary.value)]
        else [])
    + RawTurns(window)
  }

  /** What a summariser has decided to do after its first unit of work. */
  datatype Draft = Draft(prior: Option<Summary>, messages: seq<Message>, uncovered: nat) {
    function PriorCovered(): nat { if prior.Some? then prior.value.coveredThrough else 0 }

    function PriorVersion(): nat { if prior.Some? then prior.value.sourceVersion else 0 }

    function PriorText(): string { if prior.Some? then prior.value.text else "" }
  }

  /** The rows of the conversation that the newest summary does not cover. */
  function Uncovered(t: Tables, tenant: Id, conversation: Id): seq<Message> {
    var summary := LatestSummary(t, tenant, conversation);
    WhereAfter(WhereTenant(Log(t.messages, conversation), tenant), if summary.Some? then summary.value.coveredThrough
        else 0)
  }

  /** The first unit of work of `maybe_summarize` and the decision that follows it. */
  function PlanSummary(t: Tables, cfg: MemoryConfig, tenant: Id, conversation: Id): Option<Draft> {
    var messages := ListMessages(t, tenant, conversation, LISTING_LIMIT, None);
    var summary := LatestSummary(t, tenant, conversation);
    var pending := WhereAfter(messages, if summary.Some? then summary.value.coveredThrough else 0);
    if |pending| <= cfg.Threshold() then None
    else Some(Draft(summary, pending[..|pending| - cfg.Keep()], |Uncovered(t, tenant, conversation)|))
  }

  /** The row that the second unit of work wants to store. */
  function NewSummary(draft: Draft, tenant: Id, conversation: Id, id: Id, text: string): Summary
    requires draft.messages != []
  {
    Summary(id, tenant, conversation, text, draft.messages[|draft.messages| - 1].sequence, draft.PriorVersion() + 1,
            Origin(draft.PriorText(), draft.messages, draft.uncovered))
  }

  /** The check before the insert: no summary of this version or a newer one is visible. */
  predicate StillWanted(t: Tables, s: Summary) {
    var current := LatestSummary(t, s.tenant, s.conversation);
    current.None? || current.value.sourceVersion < s.sourceVersion
  }

  /** The insert itself; a constraint violation is swallowed and rolls back. */
  function StoreSummary(t: Tables, s: Summary): Tables {
    if SummaryFits(t.summaries, s) then WithSummary(t, s) else t
  }

  /** `maybe_summarize` as a whole: `reply` is the model's answer, if it gave one. */
  function Summarise(t: Tables, listed: Tables, checked: Tables, cfg: MemoryConfig, tenant: Id, conversation: Id,
                     reply: Option<string>, id: Id): Tables {
    var draft := PlanSummary(listed, cfg, tenant, conversation);
    if draft.None? || draft.value.messages == [] || reply.None? then t
    else
      var s := NewSummary(draft.value, tenant, conversation, id, Text.Strip(reply.value));
      if StillWanted(checked, s) then StoreSummary(t, s) else t
  }

  // ---------------------------------------------------------------- the service

  class MemoryService {
    const database: Database
    const cfg: MemoryConfig

    constructor (database: Database, cfg: MemoryConfig)
      ensures this.database == database && this.cfg == cfg
    {
      this.database := database;
      this.cfg := cfg;
    }

    method LoadContext(snapshot: Tables, tenant: Id, conversation: Id, before: nat) returns (turns: seq<ModelTurn>)
      ensures turns == Context(snapshot, cfg, tenant, conversation, before)
    {
      var recent := ListMessages(snapshot, tenant, conversation, cfg.recentTurns * 2, Some(before));
      var summary := LatestSummary(snapshot, tenant, conversation);
      turns := [];
      var oldestRecent := if recent != [] then recent[0].sequence else before;
      if summary.Some? && summary.value.coveredThrough < oldestRecent {
        turns := turns + [ModelTurn(System, SUMMARY_HEADER + summary.value.text)];
      }
      ghost var head := turns;
      for i := 0 to |recent|
        invariant turns == head + RawTurns(recent[..i])
      {
        RawTurnsStep(recent, i);
        if recent[i].role == User || recent[i].role == Assistant {
          turns := turns + [ModelTurn(recent[i].role, recent[i].content)];
        }
      }
      assert recent[..|recent|] == recent;
    }

    /** The first unit of work of `maybe_summarize`, with the selection of the messages. */
    method ListPending(listed: Tables, tenant: Id, conversation: Id) returns (draft: Option<Draft>)
      ensures draft == PlanSummary(listed, cfg, tenant, conversation)
    {
      var messages := ListMessages(listed, tenant, conversation, 1000, None);
      var summary := LatestSummary(listed, tenant, conversation);
      var covered := if summary.Some? then summary.value.coveredThrough else 0;
      var pending := [];
      for i := 0 to |messages|
        invariant pending == WhereAfter(messages[..i], covered)
      {
        assert messages[..i + 1][..i] == messages[..i];
        if messages[i].sequence > covered {
          pending := pending + [messages[i]];
        }
      }
      assert messages[..|messages|] == messages;
      var keep := cfg.recentTurns * 2;
      if |pending| <= (if keep >= cfg.triggerTurns then keep else cfg.triggerTurns) {
        return None;
      }
      return Some(Draft(summary, pending[..|pending| - keep], |Uncovered(listed, tenant, conversation)|));
    }

    /** The second unit of work of `maybe_summarize`. */
    method AddIfNewest(checked: Tables, s: Summary)
      modifies database
      ensures database.tables == if StillWanted(checked, s) then StoreSummary(old(database.tables), s)
        else old(database.tables)
    {
      var work := new UnitOfWork(database, checked);
      var current := LatestSummary(work.snapshot, s.tenant, s.conversation);
      if current.Some? && current.value.sourceVersion >= s.sourceVersion {
        return;
      }
      var ok := work.AddSummary(s);
      if !ok {
        return;
      }
      work.Commit();
    }

    /** `listed` and `checked` are what the plain reads of the two units of work saw. */
    method MaybeSummarize(listed: Tables, checked: Tables, tenant: Id, conversation: Id, reply: Option<string>, id: Id)
      modifies database
      ensures database.tables == Summarise(old(database.tables), listed, checked, cfg, tenant, conversation, reply, id)
    {
      var draft := ListPending(listed, tenant, conversation);
      if draft.None? {
        return;
      }
      var toSummarize := draft.value.messages;
      if toSummarize == [] {
        return;
      }
      if reply.None? {
        return;
      }
      var newText := Text.Strip(reply.value);
      AddIfNewest(checked, NewSummary(draft.value, tenant, conversation, id, newText));
    }
  }
}
