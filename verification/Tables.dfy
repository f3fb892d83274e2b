// The MySQL tables and the queries of infrastructure/mysql/repositories.py.
//
// `Tables` is the committed state. A unit of work reads through a consistent snapshot (the
// committed state at some earlier moment) while its updates, inserts and locking reads work on
// the current rows; nothing reaches the database before `Commit`.
module Tables {
  import opened Entities

  datatype Tables = Tables(
    conversations: map<Id, Conversation>,
    messages: seq<Message>,
    runs: seq<RunRow>,
    summaries: seq<Summary>)

  const EMPTY := Tables(map[], [], [], [])

  // ---------------------------------------------------------------- queries

  function FindRun(runs: seq<RunRow>, tenant: Id, id: Id): (r: Option<nat>)
    ensures r.Some? ==> r.value < |runs| && runs[r.value].identity.id == id && runs[r.value].identity.tenant == tenant
    ensures r.None? ==> forall i :: 0 <= i < |runs| ==>
      !(runs[i].identity.id == id && runs[i].identity.tenant == tenant)
  {
    if runs == [] then None
    else
      var last := |runs| - 1;
      if runs[last].identity.id == id && runs[last].identity.tenant == tenant then Some(last)
      else FindRun(runs[..last], tenant, id)
  }

  function FindKey(runs: seq<RunRow>, tenant: Id, key: string): (r: Option<nat>)
    ensures r.Some? ==> r.value < |runs| && runs[r.value].identity.key == key && runs[r.value].identity.tenant == tenant
    ensures r.None? ==> forall i :: 0 <= i < |runs| ==>
      !(runs[i].identity.key == key && runs[i].identity.tenant == tenant)
  {
    if runs == [] then None
    else
      var last := |runs| - 1;
      if runs[last].identity.key == key && runs[last].identity.tenant == tenant then Some(last)
      else FindKey(runs[..last], tenant, key)
  }

  function FindMessage(messages: seq<Message>, tenant: Id, id: Id): (r: Option<nat>)
    ensures r.Some? ==> r.value < |messages| && messages[r.value].id == id && messages[r.value].tenant == tenant
    ensures r.None? ==> forall i :: 0 <= i < |messages| ==> !(messages[i].id == id && messages[i].tenant == tenant)
  {
    if messages == [] then None
    else
      var last := |messages| - 1;
      if messages[last].id == id && messages[last].tenant == tenant then Some(last)
      else FindMessage(messages[..last], tenant, id)
  }

  function GetRun(t: Tables, tenant: Id, id: Id): Option<RunRow> {
    var i := FindRun(t.runs, tenant, id);
    if i.Some? then Some(t.runs[i.value]) else None
  }

  function GetRunByKey(t: Tables, tenant: Id, key: string): Option<RunRow> {
    var i := FindKey(t.runs, tenant, key);
    if i.Some? then Some(t.runs[i.value]) else None
  }

  function GetMessage(t: Tables, tenant: Id, id: Id): Option<Message> {
    var i := FindMessage(t.messages, tenant, id);
    if i.Some? then Some(t.messages[i.value]) else None
  }

  function GetConversation(t: Tables, tenant: Id, id: Id): Option<Conversation> {
    if id in t.conversations && t.conversations[id].tenant == tenant then Some(t.conversations[id]) else None
  }

  /** The messages of one conversation in commit order. */
  function Log(messages: seq<Message>, conversation: Id): seq<Message> {
    if messages == [] then []
    else
      var last := |messages| - 1;
      Log(messages[..last], conversation)
      + if messages[last].conversation == conversation then [messages[last]] else []
  }

  /** The runs of one conversation in commit order. */
  function RunsOf(runs: seq<RunRow>, conversation: Id): seq<RunRow> {
    if runs == [] then []
    else
      var last := |runs| - 1;
      RunsOf(runs[..last], conversation)
      + if runs[last].identity.conversation == conversation then [runs[last]] else []
  }

  /** The stored summaries of one conversation in commit order. */
  function SummariesOf(summaries: seq<Summary>, conversation: Id): seq<Summary> {
    if summaries == [] then []
    else
      var last := |summaries| - 1;
      SummariesOf(summaries[..last], conversation)
      + if summaries[last].conversation == conversation then [summaries[last]] else []
  }

  function InsertBySequence(sorted: seq<Message>, m: Message): seq<Message> {
    if sorted == [] || sorted[|sorted| - 1].sequence <= m.sequence then sorted + [m]
    else InsertBySequence(sorted[..|sorted| - 1], m) + [sorted[|sorted| - 1]]
  }

  function OrderBySequence(rows: seq<Message>): seq<Message> {
    if rows == [] then [] else InsertBySequence(OrderBySequence(rows[..|rows| - 1]), rows[|rows| - 1])
  }

  function WhereTenant(rows: seq<Message>, tenant: Id): seq<Message> {
    if rows == [] then []
    else WhereTenant(rows[..|rows| - 1], tenant) + if rows[|rows| - 1].tenant == tenant then [rows[|rows| - 1]] else []
  }

  function WhereBefore(rows: seq<Message>, before: nat): seq<Message> {
    if rows == [] then []
    else WhereBefore(rows[..|rows| - 1], before) + if rows[|rows| - 1].sequence < before then [rows[|rows| - 1]] else []
  }

  function WhereAfter(rows: seq<Message>, covered: nat): seq<Message> {
    if rows == [] then []
    else
      WhereAfter(rows[..|rows| - 1], covered) + if rows[|rows| - 1].sequence > covered then [rows[|rows| - 1]] else []
  }

  /** The last `limit` rows, or all of them if there are fewer. */
  function Newest<T>(rows: seq<T>, limit: nat): seq<T> {
    if |rows| <= limit then rows else rows[|rows| - limit..]
  }

  /** The message query: the `limit` newest rows below `before`, in ascending order. */
  function ListMessages(t: Tables, tenant: Id, conversation: Id, limit: nat, before: Option<nat>): seq<Message> {
    var rows := WhereTenant(Log(t.messages, conversation), tenant);
    var below := if before.Some? then WhereBefore(rows, before.value) else rows;
    Newest(OrderBySequence(below), limit)
  }

  /** The row with the highest source version, if there is one. */
  function NewestVersion(rows: seq<Summary>, tenant: Id): (r: Option<Summary>)
    ensures r.Some? ==> r.value in rows && r.value.tenant == tenant
    ensures r.Some? ==> forall row :: row in rows && row.tenant == tenant ==> row.sourceVersion <= r.value.sourceVersion
    ensures r.None? ==> forall row :: row in rows ==> row.tenant != tenant
  {
    if rows == [] then None
    else
      var last := rows[|rows| - 1];
      var best := NewestVersion(rows[..|rows| - 1], tenant);
      assert rows == rows[..|rows| - 1] + [last];
      if last.tenant == tenant && (best.None? || best.value.sourceVersion <= last.sourceVersion) then Some(last)
      else best
  }

  function LatestSummary(t: Tables, tenant: Id, conversation: Id): Option<Summary> {
    NewestVersion(SummariesOf(t.summaries, conversation), tenant)
  }

  // ---------------------------------------------------------------- updates

  /** A new row meets the primary key and the (conversation, sequence) constraint. */
  predicate MessageFits(messages: seq<Message>, m: Message) {
    forall i :: 0 <= i < |messages| ==>
      messages[i].id != m.id && !(messages[i].conversation == m.conversation && messages[i].sequence == m.sequence)
  }

  /** A new row meets the primary key and the (tenant, idempotency key) constraint. */
  predicate RunFits(runs: seq<RunRow>, identity: RunIdentity) {
    forall i :: 0 <= i < |runs| ==>
      runs[i].identity.id != identity.id
      && !(runs[i].identity.tenant == identity.tenant && runs[i].identity.key == identity.key)
  }

  /** A new row meets the primary key and the (conversation, source version) constraint. */
  predicate SummaryFits(summaries: seq<Summary>, s: Summary) {
    forall i :: 0 <= i < |summaries| ==>
      summaries[i].id != s.id
      && !(summaries[i].conversation == s.conversation && summaries[i].sourceVersion == s.sourceVersion)
  }

  predicate AtVersion(t: Tables, tenant: Id, conversation: Id, version: nat) {
    GetConversation(t, tenant, conversation).Some? && t.conversations[conversation].version == version
  }

  function WithVersion(t: Tables, conversation: Id, version: nat): Tables
    requires conversation in t.conversations
  {
    t.(conversations := t.conversations[conversation := t.conversations[conversation].(version := version)])
  }

  function WithMessage(t: Tables, m: Message): Tables {
    t.(messages := t.messages + [m])
  }

  function WithRun(t: Tables, run: RunRow): Tables {
    t.(runs := t.runs + [run])
  }

  function WithSummary(t: Tables, s: Summary): Tables {
    t.(summaries := t.summaries + [s])
  }

  /** The update of `save`: every mutable column is overwritten, whatever its current value. */
  function WithSaved(t: Tables, run: RunRow): Tables {
    var i := FindRun(t.runs, run.identity.tenant, run.identity.id);
    if i.None? then t
    else t.(runs := t.runs[i.value := run.(identity := t.runs[i.value].identity)])
  }

  // ---------------------------------------------------------------- unit of work

  class Database {
    var tables: Tables

    constructor ()
      ensures tables == EMPTY
    {
      tables := EMPTY;
    }
  }

  /** One transaction. `snapshot` answers its plain reads; `working` holds the current rows with
      this transaction's own changes and becomes the committed state in `Commit`. Leaving without
      a commit drops `working`, which is the rollback. */
  class UnitOfWork {
    const database: Database
    const snapshot: Tables
    var working: Tables
    var committed: bool

    constructor (database: Database, snapshot: Tables)
      ensures this.database == database && this.snapshot == snapshot
      ensures working == database.tables && !committed
    {
      this.database := database;
      this.snapshot := snapshot;
      working := database.tables;
      committed := false;
    }

    method LoadRun(tenant: Id, id: Id) returns (run: AgentRun?)
      ensures (run == null) == GetRun(snapshot, tenant, id).None?
      ensures run != null ==> fresh(run) && run.Row() == GetRun(snapshot, tenant, id).value
    {
      var row := GetRun(snapshot, tenant, id);
      if row.None? {
        return null;
      }
      run := new AgentRun(row.value);
    }

    method LoadRunByKey(tenant: Id, key: string) returns (run: AgentRun?)
      ensures (run == null) == GetRunByKey(snapshot, tenant, key).None?
      ensures run != null ==> fresh(run) && run.Row() == GetRunByKey(snapshot, tenant, key).value
    {
      var row := GetRunByKey(snapshot, tenant, key);
      if row.None? {
        return null;
      }
      run := new AgentRun(row.value);
    }

    /** The compare-and-set on the version column. */
    method BumpVersion(tenant: Id, conversation: Id, expected: nat) returns (r: Result<nat>)
      modifies this`working
      ensures r == if AtVersion(old(working), tenant, conversation, expected) then Ok(expected + 1)
        else Err(ConcurrentWrite)
      ensures working == if r.Ok? then WithVersion(old(working), conversation, expected + 1) else old(working)
    {
      if conversation in working.conversations {
        var row := working.conversations[conversation];
        if row.tenant == tenant && row.version == expected {
          working := working.(conversations := working.conversations[conversation := row.(version := expected + 1)]);
          return Ok(expected + 1);
        }
      }
      return Err(ConcurrentWrite);
    }

    /** The locking read of the version column. */
    method LockAtVersion(tenant: Id, conversation: Id, expected: nat) returns (ok: bool)
      ensures ok == AtVersion(working, tenant, conversation, expected)
    {
      ok := false;
      if conversation in working.conversations {
        var row := working.conversations[conversation];
        ok := row.tenant == tenant && row.version == expected;
      }
    }

    method AddMessage(m: Message) returns (ok: bool)
      modifies this`working
      ensures ok == MessageFits(old(working).messages, m)
      ensures working == if ok then WithMessage(old(working), m) else old(working)
    {
      for i := 0 to |working.messages|
        invariant forall k :: 0 <= k < i ==>
          working.messages[k].id != m.id
          && !(working.messages[k].conversation == m.conversation && working.messages[k].sequence == m.sequence)
      {
        var row := working.messages[i];
        if row.id == m.id || (row.conversation == m.conversation && row.sequence == m.sequence) {
          return false;
        }
      }
      working := working.(messages := working.messages + [m]);
      return true;
    }

    method AddRun(run: AgentRun) returns (ok: bool)
      modifies this`working
      ensures ok == RunFits(old(working).runs, run.identity)
      ensures working == if ok then WithRun(old(working), run.Row()) else old(working)
    {
      for i := 0 to |working.runs|
        invariant forall k :: 0 <= k < i ==>
          working.runs[k].identity.id != run.identity.id
          && !(working.runs[k].identity.tenant == run.identity.tenant
            && working.runs[k].identity.key == run.identity.key)
      {
        var row := working.runs[i].identity;
        if row.id == run.identity.id || (row.tenant == run.identity.tenant && row.key == run.identity.key) {
          return false;
        }
      }
      working := working.(runs := working.runs + [run.Row()]);
      return true;
    }

    method SaveRun(run: AgentRun) returns (ok: bool)
      modifies this`working
      ensures ok == FindRun(old(working).runs, run.identity.tenant, run.identity.id).Some?
      ensures working == WithSaved(old(working), run.Row())
    {
      var i := FindRun(working.runs, run.identity.tenant, run.identity.id);
      ok := i.Some?;
      if ok {
        working := working.(runs := working.runs[i.value := run.Row().(identity := working.runs[i.value].identity)]);
      }
    }

    method AddSummary(s: Summary) returns (ok: bool)
      modifies this`working
      ensures ok == SummaryFits(old(working).summaries, s)
      ensures working == if ok then WithSummary(old(working), s) else old(working)
    {
      for i := 0 to |working.summaries|
        invariant forall k :: 0 <= k < i ==>
          working.summaries[k].id != s.id
          && !(working.summaries[k].conversation == s.conversation
            && working.summaries[k].sourceVersion == s.sourceVersion)
      {
        var row := working.summaries[i];
        if row.id == s.id || (row.conversation == s.conversation && row.sourceVersion == s.sourceVersion) {
          return false;
        }
      }
      working := working.(summaries := working.summaries + [s]);
      return true;
    }

    method Commit()
      modifies this`committed, database
      ensures committed && database.tables == working
    {
      database.tables := working;
      committed := true;
    }
  }
}
