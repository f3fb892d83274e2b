// The page cursor of the message list: `SqlMessageRepository.list` behind `list_messages` of
// api/routes.py, followed by a client that walks back to the first message.
module Pages {
  import opened Entities
  import opened Tables
  import opened Logs
  import opened Protocol
  import opened Invariants
  import opened Safety
  import opened SummaryPlan

  /** What the route answers: the messages and the cursor of the next page. */
  datatype Page = Page(items: seq<Message>, nextBefore: Option<nat>)

  function PageOf(t: Tables, tenant: Id, conversation: Id, limit: nat, before: Option<nat>): Page
    requires limit > 0
  {
    var items := ListMessages(t, tenant, conversation, limit, before);
    Page(items, if |items| == limit then Some(items[0].sequence) else None)
  }

  /** The pages of a client that follows the cursor; page i is read from ts[i]. */
  function Walk(ts: seq<Tables>, tenant: Id, conversation: Id, limit: nat, before: Option<nat>): seq<Page>
    requires limit > 0
  {
    if ts == [] then []
    else
      var page := PageOf(ts[0], tenant, conversation, limit, before);
      [page] + if page.nextBefore.None? then [] else Walk(ts[1..], tenant, conversation, limit, page.nextBefore)
  }

  /** The pages put together, oldest first. */
  function Assembled(pages: seq<Page>): seq<Message> {
    if pages == [] then [] else Assembled(pages[1..]) + pages[0].items
  }

  predicate IsComplete(pages: seq<Page>) {
    pages != [] && pages[|pages| - 1].nextBefore.None?
  }

  /** The conversation's rows are one increasing log of the tenant, of which `log` was there first. */
  predicate LogContinues(t: Tables, tenant: Id, c: Id, log: seq<Message>) {
    var rows := Log(t.messages, c);
    Increasing(rows) && WhereTenant(rows, tenant) == rows && |log| <= |rows| && rows[..|log|] == log
  }

  /** The page below the message at `end` holds the messages right before it. */
  lemma PageBelow(t: Tables, tenant: Id, c: Id, limit: nat, log: seq<Message>, end: nat)
    requires limit > 0 && LogContinues(t, tenant, c, log) && end < |log|
    ensures PageOf(t, tenant, c, limit, Some(log[end].sequence)).items == Newest(log[..end], limit)
  {
    var rows := Log(t.messages, c);
    assert rows[end] == log[end];
    AtCut(rows, log[end].sequence, end);
    assert rows[..end] == log[..end];
    OrderOfIncreasing(rows[..end]);
  }

  /** The first page is read without a cursor. */
  lemma FirstPage(t: Tables, tenant: Id, c: Id, limit: nat)
    requires limit > 0 && LogContinues(t, tenant, c, Log(t.messages, c))
    ensures PageOf(t, tenant, c, limit, None).items == Newest(Log(t.messages, c), limit)
  {
    OrderOfIncreasing(Log(t.messages, c));
  }

  /** So many reads of `limit` messages go past `end` messages. */
  predicate Enough(count: nat, limit: nat, end: nat) {
    count * limit > end
  }

  /** What `count` reads from the message at `end` down have given: everything, if the last page says
      so, and it does if there were enough. */
  predicate WalkOk(pages: seq<Page>, log: seq<Message>, end: nat, count: nat, limit: nat)
    requires end <= |log|
  {
    (IsComplete(pages) ==> Assembled(pages) == log[..end]) && (Enough(count, limit, end) ==> IsComplete(pages))
  }

  lemma NoReads(log: seq<Message>, end: nat, limit: nat)
    requires end <= |log|
    ensures WalkOk([], log, end, 0, limit)
  {
  }

  lemma Fewer(n: nat, limit: nat, end: nat)
    requires n > 0 && limit <= end
    ensures Enough(n, limit, end) ==> Enough(n - 1, limit, end - limit)
  {
  }

  lemma LastPage(page: Page, log: seq<Message>, end: nat, count: nat, limit: nat)
    requires end <= |log| && page.items == log[..end] && page.nextBefore.None?
    ensures WalkOk([page], log, end, count, limit)
  {
    assert [page][1..] == [];
    assert [] + page.items == page.items;
  }

  lemma OneMorePage(page: Page, rest: seq<Page>, log: seq<Message>, end: nat, count: nat, limit: nat)
    requires limit <= end <= |log| && page.items == log[end - limit..end] && page.nextBefore.Some?
    requires count > 0 && WalkOk(rest, log, end - limit, count - 1, limit)
    ensures WalkOk([page] + rest, log, end, count, limit)
  {
    Fewer(count, limit, end);
    assert ([page] + rest)[1..] == rest;
    assert log[..end - limit] + log[end - limit..end] == log[..end];
  }

  /** A page of the newest messages before `end` is full and starts `limit` messages earlier, or it
      holds all of them. */
  lemma PageCases(page: Page, log: seq<Message>, end: nat, limit: nat)
    requires limit > 0 && end <= |log| && page.items == Newest(log[..end], limit)
    requires page.nextBefore == if |page.items| == limit then Some(page.items[0].sequence) else None
    ensures if page.nextBefore.Some?
      then limit <= end && page.items == log[end - limit..end] && page.nextBefore.value == log[end - limit].sequence
      else page.items == log[..end]
  {
    if limit <= end {
      assert log[..end][end - limit..] == log[end - limit..end];
      assert limit == end ==> log[..end] == log[end - limit..end];
    }
  }

  /** From the message at `end` down: a complete walk gives everything before it, and it is complete
      as soon as there are enough reads. */
  lemma {:induction false} WalkBelow(ts: seq<Tables>, tenant: Id, c: Id, limit: nat, log: seq<Message>, end: nat)
    requires limit > 0 && end < |log|
    requires forall i :: 0 <= i < |ts| ==> LogContinues(ts[i], tenant, c, log)
    ensures WalkOk(Walk(ts, tenant, c, limit, Some(log[end].sequence)), log, end, |ts|, limit)
    decreases |ts|
  {
    if ts == [] {
      NoReads(log, end, limit);
    } else {
      PageBelow(ts[0], tenant, c, limit, log, end);
      var page := PageOf(ts[0], tenant, c, limit, Some(log[end].sequence));
      PageCases(page, log, end, limit);
      if page.nextBefore.Some? {
        WalkBelow(ts[1..], tenant, c, limit, log, end - limit);
        OneMorePage(page, Walk(ts[1..], tenant, c, limit, page.nextBefore), log, end, |ts|, limit);
      } else {
        LastPage(page, log, end, |ts|, limit);
      }
    }
  }

  lemma AfterFirstPage(page: Page, later: seq<Tables>, tenant: Id, c: Id, limit: nat, log: seq<Message>)
    requires limit > 0 && page.items == Newest(log, limit)
    requires page.nextBefore == if |page.items| == limit then Some(page.items[0].sequence) else None
    requires forall i :: 0 <= i < |later| ==> LogContinues(later[i], tenant, c, log)
    ensures WalkOk([page] + if page.nextBefore.None? then [] else Walk(later, tenant, c, limit, page.nextBefore),
                   log, |log|, |later| + 1, limit)
  {
    assert log[..|log|] == log;
    PageCases(page, log, |log|, limit);
    if page.nextBefore.Some? {
      WalkBelow(later, tenant, c, limit, log, |log| - limit);
      OneMorePage(page, Walk(later, tenant, c, limit, page.nextBefore), log, |log|, |later| + 1, limit);
    } else {
      LastPage(page, log, |log|, |later| + 1, limit);
      assert [page] + [] == [page];
    }
  }

  /** Following the cursor from the first page: every message that was there at the first read is
      returned exactly once, in order when the pages are put together, whatever is appended between
      the reads; and the walk ends after at most one page more than the messages fill. */
  lemma WalkReturnsAll(ts: seq<Tables>, tenant: Id, c: Id, limit: nat)
    requires limit > 0 && ts != []
    requires forall i :: 0 <= i < |ts| ==> LogContinues(ts[i], tenant, c, Log(ts[0].messages, c))
    ensures var log, pages := Log(ts[0].messages, c), Walk(ts, tenant, c, limit, None);
      && (IsComplete(pages) ==> Assembled(pages) == log)
      && (Enough(|ts|, limit, |log|) ==> IsComplete(pages))
  {
    var log := Log(ts[0].messages, c);
    FirstPage(ts[0], tenant, c, limit);
    AfterFirstPage(PageOf(ts[0], tenant, c, limit, None), ts[1..], tenant, c, limit, log);
    assert log[..|log|] == log;
  }

  // ---------------------------------------------------------------- pages of a running system

  /** What `more` steps do to a conversation's log: it is continued. */
  lemma LaterRowsContinue(cfg: Config, steps: seq<Step>, more: seq<Step>, tenant: Id, c: Id)
    requires Belongs(Run(cfg, INITIAL, steps).tables, tenant, c)
    ensures LogContinues(Run(cfg, INITIAL, steps + more).tables, tenant, c,
                         Log(Run(cfg, INITIAL, steps).tables.messages, c))
  {
    var t, t' := Run(cfg, INITIAL, steps).tables, Run(cfg, INITIAL, steps + more).tables;
    ReachableInv(cfg, steps);
    RunKeepsInv(cfg, Run(cfg, INITIAL, steps), more);
    RunConcat(cfg, INITIAL, steps, more);
    SoundLog(t', tenant, c, cfg.memory.Keep());
    var later, newer := LogExtends(t, t', c);
  }

  /** The tables that the reads of a walk see, each after some number of steps of one run. */
  function TablesAt(cfg: Config, steps: seq<Step>, moments: seq<nat>): (ts: seq<Tables>)
    requires forall i :: 0 <= i < |moments| ==> moments[i] <= |steps|
    ensures |ts| == |moments| && forall i :: 0 <= i < |ts| ==> ts[i] == Run(cfg, INITIAL, steps[..moments[i]]).tables
  {
    seq(|moments|, i requires 0 <= i < |moments| => Run(cfg, INITIAL, steps[..moments[i]]).tables)
  }

  /** A client walks back through a conversation while any number of instances answer questions in
      it: it is given every message that was there when it started, once. */
  lemma WalkDuringAnyRun(cfg: Config, steps: seq<Step>, moments: seq<nat>, tenant: Id, c: Id, limit: nat)
    requires limit > 0 && moments != []
    requires forall i :: 0 <= i < |moments| ==> moments[0] <= moments[i] <= |steps|
    requires Belongs(Run(cfg, INITIAL, steps[..moments[0]]).tables, tenant, c)
    ensures var log := Log(Run(cfg, INITIAL, steps[..moments[0]]).tables.messages, c);
      var pages := Walk(TablesAt(cfg, steps, moments), tenant, c, limit, None);
      && (IsComplete(pages) ==> Assembled(pages) == log)
      && (Enough(|moments|, limit, |log|) ==> IsComplete(pages))
  {
    var ts := TablesAt(cfg, steps, moments);
    forall i | 0 <= i < |ts|
      ensures LogContinues(ts[i], tenant, c, Log(ts[0].messages, c))
    {
      var before, more := steps[..moments[0]], steps[moments[0]..moments[i]];
      assert before + more == steps[..moments[i]];
      LaterRowsContinue(cfg, before, more, tenant, c);
    }
    WalkReturnsAll(ts, tenant, c, limit);
  }
}
