// The event stream of a run and its resumption: infrastructure/redis/event_stream.py (the in-memory
// stream) and `resume_run_events` of api/routes.py.
module Events {
  import opened Entities
  import opened Lists
  import opened Text

  /** The event types; the five that the resume loop ends at have names of their own. */
  datatype EventType = MessageCompleted | RunFailed | RunConflicted | RunCancelled | RunReplayed | Other(name: string)

  datatype Event = Event(id: string, kind: EventType, data: string)

  // ---------------------------------------------------------------- event ids

  /** The id of the n-th event. */
  function EventId(n: nat): string {
    Decimal(n) + "-0"
  }

  function FirstDash(s: string, at: nat): nat
    requires at <= |s|
    decreases |s| - at
  {
    if at == |s| || s[at] == '-' then at else FirstDash(s, at + 1)
  }

  lemma {:induction false} FirstDashShape(s: string, at: nat)
    requires at <= |s|
    ensures at <= FirstDash(s, at) <= |s|
    decreases |s| - at
  {
    if at < |s| && s[at] != '-' {
      FirstDashShape(s, at + 1);
    }
  }

  predicate AreDigits(s: string) {
    s != "" && forall i :: 0 <= i < |s| ==> IsDigit(s[i])
  }

  /** Digits, a dash, digits: the pattern of the Last-Event-ID header. */
  predicate IsEventId(id: string) {
    FirstDashShape(id, 0);
    var p := FirstDash(id, 0);
    p < |id| && AreDigits(id[..p]) && AreDigits(id[p + 1..])
  }

  /** `_event_id_key` */
  function EventKey(id: string): (nat, nat)
    requires IsEventId(id)
  {
    FirstDashShape(id, 0);
    var p := FirstDash(id, 0);
    (ParseDecimal(id[..p]), ParseDecimal(id[p + 1..]))
  }

  /** Comparison of keys as tuples of numbers. */
  predicate Later(a: (nat, nat), b: (nat, nat)) {
    a.0 > b.0 || (a.0 == b.0 && a.1 > b.1)
  }

  lemma {:induction false} FirstDashAt(s: string, at: nat, p: nat)
    requires at <= p < |s| && s[p] == '-' && forall i :: at <= i < p ==> s[i] != '-'
    ensures FirstDash(s, at) == p
    decreases p - at
  {
    if at < p {
      FirstDashAt(s, at + 1, p);
    }
  }

  /** Printing and parsing an event id is a round trip. */
  lemma EventIdRoundTrip(n: nat)
    ensures IsEventId(EventId(n)) && EventKey(EventId(n)) == (n, 0)
  {
    var digits, id := Decimal(n), EventId(n);
    assert forall i :: 0 <= i < |digits| ==> id[i] == digits[i];
    FirstDashAt(id, 0, |digits|);
    assert id[..|digits|] == digits && id[|digits| + 1..] == "0";
    DecimalRoundTrip(n);
    assert ParseDecimal("0") == 10 * ParseDecimal("0"[..0]) + 0;
  }

  // ---------------------------------------------------------------- the stream

  /** The n-th event has the n-th id. */
  predicate IsStream(events: seq<Event>) {
    forall i :: 0 <= i < |events| ==> events[i].id == EventId(i + 1)
  }

  /** The events of the stream from position n on. */
  function From(events: seq<Event>, n: nat): seq<Event> {
    if n <= |events| then events[n..] else []
  }

  /** The `available` filter of `read`. A cursor that is no event id raises; the route only passes ids. */
  method Available(list: seq<Event>, after: string, limit: nat) returns (r: seq<Event>)
    requires IsEventId(after) && IsStream(list)
    ensures r == Take(From(list, EventKey(after).0), limit)
  {
    var key := EventKey(after);
    var found: seq<Event> := [];
    for i := 0 to |list|
      invariant found == From(list[..i], key.0)
    {
      EventIdRoundTrip(i + 1);
      assert list[..i + 1] == list[..i] + [list[i]];
      if Later(EventKey(list[i].id), key) {
        found := found + [list[i]];
      }
    }
    assert list[..|list|] == list;
    r := Take(found, limit);
  }

  class InMemoryRunEventStream {
    var events: map<Id, seq<Event>>

    constructor ()
      ensures events == map[]
    {
      events := map[];
    }

    function EventsOf(run: Id): seq<Event>
      reads this
    {
      if run in events then events[run] else []
    }

    method Append(run: Id, kind: EventType, data: string) returns (event: Event)
      modifies this
      ensures EventsOf(run) == old(EventsOf(run)) + [event]
      ensures event == Event(EventId(old(|EventsOf(run)|) + 1), kind, data)
      ensures forall other :: other != run ==> EventsOf(other) == old(EventsOf(other))
      ensures old(IsStream(EventsOf(run))) ==> IsStream(EventsOf(run))
    {
      var list := if run in events then events[run] else [];
      event := Event(Decimal(|list| + 1) + "-0", kind, data);
      events := events[run := list + [event]];
    }
  }

  // ---------------------------------------------------------------- resuming

  predicate IsTerminalEvent(e: Event) {
    !e.kind.Other?
  }

  const PAGE := 100

  /** What one round of the resume loop meets: the events of the run when `read` looks last, or a
      wait that timed out; and whether the run is over, which is asked only if nothing was read. */
  datatype Round = Read(events: seq<Event>, over: bool) | TimedOut(over: bool)

  predicate Grows(rounds: seq<Round>) {
    (forall i :: 0 <= i < |rounds| && rounds[i].Read? ==> IsStream(rounds[i].events))
    && (forall i, j :: 0 <= i < j < |rounds| && rounds[i].Read? && rounds[j].Read? ==>
      rounds[i].events <= rounds[j].events)
  }

  /** The delivered events are those of the stream from position `start` on, up to `|delivered|` of
      them, and none but the last is terminal. */
  predicate IsSegment(stream: seq<Event>, start: nat, delivered: seq<Event>) {
    && (delivered != [] ==> start + |delivered| <= |stream| && delivered == stream[start..start + |delivered|])
    && (forall i :: 0 <= i < |delivered| - 1 ==> !IsTerminalEvent(delivered[i]))
  }

  function CursorAfter(lastEventId: string, delivered: seq<Event>): string {
    if delivered == [] then lastEventId else delivered[|delivered| - 1].id
  }

  lemma SegmentGrows(stream: seq<Event>, longer: seq<Event>, start: nat, delivered: seq<Event>)
    requires IsSegment(stream, start, delivered) && stream <= longer
    ensures IsSegment(longer, start, delivered)
  {
    assert stream == longer[..|stream|];
  }

  /** The cursor after a segment points right behind it. */
  lemma CursorOfSegment(stream: seq<Event>, start: nat, delivered: seq<Event>, lastEventId: string)
    requires IsStream(stream) && IsSegment(stream, start, delivered)
    requires IsEventId(lastEventId) && EventKey(lastEventId).0 == start
    ensures IsEventId(CursorAfter(lastEventId, delivered))
    ensures EventKey(CursorAfter(lastEventId, delivered)).0 == start + |delivered|
  {
    if delivered != [] {
      var n := start + |delivered|;
      assert delivered[|delivered| - 1] == stream[n - 1];
      EventIdRoundTrip(n);
    }
  }

  predicate Ended(delivered: seq<Event>) {
    delivered != [] && IsTerminalEvent(delivered[|delivered| - 1])
  }

  /** A segment that has not reached a terminal event. */
  predicate Ongoing(stream: seq<Event>, start: nat, delivered: seq<Event>) {
    IsSegment(stream, start, delivered) && !Ended(delivered)
  }

  lemma DeliverOne(stream: seq<Event>, start: nat, delivered: seq<Event>, event: Event)
    requires Ongoing(stream, start, delivered) && start + |delivered| < |stream| && event == stream[start + |delivered|]
    ensures IsSegment(stream, start, delivered + [event])
    ensures if IsTerminalEvent(event) then Ended(delivered + [event]) else Ongoing(stream, start, delivered + [event])
  {
    var n := |delivered|;
    assert stream[start..start + n + 1] == stream[start..start + n] + [stream[start + n]];
    assert n == 0 ==> stream[start..start] == [];
  }

  lemma PageEvent(stream: seq<Event>, n: nat, limit: nat, i: nat)
    requires i < |Take(From(stream, n), limit)|
    ensures n + i < |stream| && Take(From(stream, n), limit)[i] == stream[n + i]
  {
  }

  predicate HasTerminal(page: seq<Event>) {
    exists i :: 0 <= i < |page| && IsTerminalEvent(page[i])
  }

  /** The inner loop of `generate` over the events of one read. */
  method DeliverPage(page: seq<Event>, ghost stream: seq<Event>, ghost start: nat, delivered0: seq<Event>)
    returns (delivered: seq<Event>, finished: bool)
    requires Ongoing(stream, start, delivered0) && page == Take(From(stream, start + |delivered0|), PAGE)
    ensures IsSegment(stream, start, delivered)
    ensures if finished then Ended(delivered) else Ongoing(stream, start, delivered) && delivered == delivered0 + page
    ensures finished <==> HasTerminal(page)
  {
    hide IsSegment, Take, From, IsTerminalEvent, Ended;
    delivered := delivered0;
    finished := false;
    for i := 0 to |page|
      invariant delivered == delivered0 + page[..i] && Ongoing(stream, start, delivered)
      invariant forall k :: 0 <= k < i ==> !IsTerminalEvent(page[k])
    {
      PageEvent(stream, start + |delivered0|, PAGE, i);
      DeliverOne(stream, start, delivered, page[i]);
      delivered := delivered + [page[i]];
      if IsTerminalEvent(page[i]) {
        return delivered, true;
      }
      assert delivered == delivered0 + page[..i + 1];
    }
  }

  /** The stream as the rounds before i have seen it. */
  function Seen(rounds: seq<Round>, i: nat): seq<Event>
    requires i <= |rounds|
  {
    if i == 0 then [] else if rounds[i - 1].Read? then rounds[i - 1].events else Seen(rounds, i - 1)
  }

  lemma {:induction false} SeenIsOld(rounds: seq<Round>, i: nat, j: nat)
    requires Grows(rounds) && i <= j < |rounds| && rounds[j].Read?
    ensures IsStream(Seen(rounds, i)) && Seen(rounds, i) <= rounds[j].events
  {
    if i > 0 && !rounds[i - 1].Read? {
      SeenIsOld(rounds, i - 1, j);
    }
  }

  lemma {:induction false} SeenGrows(rounds: seq<Round>, i: nat, j: nat, start: nat, delivered: seq<Event>)
    requires Grows(rounds) && i <= j <= |rounds| && IsSegment(Seen(rounds, i), start, delivered)
    ensures IsSegment(Seen(rounds, j), start, delivered)
  {
    if i < j {
      SeenGrows(rounds, i, j - 1, start, delivered);
      if rounds[j - 1].Read? {
        SeenIsOld(rounds, j - 1, j - 1);
        SegmentGrows(Seen(rounds, j - 1), rounds[j - 1].events, start, delivered);
      }
    }
  }

  /** A read continues right behind what has been delivered. */
  lemma ReadsOn(rounds: seq<Round>, i: nat, start: nat, delivered: seq<Event>, lastEventId: string)
    requires Grows(rounds) && i < |rounds| && rounds[i].Read? && Ongoing(Seen(rounds, i), start, delivered)
    requires IsEventId(lastEventId) && EventKey(lastEventId).0 == start
    ensures IsStream(rounds[i].events) && Ongoing(rounds[i].events, start, delivered)
    ensures IsEventId(CursorAfter(lastEventId, delivered))
    ensures EventKey(CursorAfter(lastEventId, delivered)).0 == start + |delivered|
  {
    SeenIsOld(rounds, i, i);
    CursorOfSegment(Seen(rounds, i), start, delivered, lastEventId);
    SegmentGrows(Seen(rounds, i), rounds[i].events, start, delivered);
  }

  /** What a round reads when n events of the stream are delivered or skipped. */
  function Fetched(round: Round, n: nat): seq<Event> {
    if round.Read? then Take(From(round.events, n), PAGE) else []
  }

  /** How many events the rounds before i have read. */
  function ReadBefore(rounds: seq<Round>, i: nat, start: nat): nat
    requires i <= |rounds|
  {
    if i == 0 then 0
    else
      var n := ReadBefore(rounds, i - 1, start);
      n + |Fetched(rounds[i - 1], start + n)|
  }

  /** What round i reads, if all rounds before it were served. */
  function PageOf(rounds: seq<Round>, i: nat, start: nat): seq<Event>
    requires i < |rounds|
  {
    Fetched(rounds[i], start + ReadBefore(rounds, i, start))
  }

  /** The run is over and the round reads nothing. */
  predicate FallsSilent(rounds: seq<Round>, i: nat, start: nat)
    requires i < |rounds|
  {
    rounds[i].over && PageOf(rounds, i, start) == []
  }

  /** Some round reads a terminal event, and none before it falls silent. */
  predicate ReadsTerminal(rounds: seq<Round>, start: nat) {
    exists n :: 0 <= n < |rounds| && HasTerminal(PageOf(rounds, n, start)) && forall m :: 0 <= m < n ==>
        !FallsSilent(rounds, m, start)
  }

  /** No round before i reads a terminal event or falls silent. */
  predicate Undecided(rounds: seq<Round>, i: nat, start: nat)
    requires i <= |rounds|
  {
    forall m :: 0 <= m < i ==> !HasTerminal(PageOf(rounds, m, start)) && !FallsSilent(rounds, m, start)
  }

  lemma StillUndecided(rounds: seq<Round>, i: nat, start: nat)
    requires i < |rounds| && Undecided(rounds, i, start)
    requires !HasTerminal(PageOf(rounds, i, start)) && !FallsSilent(rounds, i, start)
    ensures Undecided(rounds, i + 1, start)
  {
  }

  lemma TerminalIsRead(rounds: seq<Round>, i: nat, start: nat)
    requires i < |rounds| && Undecided(rounds, i, start) && HasTerminal(PageOf(rounds, i, start))
    ensures ReadsTerminal(rounds, start)
  {
  }

  lemma NoTerminalIsRead(rounds: seq<Round>, i: nat, start: nat)
    requires i <= |rounds| && Undecided(rounds, i, start) && (i < |rounds| ==> FallsSilent(rounds, i, start))
    ensures !ReadsTerminal(rounds, start)
  {
  }

  method ReadRound(round: Round, cursor: string, ghost n: nat) returns (page: seq<Event>)
    requires round.Read? ==> IsStream(round.events) && IsEventId(cursor) && EventKey(cursor).0 == n
    ensures page == Fetched(round, n)
  {
    page := [];
    if round.Read? {
      page := Available(round.events, cursor, PAGE);
    }
  }

  /** The state of the outer loop before round i. */
  predicate Serving(rounds: seq<Round>, i: nat, lastEventId: string, start: nat, delivered: seq<Event>, cursor: string)
    requires i <= |rounds|
  {
    && Ongoing(Seen(rounds, i), start, delivered)
    && |delivered| == ReadBefore(rounds, i, start)
    && cursor == CursorAfter(lastEventId, delivered)
  }

  lemma NothingRead(rounds: seq<Round>, i: nat, lastEventId: string, start: nat, delivered: seq<Event>, cursor: string)
    requires Grows(rounds) && i < |rounds| && Serving(rounds, i, lastEventId, start, delivered, cursor)
    requires Fetched(rounds[i], start + |delivered|) == []
    ensures Serving(rounds, i + 1, lastEventId, start, delivered, cursor)
  {
    SeenGrows(rounds, i, i + 1, start, delivered);
  }

  lemma PageRead(rounds: seq<Round>, i: nat, lastEventId: string, start: nat, delivered: seq<Event>, cursor: string,
                 page: seq<Event>)
    requires i < |rounds| && Serving(rounds, i, lastEventId, start, delivered, cursor)
    requires page == Fetched(rounds[i], start + |delivered|) && page != []
    requires Ongoing(rounds[i].events, start, delivered + page)
    ensures Serving(rounds, i + 1, lastEventId, start, delivered + page, page[|page| - 1].id)
  {
    assert Seen(rounds, i + 1) == rounds[i].events;
    assert ReadBefore(rounds, i + 1, start) == |delivered| + |page|;
    assert CursorAfter(lastEventId, delivered + page) == page[|page| - 1].id;
  }

  lemma ServingStarts(rounds: seq<Round>, lastEventId: string, start: nat)
    ensures Serving(rounds, 0, lastEventId, start, [], lastEventId) && Undecided(rounds, 0, start)
  {
  }

  /** One round: it stops behind a terminal event, or where nothing was read and the run is over. */
  method ServeRound(round: Round, delivered0: seq<Event>, cursor0: string,
                    ghost rounds: seq<Round>, ghost i: nat, ghost lastEventId: string, ghost start: nat)
    returns (delivered: seq<Event>, cursor: string, stop: bool)
    requires Grows(rounds) && i < |rounds| && round == rounds[i]
    requires Serving(rounds, i, lastEventId, start, delivered0, cursor0)
    requires IsEventId(lastEventId) && EventKey(lastEventId).0 == start
    ensures !stop ==> Serving(rounds, i + 1, lastEventId, start, delivered, cursor)
    ensures stop ==> IsSegment(Seen(rounds, i + 1), start, delivered)
    ensures stop ==>
      Ended(delivered) || (delivered == delivered0 && round.over && Fetched(round, start + |delivered|) == [])
    ensures stop <==>
      HasTerminal(Fetched(round, start + |delivered0|)) || (round.over && Fetched(round, start + |delivered0|) == [])
    ensures Ended(delivered) <==> HasTerminal(Fetched(round, start + |delivered0|))
  {
    delivered, cursor := delivered0, cursor0;
    if round.Read? {
      ReadsOn(rounds, i, start, delivered, lastEventId);
    }
    var page := ReadRound(round, cursor, start + |delivered|);
    if page == [] {
      NothingRead(rounds, i, lastEventId, start, delivered, cursor);
      return delivered, cursor, round.over;
    }
    delivered, stop := DeliverPage(page, round.events, start, delivered);
    cursor := page[|page| - 1].id;
    if !stop {
      PageRead(rounds, i, lastEventId, start, delivered0, cursor0, page);
    }
  }

  /** `generate`: any number of rounds over a growing stream, until it returns or the client is gone.
      What it delivers is a gap-free segment of the stream right after the cursor, and a terminal
      event is delivered only as the last one. It delivers all that the rounds read, and it stops
      early only behind a terminal event or where the run is over and nothing was read. It delivers a
      terminal event exactly when a round reads one and no round before it finds the run over and
      nothing to read. */
  method Generate(lastEventId: string, rounds: seq<Round>) returns (delivered: seq<Event>, ghost done: nat)
    requires IsEventId(lastEventId) && Grows(rounds)
    ensures IsSegment(Seen(rounds, |rounds|), EventKey(lastEventId).0, delivered)
    ensures done <= |rounds|
    ensures Ended(delivered) <==> ReadsTerminal(rounds, EventKey(lastEventId).0)
    ensures !Ended(delivered) ==> |delivered| == ReadBefore(rounds, done, EventKey(lastEventId).0)
    ensures !Ended(delivered) && done < |rounds| ==>
      rounds[done].over && Fetched(rounds[done], EventKey(lastEventId).0 + |delivered|) == []
  {
    hide ReadsTerminal, HasTerminal, Fetched, IsTerminalEvent, Undecided, Seen, IsSegment, EventKey;
    ghost var start := EventKey(lastEventId).0;
    delivered := [];
    var cursor := lastEventId;
    ServingStarts(rounds, lastEventId, start);
    for i := 0 to |rounds|
      invariant Serving(rounds, i, lastEventId, start, delivered, cursor)
      invariant Undecided(rounds, i, start)
    {
      var stop;
      delivered, cursor, stop := ServeRound(rounds[i], delivered, cursor, rounds, i, lastEventId, start);
      if stop {
        SeenGrows(rounds, i + 1, |rounds|, start, delivered);
        if Ended(delivered) {
          TerminalIsRead(rounds, i, start);
        } else {
          NoTerminalIsRead(rounds, i, start);
        }
        return delivered, i;
      }
      StillUndecided(rounds, i, start);
    }
    NoTerminalIsRead(rounds, |rounds|, start);
    done := |rounds|;
  }

  /** A wait that times out on a run that is over ends the stream without a terminal event. */
  lemma TimeoutFallsSilent(start: nat)
    ensures Grows([TimedOut(true)]) && FallsSilent([TimedOut(true)], 0, start)
      && !ReadsTerminal([TimedOut(true)], start)
  {
  }

  // ---------------------------------------------------------------- reconnecting

  /** A client that reconnects with the id of the last event it has: the two connections together
      deliver one gap-free segment of the stream, without a repeat. */
  lemma ReconnectContinues(stream: seq<Event>, longer: seq<Event>, lastEventId: string, first: seq<Event>,
                           second: seq<Event>)
    requires IsStream(stream) && stream <= longer && IsEventId(lastEventId)
    requires IsSegment(stream, EventKey(lastEventId).0, first) && !Ended(first)
    requires IsEventId(CursorAfter(lastEventId, first))
    requires IsSegment(longer, EventKey(CursorAfter(lastEventId, first)).0, second)
    ensures IsSegment(longer, EventKey(lastEventId).0, first + second)
  {
    var start := EventKey(lastEventId).0;
    SegmentGrows(stream, longer, start, first);
    CursorOfSegment(stream, start, first, lastEventId);
    JoinSegments(longer, start, first, second);
  }

  lemma JoinSegments(stream: seq<Event>, start: nat, first: seq<Event>, second: seq<Event>)
    requires Ongoing(stream, start, first) && IsSegment(stream, start + |first|, second)
    ensures IsSegment(stream, start, first + second)
  {
    var both := first + second;
    if second == [] {
      assert both == first;
    } else if first == [] {
      assert both == second;
    } else {
      assert both == stream[start..start + |first|] + stream[start + |first|..start + |both|];
      assert both == stream[start..start + |both|];
      assert forall i :: 0 <= i < |first| ==> !IsTerminalEvent(first[i]);
    }
  }

  /** No event is delivered twice, and the delivered ids rise: they are the ids of consecutive events. */
  lemma SegmentIds(stream: seq<Event>, start: nat, delivered: seq<Event>, i: nat)
    requires IsStream(stream) && IsSegment(stream, start, delivered) && i < |delivered|
    ensures IsEventId(delivered[i].id) && EventKey(delivered[i].id) == (start + i + 1, 0)
  {
    assert delivered[i] == stream[start + i];
    EventIdRoundTrip(start + i + 1);
  }
}
