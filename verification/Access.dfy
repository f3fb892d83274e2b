// Who may write to a conversation and who may cancel its runs.
module Access {
  import opened Entities
  import opened Tables
  import opened Conversations
  import opened Protocol
  import opened Invariants
  import opened StatusWrites
  import opened Idempotency
  import Text

  /** The conversation is stored for the caller's tenant, and the caller owns it or may read all of them. */
  predicate MayUse(t: Tables, ctx: AuthContext, conversation: Id) {
    conversation in t.conversations && t.conversations[conversation].tenant == ctx.tenant
    && (t.conversations[conversation].owner == ctx.user || ctx.readAny)
  }

  /** Some run of the caller's tenant has this key, conversation and stripped content. */
  predicate AskedBefore(t: Tables, q: Request) {
    exists i :: 0 <= i < |t.runs| && t.runs[i].identity.tenant == q.ctx.tenant && t.runs[i].identity.key == q.key
      && t.runs[i].identity.conversation == q.conversation
      && t.runs[i].identity.fingerprint.content == Text.Strip(q.content)
  }

  predicate KeyIsFree(t: Tables, q: Request) {
    forall i :: 0 <= i < |t.runs| ==>
      !(t.runs[i].identity.tenant == q.ctx.tenant && t.runs[i].identity.key == q.key)
  }

  /** A new turn is begun only under a free key, by the owner of the conversation or a caller who may
      read all of them; and whenever a run is inserted, its lookup had allowed just that. */
  lemma WhoMayAsk(t: Tables, snapshot: Tables, q: Request, messageId: Id, runId: Id, token: nat)
    ensures PrepareLookup(snapshot, q).Proceed?
      <==> KeyIsFree(snapshot, q) && MayUse(snapshot, q.ctx, q.conversation)
    ensures Prepare(t, snapshot, q, messageId, runId, token).0 != t ==>
      KeyIsFree(snapshot, q) && MayUse(snapshot, q.ctx, q.conversation)
  {
    var i := FindKey(snapshot.runs, q.ctx.tenant, q.key);
    if i.Some? {
      assert !KeyIsFree(snapshot, q);
    }
  }

  /** Anybody else changes no row. What such a caller is given is decided by the key alone: the
      existing run where the same question was asked before, since a replay does not ask for access,
      and otherwise an error. */
  lemma StrangersWriteNothing(cfg: Config, steps: seq<Step>, t: Tables, q: Request, messageId: Id, runId: Id,
                              token: nat)
    requires !MayUse(Run(cfg, INITIAL, steps).tables, q.ctx, q.conversation)
    ensures var snapshot := Run(cfg, INITIAL, steps).tables;
      var (t', r) := Prepare(t, snapshot, q, messageId, runId, token);
      && t' == t
      && (r.Ok? <==> AskedBefore(snapshot, q))
      && (r.Ok? ==> r.value.replayed)
  {
    hide GivesBack;
    var snapshot := Run(cfg, INITIAL, steps).tables;
    WhoMayAsk(t, snapshot, q, messageId, runId, token);
    ReachableStatuses(cfg, steps);
    KeyDecides(snapshot, q);
    if GetRunByKey(snapshot, q.ctx.tenant, q.key).Some? {
      ReplayExactlyOnMatch(cfg, steps, q);
    }
  }

  /** The key names at most one run, so whether the question was asked before is seen at that run. */
  lemma KeyDecides(t: Tables, q: Request)
    requires RunRowsOk(t)
    ensures var i := FindKey(t.runs, q.ctx.tenant, q.key);
      AskedBefore(t, q) <==>
        i.Some? && t.runs[i.value].identity.conversation == q.conversation
        && t.runs[i.value].identity.fingerprint.content == Text.Strip(q.content)
  {
    hide RunRowOk;
    var i := FindKey(t.runs, q.ctx.tenant, q.key);
    if AskedBefore(t, q) {
      var k :| 0 <= k < |t.runs| && t.runs[k].identity.tenant == q.ctx.tenant && t.runs[k].identity.key == q.key
        && t.runs[k].identity.conversation == q.conversation
        && t.runs[k].identity.fingerprint.content == Text.Strip(q.content);
      assert i.Some? && i.value == k;
    }
  }

  /** The run of this id, seen by this caller. */
  predicate MayCancel(t: Tables, ctx: AuthContext, runId: Id) {
    exists i :: 0 <= i < |t.runs| && t.runs[i].identity.id == runId && t.runs[i].identity.tenant == ctx.tenant
      && MayUse(t, ctx, t.runs[i].identity.conversation)
  }

  /** Cancelling is open to the same callers: in every reachable state it goes on exactly for them, and
      for anybody else it gives an error and leaves the rows as they were. */
  lemma WhoMayCancel(cfg: Config, steps: seq<Step>, t: Tables, ctx: AuthContext, runId: Id)
    ensures var snapshot := Run(cfg, INITIAL, steps).tables;
      && (CancelLookup(snapshot, ctx, runId).Ok? <==> MayCancel(snapshot, ctx, runId))
      && (!MayCancel(snapshot, ctx, runId) ==>
        Cancel(t, snapshot, ctx, runId).0 == t && Cancel(t, snapshot, ctx, runId).1.Err?)
  {
    ReachableStatuses(cfg, steps);
    CancelDecided(Run(cfg, INITIAL, steps).tables, ctx, runId);
  }

  lemma CancelDecided(t: Tables, ctx: AuthContext, runId: Id)
    requires RunRowsOk(t)
    ensures CancelLookup(t, ctx, runId).Ok? <==> MayCancel(t, ctx, runId)
  {
    hide RunRowOk;
    var i := FindRun(t.runs, ctx.tenant, runId);
    if MayCancel(t, ctx, runId) {
      var k :| 0 <= k < |t.runs| && t.runs[k].identity.id == runId && t.runs[k].identity.tenant == ctx.tenant
        && MayUse(t, ctx, t.runs[k].identity.conversation);
      assert i.Some? && i.value == k;
    }
  }
}
