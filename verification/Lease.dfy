// The Redis lease of infrastructure/redis/lease.py: one key per conversation with a time to live,
// an owner value, two compare-and-act scripts, and a fence counter that never expires.
module Lease {
  import opened Entities

  datatype Key = Key(tenant: Id, conversation: Id)

  datatype Entry = Entry(owner: Id, expires: nat)

  /** The server: its clock in milliseconds, the lease keys and the fence counters. */
  datatype Server = Server(now: nat, leases: map<Key, Entry>, fences: map<Key, nat>) {
    /** GET on a lease key: an expired key reads as absent. */
    function Owner(key: Key): Option<Id> {
      if key in leases && now < leases[key].expires then Some(leases[key].owner) else None
    }

    function Fence(key: Key): nat {
      if key in fences then fences[key] else 0
    }
  }

  /** SET NX PX */
  function SetNx(s: Server, key: Key, owner: Id, ttl: nat): (Server, bool) {
    if s.Owner(key).Some? then (s, false)
    else (s.(leases := s.leases[key := Entry(owner, s.now + ttl)]), true)
  }

  /** The renew script. */
  function Renewed(s: Server, key: Key, owner: Id, ttl: nat): (Server, bool) {
    if s.Owner(key) != Some(owner) then (s, false)
    else (s.(leases := s.leases[key := Entry(owner, s.now + ttl)]), true)
  }

  /** The release script. */
  function Released(s: Server, key: Key, owner: Id): Server {
    if s.Owner(key) != Some(owner) then s else s.(leases := s.leases - {key})
  }

  /** INCR on the fence key. */
  function Incremented(s: Server, key: Key): Server {
    s.(fences := s.fences[key := s.Fence(key) + 1])
  }

  // ---------------------------------------------------------------- the objects

  class Redis {
    var now: nat
    var leases: map<Key, Entry>
    var fences: map<Key, nat>

    constructor ()
      ensures State() == Server(0, map[], map[])
    {
      now, leases, fences := 0, map[], map[];
    }

    function State(): Server
      reads this
    {
      Server(now, leases, fences)
    }

    method Set(key: Key, owner: Id, ttl: nat) returns (acquired: bool)
      modifies this`leases
      ensures (State(), acquired) == SetNx(old(State()), key, owner, ttl)
    {
      if key in leases && now < leases[key].expires {
        return false;
      }
      leases := leases[key := Entry(owner, now + ttl)];
      return true;
    }

    method Incr(key: Key) returns (value: nat)
      modifies this`fences
      ensures State() == Incremented(old(State()), key) && value == State().Fence(key)
    {
      value := (if key in fences then fences[key] else 0) + 1;
      fences := fences[key := value];
    }

    method EvalRenew(key: Key, owner: Id, ttl: nat) returns (ok: bool)
      modifies this`leases
      ensures (State(), ok) == Renewed(old(State()), key, owner, ttl)
    {
      if key in leases && now < leases[key].expires && leases[key].owner == owner {
        leases := leases[key := Entry(owner, now + ttl)];
        return true;
      }
      return false;
    }

    method EvalRelease(key: Key, owner: Id)
      modifies this`leases
      ensures State() == Released(old(State()), key, owner)
    {
      if key in leases && now < leases[key].expires && leases[key].owner == owner {
        leases := leases - {key};
      }
    }
  }

  class ConversationLease {
    const redis: Redis
    const ttl: nat
    const key: Key
    const owner: Id
    const fencingToken: nat
    var lost: bool

    constructor (redis: Redis, ttl: nat, key: Key, owner: Id, token: nat)
      ensures this.redis == redis && this.ttl == ttl && this.key == key && this.owner == owner
      ensures fencingToken == token && !lost
    {
      this.redis, this.ttl, this.key, this.owner := redis, ttl, key, owner;
      fencingToken := token;
      lost := false;
    }

    /** `ok` is false where the code raises. */
    method EnsureValid() returns (ok: bool)
      modifies this`lost, redis`leases
      ensures ok == (!old(lost) && old(redis.State()).Owner(key) == Some(owner))
      ensures lost == !ok
      ensures redis.State() == if ok then Renewed(old(redis.State()), key, owner, ttl).0 else old(redis.State())
    {
      if lost {
        return false;
      }
      var renewed := redis.EvalRenew(key, owner, ttl);
      if !renewed {
        lost := true;
        return false;
      }
      return true;
    }

    /** One round of the renewal loop, which does not look at `lost`; the loop ends with its first
        failure. */
    method RenewRound() returns (goOn: bool)
      modifies this`lost, redis`leases
      ensures (redis.State(), goOn) == Renewed(old(redis.State()), key, owner, ttl)
      ensures lost == (old(lost) || !goOn)
    {
      goOn := redis.EvalRenew(key, owner, ttl);
      if !goOn {
        lost := true;
      }
    }
  }

  class RedisLeaseManager {
    const redis: Redis
    const ttl: nat

    constructor (redis: Redis, ttlSeconds: nat)
      ensures this.redis == redis && ttl == ttlSeconds * 1000
    {
      this.redis := redis;
      ttl := ttlSeconds * 1000;
    }

    /** The part of `hold` before its body: null where the code raises because the conversation is
        busy. In a run of many managers, other commands come between the two that this sends. */
    method Enter(key: Key, owner: Id) returns (lease: ConversationLease?)
      modifies redis
      ensures (lease == null) == old(redis.State()).Owner(key).Some?
      ensures lease == null ==> redis.State() == old(redis.State())
      ensures lease != null ==>
        fresh(lease) && lease.redis == redis && lease.ttl == ttl && lease.key == key && lease.owner == owner
      ensures lease != null ==> !lease.lost && lease.fencingToken == old(redis.State()).Fence(key) + 1
      ensures lease != null ==> redis.State() == Incremented(SetNx(old(redis.State()), key, owner, ttl).0, key)
    {
      var acquired := redis.Set(key, owner, ttl);
      if !acquired {
        return null;
      }
      var token := redis.Incr(key);
      lease := new ConversationLease(redis, ttl, key, owner, token);
    }

    /** The part of `hold` after its body. */
    method Exit(lease: ConversationLease)
      requires lease.redis == redis
      modifies redis
      ensures redis.State() == Released(old(redis.State()), lease.key, lease.owner)
    {
      redis.EvalRelease(lease.key, lease.owner);
    }
  }

  // ---------------------------------------------------------------- any number of holders

  datatype Stage = Starting | Acquired | Working(token: nat) | Over

  /** `looping`: the renewal loop has not ended yet. */
  datatype Holder = Holder(key: Key, stage: Stage, lost: bool, looping: bool)

  /** Owner values are fresh for every `hold`, so they name the holders. */
  datatype World = World(server: Server, holders: map<Id, Holder>)

  const START := World(Server(0, map[], map[]), map[])

  datatype Step =
    | Wait(ms: nat)
    | Begin(owner: Id, key: Key)
    | SendSet(owner: Id)
    | SendIncr(owner: Id)
    | RenewLoop(owner: Id)
    | EnsureValid(owner: Id)
    | SendRelease(owner: Id)
    | Crash(owner: Id)

  function SetStep(ttl: nat, s: World, owner: Id): World
    requires owner in s.holders
  {
    var h := s.holders[owner];
    if h.stage != Starting then s
    else
      var (server, ok) := SetNx(s.server, h.key, owner, ttl);
      World(server, s.holders[owner := h.(stage := if ok then Acquired else Over)])
  }

  function IncrStep(s: World, owner: Id): World
    requires owner in s.holders
  {
    var h := s.holders[owner];
    if h.stage != Acquired then s
    else World(Incremented(s.server, h.key), s.holders[owner := h.(stage := Working(s.server.Fence(h.key) + 1))])
  }

  /** A round of the renewal loop: it asks whatever `lost` says, and ends with its first failure. */
  function LoopStep(ttl: nat, s: World, owner: Id): World
    requires owner in s.holders
  {
    var h := s.holders[owner];
    if !h.stage.Working? || !h.looping then s
    else
      var (server, ok) := Renewed(s.server, h.key, owner, ttl);
      World(server, s.holders[owner := h.(lost := h.lost || !ok, looping := ok)])
  }

  /** `ensure_valid`: it asks unless the lease is lost. */
  function EnsureStep(ttl: nat, s: World, owner: Id): World
    requires owner in s.holders
  {
    var h := s.holders[owner];
    if !h.stage.Working? || h.lost then s
    else
      var (server, ok) := Renewed(s.server, h.key, owner, ttl);
      World(server, s.holders[owner := h.(lost := !ok)])
  }

  function ReleaseStep(s: World, owner: Id): World
    requires owner in s.holders
  {
    var h := s.holders[owner];
    if !h.stage.Working? then s
    else World(Released(s.server, h.key, owner), s.holders[owner := h.(stage := Over)])
  }

  function Apply(ttl: nat, s: World, step: Step): World {
    match step
    case Wait(ms) => s.(server := s.server.(now := s.server.now + ms))
    case Begin(owner, key) => if owner in s.holders then s
        else s.(holders := s.holders[owner := Holder(key, Starting, false, true)])
    case SendSet(owner) => if owner in s.holders then SetStep(ttl, s, owner) else s
    case SendIncr(owner) => if owner in s.holders then IncrStep(s, owner) else s
    case RenewLoop(owner) => if owner in s.holders then LoopStep(ttl, s, owner) else s
    case EnsureValid(owner) => if owner in s.holders then EnsureStep(ttl, s, owner) else s
    case SendRelease(owner) => if owner in s.holders then ReleaseStep(s, owner) else s
    case Crash(owner) => if owner in s.holders then s.(holders := s.holders[owner := s.holders[owner].(stage := Over)])
        else s
  }

  /** The world before step n of a run. */
  function At(ttl: nat, steps: seq<Step>, n: nat): World
    requires n <= |steps|
  {
    if n == 0 then START else Apply(ttl, At(ttl, steps, n - 1), steps[n - 1])
  }

  /** The server would name this holder if asked now. */
  predicate Holds(s: World, owner: Id) {
    owner in s.holders && s.server.Owner(s.holders[owner].key) == Some(owner)
  }

  /** This step is a successful acquisition by the owner. */
  predicate Acquires(s: World, step: Step, owner: Id) {
    step == SendSet(owner) && owner in s.holders && s.holders[owner].stage == Starting
    && s.server.Owner(s.holders[owner].key).None?
  }

  /** This step is a successful renewal by the owner. */
  predicate Renews(s: World, step: Step, owner: Id) {
    && Holds(s, owner) && s.holders[owner].stage.Working?
    && ((step == RenewLoop(owner) && s.holders[owner].looping)
      || (step == EnsureValid(owner) && !s.holders[owner].lost))
  }

  /** The step draws the owner's fencing token. */
  predicate Draws(s: World, step: Step, owner: Id) {
    step == SendIncr(owner) && owner in s.holders && s.holders[owner].stage == Acquired
  }

  // ---------------------------------------------------------------- exclusion

  /** Once begun, a holder keeps its key; once past Starting, it stays past it. */
  lemma {:induction false} HolderPersists(ttl: nat, steps: seq<Step>, m: nat, n: nat, owner: Id)
    requires m <= n <= |steps| && owner in At(ttl, steps, m).holders
    ensures owner in At(ttl, steps, n).holders
    ensures At(ttl, steps, n).holders[owner].key == At(ttl, steps, m).holders[owner].key
    ensures At(ttl, steps, m).holders[owner].stage != Starting ==> At(ttl, steps, n).holders[owner].stage != Starting
    ensures At(ttl, steps, m).server.now <= At(ttl, steps, n).server.now
  {
    if m < n {
      HolderPersists(ttl, steps, m, n - 1, owner);
    }
  }

  /** While a key is held, no step of anyone but its owner touches it. */
  lemma OthersLeaveKey(ttl: nat, s: World, step: Step, key: Key, owner: Id)
    requires s.server.Owner(key) == Some(owner)
    requires step != SendRelease(owner) && step != RenewLoop(owner) && step != EnsureValid(owner)
    ensures key in Apply(ttl, s, step).server.leases && Apply(ttl, s, step).server.leases[key] == s.server.leases[key]
  {
  }

  /** From a grant on, the key keeps its owner and at least the granted time. */
  lemma {:induction false} GrantLasts(ttl: nat, steps: seq<Step>, i: nat, n: nat, owner: Id)
    requires i < n <= |steps|
    requires Acquires(At(ttl, steps, i), steps[i], owner) || Renews(At(ttl, steps, i), steps[i], owner)
    requires forall m :: i < m < n ==> steps[m] != SendRelease(owner)
    requires At(ttl, steps, n).server.now < At(ttl, steps, i).server.now + ttl
    ensures var key, server := At(ttl, steps, i).holders[owner].key, At(ttl, steps, n).server;
      && key in server.leases && server.leases[key].owner == owner
      && server.leases[key].expires >= At(ttl, steps, i).server.now + ttl
  {
    if n > i + 1 {
      var key := At(ttl, steps, i).holders[owner].key;
      HolderPersists(ttl, steps, i, n - 1, owner);
      HolderPersists(ttl, steps, n - 1, n, owner);
      GrantLasts(ttl, steps, i, n - 1, owner);
      if steps[n - 1] != RenewLoop(owner) && steps[n - 1] != EnsureValid(owner) {
        OthersLeaveKey(ttl, At(ttl, steps, n - 1), steps[n - 1], key, owner);
      }
    }
  }

  /** Timed exclusion: for `ttl` milliseconds after its last grant, an owner that has not released
      is the one the server names, whatever any holder does. */
  lemma GrantExcludes(ttl: nat, steps: seq<Step>, i: nat, n: nat, owner: Id, other: Id)
    requires i < n < |steps|
    requires Acquires(At(ttl, steps, i), steps[i], owner) || Renews(At(ttl, steps, i), steps[i], owner)
    requires forall m :: i < m < n ==> steps[m] != SendRelease(owner)
    requires At(ttl, steps, n).server.now < At(ttl, steps, i).server.now + ttl
    requires other != owner && other in At(ttl, steps, n).holders
    requires At(ttl, steps, n).holders[other].key == At(ttl, steps, i).holders[owner].key
    ensures Holds(At(ttl, steps, n), owner)
    ensures !Acquires(At(ttl, steps, n), steps[n], other) && !Renews(At(ttl, steps, n), steps[n], other)
  {
    HolderPersists(ttl, steps, i, n, owner);
    GrantLasts(ttl, steps, i, n, owner);
  }

  // ---------------------------------------------------------------- a lease that lapsed

  /** A holder past its acquisition that does not hold its key never holds it again. */
  lemma {:induction false} LapsedForGood(ttl: nat, steps: seq<Step>, m: nat, n: nat, owner: Id)
    requires m <= n <= |steps| && owner in At(ttl, steps, m).holders
    requires At(ttl, steps, m).holders[owner].stage != Starting && !Holds(At(ttl, steps, m), owner)
    ensures !Holds(At(ttl, steps, n), owner)
  {
    if m < n {
      LapsedForGood(ttl, steps, m, n - 1, owner);
      HolderPersists(ttl, steps, m, n - 1, owner);
      StaysLapsed(ttl, At(ttl, steps, n - 1), steps[n - 1], owner);
    }
  }

  lemma StaysLapsed(ttl: nat, s: World, step: Step, owner: Id)
    requires owner in s.holders && s.holders[owner].stage != Starting && !Holds(s, owner)
    ensures !Holds(Apply(ttl, s, step), owner)
  {
  }

  lemma PastGrant(ttl: nat, steps: seq<Step>, i: nat, m: nat, owner: Id)
    requires i < m <= |steps|
    requires Acquires(At(ttl, steps, i), steps[i], owner) || Renews(At(ttl, steps, i), steps[i], owner)
    ensures var h := At(ttl, steps, m).holders;
      owner in h && h[owner].stage != Starting && h[owner].key == At(ttl, steps, i).holders[owner].key
  {
    HolderPersists(ttl, steps, i + 1, m, owner);
  }

  lemma {:induction false} UnrenewedExpiry(ttl: nat, steps: seq<Step>, i: nat, n: nat, owner: Id)
    requires i < n <= |steps|
    requires Acquires(At(ttl, steps, i), steps[i], owner) || Renews(At(ttl, steps, i), steps[i], owner)
    requires forall m :: i < m < n ==> steps[m] !in {SendRelease(owner), RenewLoop(owner), EnsureValid(owner)}
    requires Holds(At(ttl, steps, n), owner)
    ensures var key := At(ttl, steps, i).holders[owner].key;
      key in At(ttl, steps, n).server.leases
      && At(ttl, steps, n).server.leases[key].expires == At(ttl, steps, i).server.now + ttl
  {
    HolderPersists(ttl, steps, i, n, owner);
    if n > i + 1 {
      PastGrant(ttl, steps, i, n - 1, owner);
      if !Holds(At(ttl, steps, n - 1), owner) {
        LapsedForGood(ttl, steps, n - 1, n, owner);
      }
      UnrenewedExpiry(ttl, steps, i, n - 1, owner);
      assert steps[n - 1] !in {SendRelease(owner), RenewLoop(owner), EnsureValid(owner)};
      OthersLeaveKey(ttl, At(ttl, steps, n - 1), steps[n - 1], At(ttl, steps, i).holders[owner].key, owner);
    }
  }

  /** A grant that is neither renewed nor released lasts exactly its time to live. */
  lemma GrantLastsExactly(ttl: nat, steps: seq<Step>, i: nat, n: nat, owner: Id)
    requires i < n <= |steps|
    requires Acquires(At(ttl, steps, i), steps[i], owner) || Renews(At(ttl, steps, i), steps[i], owner)
    requires forall m :: i < m < n ==> steps[m] !in {SendRelease(owner), RenewLoop(owner), EnsureValid(owner)}
    ensures Holds(At(ttl, steps, n), owner) <==> At(ttl, steps, n).server.now < At(ttl, steps, i).server.now + ttl
  {
    HolderPersists(ttl, steps, i, n, owner);
    if At(ttl, steps, n).server.now < At(ttl, steps, i).server.now + ttl {
      forall m | i < m < n
        ensures steps[m] != SendRelease(owner)
      {
        assert steps[m] !in {SendRelease(owner), RenewLoop(owner), EnsureValid(owner)};
      }
      GrantLasts(ttl, steps, i, n, owner);
    } else if Holds(At(ttl, steps, n), owner) {
      UnrenewedExpiry(ttl, steps, i, n, owner);
    }
  }

  /** What a passed `ensure_valid` tells: the owner has held the key at every moment since it
      acquired it, so nobody else was granted the lease in between. */
  lemma ValidMeansHeldThroughout(ttl: nat, steps: seq<Step>, i: nat, m: nat, n: nat, owner: Id)
    requires i < m <= n < |steps|
    requires Acquires(At(ttl, steps, i), steps[i], owner) && Renews(At(ttl, steps, n), steps[n], owner)
    ensures Holds(At(ttl, steps, m), owner)
    ensures forall other ::
      (other != owner && other in At(ttl, steps, m).holders
       && At(ttl, steps, m).holders[other].key == At(ttl, steps, m).holders[owner].key)
      ==> !Acquires(At(ttl, steps, m), steps[m], other)
  {
    PastGrant(ttl, steps, i, m, owner);
    if !Holds(At(ttl, steps, m), owner) {
      LapsedForGood(ttl, steps, m, n, owner);
    }
  }

  /** A holder that has found its lease lost has lost it: every renewal that it still sends fails. */
  lemma {:induction false} LostMeansLapsed(ttl: nat, steps: seq<Step>, n: nat, owner: Id)
    requires n <= |steps| && owner in At(ttl, steps, n).holders && At(ttl, steps, n).holders[owner].lost
    ensures At(ttl, steps, n).holders[owner].stage != Starting && !Holds(At(ttl, steps, n), owner)
  {
    var before := At(ttl, steps, n - 1);
    if owner in before.holders && before.holders[owner].lost {
      LostMeansLapsed(ttl, steps, n - 1, owner);
      StaysLapsed(ttl, before, steps[n - 1], owner);
    }
  }

  predicate Works(s: World, owner: Id) {
    owner in s.holders && s.holders[owner].stage.Working?
  }

  /** Nothing that a lapsed owner still sends changes the lease of its successor or of any other key. */
  lemma LapsedOwnerIsHarmless(ttl: nat, steps: seq<Step>, m: nat, n: nat, owner: Id, step: Step)
    requires m <= n <= |steps| && owner in At(ttl, steps, m).holders
    requires At(ttl, steps, m).holders[owner].stage != Starting && !Holds(At(ttl, steps, m), owner)
    requires step == RenewLoop(owner) || step == EnsureValid(owner) || step == SendRelease(owner)
      || step == SendIncr(owner)
    ensures Apply(ttl, At(ttl, steps, n), step).server.leases == At(ttl, steps, n).server.leases
    ensures step == EnsureValid(owner) && Works(At(ttl, steps, n), owner)
      ==> Apply(ttl, At(ttl, steps, n), step).holders[owner].lost
    ensures step == RenewLoop(owner) && Works(At(ttl, steps, n), owner)
      ==> !Apply(ttl, At(ttl, steps, n), step).holders[owner].looping
  {
    LapsedForGood(ttl, steps, m, n, owner);
    HolderPersists(ttl, steps, m, n, owner);
  }

  /** A holder that releases while it holds the key frees it at once, for whoever asks next. */
  lemma ReleaseFrees(ttl: nat, steps: seq<Step>, n: nat, owner: Id, other: Id)
    requires n < |steps| && steps[n] == SendRelease(owner)
    requires Works(At(ttl, steps, n), owner) && Holds(At(ttl, steps, n), owner)
    requires other in At(ttl, steps, n).holders && At(ttl, steps, n).holders[other].stage == Starting
    requires At(ttl, steps, n).holders[other].key == At(ttl, steps, n).holders[owner].key
    ensures At(ttl, steps, n + 1).server.Owner(At(ttl, steps, n).holders[owner].key) == None
    ensures var s := At(ttl, steps, n + 1);
      !Holds(s, owner) && Acquires(s, SendSet(other), other)
      && Apply(ttl, s, SendSet(other)).holders[other].stage == Acquired
  {
    assert At(ttl, steps, n + 1) == Apply(ttl, At(ttl, steps, n), SendRelease(owner));
  }

  // ---------------------------------------------------------------- fencing tokens

  lemma {:induction false} FenceNeverFalls(ttl: nat, steps: seq<Step>, m: nat, n: nat, key: Key)
    requires m <= n <= |steps|
    ensures At(ttl, steps, m).server.Fence(key) <= At(ttl, steps, n).server.Fence(key)
  {
    if m < n {
      FenceNeverFalls(ttl, steps, m, n - 1, key);
    }
  }

  /** The token that an owner draws at step k. */
  function TokenAt(ttl: nat, steps: seq<Step>, k: nat, owner: Id): nat
    requires k < |steps| && Draws(At(ttl, steps, k), steps[k], owner)
  {
    At(ttl, steps, k + 1).holders[owner].stage.token
  }

  /** Tokens of one conversation are numbered in the order in which they are drawn. */
  lemma TokensFollowDraws(ttl: nat, steps: seq<Step>, k: nat, l: nat, owner: Id, other: Id)
    requires k < |steps| && l < |steps|
    requires Draws(At(ttl, steps, k), steps[k], owner) && Draws(At(ttl, steps, l), steps[l], other)
    requires At(ttl, steps, k).holders[owner].key == At(ttl, steps, l).holders[other].key
    ensures TokenAt(ttl, steps, k, owner) < TokenAt(ttl, steps, l, other) <==> k < l
    ensures TokenAt(ttl, steps, k, owner) == TokenAt(ttl, steps, l, other) <==> k == l
  {
    var key := At(ttl, steps, k).holders[owner].key;
    if k < l {
      FenceNeverFalls(ttl, steps, k + 1, l, key);
    } else if l < k {
      FenceNeverFalls(ttl, steps, l + 1, k, key);
    }
  }

  /** Tokens agree with the order of acquisition if the earlier owner still held the key when it
      drew its token: it then drew before the later one even acquired. */
  lemma TokensFollowAcquisitions(ttl: nat, steps: seq<Step>, i: nat, j: nat, k: nat, l: nat, owner: Id, other: Id)
    requires i < j < |steps| && k < |steps| && l < |steps|
    requires Acquires(At(ttl, steps, i), steps[i], owner) && Acquires(At(ttl, steps, j), steps[j], other)
    requires Draws(At(ttl, steps, k), steps[k], owner) && Draws(At(ttl, steps, l), steps[l], other)
    requires At(ttl, steps, i).holders[owner].key == At(ttl, steps, j).holders[other].key
    requires Holds(At(ttl, steps, k), owner)
    ensures k < j < l
    ensures TokenAt(ttl, steps, k, owner) < TokenAt(ttl, steps, l, other)
  {
    AcquiresBeforeDraw(ttl, steps, i, k, owner);
    AcquiresBeforeDraw(ttl, steps, j, l, other);
    HeldUntilSuccessor(ttl, steps, i, j, k, owner, other);
    TokensFollowDraws(ttl, steps, k, l, owner, other);
  }

  lemma HeldUntilSuccessor(ttl: nat, steps: seq<Step>, i: nat, j: nat, k: nat, owner: Id, other: Id)
    requires i < j < |steps| && k <= |steps|
    requires Acquires(At(ttl, steps, i), steps[i], owner) && Acquires(At(ttl, steps, j), steps[j], other)
    requires At(ttl, steps, i).holders[owner].key == At(ttl, steps, j).holders[other].key
    requires Holds(At(ttl, steps, k), owner)
    ensures k < j
  {
    PastGrant(ttl, steps, i, j, owner);
    if j <= k {
      LapsedForGood(ttl, steps, j, k, owner);
    }
  }

  lemma AcquiresBeforeDraw(ttl: nat, steps: seq<Step>, i: nat, k: nat, owner: Id)
    requires i < |steps| && k < |steps|
    requires Acquires(At(ttl, steps, i), steps[i], owner) && Draws(At(ttl, steps, k), steps[k], owner)
    ensures i < k && At(ttl, steps, k).holders[owner].key == At(ttl, steps, i).holders[owner].key
  {
    if k <= i {
      HolderPersists(ttl, steps, k, i, owner);
    } else {
      HolderPersists(ttl, steps, i, k, owner);
    }
  }

  /** For two acquisitions of one conversation, in this order: the tokens agree with them exactly when
      the earlier owner draws first. If it does not, it no longer holds the key when it draws. */
  lemma TokensAgreeIff(ttl: nat, steps: seq<Step>, i: nat, j: nat, k: nat, l: nat, owner: Id, other: Id)
    requires i < j < |steps| && k < |steps| && l < |steps|
    requires Acquires(At(ttl, steps, i), steps[i], owner) && Acquires(At(ttl, steps, j), steps[j], other)
    requires Draws(At(ttl, steps, k), steps[k], owner) && Draws(At(ttl, steps, l), steps[l], other)
    requires At(ttl, steps, i).holders[owner].key == At(ttl, steps, j).holders[other].key
    ensures TokenAt(ttl, steps, k, owner) < TokenAt(ttl, steps, l, other) <==> k < l
    ensures l <= k ==> !Holds(At(ttl, steps, k), owner)
  {
    AcquiresBeforeDraw(ttl, steps, i, k, owner);
    AcquiresBeforeDraw(ttl, steps, j, l, other);
    TokensFollowDraws(ttl, steps, k, l, owner, other);
    if Holds(At(ttl, steps, k), owner) {
      HeldUntilSuccessor(ttl, steps, i, j, k, owner, other);
    }
  }

  /** Without that condition the order can be inverted: an owner that is stopped between its two
      commands for longer than `ttl` draws a higher token than its successor. */
  lemma LapsedDrawInvertsTokens(ttl: nat, key: Key, first: Id, second: Id) returns (steps: seq<Step>)
    requires first != second
    ensures |steps| == 7
    ensures Acquires(At(ttl, steps, 2), steps[2], first) && Acquires(At(ttl, steps, 4), steps[4], second)
    ensures Draws(At(ttl, steps, 6), steps[6], first) && Draws(At(ttl, steps, 5), steps[5], second)
    ensures TokenAt(ttl, steps, 6, first) > TokenAt(ttl, steps, 5, second)
  {
    steps := [Begin(first, key), Begin(second, key), SendSet(first), Wait(ttl), SendSet(second), SendIncr(second),
              SendIncr(first)];
    var s2 := World(START.server,
                    map[first := Holder(key, Starting, false, true), second := Holder(key, Starting, false, true)]);
    assert At(ttl, steps, 2) == s2 by {
      assert At(ttl, steps, 1) == Apply(ttl, At(ttl, steps, 0), steps[0]);
    }
    var s3 := Apply(ttl, s2, SendSet(first));
    var s4 := Apply(ttl, s3, Wait(ttl));
    assert At(ttl, steps, 3) == s3 && At(ttl, steps, 4) == s4;
    var s5 := Apply(ttl, s4, SendSet(second));
    assert At(ttl, steps, 5) == s5;
    var s6 := Apply(ttl, s5, SendIncr(second));
    assert At(ttl, steps, 6) == s6;
    TokensFollowDraws(ttl, steps, 5, 6, second, first);
  }
}
