/**
 One lock key of the distributed lock, command by command: a counter that hands out tokens and itself expires, the lock set
 with a token if it is free, and a release that deletes the lock only if it still carries the caller's token. Any number
 of calls run interleaved, each command a step, with time passing in between.
 */
module LockFencing {
  import opened Results

  const FENCE_TTL: nat := 3_600_000

  // The lock as stored; `owner` is the call that set it, which Redis does not know.
  datatype Lock = Lock(token: nat, owner: nat, expiresAt: nat)

  // The counter as stored. `generation` counts how often it started again from nothing; Redis does not know it either.
  datatype Fence = Fence(value: nat, expiresAt: Option<nat>, generation: nat)

  datatype Phase = Counted | Armed(armedAt: nat) | Held(armedAt: nat) | Refused

  datatype Call = Call(token: nat, generation: nat, phase: Phase)

  datatype Redis = Redis(now: nat, lock: Option<Lock>, fence: Fence, calls: map<nat, Call>)

  const EMPTY_REDIS := Redis(0, None, Fence(0, Some(0), 0), map[])

  datatype Command =
    | Wait(time: nat)
    | Incr(call: nat)
    | Pexpire(call: nat)
    | SetNx(call: nat, ttl: nat)
    | Release(call: nat)
    | Crash(call: nat)

  // A key is gone from its expiry on.
  predicate FenceLives(r: Redis) {
    r.fence.expiresAt.Some? ==> r.now < r.fence.expiresAt.value
  }

  predicate LockLives(r: Redis) {
    r.lock.Some? && r.now < r.lock.value.expiresAt
  }

  function WithCall(r: Redis, id: nat, call: Call): Redis {
    r.(calls := r.calls[id := call])
  }

  // Incrementing a missing counter starts it at one, without expiry; otherwise its expiry stays.
  function Counting(r: Redis, id: nat): Redis {
    var fence := if FenceLives(r) then r.fence.(value := r.fence.value + 1) else Fence(1, None, r.fence.generation + 1);
    WithCall(r.(fence := fence), id, Call(fence.value, fence.generation, Counted))
  }

  function Arming(r: Redis, id: nat, call: Call): Redis {
    var fence := if FenceLives(r) then r.fence.(expiresAt := Some(r.now + FENCE_TTL)) else r.fence;
    WithCall(r.(fence := fence), id, call.(phase := Armed(r.now)))
  }

  function Setting(r: Redis, id: nat, call: Call, ttl: nat): Redis
    requires call.phase.Armed?
  {
    if LockLives(r) then WithCall(r, id, call.(phase := Refused))
    else WithCall(r.(lock := Some(Lock(call.token, id, r.now + ttl))), id, call.(phase := Held(call.phase.armedAt)))
  }

  // The compare-and-delete script.
  function Releasing(r: Redis, call: Call): Redis {
    if LockLives(r) && r.lock.value.token == call.token then r.(lock := None) else r
  }

  function Next(r: Redis, c: Command): Redis {
    match c
    case Wait(time) => r.(now := r.now + time)
    case Incr(id) => if id in r.calls then r else Counting(r, id)
    case Pexpire(id) => if id in r.calls && r.calls[id].phase.Counted? then Arming(r, id, r.calls[id]) else r
    case SetNx(id, ttl) => if id in r.calls && r.calls[id].phase.Armed? then Setting(r, id, r.calls[id], ttl) else r
    case Release(id) => if id in r.calls && r.calls[id].phase.Held? then Releasing(r, r.calls[id]) else r
    case Crash(id) => if id in r.calls then WithCall(r, id, r.calls[id].(phase := Refused)) else r
  }

  function Run(commands: seq<Command>): Redis {
    if commands == [] then EMPTY_REDIS else Next(Run(commands[..|commands| - 1]), commands[|commands| - 1])
  }

  // ----- The two assumptions -----

  ghost predicate SomeCounting(r: Redis) {
    exists id :: id in r.calls && r.calls[id].phase.Counted?
  }

  /** The counter does not run out while some call is between its INCR and its PEXPIRE, and a call sets its lock within the
      counter's lifetime after its PEXPIRE. The lock's own lifetime is free. */
  ghost predicate Timely(r: Redis, c: Command) {
    match c
    case Wait(_) => SomeCounting(r) ==> FenceLives(Next(r, c))
    case SetNx(id, _) => id in r.calls && r.calls[id].phase.Armed? ==> r.now < r.calls[id].phase.armedAt + FENCE_TTL
    case _ => true
  }

  ghost predicate AllTimely(commands: seq<Command>) {
    commands != [] ==>
      var init := commands[..|commands| - 1];
      AllTimely(init) && Timely(Run(init), commands[|commands| - 1])
  }

  // ----- Tokens -----

  predicate IsArmed(call: Call) {
    call.phase.Armed? || call.phase.Held?
  }

  /** A call of the running generation has a token the counter has passed, and the counter outlives it; a call of an earlier
      generation is older than the counter's lifetime. */
  ghost predicate CallFits(r: Redis, call: Call) {
    && call.generation <= r.fence.generation
    && (IsArmed(call) ==> call.phase.armedAt <= r.now)
    && (call.generation == r.fence.generation ==> call.token <= r.fence.value)
    && (call.generation == r.fence.generation && IsArmed(call) ==>
          r.fence.expiresAt.Some? && call.phase.armedAt + FENCE_TTL <= r.fence.expiresAt.value)
    && (call.generation < r.fence.generation && IsArmed(call) ==> call.phase.armedAt + FENCE_TTL <= r.now)
    && (call.phase.Counted? ==> call.generation == r.fence.generation && FenceLives(r))
  }

  ghost predicate CallsFit(r: Redis) {
    forall id <- r.calls :: CallFits(r, r.calls[id])
  }

  ghost predicate TokensDistinct(r: Redis) {
    forall a, b :: a in r.calls && b in r.calls && a != b ==>
      !(r.calls[a].generation == r.calls[b].generation && r.calls[a].token == r.calls[b].token)
  }

  /** The lock belongs to the call that set it, and while it lives no call of a later generation holds a token. */
  ghost predicate LockFits(r: Redis) {
    LockLives(r) ==>
      var lock := r.lock.value;
      && lock.owner in r.calls && r.calls[lock.owner].token == lock.token
      && forall id <- r.calls :: r.calls[id].phase.Held? ==> r.calls[id].generation <= r.calls[lock.owner].generation
  }

  ghost predicate FenceFits(r: Redis) {
    r.fence.expiresAt.Some? ==> r.fence.expiresAt.value <= r.now + FENCE_TTL
  }

  ghost predicate Fenced(r: Redis) {
    FenceFits(r) && CallsFit(r) && TokensDistinct(r) && LockFits(r)
  }

  lemma WaitKeeps(r: Redis, time: nat, next: Redis)
    requires Fenced(r) && Timely(r, Wait(time)) && next == Next(r, Wait(time))
    ensures Fenced(next)
  {
    forall id | id in next.calls ensures CallFits(next, next.calls[id]) {
      assert CallFits(r, r.calls[id]);
      assert r.calls[id].phase.Counted? ==> SomeCounting(r);
    }
  }

  lemma IncrKeeps(r: Redis, id: nat, next: Redis)
    requires Fenced(r) && id !in r.calls && next == Counting(r, id)
    ensures Fenced(next)
  {
    forall k | k in next.calls ensures CallFits(next, next.calls[k]) {
      if k != id {
        assert CallFits(r, r.calls[k]);
        assert next.calls[k] == r.calls[k];
      }
    }
    forall a, b | a in next.calls && b in next.calls && a != b
      ensures !(next.calls[a].generation == next.calls[b].generation && next.calls[a].token == next.calls[b].token)
    {
      assert a != id ==> CallFits(r, r.calls[a]);
      assert b != id ==> CallFits(r, r.calls[b]);
    }
    if LockLives(r) {
      assert CallFits(r, r.calls[r.lock.value.owner]);
    }
  }

  lemma PexpireKeeps(r: Redis, id: nat, next: Redis)
    requires Fenced(r) && id in r.calls && r.calls[id].phase.Counted? && next == Arming(r, id, r.calls[id])
    ensures Fenced(next)
  {
    assert CallFits(r, r.calls[id]);
    forall k | k in next.calls ensures CallFits(next, next.calls[k]) {
      assert CallFits(r, r.calls[k]);
    }
    OthersKeepTokens(r, next, id);
  }

  // A call that changes only its phase keeps the tokens apart.
  lemma OthersKeepTokens(r: Redis, next: Redis, id: nat)
    requires TokensDistinct(r) && id in r.calls && id in next.calls && next.calls == r.calls[id := next.calls[id]]
    requires next.calls[id].token == r.calls[id].token && next.calls[id].generation == r.calls[id].generation
    ensures TokensDistinct(next)
  {
    assert forall k <- next.calls :: next.calls[k].token == r.calls[k].token && next.calls[k].generation == r.calls[k].generation;
  }

  lemma SetNxKeeps(r: Redis, id: nat, ttl: nat, next: Redis)
    requires Fenced(r) && Timely(r, SetNx(id, ttl))
    requires id in r.calls && r.calls[id].phase.Armed? && next == Setting(r, id, r.calls[id], ttl)
    ensures Fenced(next)
  {
    assert CallFits(r, r.calls[id]);
    forall k | k in next.calls ensures CallFits(next, next.calls[k]) {
      assert CallFits(r, r.calls[k]);
    }
    OthersKeepTokens(r, next, id);
  }

  lemma CrashKeeps(r: Redis, id: nat, next: Redis)
    requires Fenced(r) && id in r.calls && next == WithCall(r, id, r.calls[id].(phase := Refused))
    ensures Fenced(next)
  {
    assert CallFits(r, r.calls[id]);
    forall k | k in next.calls ensures CallFits(next, next.calls[k]) {
      assert CallFits(r, r.calls[k]);
    }
    OthersKeepTokens(r, next, id);
  }

  lemma ReleaseKeeps(r: Redis, call: Call)
    requires Fenced(r)
    ensures Fenced(Releasing(r, call))
  {
    forall k | k in r.calls ensures CallFits(Releasing(r, call), r.calls[k]) {
      assert CallFits(r, r.calls[k]);
    }
  }

  lemma CommandKeepsFenced(r: Redis, c: Command, next: Redis)
    requires Fenced(r) && Timely(r, c) && next == Next(r, c)
    ensures Fenced(next)
  {
    match c
    case Wait(time) => WaitKeeps(r, time, next);
    case Incr(id) =>
      if id !in r.calls { IncrKeeps(r, id, next); }
    case Pexpire(id) =>
      if id in r.calls && r.calls[id].phase.Counted? { PexpireKeeps(r, id, next); }
    case SetNx(id, ttl) =>
      if id in r.calls && r.calls[id].phase.Armed? { SetNxKeeps(r, id, ttl, next); }
    case Release(id) =>
      if id in r.calls && r.calls[id].phase.Held? { ReleaseKeeps(r, r.calls[id]); }
    case Crash(id) =>
      if id in r.calls { CrashKeeps(r, id, next); }
  }

  lemma {:induction false} RunIsFenced(commands: seq<Command>)
    requires AllTimely(commands)
    ensures Fenced(Run(commands))
  {
    if commands != [] {
      var init := commands[..|commands| - 1];
      RunIsFenced(init);
      CommandKeepsFenced(Run(init), commands[|commands| - 1], Run(commands));
    }
  }

  lemma ReleaseFreesOnlyItsOwn(r: Redis, id: nat)
    requires Fenced(r) && id in r.calls && r.calls[id].phase.Held? && r.now < r.calls[id].phase.armedAt + FENCE_TTL
    ensures LockLives(r) ==> Next(r, Release(id)) == if r.lock.value.owner == id then r.(lock := None) else r
  {
    assert CallFits(r, r.calls[id]);
  }

  /** A release within the counter's lifetime deletes the lock if and only if the releasing call itself set it; a stale token
      never frees the lock of another call, however the commands of all calls interleave. */
  lemma StaleReleaseIsHarmless(commands: seq<Command>, id: nat, r: Redis)
    requires AllTimely(commands) && r == Run(commands)
    requires id in r.calls && r.calls[id].phase.Held? && r.now < r.calls[id].phase.armedAt + FENCE_TTL
    ensures LockLives(r) ==> Next(r, Release(id)) == if r.lock.value.owner == id then r.(lock := None) else r
  {
    assert Fenced(r) by {
      RunIsFenced(commands);
    }
    ReleaseFreesOnlyItsOwn(r, id);
  }

  // ----- Mutual exclusion -----

  // The call's SET was answered with OK.
  predicate Sets(r: Redis, c: Command, id: nat, next: Redis) {
    c.SetNx? && c.call == id && id in next.calls && next.calls[id].phase.Held? && !(id in r.calls && r.calls[id].phase.Held?)
  }

  /** Until when a call may take the lock for its own: from the moment its SET is answered, for its ttl, or until it releases it. */
  function Lease(commands: seq<Command>, id: nat): Option<nat> {
    if commands == [] then None
    else
      var init, c := commands[..|commands| - 1], commands[|commands| - 1];
      if Sets(Run(init), c, id, Run(commands)) then Some(Run(init).now + c.ttl)
      else if c == Release(id) && id in Run(init).calls && Run(init).calls[id].phase.Held? then None
      else Lease(init, id)
  }

  predicate Leased(commands: seq<Command>, id: nat) {
    Lease(commands, id).Some? && Run(commands).now < Lease(commands, id).value
  }

  // A release by another call deletes this call's lock.
  predicate FreesAnothers(r: Redis, c: Command, id: nat, next: Redis) {
    c.Release? && c.call != id && r.lock.Some? && r.lock.value.owner == id && next.lock.None?
  }

  predicate Undisturbed(commands: seq<Command>, id: nat) {
    commands == []
    || (Undisturbed(commands[..|commands| - 1], id)
        && !FreesAnothers(Run(commands[..|commands| - 1]), commands[|commands| - 1], id, Run(commands)))
  }

  // A leased lock stands as the call set it.
  predicate Standing(r: Redis, id: nat, lease: Option<nat>) {
    lease.Some? ==>
      && id in r.calls && (r.calls[id].phase.Held? || r.calls[id].phase.Refused?)
      && (r.now < lease.value ==> r.lock == Some(Lock(r.calls[id].token, id, lease.value)))
  }

  // A living lock is leased by the call that set it.
  predicate OwnerStands(r: Redis, id: nat, lease: Option<nat>) {
    LockLives(r) && r.lock.value.owner == id ==>
      id in r.calls && r.calls[id].token == r.lock.value.token && lease == Some(r.lock.value.expiresAt)
  }

  lemma CommandKeepsStanding(r: Redis, c: Command, id: nat, lease: Option<nat>, next: Redis, later: Option<nat>)
    requires next == Next(r, c) && Standing(r, id, lease) && OwnerStands(r, id, lease)
    requires later == if Sets(r, c, id, next) then Some(r.now + c.ttl)
                      else if c == Release(id) && id in r.calls && r.calls[id].phase.Held? then None else lease
    requires !FreesAnothers(r, c, id, next)
    ensures Standing(next, id, later) && OwnerStands(next, id, later)
  {
  }

  /** In every run, as long as no other call's release has deleted it, the lock a call has set is that call's, under its token, until
      its ttl is over or it gives it back; and a living lock is always the lock of a call that was told so. */
  lemma {:induction false} LeasedLockStands(commands: seq<Command>, id: nat)
    requires Undisturbed(commands, id)
    ensures Standing(Run(commands), id, Lease(commands, id)) && OwnerStands(Run(commands), id, Lease(commands, id))
  {
    if commands != [] {
      var init, c := commands[..|commands| - 1], commands[|commands| - 1];
      LeasedLockStands(init, id);
      CommandKeepsStanding(Run(init), c, id, Lease(init, id), Run(commands), Lease(commands, id));
    }
  }

  /** A lease lasts for the ttl asked for, from the SET that was answered with OK. */
  lemma {:induction false} LeaseIsFromItsSet(commands: seq<Command>, id: nat) returns (k: nat)
    requires Lease(commands, id).Some?
    ensures k < |commands| && commands[k].SetNx? && commands[k].call == id
    ensures Lease(commands, id).value == Run(commands[..k]).now + commands[k].ttl
  {
    var init, c := commands[..|commands| - 1], commands[|commands| - 1];
    if Sets(Run(init), c, id, Run(commands)) {
      k := |init|;
    } else {
      k := LeaseIsFromItsSet(init, id);
      assert commands[..k] == init[..k];
    }
  }

  /** Mutual exclusion: no two calls hold a lease at the same time. */
  lemma MutualExclusion(commands: seq<Command>, a: nat, b: nat)
    requires Undisturbed(commands, a) && Undisturbed(commands, b) && Leased(commands, a) && Leased(commands, b)
    ensures a == b
  {
    LeasedLockStands(commands, a);
    LeasedLockStands(commands, b);
  }

  /** While a call holds a lease no other call's SET is answered with OK, and the lock stays as it is. */
  lemma NobodyElseSets(commands: seq<Command>, a: nat, b: nat, ttl: nat, next: Redis)
    requires Undisturbed(commands, a) && Leased(commands, a) && a != b && next == Run(commands + [SetNx(b, ttl)])
    ensures !Sets(Run(commands), SetNx(b, ttl), b, next) && next.lock == Run(commands).lock
  {
    LeasedLockStands(commands, a);
    RunSnoc(commands, SetNx(b, ttl));
  }

  /** A SET is answered with OK exactly if nobody holds a lease, and otherwise changes nothing. */
  lemma SetsExactlyWhenNobodyLeases(commands: seq<Command>, id: nat, ttl: nat, r: Redis, next: Redis)
    requires (forall k :: Undisturbed(commands, k)) && r == Run(commands) && next == Run(commands + [SetNx(id, ttl)])
    requires id in r.calls && r.calls[id].phase.Armed?
    ensures Sets(r, SetNx(id, ttl), id, next) <==> forall k :: !Leased(commands, k)
    ensures next.lock == if Sets(r, SetNx(id, ttl), id, next) then Some(Lock(r.calls[id].token, id, r.now + ttl)) else r.lock
    ensures !Sets(r, SetNx(id, ttl), id, next) ==> next.calls[id].phase.Refused?
  {
    RunSnoc(commands, SetNx(id, ttl));
    if LockLives(r) {
      assert Undisturbed(commands, r.lock.value.owner);
      LeasedLockStands(commands, r.lock.value.owner);
      assert Leased(commands, r.lock.value.owner);
    }
    forall k | Leased(commands, k) ensures LockLives(r) {
      assert Undisturbed(commands, k);
      LeasedLockStands(commands, k);
    }
  }

  // A call gives its lock back within the counter's lifetime.
  predicate Prompt(r: Redis, c: Command) {
    c.Release? && c.call in r.calls && r.calls[c.call].phase.Held? ==> r.now < r.calls[c.call].phase.armedAt + FENCE_TTL
  }

  predicate AllPrompt(commands: seq<Command>) {
    commands == [] || (AllPrompt(commands[..|commands| - 1]) && Prompt(Run(commands[..|commands| - 1]), commands[|commands| - 1]))
  }

  /** In a timely run with prompt releases no call ever loses its lock to another's release. */
  lemma {:induction false} TimelyIsUndisturbed(commands: seq<Command>, id: nat)
    requires AllTimely(commands) && AllPrompt(commands)
    ensures Undisturbed(commands, id)
  {
    if commands != [] {
      var init, c := commands[..|commands| - 1], commands[|commands| - 1];
      TimelyIsUndisturbed(init, id);
      if c.Release? && c.call in Run(init).calls && Run(init).calls[c.call].phase.Held? {
        StaleReleaseIsHarmless(init, c.call, Run(init));
      }
    }
  }

  /** Three commands in a row take a free lock and are refused a living one. */
  lemma AcquireDecides(r: Redis, id: nat, ttl: nat, r1: Redis, r2: Redis, r3: Redis)
    requires id !in r.calls && r1 == Next(r, Incr(id)) && r2 == Next(r1, Pexpire(id)) && r3 == Next(r2, SetNx(id, ttl))
    ensures id in r1.calls && r1.calls[id].phase.Counted? && id in r2.calls && r2.calls[id].phase.Armed? && id in r3.calls
    ensures if LockLives(r) then r3.calls[id].phase.Refused? && r3.lock == r.lock
            else r3.calls[id].phase.Held? && r3.lock == Some(Lock(r3.calls[id].token, id, r.now + ttl))
  {
  }

  // ----- Why every assumption is needed -----

  lemma RunSnoc(commands: seq<Command>, c: Command)
    ensures Run(commands + [c]) == Next(Run(commands), c)
  {
    assert (commands + [c])[..|commands|] == commands;
  }

  // One call's commands up to its lock, on a key that is free and whose counter has run out.
  lemma FreshAcquire(before: seq<Command>, id: nat, ttl: nat) returns (commands: seq<Command>)
    requires var r := Run(before); id !in r.calls && !FenceLives(r) && !LockLives(r)
    ensures
      var r := Run(before);
      Run(commands) == Redis(r.now, Some(Lock(1, id, r.now + ttl)), Fence(1, Some(r.now + FENCE_TTL), r.fence.generation + 1),
                             r.calls[id := Call(1, r.fence.generation + 1, Held(r.now))])
  {
    var c1 := before + [Incr(id)];
    var c2 := c1 + [Pexpire(id)];
    commands := c2 + [SetNx(id, ttl)];
    RunSnoc(before, Incr(id));
    RunSnoc(c1, Pexpire(id));
    RunSnoc(c2, SetNx(id, ttl));
    AcquireSteps(Run(before), id, ttl);
  }

  lemma AcquireSteps(r: Redis, id: nat, ttl: nat)
    requires id !in r.calls && !FenceLives(r) && !LockLives(r)
    ensures Next(Next(Next(r, Incr(id)), Pexpire(id)), SetNx(id, ttl))
            == Redis(r.now, Some(Lock(1, id, r.now + ttl)), Fence(1, Some(r.now + FENCE_TTL), r.fence.generation + 1),
                     r.calls[id := Call(1, r.fence.generation + 1, Held(r.now))])
  {
    var r1 := Next(r, Incr(id));
    assert r1.calls[id] == Call(1, r.fence.generation + 1, Counted);
    var r2 := Next(r1, Pexpire(id));
    assert r2.calls[id] == Call(1, r.fence.generation + 1, Armed(r.now));
  }

  /** A call that keeps its token for as long as the counter lives can free the lock of the next holder. */
  lemma LateReleaseFreesAnothersLock(ttl: nat) returns (commands: seq<Command>)
    requires 0 < ttl <= FENCE_TTL
    ensures
      var r := Run(commands);
      && LockLives(r) && r.lock.value.owner == 1 && 0 in r.calls && r.calls[0].phase == Held(0) && r.now == FENCE_TTL
      && Next(r, Release(0)).lock == None
  {
    var first := FreshAcquire([], 0, ttl);
    RunSnoc(first, Wait(FENCE_TTL));
    commands := FreshAcquire(first + [Wait(FENCE_TTL)], 1, ttl);
  }

  /** A call that sets its lock after the counter has run out can lose it to a call that came in between. */
  lemma LateSetLosesItsLock(ttl: nat) returns (commands: seq<Command>)
    requires 0 < ttl < FENCE_TTL
    ensures
      var r := Run(commands);
      && LockLives(r) && r.lock.value.owner == 0 && 1 in r.calls && r.calls[1].phase.Held?
      && r.now < r.calls[1].phase.armedAt + FENCE_TTL
      && Next(r, Release(1)).lock == None
  {
    var c0 := [Incr(0)];
    var c1 := c0 + [Pexpire(0)];
    var c2 := c1 + [Wait(FENCE_TTL)];
    assert [Incr(0)][..0] == [];
    RunSnoc(c0, Pexpire(0));
    RunSnoc(c1, Wait(FENCE_TTL));
    assert Run(c2).calls == map[0 := Call(1, 1, Armed(0))] && Run(c2).lock == None;
    var c3 := FreshAcquire(c2, 1, ttl);
    var c4 := c3 + [Wait(ttl)];
    RunSnoc(c3, Wait(ttl));
    commands := c4 + [SetNx(0, ttl)];
    RunSnoc(c4, SetNx(0, ttl));
  }

  /** So can a call whose counter ran out between its INCR and its PEXPIRE, long before its time is over. */
  lemma LateExpiryFreesAnothersLock(ttl: nat) returns (commands: seq<Command>)
    requires 0 < ttl < FENCE_TTL
    ensures
      var r := Run(commands);
      && LockLives(r) && r.lock.value.owner == 3 && 1 in r.calls && r.calls[1].phase.Held?
      && r.now < r.calls[1].phase.armedAt + FENCE_TTL
      && Next(r, Release(1)).lock == None
  {
    var before := ExpiryInBetween();
    commands := ExpiryEnds(before, ttl);
  }

  // Call 1 counts just before the counter runs out.
  lemma ExpiryInBetween() returns (commands: seq<Command>)
    ensures
      var r := Run(commands);
      && r.now == FENCE_TTL && r.lock == None && !FenceLives(r) && r.fence.generation == 1
      && r.calls == map[0 := Call(1, 1, Armed(0)), 1 := Call(2, 1, Counted)]
  {
    var c0 := [Incr(0)];
    var c1 := c0 + [Pexpire(0)];
    var c2 := c1 + [Wait(FENCE_TTL - 1)];
    var c3 := c2 + [Incr(1)];
    commands := c3 + [Wait(1)];
    assert [Incr(0)][..0] == [];
    RunSnoc(c0, Pexpire(0));
    RunSnoc(c1, Wait(FENCE_TTL - 1));
    RunSnoc(c2, Incr(1));
    RunSnoc(c3, Wait(1));
    assert Run(c2).calls == map[0 := Call(1, 1, Armed(0))];
  }

  // Calls 2 and 3 count from nothing, and 3 gets the token of 1.
  lemma ExpiryEnds(before: seq<Command>, ttl: nat) returns (commands: seq<Command>)
    requires 0 < ttl < FENCE_TTL
    requires
      var r := Run(before);
      && r.lock == None && !FenceLives(r) && r.fence.generation == 1
      && r.calls == map[0 := Call(1, 1, Armed(0)), 1 := Call(2, 1, Counted)]
    ensures
      var r := Run(commands);
      && LockLives(r) && r.lock.value.owner == 3 && 1 in r.calls && r.calls[1].phase.Held?
      && r.now < r.calls[1].phase.armedAt + FENCE_TTL
      && Next(r, Release(1)).lock == None
  {
    var c1 := before + [Incr(2)];
    var c2 := c1 + [Incr(3)];
    var c3 := c2 + [Pexpire(1)];
    var c4 := c3 + [Pexpire(3)];
    RunSnoc(before, Incr(2));
    RunSnoc(c1, Incr(3));
    assert Run(c2).calls[1] == Call(2, 1, Counted) && Run(c2).calls[3] == Call(2, 2, Counted);
    RunSnoc(c2, Pexpire(1));
    RunSnoc(c3, Pexpire(3));
    commands := SameTokens(c4, ttl);
  }

  lemma SameTokens(before: seq<Command>, ttl: nat) returns (commands: seq<Command>)
    requires 0 < ttl < FENCE_TTL
    requires
      var r := Run(before);
      && r.lock == None && 1 in r.calls && 3 in r.calls
      && r.calls[1].phase == Armed(r.now) && r.calls[3].phase == Armed(r.now) && r.calls[1].token == r.calls[3].token
    ensures
      var r := Run(commands);
      && LockLives(r) && r.lock.value.owner == 3 && 1 in r.calls && r.calls[1].phase.Held?
      && r.now < r.calls[1].phase.armedAt + FENCE_TTL
      && Next(r, Release(1)).lock == None
  {
    var c1 := before + [SetNx(1, ttl)];
    var c2 := c1 + [Wait(ttl)];
    commands := c2 + [SetNx(3, ttl)];
    RunSnoc(before, SetNx(1, ttl));
    RunSnoc(c1, Wait(ttl));
    RunSnoc(c2, SetNx(3, ttl));
  }
}
