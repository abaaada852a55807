/**
 Taking several locks at once: all keys in order or none, releasing everything before waiting, giving up at a deadline.
 Other clients act, keys expire and Redis may fail between any two commands.
 */
module WithLocks {
  import opened Results

  // ----- Keys in order -----

  /** JavaScript's default order of strings: by their characters. */
  predicate Before(a: string, b: string) {
    if a == [] then b != []
    else b != [] && (a[0] < b[0] || (a[0] == b[0] && Before(a[1..], b[1..])))
  }

  lemma {:induction false} BeforeIsTransitive(a: string, b: string, c: string)
    requires Before(a, b) && Before(b, c)
    ensures Before(a, c)
  {
    if a != [] && a[0] == b[0] && b[0] == c[0] {
      BeforeIsTransitive(a[1..], b[1..], c[1..]);
    }
  }

  lemma {:induction false} BeforeIsTotal(a: string, b: string)
    ensures Before(a, b) || a == b || Before(b, a)
    ensures !(Before(a, b) && Before(b, a)) && !Before(a, a)
  {
    if a != [] && b != [] && a[0] == b[0] {
      BeforeIsTotal(a[1..], b[1..]);
      assert a == [a[0]] + a[1..] && b == [b[0]] + b[1..];
    }
    if a != [] {
      BeforeIsTotal(a[1..], a[1..]);
    }
  }

  ghost predicate Ordered(keys: seq<string>) {
    forall i, j :: 0 <= i < j < |keys| ==> Before(keys[i], keys[j])
  }

  // One more key in its place, unless it is there.
  function Placed(keys: seq<string>, key: string): seq<string> {
    if keys == [] then [key]
    else if key == keys[0] then keys
    else if Before(key, keys[0]) then [key] + keys
    else [keys[0]] + Placed(keys[1..], key)
  }

  function DistinctSorted(keys: seq<string>): seq<string> {
    if keys == [] then [] else Placed(DistinctSorted(keys[..|keys| - 1]), keys[|keys| - 1])
  }

  lemma {:induction false} PlacedIsOrdered(keys: seq<string>, key: string)
    requires Ordered(keys)
    ensures Ordered(Placed(keys, key))
    ensures forall k :: k in Placed(keys, key) <==> k in keys || k == key
  {
    if keys != [] && key != keys[0] {
      BeforeIsTotal(key, keys[0]);
      if Before(key, keys[0]) {
        forall j | 0 < j < |keys| ensures Before(key, keys[j]) {
          BeforeIsTransitive(key, keys[0], keys[j]);
        }
      } else {
        var rest := Placed(keys[1..], key);
        PlacedIsOrdered(keys[1..], key);
        assert keys == [keys[0]] + keys[1..];
        forall j | 0 <= j < |rest| ensures Before(keys[0], rest[j]) {
          assert rest[j] in keys[1..] || rest[j] == key;
        }
      }
    }
  }

  /** The keys a call locks: each once, strictly increasing. */
  lemma {:induction false} DistinctSortedKeys(keys: seq<string>)
    ensures Ordered(DistinctSorted(keys))
    ensures forall k :: k in DistinctSorted(keys) <==> k in keys
  {
    if keys != [] {
      var init, last := keys[..|keys| - 1], keys[|keys| - 1];
      DistinctSortedKeys(init);
      PlacedIsOrdered(DistinctSorted(init), last);
      assert keys == init + [last];
    }
  }

  // ----- Redis, shared with other clients -----

  // A lock key's value, and the call that set it.
  datatype Entry = Entry(token: nat, owner: nat)

  /** What others and the clock may do between two commands of call `me`: anything but set keys in its name. */
  predicate OthersOnly(me: nat, before: map<string, Entry>, after: map<string, Entry>) {
    forall key <- after :: after[key].owner == me ==> key in before && before[key] == after[key]
  }

  function Owned(locks: map<string, Entry>, me: nat): set<string> {
    set key <- locks | locks[key].owner == me
  }

  class RedisServer {
    var locks: map<string, Entry>
    var counters: map<string, nat>
    var now: nat
    var failures: nat

    constructor ()
      ensures locks == map[] && failures == 0
    {
      locks, counters, now, failures := map[], map[], 0, 0;
    }

    // A missing counter starts at one.
    method Incr(key: string) returns (value: nat)
      modifies this`counters
      ensures value == 1 + if key in old(counters) then old(counters)[key] else 0
      ensures counters == old(counters)[key := value]
    {
      value := 1 + if key in counters then counters[key] else 0;
      counters := counters[key := value];
    }

    // SET key token NX: the key is set exactly if it was not there, and otherwise left as it is.
    method SetNx(key: string, token: nat, owner: nat) returns (ok: bool)
      modifies this`locks
      ensures ok <==> key !in old(locks)
      ensures locks == if ok then old(locks)[key := Entry(token, owner)] else old(locks)
    {
      ok := key !in locks;
      if ok {
        locks := locks[key := Entry(token, owner)];
      }
    }

    // The compare-and-delete script.
    method DeleteIfToken(key: string, token: nat) returns (freed: bool)
      modifies this`locks
      ensures freed <==> key in old(locks) && old(locks)[key].token == token
      ensures locks == if freed then old(locks) - {key} else old(locks)
    {
      freed := key in locks && locks[key].token == token;
      if freed {
        locks := locks - {key};
      }
    }

    // Other clients' commands, expiries and the passing of time.
    method Meanwhile(me: nat)
      modifies this`locks, this`counters, this`now
      ensures OthersOnly(me, old(locks), locks) && now >= old(now)
    {
      var others: map<string, Entry>, counts: map<string, nat>, later: nat :| OthersOnly(me, locks, others) && later >= now;
      locks, counters, now := others, counts, later;
    }
  }

  // ----- One call -----

  datatype HeldLock = HeldLock(key: string, token: nat)

  /** What a call does, as it does it. */
  datatype Note = WasSet(key: string) | WasFreed(key: string) | Ran | Slept

  function SetNotes(keys: seq<string>): seq<Note> {
    if keys == [] then [] else SetNotes(keys[..|keys| - 1]) + [WasSet(keys[|keys| - 1])]
  }

  // In reverse.
  function FreeNotes(keys: seq<string>): seq<Note> {
    if keys == [] then [] else [WasFreed(keys[|keys| - 1])] + FreeNotes(keys[..|keys| - 1])
  }

  // Every round stopped at one of the keys.
  predicate WithinKeys(keys: seq<string>, stops: seq<nat>) {
    forall i :: 0 <= i < |stops| ==> stops[i] < |keys|
  }

  /** The rounds before the last: each takes some but not all keys, gives them all back, and only then sleeps. */
  function WaitNotes(keys: seq<string>, stops: seq<nat>): seq<Note>
    requires WithinKeys(keys, stops)
  {
    if stops == [] then []
    else
      WaitNotes(keys, stops[..|stops| - 1]) + RoundNotes(keys, stops[|stops| - 1]) + [Slept]
  }

  // The least time so many pauses take.
  function Pauses(n: nat, delayMs: nat): nat {
    if n == 0 then 0 else Pauses(n - 1, delayMs) + delayMs
  }

  // Some keys taken and given back.
  function RoundNotes(keys: seq<string>, n: nat): seq<Note>
    requires n <= |keys|
  {
    SetNotes(keys[..n]) + FreeNotes(keys[..n])
  }

  datatype Outcome = Returned | Threw | Contended(key: string) | RedisFailed

  /** The last round: with all keys the callback runs and they are given back, whether it threw or not; with some they are
      given back and the call gives up; if Redis fails while taking them they stay, and so does a key whose SET was lost. */
  function LastNotes(keys: seq<string>, last: nat, outcome: Outcome): seq<Note>
    requires last <= |keys|
  {
    var taken := keys[..last];
    match outcome
    case Contended(_) => RoundNotes(keys, last)
    case RedisFailed => SetNotes(taken)
    case _ => SetNotes(taken) + [Ran] + FreeNotes(taken)
  }

  // Every key set by this call is one it knows it holds, under the token it knows.
  ghost predicate Covered(locks: map<string, Entry>, me: nat, held: seq<HeldLock>, n: nat)
    requires n <= |held|
  {
    forall key :: key in locks && locks[key].owner == me ==> exists i :: 0 <= i < n && held[i] == HeldLock(key, locks[key].token)
  }

  function KeysOf(held: seq<HeldLock>): (keys: seq<string>)
    ensures |keys| == |held| && forall i :: 0 <= i < |held| ==> keys[i] == held[i].key
  {
    seq(|held|, i requires 0 <= i < |held| => held[i].key)
  }

  class DistributedLock {
    const server: RedisServer
    const me: nat
    const waitTimeoutMs: nat
    const retryDelayMs: nat
    ghost var log: seq<Note>

    constructor (server: RedisServer, me: nat, waitTimeoutMs: nat, retryDelayMs: nat)
      ensures this.server == server && this.me == me && this.waitTimeoutMs == waitTimeoutMs && this.retryDelayMs == retryDelayMs
      ensures log == []
    {
      this.server, this.me, this.waitTimeoutMs, this.retryDelayMs := server, me, waitTimeoutMs, retryDelayMs;
      log := [];
    }

    // INCR, PEXPIRE and SET NX, each its own command; None when the key is taken. A command that fails may have taken effect
    // all the same, its answer lost. PEXPIRE only matters for when the counter expires, which it may at any time here. `count` is
    // what the INCR finds and `seen` what the SET finds.
    method Acquire(key: string) returns (r: Result<Option<nat>, ()>, ghost count: nat, ghost seen: map<string, Entry>)
      modifies server, this`log
      ensures server.now >= old(server.now) && server.failures == old(server.failures) + if r.Err? then 1 else 0
      ensures OthersOnly(me, old(server.locks), seen)
      ensures r.Ok? ==>
                && (r.value.Some? <==> key !in seen)
                && (r.value.Some? ==> r.value.value == count + 1)
                && server.locks == if r.value.Some? then seen[key := Entry(r.value.value, me)] else seen
      ensures r.Err? ==> server.locks == seen || (key !in seen && server.locks == seen[key := Entry(count + 1, me)])
      ensures log == old(log) + if r.Ok? && r.value.Some? then [WasSet(key)] else []
    {
      server.Meanwhile(me);
      count := if key in server.counters then server.counters[key] else 0;
      seen := server.locks;
      var fails: bool, applied: bool := *, *;
      if fails {
        if applied {
          var lost := server.Incr(key);
        }
        server.failures := server.failures + 1;
        return Err(()), count, seen;
      }
      var token := server.Incr(key);
      server.Meanwhile(me);
      seen := server.locks;
      fails := *;
      if fails {
        server.failures := server.failures + 1;
        return Err(()), count, seen;
      }
      server.Meanwhile(me);
      seen := server.locks;
      fails, applied := *, *;
      if fails {
        server.failures := server.failures + 1;
        if applied {
          var lost := server.SetNx(key, token, me);
        }
        return Err(()), count, seen;
      }
      var ok := server.SetNx(key, token, me);
      if !ok {
        return Ok(None), count, seen;
      }
      log := log + [WasSet(key)];
      return Ok(Some(token)), count, seen;
    }

    // A failure is logged and the key left to expire. `seen` is what the script finds.
    method Release(lock: HeldLock) returns (ghost seen: map<string, Entry>)
      modifies server, this`log
      ensures server.now >= old(server.now) && server.failures >= old(server.failures)
      ensures OthersOnly(me, old(server.locks), seen)
      ensures server.failures == old(server.failures) ==>
                server.locks == if lock.key in seen && seen[lock.key].token == lock.token then seen - {lock.key} else seen
      ensures server.locks == seen || (lock.key in seen && seen[lock.key].token == lock.token && server.locks == seen - {lock.key})
      ensures log == old(log) + [WasFreed(lock.key)]
    {
      log := log + [WasFreed(lock.key)];
      server.Meanwhile(me);
      seen := server.locks;
      var fails: bool, applied: bool := *, *;
      if !fails || applied {
        var freed := server.DeleteIfToken(lock.key, lock.token);
      }
      if fails {
        server.failures := server.failures + 1;
      }
    }

    // Keys are taken in order; the first one taken by someone else ends the round.
    method TryAcquireAll(ordered: seq<string>, ghost clean: bool) returns (held: seq<HeldLock>, contended: Result<Option<string>, ()>)
      requires Ordered(ordered) && (clean ==> Owned(server.locks, me) == {})
      modifies server, this`log
      ensures |held| <= |ordered| && KeysOf(held) == ordered[..|held|]
      ensures server.now >= old(server.now) && server.failures == old(server.failures) + if contended.Err? then 1 else 0
      ensures contended == Ok(None) <==> |held| == |ordered|
      ensures contended.Ok? && contended.value.Some? ==> contended.value.value == ordered[|held|]
      ensures clean && contended.Ok? ==> Covered(server.locks, me, held, |held|)
      ensures log == old(log) + SetNotes(ordered[..|held|])
    {
      held := [];
      assert log + [] == log;
      if clean {
        NothingOwned(server.locks, me);
      }
      for i := 0 to |ordered|
        invariant |held| == i && KeysOf(held) == ordered[..i]
        invariant server.now >= old(server.now) && server.failures == old(server.failures)
        invariant clean ==> Covered(server.locks, me, held, |held|)
        invariant log == old(log) + SetNotes(ordered[..i])
      {
        ghost var before := server.locks;
        var token, _, _ := Acquire(ordered[i]);
        if token.Err? {
          return held, Err(());
        }
        if token.value.None? {
          return held, Ok(Some(ordered[i]));
        }
        ghost var known := held;
        held := held + [HeldLock(ordered[i], token.value.value)];
        assert ordered[..i + 1][..i] == ordered[..i];
        if clean {
          TakingCovers(before, server.locks, me, known, held[i]);
        }
      }
      assert ordered[..|ordered|] == ordered;
      return held, Ok(None);
    }

    // In reverse order; afterwards, unless Redis failed, this call has no key left.
    method ReleaseAll(held: seq<HeldLock>, ghost clean: bool)
      requires Ordered(KeysOf(held)) && (clean ==> Covered(server.locks, me, held, |held|))
      modifies server, this`log
      ensures server.now >= old(server.now) && server.failures >= old(server.failures)
      ensures clean && server.failures == old(server.failures) ==> Owned(server.locks, me) == {}
      ensures log == old(log) + FreeNotes(KeysOf(held))
    {
      var i := |held|;
      ghost var keys := KeysOf(held);
      assert keys[..i] == keys;
      while i > 0
        invariant 0 <= i <= |held|
        invariant server.now >= old(server.now) && server.failures >= old(server.failures)
        invariant clean && server.failures == old(server.failures) ==> Covered(server.locks, me, held, i)
        invariant log + FreeNotes(keys[..i]) == old(log) + FreeNotes(keys)
      {
        i := i - 1;
        ghost var before := server.locks;
        assert keys[..i + 1][..i] == keys[..i];
        var _ := Release(held[i]);
        if clean && server.failures == old(server.failures) {
          FreeingCovers(before, server.locks, me, held, i);
        }
      }
    }

    // A call sleeps only while it has no key.
    method Sleep(ghost clean: bool)
      requires clean ==> Owned(server.locks, me) == {}
      modifies server, this`log
      ensures server.now > old(server.now) && server.now >= old(server.now) + retryDelayMs && server.failures == old(server.failures)
      ensures clean ==> Owned(server.locks, me) == {}
      ensures log == old(log) + [Slept]
    {
      log := log + [Slept];
      var jitter: nat :| jitter <= retryDelayMs;
      server.now := server.now + retryDelayMs + jitter + 1;
      ghost var before := server.locks;
      server.Meanwhile(me);
      if clean {
        StillNothing(before, server.locks, me);
      }
    }

    // The caller's function: it may take any time, and it may throw.
    method RunCallback(ghost clean: bool, ghost held: seq<HeldLock>) returns (threw: bool)
      requires clean ==> Covered(server.locks, me, held, |held|)
      modifies server, this`log
      ensures server.now >= old(server.now) && server.failures == old(server.failures)
      ensures clean ==> Covered(server.locks, me, held, |held|)
      ensures log == old(log) + [Ran]
    {
      log := log + [Ran];
      threw := *;
      ghost var before := server.locks;
      server.Meanwhile(me);
    }

    // With every key: the caller's function, and the keys given back in any case.
    method RunAndRelease(held: seq<HeldLock>, ghost clean: bool) returns (threw: bool)
      requires Ordered(KeysOf(held)) && (clean ==> Covered(server.locks, me, held, |held|))
      modifies server, this`log
      ensures server.now >= old(server.now) && server.failures >= old(server.failures)
      ensures clean && server.failures == old(server.failures) ==> Owned(server.locks, me) == {}
      ensures log == old(log) + ([Ran] + FreeNotes(KeysOf(held)))
    {
      threw := RunCallback(clean, held);
      ReleaseAll(held, clean);
    }

    // One turn of the retry loop.
    method TryOnce(ordered: seq<string>, ghost clean: bool) returns (outcome: Outcome, ghost last: nat)
      requires Ordered(ordered) && (clean ==> Owned(server.locks, me) == {})
      modifies server, this`log
      ensures last <= |ordered| && log == old(log) + LastNotes(ordered, last, outcome)
      ensures outcome == Returned || outcome == Threw ==> last == |ordered|
      ensures outcome.Contended? ==> last < |ordered| && outcome.key == ordered[last]
      ensures server.now >= old(server.now) && server.failures >= old(server.failures)
      ensures outcome == RedisFailed ==> server.failures > old(server.failures)
      ensures clean && server.failures == old(server.failures) ==> Owned(server.locks, me) == {}
    {
      var held, contended := TryAcquireAll(ordered, clean);
      last := |held|;
      OrderedPrefix(ordered, last);
      NotesJoin(old(log), ordered, last);
      if contended.Err? {
        return RedisFailed, last;
      }
      if contended.value.None? {
        var threw := RunAndRelease(held, clean);
        return if threw then Threw else Returned, last;
      }
      ReleaseAll(held, clean);
      return Contended(contended.value.value), last;
    }

    /** All keys or none. The log says what the call did, in order; `stops` are the rounds that met a taken key. Unless Redis
        failed, no key of this call is left when it ends, however it ends, nor whenever it sleeps. */
    method WithLocks(keys: seq<string>) returns (outcome: Outcome, ghost stops: seq<nat>, ghost last: nat)
      requires Owned(server.locks, me) == {}
      modifies server, this`log
      ensures
        var ordered := DistinctSorted(keys);
        && WithinKeys(ordered, stops) && last <= |ordered|
        && log == old(log) + WaitNotes(ordered, stops) + LastNotes(ordered, last, outcome)
        && (outcome == Returned || outcome == Threw ==> last == |ordered|)
        && (outcome.Contended? ==> last < |ordered| && outcome.key == ordered[last])
      ensures outcome.Contended? ==> server.now >= old(server.now) + waitTimeoutMs
      ensures server.now >= old(server.now) + Pauses(|stops|, retryDelayMs)
      ensures server.failures == old(server.failures) ==> outcome != RedisFailed && Owned(server.locks, me) == {}
    {
      var ordered := DistinctSorted(keys);
      DistinctSortedKeys(keys);
      var deadline := server.now + waitTimeoutMs;
      stops := [];
      while true
        invariant WithinKeys(ordered, stops)
        invariant server.now >= old(server.now) && server.failures >= old(server.failures)
        invariant server.failures == old(server.failures) ==> Owned(server.locks, me) == {}
        invariant log == old(log) + WaitNotes(ordered, stops)
        invariant server.now >= old(server.now) + Pauses(|stops|, retryDelayMs)
        decreases deadline - server.now
      {
        outcome, last := TryOnce(ordered, server.failures == old(server.failures));
        if !outcome.Contended? || server.now >= deadline {
          return;
        }
        Sleep(server.failures == old(server.failures));
        OneMoreWait(old(log), ordered, stops, last, outcome);
        stops := stops + [last];
      }
    }
  }

  lemma OneMoreWait(start: seq<Note>, keys: seq<string>, stops: seq<nat>, last: nat, outcome: Outcome)
    requires last < |keys| && outcome.Contended? && WithinKeys(keys, stops)
    ensures WithinKeys(keys, stops + [last])
    ensures start + WaitNotes(keys, stops + [last]) == start + WaitNotes(keys, stops) + LastNotes(keys, last, outcome) + [Slept]
  {
    assert (stops + [last])[..|stops|] == stops;
    Regroup(start, WaitNotes(keys, stops), RoundNotes(keys, last), [Slept]);
  }

  lemma Regroup<T>(a: seq<T>, b: seq<T>, c: seq<T>, d: seq<T>)
    ensures a + (b + c + d) == a + b + c + d
  {
  }

  // The notes of a round, part by part.
  lemma NotesJoin(before: seq<Note>, keys: seq<string>, last: nat)
    requires last <= |keys|
    ensures forall key :: before + LastNotes(keys, last, Contended(key)) == before + SetNotes(keys[..last]) + FreeNotes(keys[..last])
    ensures before + LastNotes(keys, last, RedisFailed) == before + SetNotes(keys[..last])
    ensures forall o: Outcome :: o == Returned || o == Threw ==>
              before + LastNotes(keys, last, o) == before + SetNotes(keys[..last]) + ([Ran] + FreeNotes(keys[..last]))
  {
  }

  lemma OrderedPrefix(keys: seq<string>, n: nat)
    requires Ordered(keys) && n <= |keys|
    ensures Ordered(keys[..n])
  {
  }

  lemma StillNothing(before: map<string, Entry>, after: map<string, Entry>, me: nat)
    requires Owned(before, me) == {} && OthersOnly(me, before, after)
    ensures Owned(after, me) == {}
  {
    forall key | key in after ensures after[key].owner != me {
      assert key !in Owned(before, me);
    }
  }

  lemma NothingOwned(locks: map<string, Entry>, me: nat)
    requires Owned(locks, me) == {}
    ensures Covered(locks, me, [], 0)
  {
    forall key | key in locks ensures locks[key].owner != me {
      assert key !in Owned(locks, me);
    }
  }

  lemma TakingCovers(before: map<string, Entry>, after: map<string, Entry>, me: nat, held: seq<HeldLock>, lock: HeldLock)
    requires Covered(before, me, held, |held|) && OthersOnly(me, before, after - {lock.key})
    requires lock.key in after && after[lock.key] == Entry(lock.token, me)
    ensures Covered(after, me, held + [lock], |held| + 1)
  {
    forall key | key in after && after[key].owner == me
      ensures exists i :: 0 <= i < |held| + 1 && (held + [lock])[i] == HeldLock(key, after[key].token)
    {
      if key == lock.key {
        assert (held + [lock])[|held|] == lock;
      } else {
        assert key in after - {lock.key};
        var i :| 0 <= i < |held| && held[i] == HeldLock(key, before[key].token);
        assert (held + [lock])[i] == held[i];
      }
    }
  }

  lemma FreeingCovers(before: map<string, Entry>, after: map<string, Entry>, me: nat, held: seq<HeldLock>, n: nat)
    requires n < |held| && Ordered(KeysOf(held)) && Covered(before, me, held, n + 1) && OthersOnly(me, before, after)
    requires !(held[n].key in after && after[held[n].key] == Entry(held[n].token, me))
    ensures Covered(after, me, held, n)
  {
    forall key | key in after && after[key].owner == me
      ensures exists i :: 0 <= i < n && held[i] == HeldLock(key, after[key].token)
    {
      var i :| 0 <= i < n + 1 && held[i] == HeldLock(key, before[key].token);
      assert after[key] == before[key];
    }
  }

  /** Keys are taken in the order of the list and given back in the reverse of it. */
  lemma {:induction false} NotesInOrder(keys: seq<string>, i: nat)
    requires i < |keys|
    ensures |SetNotes(keys)| == |FreeNotes(keys)| == |keys|
    ensures SetNotes(keys)[i] == WasSet(keys[i]) && FreeNotes(keys)[i] == WasFreed(keys[|keys| - 1 - i])
  {
    var init := keys[..|keys| - 1];
    if init != [] {
      NotesInOrder(init, if i < |init| then i else 0);
      NotesInOrder(init, if i > 0 then i - 1 else 0);
    }
  }

  // ----- What the log means -----

  /** What a call holds after one more note, or None if the note breaks the discipline: keys are taken in strictly increasing
      order, given back only when held; the callback runs with all of them held, and sleep comes only with none. */
  function After(held: set<string>, note: Note, all: set<string>): Option<set<string>> {
    match note
    case WasSet(key) => if forall other <- held :: Before(other, key) then Some(held + {key}) else None
    case WasFreed(key) => if key in held then Some(held - {key}) else None
    case Ran => if held == all then Some(held) else None
    case Slept => if held == {} then Some(held) else None
  }

  function Walk(held: set<string>, notes: seq<Note>, all: set<string>): Option<set<string>>
    decreases |notes|
  {
    if notes == [] then Some(held)
    else
      var next := After(held, notes[0], all);
      if next.None? then None else Walk(next.value, notes[1..], all)
  }

  lemma {:induction false} WalkOn(held: set<string>, notes: seq<Note>, more: seq<Note>, all: set<string>)
    requires Walk(held, notes, all).Some?
    ensures Walk(held, notes + more, all) == Walk(Walk(held, notes, all).value, more, all)
    decreases |notes|
  {
    if notes == [] {
      assert notes + more == more;
    } else {
      assert (notes + more)[1..] == notes[1..] + more;
      WalkOn(After(held, notes[0], all).value, notes[1..], more, all);
    }
  }

  function SetOf(keys: seq<string>): set<string> {
    set key <- keys
  }

  lemma SetOfSnoc(keys: seq<string>, key: string)
    ensures SetOf(keys + [key]) == SetOf(keys) + {key}
    ensures Ordered(keys + [key]) ==> Ordered(keys) && key !in SetOf(keys) && forall other <- SetOf(keys) :: Before(other, key)
  {
    var all := keys + [key];
    assert all[|keys|] == key;
    assert Ordered(all) ==> Ordered(keys) by {
      assert forall i :: 0 <= i < |keys| ==> all[i] == keys[i];
    }
    if Ordered(all) {
      forall other | other in SetOf(keys) ensures Before(other, key) && other != key {
        var i :| 0 <= i < |keys| && keys[i] == other;
        assert Before(all[i], all[|keys|]);
        BeforeIsTotal(other, key);
      }
    }
  }

  lemma {:induction false} TakingHoldsAll(keys: seq<string>, all: set<string>)
    requires Ordered(keys)
    ensures Walk({}, SetNotes(keys), all) == Some(SetOf(keys))
  {
    if keys == [] {
      assert SetOf(keys) == {};
    } else {
      var init, key := keys[..|keys| - 1], keys[|keys| - 1];
      assert keys == init + [key];
      SetOfSnoc(init, key);
      TakingHoldsAll(init, all);
      WalkOn({}, SetNotes(init), [WasSet(key)], all);
      assert [WasSet(key)][1..] == [];
    }
  }

  lemma {:induction false} FreeingHoldsNone(keys: seq<string>, all: set<string>)
    requires Ordered(keys)
    ensures Walk(SetOf(keys), FreeNotes(keys), all) == Some({})
  {
    if keys == [] {
      assert SetOf(keys) == {};
    } else {
      var init, key := keys[..|keys| - 1], keys[|keys| - 1];
      assert keys == init + [key];
      SetOfSnoc(init, key);
      assert SetOf(keys) - {key} == SetOf(init);
      FreeingHoldsNone(init, all);
      assert FreeNotes(keys)[1..] == FreeNotes(init);
    }
  }

  lemma TakingAndFreeing(keys: seq<string>, all: set<string>)
    requires Ordered(keys)
    ensures Walk({}, SetNotes(keys) + FreeNotes(keys), all) == Some({})
  {
    TakingHoldsAll(keys, all);
    FreeingHoldsNone(keys, all);
    WalkOn({}, SetNotes(keys), FreeNotes(keys), all);
  }

  lemma {:induction false} WaitingHoldsNone(keys: seq<string>, stops: seq<nat>, all: set<string>)
    requires Ordered(keys) && WithinKeys(keys, stops)
    ensures Walk({}, WaitNotes(keys, stops), all) == Some({})
  {
    if stops != [] {
      var init, taken := stops[..|stops| - 1], keys[..stops[|stops| - 1]];
      WaitingHoldsNone(keys, init, all);
      OrderedPrefix(keys, stops[|stops| - 1]);
      TakingAndFreeing(taken, all);
      WalkOn({}, WaitNotes(keys, init), RoundNotes(keys, stops[|stops| - 1]), all);
      WalkOn({}, WaitNotes(keys, init) + RoundNotes(keys, stops[|stops| - 1]), [Slept], all);
      assert [Slept][1..] == [];
    }
  }

  lemma LastRound(keys: seq<string>, last: nat, outcome: Outcome)
    requires Ordered(keys) && last <= |keys| && (outcome == Returned || outcome == Threw ==> last == |keys|)
    ensures Walk({}, LastNotes(keys, last, outcome), SetOf(keys)) == Some(if outcome == RedisFailed then SetOf(keys[..last]) else {})
  {
    var taken, all := keys[..last], SetOf(keys);
    OrderedPrefix(keys, last);
    TakingHoldsAll(taken, all);
    match outcome
    case RedisFailed =>
    case Contended(_) => TakingAndFreeing(taken, all);
    case _ =>
      assert taken == keys;
      WalkOn({}, SetNotes(keys), [Ran], all);
      assert [Ran][1..] == [];
      FreeingHoldsNone(keys, all);
      WalkOn({}, SetNotes(keys) + [Ran], FreeNotes(keys), all);
  }

  /** No hold-and-wait: the log of a call, whatever its rounds, keeps the discipline throughout and ends holding nothing; only
      if Redis failed while it was taking keys does it leave behind the ones it had taken. */
  lemma NoHoldAndWait(keys: seq<string>, stops: seq<nat>, last: nat, outcome: Outcome)
    requires Ordered(keys) && WithinKeys(keys, stops) && last <= |keys|
    requires outcome == Returned || outcome == Threw ==> last == |keys|
    ensures Walk({}, WaitNotes(keys, stops) + LastNotes(keys, last, outcome), SetOf(keys))
            == Some(if outcome == RedisFailed then SetOf(keys[..last]) else {})
  {
    WaitingHoldsNone(keys, stops, SetOf(keys));
    LastRound(keys, last, outcome);
    WalkOn({}, WaitNotes(keys, stops), LastNotes(keys, last, outcome), SetOf(keys));
  }
}
