/**
 Calls that take several locks at once, run against each other: each key is a lock of its own with its own counter, every command
 of every call a step, and time passes for all keys alike. Two calls that share a key never run their callbacks at the same time
 while both may still take that key for their own.
 */
module LockRounds {
  import opened LockFencing
  import opened WithLocks

  /** One round of a call: taking its keys in order, running the callback, giving the keys back in reverse. A call that tries again
      begins a new round. */
  datatype Stage = Taking(i: nat) | Running | Freeing(i: nat) | Over | Dead

  datatype Round = Round(keys: seq<string>, ttl: nat, stage: Stage)

  // A command on one key, or time passing for all of them.
  datatype Act = Everywhere(time: nat) | On(key: string, c: Command)

  datatype Board = Board(rounds: map<nat, Round>, acts: seq<Act>)

  datatype Move = Passes(time: nat) | Begins(id: nat, keys: seq<string>, ttl: nat) | Goes(id: nat) | Dies(id: nat)

  const EMPTY_BOARD := Board(map[], [])

  function CommandsIn(act: Act, key: string): seq<Command> {
    match act
    case Everywhere(time) => [Wait(time)]
    case On(k, c) => if k == key then [c] else []
  }

  // What one key has seen.
  function CommandsOn(acts: seq<Act>, key: string): seq<Command> {
    if acts == [] then [] else CommandsOn(acts[..|acts| - 1], key) + CommandsIn(acts[|acts| - 1], key)
  }

  function RedisOf(acts: seq<Act>, key: string): Redis {
    LockFencing.Run(CommandsOn(acts, key))
  }

  // The next of the three commands that take a key.
  function TakingCommand(r: Redis, id: nat, ttl: nat): Command {
    if id !in r.calls then Incr(id)
    else if r.calls[id].phase.Counted? then Pexpire(id)
    else SetNx(id, ttl)
  }

  predicate IsHeld(r: Redis, id: nat) {
    id in r.calls && r.calls[id].phase.Held?
  }

  // The round with all keys runs; the one that finds a key taken gives back those it has.
  function Going(acts: seq<Act>, id: nat, round: Round): (Round, seq<Act>) {
    match round.stage
    case Taking(i) =>
      if i >= |round.keys| then (round.(stage := Running), acts)
      else
        var c := TakingCommand(RedisOf(acts, round.keys[i]), id, round.ttl);
        var after := acts + [On(round.keys[i], c)];
        (if !c.SetNx? then round
         else if IsHeld(RedisOf(after, round.keys[i]), id) then round.(stage := Taking(i + 1)) else round.(stage := Freeing(i)),
         after)
    case Running => (round.(stage := Freeing(|round.keys|)), acts)
    case Freeing(i) =>
      if i == 0 || i > |round.keys| then (round.(stage := Over), acts)
      else (round.(stage := Freeing(i - 1)), acts + [On(round.keys[i - 1], Release(id))])
    case _ => (round, acts)
  }

  function Moved(b: Board, m: Move): Board {
    match m
    case Passes(time) => b.(acts := b.acts + [Everywhere(time)])
    case Begins(id, keys, ttl) =>
      if id in b.rounds then b else b.(rounds := b.rounds[id := Round(DistinctSorted(keys), ttl, Taking(0))])
    case Goes(id) =>
      if id !in b.rounds then b
      else
        var (round, acts) := Going(b.acts, id, b.rounds[id]);
        Board(b.rounds[id := round], acts)
    // A crash, or a Redis error while taking keys: whatever was set stays until it expires.
    case Dies(id) => if id in b.rounds then b.(rounds := b.rounds[id := b.rounds[id].(stage := Dead)]) else b
  }

  function BoardAfter(moves: seq<Move>): Board {
    if moves == [] then EMPTY_BOARD else Moved(BoardAfter(moves[..|moves| - 1]), moves[|moves| - 1])
  }

  // ----- What a round has on each key -----

  predicate HasLease(acts: seq<Act>, key: string, id: nat) {
    Lease(CommandsOn(acts, key), id).Some? && IsHeld(RedisOf(acts, key), id)
  }

  predicate HasNone(acts: seq<Act>, key: string, id: nat) {
    Lease(CommandsOn(acts, key), id).None?
  }

  predicate Untouched(acts: seq<Act>, key: string, id: nat) {
    HasNone(acts, key, id) && id !in RedisOf(acts, key).calls
  }

  // On its way to the SET.
  predicate Asking(acts: seq<Act>, key: string, id: nat) {
    var r := RedisOf(acts, key);
    HasNone(acts, key, id) && (id !in r.calls || r.calls[id].phase.Counted? || r.calls[id].phase.Armed?)
  }

  ghost predicate RoundFits(acts: seq<Act>, id: nat, round: Round) {
    && Ordered(round.keys)
    && match round.stage
       case Taking(i) =>
         && i <= |round.keys|
         && (forall j :: 0 <= j < i ==> HasLease(acts, round.keys[j], id))
         && (forall j :: i < j < |round.keys| ==> Untouched(acts, round.keys[j], id))
         && (i < |round.keys| ==> Asking(acts, round.keys[i], id))
       case Running => forall j :: 0 <= j < |round.keys| ==> HasLease(acts, round.keys[j], id)
       case Freeing(i) =>
         && i <= |round.keys|
         && (forall j :: 0 <= j < i ==> HasLease(acts, round.keys[j], id))
         && (forall j :: i <= j < |round.keys| ==> HasNone(acts, round.keys[j], id))
       case Over => forall j :: 0 <= j < |round.keys| ==> HasNone(acts, round.keys[j], id)
       case Dead => true
  }

  ghost predicate Fits(b: Board, id: nat) {
    if id in b.rounds then RoundFits(b.acts, id, b.rounds[id]) else forall key :: Untouched(b.acts, key, id)
  }

  // Another call's command, or time, on one key.
  lemma OthersLeave(commands: seq<Command>, c: Command, id: nat)
    requires c.Wait? || c.call != id
    ensures Lease(commands + [c], id) == Lease(commands, id)
    ensures id in LockFencing.Run(commands + [c]).calls <==> id in LockFencing.Run(commands).calls
    ensures id in LockFencing.Run(commands).calls ==> LockFencing.Run(commands + [c]).calls[id] == LockFencing.Run(commands).calls[id]
  {
    assert (commands + [c])[..|commands|] == commands;
  }

  predicate IsOthers(act: Act, id: nat) {
    act.Everywhere? || act.c.Wait? || act.c.call != id
  }

  lemma ActOn(acts: seq<Act>, act: Act, key: string)
    ensures CommandsOn(acts + [act], key) == CommandsOn(acts, key) + CommandsIn(act, key)
    ensures act.On? && act.key != key ==> CommandsOn(acts + [act], key) == CommandsOn(acts, key)
  {
    assert (acts + [act])[..|acts|] == acts;
  }

  // What others do leaves a call's calls and leases alone, on every key.
  lemma OthersAct(acts: seq<Act>, act: Act, id: nat, key: string)
    requires IsOthers(act, id)
    ensures HasLease(acts + [act], key, id) == HasLease(acts, key, id)
    ensures Untouched(acts + [act], key, id) == Untouched(acts, key, id)
    ensures HasNone(acts + [act], key, id) == HasNone(acts, key, id)
    ensures Asking(acts + [act], key, id) == Asking(acts, key, id)
  {
    ActOn(acts, act, key);
    match act
    case Everywhere(time) => OthersLeave(CommandsOn(acts, key), Wait(time), id);
    case On(k, c) =>
      if k == key { OthersLeave(CommandsOn(acts, key), c, id); }
  }

  // So does its own command on another key.
  lemma ElsewhereAct(acts: seq<Act>, k: string, c: Command, key: string)
    requires k != key
    ensures CommandsOn(acts + [On(k, c)], key) == CommandsOn(acts, key)
  {
    ActOn(acts, On(k, c), key);
  }

  lemma OthersKeepFits(b: Board, act: Act, id: nat, rounds: map<nat, Round>)
    requires Fits(b, id) && IsOthers(act, id)
    requires (id in rounds <==> id in b.rounds) && (id in rounds ==> rounds[id] == b.rounds[id])
    ensures Fits(Board(rounds, b.acts + [act]), id)
  {
    forall key
      ensures HasLease(b.acts + [act], key, id) == HasLease(b.acts, key, id)
      ensures Untouched(b.acts + [act], key, id) == Untouched(b.acts, key, id)
      ensures HasNone(b.acts + [act], key, id) == HasNone(b.acts, key, id)
      ensures Asking(b.acts + [act], key, id) == Asking(b.acts, key, id)
    {
      OthersAct(b.acts, act, id, key);
    }
  }

  // A command that takes a key, on that key: the lease is there exactly if the SET was answered with OK.
  lemma TakesOne(acts: seq<Act>, key: string, id: nat, ttl: nat, c: Command, after: seq<Act>)
    requires Asking(acts, key, id) && c == TakingCommand(RedisOf(acts, key), id, ttl) && after == acts + [On(key, c)]
    ensures c.SetNx? ==> if IsHeld(RedisOf(after, key), id) then HasLease(after, key, id) else HasNone(after, key, id)
    ensures !c.SetNx? ==> Asking(after, key, id)
  {
    var commands := CommandsOn(acts, key);
    ActOn(acts, On(key, c), key);
    assert (commands + [c])[..|commands|] == commands;
  }

  lemma ReleaseEndsLease(commands: seq<Command>, id: nat)
    requires IsHeld(LockFencing.Run(commands), id)
    ensures Lease(commands + [Release(id)], id).None?
  {
    var all := commands + [Release(id)];
    assert all[..|all| - 1] == commands && all[|all| - 1] == Release(id);
  }

  // A release, on its key.
  lemma FreesOne(acts: seq<Act>, key: string, id: nat, after: seq<Act>)
    requires HasLease(acts, key, id) && after == acts + [On(key, Release(id))]
    ensures HasNone(after, key, id)
  {
    ActOn(acts, On(key, Release(id)), key);
    ReleaseEndsLease(CommandsOn(acts, key), id);
  }

  lemma KeysDiffer(keys: seq<string>, i: nat, j: nat)
    requires Ordered(keys) && i < |keys| && j < |keys| && i != j
    ensures keys[i] != keys[j]
  {
    BeforeIsTotal(keys[i], keys[j]);
  }

  // A command on one of the keys leaves the others alone.
  lemma OnlyThisKey(keys: seq<string>, i: nat, acts: seq<Act>, c: Command)
    requires Ordered(keys) && i < |keys|
    ensures forall j :: 0 <= j < |keys| && j != i ==> CommandsOn(acts + [On(keys[i], c)], keys[j]) == CommandsOn(acts, keys[j])
  {
    forall j | 0 <= j < |keys| && j != i ensures CommandsOn(acts + [On(keys[i], c)], keys[j]) == CommandsOn(acts, keys[j]) {
      KeysDiffer(keys, i, j);
      ElsewhereAct(acts, keys[i], c, keys[j]);
    }
  }

  lemma TakingFits(acts: seq<Act>, id: nat, round: Round, next: Round, after: seq<Act>)
    requires RoundFits(acts, id, round) && round.stage.Taking? && round.stage.i < |round.keys| && (next, after) == Going(acts, id, round)
    ensures RoundFits(after, id, next)
  {
    var i := round.stage.i;
    var c := TakingCommand(RedisOf(acts, round.keys[i]), id, round.ttl);
    TakesOne(acts, round.keys[i], id, round.ttl, c, after);
    OnlyThisKey(round.keys, i, acts, c);
  }

  lemma FreeingFits(acts: seq<Act>, id: nat, round: Round, next: Round, after: seq<Act>)
    requires RoundFits(acts, id, round) && round.stage.Freeing? && 0 < round.stage.i && (next, after) == Going(acts, id, round)
    ensures RoundFits(after, id, next)
  {
    var i := round.stage.i - 1;
    FreesOne(acts, round.keys[i], id, after);
    OnlyThisKey(round.keys, i, acts, Release(id));
  }

  lemma GoingFits(acts: seq<Act>, id: nat, round: Round, next: Round, after: seq<Act>)
    requires RoundFits(acts, id, round) && (next, after) == Going(acts, id, round)
    ensures RoundFits(after, id, next)
  {
    if round.stage.Taking? && round.stage.i < |round.keys| {
      TakingFits(acts, id, round, next, after);
    } else if round.stage.Freeing? && 0 < round.stage.i {
      FreeingFits(acts, id, round, next, after);
    }
  }

  lemma BeginningFits(b: Board, id: nat, keys: seq<string>, ttl: nat)
    requires Fits(b, id) && id !in b.rounds
    ensures RoundFits(b.acts, id, Round(DistinctSorted(keys), ttl, Taking(0)))
  {
    var ordered := DistinctSorted(keys);
    DistinctSortedKeys(keys);
    forall j | 0 <= j < |ordered| ensures Untouched(b.acts, ordered[j], id) {
    }
  }

  lemma MoveKeepsFits(b: Board, m: Move, id: nat)
    requires Fits(b, id)
    ensures Fits(Moved(b, m), id)
  {
    match m
    case Passes(time) => OthersKeepFits(b, Everywhere(time), id, b.rounds);
    case Begins(n, keys, ttl) =>
      if n == id && n !in b.rounds { BeginningFits(b, id, keys, ttl); }
    case Goes(n) =>
      if n in b.rounds {
        var (round, acts) := Going(b.acts, n, b.rounds[n]);
        if n == id {
          GoingFits(b.acts, id, b.rounds[id], round, acts);
        } else if acts != b.acts {
          OthersKeepFits(b, acts[|b.acts|], id, b.rounds[n := round]);
        }
      }
    case Dies(_) =>
  }

  lemma {:induction false} BoardFits(moves: seq<Move>, id: nat)
    ensures Fits(BoardAfter(moves), id)
  {
    if moves != [] {
      BoardFits(moves[..|moves| - 1], id);
      MoveKeepsFits(BoardAfter(moves[..|moves| - 1]), moves[|moves| - 1], id);
    }
  }

  // A SET is made for the ttl of its call.
  predicate OwnTtl(rounds: map<nat, Round>, act: Act) {
    act.On? && act.c.SetNx? ==> act.c.call in rounds && act.c.ttl == rounds[act.c.call].ttl
  }

  lemma MoveKeepsTtls(b: Board, m: Move)
    requires forall i :: 0 <= i < |b.acts| ==> OwnTtl(b.rounds, b.acts[i])
    ensures var next := Moved(b, m); forall i :: 0 <= i < |next.acts| ==> OwnTtl(next.rounds, next.acts[i])
  {
    var next := Moved(b, m);
    assert |next.acts| > |b.acts| ==> next.acts == b.acts + [next.acts[|b.acts|]] && OwnTtl(next.rounds, next.acts[|b.acts|]);
    forall i | 0 <= i < |b.acts| ensures OwnTtl(next.rounds, b.acts[i]) {
      assert OwnTtl(b.rounds, b.acts[i]);
    }
  }

  /** Every key is taken for the ttl of its call. */
  lemma {:induction false} RoundsUseTheirTtl(moves: seq<Move>, board: Board)
    requires board == BoardAfter(moves)
    ensures forall i :: 0 <= i < |board.acts| && board.acts[i].On? && board.acts[i].c.SetNx? ==>
              board.acts[i].c.call in board.rounds && board.acts[i].c.ttl == board.rounds[board.acts[i].c.call].ttl
  {
    TtlsAreOwn(moves);
    forall i | 0 <= i < |board.acts| && board.acts[i].On? && board.acts[i].c.SetNx?
      ensures board.acts[i].c.call in board.rounds && board.acts[i].c.ttl == board.rounds[board.acts[i].c.call].ttl
    {
      assert OwnTtl(board.rounds, board.acts[i]);
    }
  }

  lemma {:induction false} TtlsAreOwn(moves: seq<Move>)
    ensures forall i :: 0 <= i < |BoardAfter(moves).acts| ==> OwnTtl(BoardAfter(moves).rounds, BoardAfter(moves).acts[i])
  {
    if moves != [] {
      TtlsAreOwn(moves[..|moves| - 1]);
      MoveKeepsTtls(BoardAfter(moves[..|moves| - 1]), moves[|moves| - 1]);
    }
  }

  // One command of a round, on its key.
  lemma OneGo(acts: seq<Act>, id: nat, round: Round, i: nat, c: Command, next: Round, after: seq<Act>)
    requires round.stage == Taking(i) && i < |round.keys| && c == TakingCommand(RedisOf(acts, round.keys[i]), id, round.ttl)
    requires (next, after) == Going(acts, id, round)
    ensures RedisOf(after, round.keys[i]) == LockFencing.Next(RedisOf(acts, round.keys[i]), c)
    ensures next == if !c.SetNx? then round
                    else if IsHeld(RedisOf(after, round.keys[i]), id) then round.(stage := Taking(i + 1)) else round.(stage := Freeing(i))
  {
    ActOn(acts, On(round.keys[i], c), round.keys[i]);
    LockFencing.RunSnoc(CommandsOn(acts, round.keys[i]), c);
  }

  /** A call left to itself takes a free key in three commands and goes on to the next, and gives up the round at a taken one. */
  lemma ThreeCommandsDecide(acts: seq<Act>, id: nat, round: Round, i: nat, g1: (Round, seq<Act>), g2: (Round, seq<Act>), g3: (Round, seq<Act>))
    requires round.stage == Taking(i) && i < |round.keys| && Untouched(acts, round.keys[i], id)
    requires g1 == Going(acts, id, round) && g2 == Going(g1.1, id, g1.0) && g3 == Going(g2.1, id, g2.0)
    ensures g3.0 == round.(stage := if LockLives(RedisOf(acts, round.keys[i])) then Freeing(i) else Taking(i + 1))
  {
    var key := round.keys[i];
    OneGo(acts, id, round, i, Incr(id), g1.0, g1.1);
    OneGo(g1.1, id, g1.0, i, Pexpire(id), g2.0, g2.1);
    OneGo(g2.1, id, g2.0, i, SetNx(id, round.ttl), g3.0, g3.1);
    AcquireDecides(RedisOf(acts, key), id, round.ttl, RedisOf(g1.1, key), RedisOf(g2.1, key), RedisOf(g3.1, key));
  }

  // ----- No two callbacks at once -----

  ghost predicate RunsWith(b: Board, id: nat, key: string) {
    id in b.rounds && b.rounds[id].stage.Running? && key in b.rounds[id].keys
  }

  /** In every run, a call whose callback runs has a lease on each of its keys. Two calls that share a key can therefore both be
      running only when the time of one of them on that key is over, unless someone else's release has deleted a lock of theirs. */
  lemma CallbacksNeverOverlap(moves: seq<Move>, a: nat, b: nat, key: string, board: Board, commands: seq<Command>)
    requires board == BoardAfter(moves) && commands == CommandsOn(board.acts, key)
    requires a != b && RunsWith(board, a, key) && RunsWith(board, b, key)
    requires Undisturbed(commands, a) && Undisturbed(commands, b)
    ensures Lease(commands, a).Some? && Lease(commands, b).Some?
    ensures Lease(commands, a).value <= LockFencing.Run(commands).now || Lease(commands, b).value <= LockFencing.Run(commands).now
  {
    RunningHasLease(moves, a, key, board);
    RunningHasLease(moves, b, key, board);
    if Leased(commands, a) && Leased(commands, b) {
      MutualExclusion(commands, a, b);
    }
  }

  lemma RunningHasLease(moves: seq<Move>, id: nat, key: string, board: Board)
    requires board == BoardAfter(moves) && RunsWith(board, id, key)
    ensures HasLease(board.acts, key, id)
  {
    BoardFits(moves, id);
    var j :| 0 <= j < |board.rounds[id].keys| && board.rounds[id].keys[j] == key;
  }

  /** A round that has run to its end, with its callback or without, has given back every key: only one that died leaves keys behind,
      until they expire. */
  lemma FinishedRoundHasNoKey(moves: seq<Move>, id: nat, key: string, board: Board)
    requires board == BoardAfter(moves) && id in board.rounds && board.rounds[id].stage.Over? && key in board.rounds[id].keys
    ensures Lease(CommandsOn(board.acts, key), id).None?
  {
    BoardFits(moves, id);
    var j :| 0 <= j < |board.rounds[id].keys| && board.rounds[id].keys[j] == key;
    assert HasNone(board.acts, board.rounds[id].keys[j], id);
  }

  /** With timely commands and prompt releases on the shared key nothing more need be assumed. */
  lemma TimelyCallbacksNeverOverlap(moves: seq<Move>, a: nat, b: nat, key: string, board: Board, commands: seq<Command>)
    requires board == BoardAfter(moves) && commands == CommandsOn(board.acts, key) && AllTimely(commands) && AllPrompt(commands)
    requires a != b && RunsWith(board, a, key) && RunsWith(board, b, key)
    ensures Lease(commands, a).Some? && Lease(commands, b).Some?
    ensures Lease(commands, a).value <= LockFencing.Run(commands).now || Lease(commands, b).value <= LockFencing.Run(commands).now
  {
    TimelyIsUndisturbed(commands, a);
    TimelyIsUndisturbed(commands, b);
    CallbacksNeverOverlap(moves, a, b, key, board, commands);
  }
}
