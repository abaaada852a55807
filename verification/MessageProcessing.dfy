/**
 What a consumer does with one Kafka message: bounded retries, then the dead-letter topic, and the offset committed
 only after one of the two worked; with the counter of dropped messages.
 */
module MessageProcessing {
  const DLQ_PUBLISH_ATTEMPTS: int := 3

  datatype DropReason = Undecodable | HandlerExhausted

  /** What one delivery of a message meets: whether it decodes, which handler attempts and which dead-letter publishes
      succeed (counted from one), and whether the broker takes the commit. */
  datatype Trial = Trial(decodes: bool, handles: int -> bool, publishes: int -> bool, commits: bool)

  /** What a partition's consumer has done so far. `committed` is where it would start again. */
  datatype Ledger = Ledger(
    committed: nat,
    commits: seq<nat>,
    handled: set<nat>,
    deadLetters: seq<(nat, DropReason)>,
    counts: map<string, nat>)

  const EMPTY: Ledger := Ledger(0, [], {}, [], map[])

  predicate Within(works: int -> bool, attempts: int) {
    exists a | 1 <= a <= attempts :: works(a)
  }

  // ----- The drop counter -----

  function ReasonName(reason: DropReason): string {
    match reason
    case Undecodable => "undecodable"
    case HandlerExhausted => "handler-exhausted"
  }

  function CountKey(topic: string, reason: DropReason): string {
    topic + "::" + ReasonName(reason)
  }

  function CountOf(counts: map<string, nat>, key: string): nat {
    if key in counts then counts[key] else 0
  }

  function Recorded(counts: map<string, nat>, topic: string, reason: DropReason): map<string, nat> {
    counts[CountKey(topic, reason) := CountOf(counts, CountKey(topic, reason)) + 1]
  }

  ghost function Sum(counts: map<string, nat>): nat {
    if counts == map[] then 0
    else
      var key :| key in counts;
      counts[key] + Sum(counts - {key})
  }

  lemma {:induction false} SumWithout(counts: map<string, nat>, key: string)
    requires key in counts
    ensures Sum(counts) == counts[key] + Sum(counts - {key})
    decreases |counts|
  {
    var first :| first in counts && Sum(counts) == counts[first] + Sum(counts - {first});
    if first != key {
      SumWithout(counts - {first}, key);
      SumWithout(counts - {key}, first);
      assert counts - {first} - {key} == counts - {key} - {first};
    }
  }

  lemma SumRecorded(counts: map<string, nat>, topic: string, reason: DropReason)
    ensures Sum(Recorded(counts, topic, reason)) == Sum(counts) + 1
  {
    var key, next := CountKey(topic, reason), Recorded(counts, topic, reason);
    SumWithout(next, key);
    if key in counts {
      SumWithout(counts, key);
      assert next - {key} == counts - {key};
    } else {
      assert next - {key} == counts;
    }
  }

  /** Different topics and reasons have different counts. */
  lemma CountKeyIsInjective(t1: string, r1: DropReason, t2: string, r2: DropReason)
    requires CountKey(t1, r1) == CountKey(t2, r2)
    ensures t1 == t2 && r1 == r2
  {
    var k1, k2 := CountKey(t1, r1), CountKey(t2, r2);
    assert k1[|k1| - 1] == ReasonName(r1)[|ReasonName(r1)| - 1];
    assert k2[|k2| - 1] == ReasonName(r2)[|ReasonName(r2)| - 1];
    assert r1 == r2;
    assert |t1| == |t2|;
    assert k1[..|t1|] == t1 && k2[..|t2|] == t2;
  }

  class MessageDropCounter {
    var counts: map<string, nat>

    constructor ()
      ensures counts == map[]
    {
      counts := map[];
    }

    method Record(topic: string, reason: DropReason)
      modifies this
      ensures counts == Recorded(old(counts), topic, reason)
    {
      var key := CountKey(topic, reason);
      counts := counts[key := (if key in counts then counts[key] else 0) + 1];
    }

    method Get(topic: string, reason: DropReason) returns (count: nat)
      ensures count == CountOf(counts, CountKey(topic, reason))
    {
      var key := CountKey(topic, reason);
      count := if key in counts then counts[key] else 0;
    }

    method Total() returns (total: nat)
      ensures total == Sum(counts)
    {
      total := 0;
      var left := counts;
      while left != map[]
        invariant total + Sum(left) == Sum(counts)
        decreases |left|
      {
        var key :| key in left;
        SumWithout(left, key);
        total := total + left[key];
        left := left - {key};
      }
    }
  }

  // ----- One message -----

  predicate Succeeds(trial: Trial, maxAttempts: int) {
    trial.decodes && Within(trial.handles, maxAttempts)
  }

  /** Neither handled nor dead-lettered: the message is left to redelivery. */
  predicate Abandoned(trial: Trial, maxAttempts: int) {
    !Succeeds(trial, maxAttempts) && !Within(trial.publishes, DLQ_PUBLISH_ATTEMPTS)
  }

  function Dropped(trial: Trial): DropReason {
    if trial.decodes then HandlerExhausted else Undecodable
  }

  function Committed(l: Ledger, offset: nat, trial: Trial): Ledger {
    if trial.commits then l.(commits := l.commits + [offset], committed := offset + 1) else l
  }

  function Consumed(l: Ledger, topic: string, offset: nat, trial: Trial, maxAttempts: int): Ledger {
    if Succeeds(trial, maxAttempts) then Committed(l.(handled := l.handled + {offset}), offset, trial)
    else if Abandoned(trial, maxAttempts) then l
    else Committed(l.(deadLetters := l.deadLetters + [(offset, Dropped(trial))],
                      counts := Recorded(l.counts, topic, Dropped(trial))), offset, trial)
  }

  class PartitionConsumer {
    const topic: string
    const maxAttempts: int
    const dropCounter: MessageDropCounter
    var committed: nat
    var commits: seq<nat>
    var handled: set<nat>
    var deadLetters: seq<(nat, DropReason)>

    constructor (topic: string, maxAttempts: int, dropCounter: MessageDropCounter)
      ensures this.topic == topic && this.maxAttempts == maxAttempts && this.dropCounter == dropCounter
      ensures Current() == EMPTY.(counts := dropCounter.counts)
    {
      this.topic := topic;
      this.maxAttempts := maxAttempts;
      this.dropCounter := dropCounter;
      committed, commits, handled, deadLetters := 0, [], {}, [];
    }

    ghost function Current(): Ledger
      reads this, dropCounter
    {
      Ledger(committed, commits, handled, deadLetters, dropCounter.counts)
    }

    /** Stops at the first attempt that works, and gives up after `maxAttempts`. */
    method RunHandlerWithRetry(trial: Trial) returns (ok: bool, attempts: int)
      ensures ok <==> Within(trial.handles, maxAttempts)
      ensures ok ==> 1 <= attempts <= maxAttempts && trial.handles(attempts) && !Within(trial.handles, attempts - 1)
    {
      attempts := 1;
      while attempts <= maxAttempts
        invariant 1 <= attempts
        invariant !Within(trial.handles, attempts - 1)
        decreases maxAttempts - attempts
      {
        if trial.handles(attempts) {
          return true, attempts;
        }
        if attempts >= maxAttempts {
          return false, attempts;
        }
        attempts := attempts + 1;
      }
      return false, attempts;
    }

    method PublishDeadLetter(trial: Trial) returns (published: bool)
      ensures published <==> Within(trial.publishes, DLQ_PUBLISH_ATTEMPTS)
    {
      var attempt := 1;
      while attempt <= DLQ_PUBLISH_ATTEMPTS
        invariant 1 <= attempt <= DLQ_PUBLISH_ATTEMPTS + 1
        invariant !Within(trial.publishes, attempt - 1)
      {
        if trial.publishes(attempt) {
          return true;
        }
        if attempt >= DLQ_PUBLISH_ATTEMPTS {
          return false;
        }
        attempt := attempt + 1;
      }
      return false;
    }

    method Commit(offset: nat, trial: Trial)
      modifies this
      ensures Current() == Committed(old(Current()), offset, trial)
    {
      if trial.commits {
        commits := commits + [offset];
        committed := offset + 1;
      }
    }

    method DeadLetterThenCommit(offset: nat, reason: DropReason, trial: Trial)
      modifies this, dropCounter
      ensures Current() == if !Within(trial.publishes, DLQ_PUBLISH_ATTEMPTS) then old(Current())
                           else Committed(old(Current()).(deadLetters := old(deadLetters) + [(offset, reason)],
                                                          counts := Recorded(old(dropCounter.counts), topic, reason)),
                                          offset, trial)
    {
      var published := PublishDeadLetter(trial);
      if !published {
        return;
      }
      deadLetters := deadLetters + [(offset, reason)];
      dropCounter.Record(topic, reason);
      Commit(offset, trial);
    }

    method ConsumeOneMessage(offset: nat, trial: Trial)
      modifies this, dropCounter
      ensures Current() == Consumed(old(Current()), topic, offset, trial, maxAttempts)
    {
      if !trial.decodes {
        DeadLetterThenCommit(offset, Undecodable, trial);
        return;
      }
      var ok, _ := RunHandlerWithRetry(trial);
      if ok {
        handled := handled + {offset};
        Commit(offset, trial);
        return;
      }
      DeadLetterThenCommit(offset, HandlerExhausted, trial);
    }
  }

  // ----- Runs -----

  /** What happens to a partition's consumer: the message at its cursor arrives, it starts again where it last committed, or
      another consumer of the process drops a message into the shared counter. */
  datatype Visit = Next(trial: Trial) | Restart | Elsewhere(topic: string, reason: DropReason)

  datatype Progress = Progress(ledger: Ledger, cursor: nat, elsewhere: nat)

  function Visited(p: Progress, topic: string, visit: Visit, maxAttempts: int): Progress {
    match visit
    case Next(trial) => p.(ledger := Consumed(p.ledger, topic, p.cursor, trial, maxAttempts), cursor := p.cursor + 1)
    case Restart => p.(cursor := p.ledger.committed)
    case Elsewhere(t, reason) => p.(ledger := p.ledger.(counts := Recorded(p.ledger.counts, t, reason)), elsewhere := p.elsewhere + 1)
  }

  // From the partition's start, on a counter that may have counted before.
  function VisitedAll(counts: map<string, nat>, topic: string, visits: seq<Visit>, maxAttempts: int): Progress {
    if visits == [] then Progress(EMPTY.(counts := counts), 0, 0)
    else Visited(VisitedAll(counts, topic, visits[..|visits| - 1], maxAttempts), topic, visits[|visits| - 1], maxAttempts)
  }

  predicate DeadLettered(l: Ledger, offset: nat) {
    exists i | 0 <= i < |l.deadLetters| :: l.deadLetters[i].0 == offset
  }

  predicate Accounted(l: Ledger, offset: nat) {
    offset in l.handled || DeadLettered(l, offset)
  }

  lemma ConsumedAccounts(l: Ledger, topic: string, offset: nat, trial: Trial, maxAttempts: int)
    ensures var next := Consumed(l, topic, offset, trial, maxAttempts);
            && (forall o: nat :: Accounted(next, o) <==> Accounted(l, o) || (o == offset && !Abandoned(trial, maxAttempts)))
            && (Abandoned(trial, maxAttempts) ==> next == l)
            && Sum(next.counts) - |next.deadLetters| == Sum(l.counts) - |l.deadLetters|
  {
    var next := Consumed(l, topic, offset, trial, maxAttempts);
    SumRecorded(l.counts, topic, Dropped(trial));
    forall o | DeadLettered(l, o) ensures DeadLettered(next, o) {
      var i :| 0 <= i < |l.deadLetters| && l.deadLetters[i].0 == o;
      assert next.deadLetters[i] == l.deadLetters[i];
    }
    if !Succeeds(trial, maxAttempts) && !Abandoned(trial, maxAttempts) {
      assert next.deadLetters[|l.deadLetters|] == (offset, Dropped(trial));
    }
  }

  /** Over any visits: whatever is committed was handled or dead-lettered first, the consumer never commits past its cursor,
      and the shared counter has gone up by exactly the dead letters published, here and elsewhere. */
  lemma {:induction false} CommitDiscipline(counts: map<string, nat>, topic: string, visits: seq<Visit>, maxAttempts: int)
    ensures var p := VisitedAll(counts, topic, visits, maxAttempts);
            && (forall o <- p.ledger.commits :: Accounted(p.ledger, o))
            && Sum(p.ledger.counts) == Sum(counts) + |p.ledger.deadLetters| + p.elsewhere
            && p.ledger.committed == (if p.ledger.commits == [] then 0 else p.ledger.commits[|p.ledger.commits| - 1] + 1)
            && p.ledger.committed <= p.cursor
  {
    if visits != [] {
      var init, last := visits[..|visits| - 1], visits[|visits| - 1];
      CommitDiscipline(counts, topic, init, maxAttempts);
      VisitKeepsDiscipline(VisitedAll(counts, topic, init, maxAttempts), topic, last, maxAttempts);
    }
  }

  // The handler succeeds on one of its attempts, and the dead-letter topic takes the message on one of three.
  predicate Handles(trial: Trial, maxAttempts: int) {
    trial.decodes && exists a | 1 <= a <= maxAttempts :: trial.handles(a)
  }

  predicate Publishes(trial: Trial) {
    trial.publishes(1) || trial.publishes(2) || trial.publishes(3)
  }

  /** What becomes of one message, wherever the run stands: it is handled; or it is dead-lettered under its reason and counted once,
      under that reason and no other; or nothing happens. It is committed exactly if one of the first two happened and the broker
      takes the commit, after a dead letter just as after a success. */
  lemma MessageIsSettled(p: Progress, topic: string, trial: Trial, maxAttempts: int, q: Progress)
    requires q == Visited(p, topic, Next(trial), maxAttempts)
    ensures var o, ok := p.cursor, Handles(trial, maxAttempts);
            var dropped := !ok && Publishes(trial);
            var reason := if trial.decodes then HandlerExhausted else Undecodable;
            && q.cursor == o + 1 && q.elsewhere == p.elsewhere
            && q.ledger.handled == (if ok then p.ledger.handled + {o} else p.ledger.handled)
            && q.ledger.deadLetters == (if dropped then p.ledger.deadLetters + [(o, reason)] else p.ledger.deadLetters)
            && q.ledger.committed == (if (ok || dropped) && trial.commits then o + 1 else p.ledger.committed)
            && q.ledger.commits == (if (ok || dropped) && trial.commits then p.ledger.commits + [o] else p.ledger.commits)
            && (forall t, r :: CountOf(q.ledger.counts, CountKey(t, r))
                               == CountOf(p.ledger.counts, CountKey(t, r)) + if dropped && t == topic && r == reason then 1 else 0)
  {
    assert Within(trial.publishes, 3) <==> Publishes(trial) by {
      if Publishes(trial) {
        var a := if trial.publishes(1) then 1 else if trial.publishes(2) then 2 else 3;
        assert 1 <= a <= 3 && trial.publishes(a);
      }
    }
    forall t, r ensures CountKey(t, r) == CountKey(topic, Dropped(trial)) <==> t == topic && r == Dropped(trial) {
      if CountKey(t, r) == CountKey(topic, Dropped(trial)) {
        CountKeyIsInjective(t, r, topic, Dropped(trial));
      }
    }
  }

  ghost predicate Disciplined(p: Progress) {
    && (forall o <- p.ledger.commits :: Accounted(p.ledger, o))
    && p.ledger.committed == (if p.ledger.commits == [] then 0 else p.ledger.commits[|p.ledger.commits| - 1] + 1)
    && p.ledger.committed <= p.cursor
  }

  lemma VisitKeepsDiscipline(p: Progress, topic: string, visit: Visit, maxAttempts: int)
    requires Disciplined(p)
    ensures var q := Visited(p, topic, visit, maxAttempts);
            && Disciplined(q)
            && Sum(q.ledger.counts) - |q.ledger.deadLetters| - q.elsewhere == Sum(p.ledger.counts) - |p.ledger.deadLetters| - p.elsewhere
  {
    var q := Visited(p, topic, visit, maxAttempts);
    match visit
    case Next(trial) =>
      ConsumedAccounts(p.ledger, topic, p.cursor, trial, maxAttempts);
      forall o <- q.ledger.commits ensures Accounted(q.ledger, o) {
        assert o in p.ledger.commits || o == p.cursor;
      }
    case Restart =>
    case Elsewhere(t, reason) =>
      SumRecorded(p.ledger.counts, t, reason);
      forall o <- q.ledger.commits ensures Accounted(q.ledger, o) {
        assert Accounted(p.ledger, o) && q.ledger.deadLetters == p.ledger.deadLetters;
      }
  }

  // ----- What the committed offset means -----

  // Visit k delivered this offset.
  ghost predicate Delivers(counts: map<string, nat>, topic: string, visits: seq<Visit>, maxAttempts: int, k: nat, offset: nat)
    requires k < |visits|
  {
    visits[k].Next? && VisitedAll(counts, topic, visits[..k], maxAttempts).cursor == offset
  }

  ghost predicate Delivered(counts: map<string, nat>, topic: string, visits: seq<Visit>, maxAttempts: int, offset: nat) {
    exists k: nat :: k < |visits| && Delivers(counts, topic, visits, maxAttempts, k, offset)
  }

  /** Some delivery of this offset was not abandoned. */
  ghost predicate DeliveredWell(counts: map<string, nat>, topic: string, visits: seq<Visit>, maxAttempts: int, offset: nat) {
    exists k: nat ::
      k < |visits| && Delivers(counts, topic, visits, maxAttempts, k, offset) && !Abandoned(visits[k].trial, maxAttempts)
  }

  lemma DeliversSnoc(counts: map<string, nat>, topic: string, visits: seq<Visit>, visit: Visit, maxAttempts: int, k: nat, offset: nat)
    requires k <= |visits|
    ensures Delivers(counts, topic, visits + [visit], maxAttempts, k, offset)
            <==> if k < |visits| then Delivers(counts, topic, visits, maxAttempts, k, offset)
                 else visit.Next? && VisitedAll(counts, topic, visits, maxAttempts).cursor == offset
    ensures (visits + [visit])[k] == if k < |visits| then visits[k] else visit
  {
    assert (visits + [visit])[..k] == visits[..k];
  }

  lemma DeliveredSnoc(counts: map<string, nat>, topic: string, visits: seq<Visit>, visit: Visit, maxAttempts: int, offset: nat)
    ensures Delivered(counts, topic, visits + [visit], maxAttempts, offset)
            <==> Delivered(counts, topic, visits, maxAttempts, offset)
                 || (visit.Next? && VisitedAll(counts, topic, visits, maxAttempts).cursor == offset)
  {
    var all, n := visits + [visit], |visits|;
    DeliversSnoc(counts, topic, visits, visit, maxAttempts, n, offset);
    if Delivered(counts, topic, visits, maxAttempts, offset) {
      var k: nat :| k < n && Delivers(counts, topic, visits, maxAttempts, k, offset);
      DeliversSnoc(counts, topic, visits, visit, maxAttempts, k, offset);
    }
    if Delivered(counts, topic, all, maxAttempts, offset) {
      var k: nat :| k < |all| && Delivers(counts, topic, all, maxAttempts, k, offset);
      DeliversSnoc(counts, topic, visits, visit, maxAttempts, k, offset);
    }
  }

  lemma DeliveredWellSnoc(counts: map<string, nat>, topic: string, visits: seq<Visit>, visit: Visit, maxAttempts: int, offset: nat)
    ensures DeliveredWell(counts, topic, visits + [visit], maxAttempts, offset)
            <==> DeliveredWell(counts, topic, visits, maxAttempts, offset)
                 || (visit.Next? && VisitedAll(counts, topic, visits, maxAttempts).cursor == offset && !Abandoned(visit.trial, maxAttempts))
  {
    var all, n := visits + [visit], |visits|;
    DeliversSnoc(counts, topic, visits, visit, maxAttempts, n, offset);
    if DeliveredWell(counts, topic, visits, maxAttempts, offset) {
      var k: nat :| k < n && Delivers(counts, topic, visits, maxAttempts, k, offset) && !Abandoned(visits[k].trial, maxAttempts);
      DeliversSnoc(counts, topic, visits, visit, maxAttempts, k, offset);
    }
    if DeliveredWell(counts, topic, all, maxAttempts, offset) {
      var k: nat :| k < |all| && Delivers(counts, topic, all, maxAttempts, k, offset) && !Abandoned(all[k].trial, maxAttempts);
      DeliversSnoc(counts, topic, visits, visit, maxAttempts, k, offset);
    }
  }

  lemma {:induction false} AccountedExactlyWhen(counts: map<string, nat>, topic: string, visits: seq<Visit>, maxAttempts: int, offset: nat)
    ensures var p := VisitedAll(counts, topic, visits, maxAttempts);
            && (Accounted(p.ledger, offset) <==> DeliveredWell(counts, topic, visits, maxAttempts, offset))
            && (offset < p.cursor || offset < p.ledger.committed ==> Delivered(counts, topic, visits, maxAttempts, offset))
  {
    if visits != [] {
      var init, last := visits[..|visits| - 1], visits[|visits| - 1];
      var before := VisitedAll(counts, topic, init, maxAttempts);
      AccountedExactlyWhen(counts, topic, init, maxAttempts, offset);
      assert visits == init + [last];
      DeliveredSnoc(counts, topic, init, last, maxAttempts, offset);
      DeliveredWellSnoc(counts, topic, init, last, maxAttempts, offset);
      if last.Next? {
        ConsumedAccounts(before.ledger, topic, before.cursor, last.trial, maxAttempts);
      } else {
        assert VisitedAll(counts, topic, visits, maxAttempts).ledger.deadLetters == before.ledger.deadLetters;
      }
    }
  }

  /** With any restarts and redeliveries: everything below the committed offset was delivered, and all of it was handled or
      dead-lettered if and only if every one of these messages had a delivery that was not abandoned. */
  lemma CommittedMeansAccounted(counts: map<string, nat>, topic: string, visits: seq<Visit>, maxAttempts: int, l: Ledger)
    requires l == VisitedAll(counts, topic, visits, maxAttempts).ledger
    ensures forall o: nat :: o < l.committed ==> Delivered(counts, topic, visits, maxAttempts, o)
    ensures (forall o: nat :: o < l.committed ==> Accounted(l, o))
            <==> (forall o: nat :: o < l.committed ==> DeliveredWell(counts, topic, visits, maxAttempts, o))
  {
    forall o: nat
      ensures o < l.committed ==> Delivered(counts, topic, visits, maxAttempts, o)
      ensures Accounted(l, o) <==> DeliveredWell(counts, topic, visits, maxAttempts, o)
    {
      AccountedExactlyWhen(counts, topic, visits, maxAttempts, o);
    }
  }

  /** A restart loses nothing: whatever was not committed is delivered again, from the committed offset on, one after the other. */
  lemma {:induction false} RestartRedelivers(counts: map<string, nat>, topic: string, visits: seq<Visit>, maxAttempts: int, again: seq<Trial>, k: nat)
    requires k < |again|
    ensures var p, all := VisitedAll(counts, topic, visits, maxAttempts), visits + [Restart] + Nexts(again[..k]) + [Next(again[k])];
            Delivers(counts, topic, all, maxAttempts, |all| - 1, p.ledger.committed + k)
  {
    var p, before := VisitedAll(counts, topic, visits, maxAttempts), visits + [Restart] + Nexts(again[..k]);
    RestartedCursor(counts, topic, visits, maxAttempts, again[..k]);
    assert (before + [Next(again[k])])[..|before|] == before;
  }

  function Nexts(trials: seq<Trial>): seq<Visit> {
    if trials == [] then [] else Nexts(trials[..|trials| - 1]) + [Next(trials[|trials| - 1])]
  }

  lemma {:induction false} RestartedCursor(counts: map<string, nat>, topic: string, visits: seq<Visit>, maxAttempts: int, again: seq<Trial>)
    ensures VisitedAll(counts, topic, visits + [Restart] + Nexts(again), maxAttempts).cursor
            == VisitedAll(counts, topic, visits, maxAttempts).ledger.committed + |again|
  {
    if again == [] {
      assert visits + [Restart] + Nexts(again) == visits + [Restart];
      VisitedSnoc(counts, topic, visits, Restart, maxAttempts);
    } else {
      var init, last := again[..|again| - 1], again[|again| - 1];
      RestartedCursor(counts, topic, visits, maxAttempts, init);
      VisitedSnoc(counts, topic, visits + [Restart] + Nexts(init), Next(last), maxAttempts);
      assert visits + [Restart] + Nexts(again) == visits + [Restart] + Nexts(init) + [Next(last)];
    }
  }

  /** It does happen: the first message fails everywhere, the second succeeds and commits past it, and a restart does not
      bring the first one back. */
  lemma AbandonedMessageIsPassed(topic: string, bad: Trial, good: Trial, maxAttempts: int, p: Progress)
    requires Abandoned(bad, maxAttempts) && Succeeds(good, maxAttempts) && good.commits
    requires p == VisitedAll(map[], topic, [Next(bad)] + [Next(good)] + [Restart], maxAttempts)
    ensures p.ledger.committed == 2 && p.cursor == 2 && !Accounted(p.ledger, 0)
  {
    var counts: map<string, nat> := map[];
    VisitedSnoc(counts, topic, [], Next(bad), maxAttempts);
    VisitedSnoc(counts, topic, [Next(bad)], Next(good), maxAttempts);
    VisitedSnoc(counts, topic, [Next(bad)] + [Next(good)], Restart, maxAttempts);
    assert [] + [Next(bad)] == [Next(bad)];
  }

  lemma VisitedSnoc(counts: map<string, nat>, topic: string, visits: seq<Visit>, visit: Visit, maxAttempts: int)
    ensures VisitedAll(counts, topic, visits + [visit], maxAttempts)
            == Visited(VisitedAll(counts, topic, visits, maxAttempts), topic, visit, maxAttempts)
  {
    assert (visits + [visit])[..|visits|] == visits;
  }
}
