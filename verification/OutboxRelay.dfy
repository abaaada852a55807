/** The relay object: one exclusive drain of the outbox, and the timer loop that backs off while drains fail. */
module Relay {
  import opened Results
  import opened Sequences
  import opened Outbox
  import opened ExactlyOnce

  datatype RelayError = FetchFailed | PublishFailed | MarkFailed

  /** What a drain meets: another drainer's advisory lock, or a fetch, a publish and a mark that work or do not.
      After a failed publish the attempts are counted, unless counting fails too. */
  datatype Weather = LockBusy | Drain(fetchFails: bool, fate: Fate, countFails: bool, markFails: bool)

  /** The steps of the system a drain amounts to. */
  function StepsOf(w: Weather): seq<Step> {
    match w
    case LockBusy => []
    case Drain(fetchFails, fate, _, markFails) =>
      if fetchFails then []
      else [Fetch, Publish(fate)] + [if fate.Sent? && !markFails then MarkPublished else StopDrainer]
  }

  function Backoff(currentMs: nat, maxMs: nat): nat {
    if currentMs * 2 < maxMs then currentMs * 2 else maxMs
  }

  class OutboxRelay {
    const outbox: OutboxTable
    const producer: KafkaProducer
    const intervalMs: nat
    const batchSize: nat
    const maxBackoffMs: nat
    var currentBackoffMs: nat

    constructor (outbox: OutboxTable, producer: KafkaProducer, intervalMs: nat, batchSize: nat, maxBackoffMs: nat)
      ensures this.outbox == outbox && this.producer == producer
      ensures this.intervalMs == intervalMs && this.batchSize == batchSize && this.maxBackoffMs == maxBackoffMs
      ensures currentBackoffMs == intervalMs
    {
      this.outbox := outbox;
      this.producer := producer;
      this.intervalMs := intervalMs;
      this.batchSize := batchSize;
      this.maxBackoffMs := maxBackoffMs;
      currentBackoffMs := intervalMs;
    }

    /** Publishes the oldest unpublished rows and marks exactly those: after an error nothing is marked. */
    method RunOnce(w: Weather) returns (r: Result<nat, RelayError>)
      modifies outbox, producer
      ensures var rows := Take(Unpublished(old(outbox.table)), batchSize);
              if w.LockBusy? || w.fetchFails || rows == [] then
                && outbox.table == old(outbox.table) && producer.logs == old(producer.logs)
                && r == (if w.Drain? && w.fetchFails then Err(FetchFailed) else Ok(0))
              else
                && producer.logs == Delivered(producer.partitionOf, old(producer.logs), rows, w.fate)
                && if w.fate.Failed? then
                     && outbox.table == (if w.countFails then old(outbox.table) else Attempted(old(outbox.table), Ids(rows)))
                     && r == Err(PublishFailed)
                   else if w.markFails then outbox.table == old(outbox.table) && r == Err(MarkFailed)
                   else outbox.table == Marked(old(outbox.table), Ids(rows)) && r == Ok(|rows|)
    {
      if w.LockBusy? {
        return Ok(0);
      }
      if w.fetchFails {
        return Err(FetchFailed);
      }
      var rows := outbox.FetchUnpublished(batchSize);
      if |rows| == 0 {
        return Ok(0);
      }
      producer.PublishBatch(rows, w.fate);
      if w.fate.Failed? {
        if !w.countFails {
          outbox.IncrementAttempts(Ids(rows));
        }
        return Err(PublishFailed);
      }
      if w.markFails {
        return Err(MarkFailed);
      }
      outbox.MarkPublished(Ids(rows));
      return Ok(|rows|);
    }

    /** Returns the delay to the next tick. */
    method Tick(w: Weather) returns (delayMs: nat, ghost ok: bool)
      modifies this, outbox, producer
      ensures ok ==> delayMs == intervalMs && currentBackoffMs == intervalMs
      ensures !ok ==> delayMs == old(currentBackoffMs) && currentBackoffMs == Backoff(old(currentBackoffMs), maxBackoffMs)
      ensures !ok <==> w.Drain? && (w.fetchFails || (Take(Unpublished(old(outbox.table)), batchSize) != []
                                                     && (w.fate.Failed? || w.markFails)))
    {
      var outcome := RunOnce(w);
      ok := outcome.Ok?;
      if outcome.Ok? {
        currentBackoffMs := intervalMs;
        return intervalMs, ok;
      }
      delayMs := currentBackoffMs;
      currentBackoffMs := Backoff(currentBackoffMs, maxBackoffMs);
    }

    // A tick after so many failures in a row.
    method TickAfter(w: Weather, ghost failures: nat) returns (delayMs: nat, ghost ok: bool)
      requires currentBackoffMs == DelayOf(intervalMs, maxBackoffMs, failures)
      modifies this, outbox, producer
      ensures delayMs == if ok then intervalMs else DelayOf(intervalMs, maxBackoffMs, failures)
      ensures currentBackoffMs == DelayOf(intervalMs, maxBackoffMs, if ok then 0 else failures + 1)
    {
      delayMs, ok := Tick(w);
    }

    /** Tick after tick: each delay is the interval after a success, and otherwise depends on how many ticks failed in a row. */
    method Ticks(weathers: seq<Weather>) returns (delays: seq<nat>, ghost oks: seq<bool>)
      requires currentBackoffMs == intervalMs
      modifies this, outbox, producer
      ensures |oks| == |weathers| && Scheduled(delays, oks, intervalMs, maxBackoffMs)
    {
      delays, oks := [], [];
      ghost var failures := 0;
      for n := 0 to |weathers|
        invariant |oks| == n && Scheduled(delays, oks, intervalMs, maxBackoffMs)
        invariant failures == FailuresBefore(oks, |oks|) && currentBackoffMs == DelayOf(intervalMs, maxBackoffMs, failures)
      {
        var delayMs, ok := TickAfter(weathers[n], failures);
        ScheduledSnoc(delays, oks, delayMs, ok, intervalMs, maxBackoffMs);
        delays, oks, failures := delays + [delayMs], oks + [ok], if ok then 0 else failures + 1;
      }
    }
  }

  ghost predicate Scheduled(delays: seq<nat>, oks: seq<bool>, intervalMs: nat, maxMs: nat) {
    && |delays| == |oks|
    && forall i :: 0 <= i < |delays| ==>
         delays[i] == if oks[i] then intervalMs else DelayOf(intervalMs, maxMs, FailuresBefore(oks, i))
  }

  lemma ScheduledSnoc(delays: seq<nat>, oks: seq<bool>, delayMs: nat, ok: bool, intervalMs: nat, maxMs: nat)
    requires Scheduled(delays, oks, intervalMs, maxMs)
    requires delayMs == if ok then intervalMs else DelayOf(intervalMs, maxMs, FailuresBefore(oks, |oks|))
    ensures Scheduled(delays + [delayMs], oks + [ok], intervalMs, maxMs)
    ensures FailuresBefore(oks + [ok], |oks| + 1) == if ok then 0 else 1 + FailuresBefore(oks, |oks|)
  {
    forall i | 0 <= i <= |oks| ensures FailuresBefore(oks + [ok], i) == FailuresBefore(oks, i) {
      FailuresSnoc(oks, ok, i);
    }
  }

  // How many ticks right before this one failed.
  ghost function FailuresBefore(oks: seq<bool>, i: nat): nat
    requires i <= |oks|
  {
    if i == 0 || oks[i - 1] then 0 else 1 + FailuresBefore(oks, i - 1)
  }

  lemma {:induction false} FailuresSnoc(oks: seq<bool>, ok: bool, i: nat)
    requires i <= |oks|
    ensures FailuresBefore(oks + [ok], i) == FailuresBefore(oks, i)
  {
    if i > 0 {
      FailuresSnoc(oks, ok, i - 1);
    }
  }

  /** A drain is a run of the system: what `RunOnce` leaves in table and logs is what its steps leave there, up to the
      attempt counts, which the system always counts. */
  lemma DrainIsARun<S>(c: Config<S>, sys: System<S>, w: Weather)
    requires sys.drainer.Idle?
    ensures var after, rows := Run(c, sys, StepsOf(w)), Take(Unpublished(sys.table), c.batchSize);
            && after.drainer.Idle?
            && (w.Drain? && !w.fetchFails ==>
                  && after.logs == Delivered(c.partitionOf, sys.logs, rows, w.fate)
                  && after.table == (if w.fate.Failed? then Attempted(sys.table, Ids(rows))
                                     else if w.markFails then sys.table
                                     else Marked(sys.table, Ids(rows))))
            && (w.LockBusy? || w.fetchFails ==> after == sys)
            && after.consumers == sys.consumers && after.processed == sys.processed && after.states == sys.states
  {
    if w.Drain? && !w.fetchFails {
      var steps := StepsOf(w);
      assert steps[..2] == [Fetch, Publish(w.fate)] && steps[..2][..1] == [Fetch] && [Fetch][..0] == [];
      assert Run(c, sys, [Fetch]) == Next(c, sys, Fetch);
      assert Run(c, sys, steps[..2]) == Next(c, Next(c, sys, Fetch), Publish(w.fate));
    }
  }

  // The delays of consecutive failed ticks, the first right after a success.
  function DelayOf(intervalMs: nat, maxMs: nat, failuresBefore: nat): nat {
    if failuresBefore == 0 then intervalMs else Backoff(DelayOf(intervalMs, maxMs, failuresBefore - 1), maxMs)
  }

  function Pow2(n: nat): nat {
    if n == 0 then 1 else 2 * Pow2(n - 1)
  }

  /** The delay doubles with every failure until it reaches the maximum. */
  lemma {:induction false} BackoffIsExponential(intervalMs: nat, maxMs: nat, failuresBefore: nat)
    ensures failuresBefore > 0 ==>
              DelayOf(intervalMs, maxMs, failuresBefore)
              == if intervalMs * Pow2(failuresBefore) < maxMs then intervalMs * Pow2(failuresBefore) else maxMs
  {
    if failuresBefore > 0 {
      BackoffIsExponential(intervalMs, maxMs, failuresBefore - 1);
      DoublePow(intervalMs, failuresBefore - 1);
    }
  }

  lemma DoublePow(intervalMs: nat, n: nat)
    ensures intervalMs * Pow2(n + 1) == 2 * (intervalMs * Pow2(n))
  {
    var p := Pow2(n);
    assert Pow2(n + 1) == 2 * p;
    assert intervalMs * (2 * p) == 2 * (intervalMs * p);
  }
}
