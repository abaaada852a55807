/**
 Outbox, relay, broker and de-duplicating consumer as one step system.

 Writers append rows while a single drainer fetches, publishes and marks batches; a publish can fail half way, a
 mark can fail after a full publish, and the drainer can stop at any point. Every partition has one consumer, which
 can go back to its last committed offset at any time. Whatever happens, the messages of every aggregate take
 effect exactly once and in order.
 */
module ExactlyOnce {
  import opened Sequences
  import opened Outbox
  import opened Streams

  /** What a run does not change: the partitioner, the handler of the messages, the batch size. */
  datatype Config<!S> = Config(partitionOf: string -> nat, handler: Handler<S>, batchSize: nat)

  // Where the drainer stands.
  datatype Drainer = Idle | Fetched(batch: seq<Record>) | Published(batch: seq<Record>)

  datatype Consumer = Consumer(cursor: nat, committed: nat)

  datatype System<S> = System(
    table: seq<Entry>,
    drainer: Drainer,
    logs: map<Lane, seq<Record>>,
    consumers: map<Lane, Consumer>,
    processed: set<nat>,
    states: map<Stream, S>)

  datatype Step =
    | Append(record: Record, at: nat)
    | Fetch
    | Publish(fate: Fate)
    | MarkPublished
    | StopDrainer
    | Deliver(lane: Lane)
    | Commit(lane: Lane)
    | Rewind(lane: Lane)

  function Start<S>(): System<S> {
    System([], Idle, map[], map[], {}, map[])
  }

  function ConsumerOf<S>(sys: System<S>, lane: Lane): Consumer {
    if lane in sys.consumers then sys.consumers[lane] else Consumer(0, 0)
  }

  function StateOf<S>(c: Config<S>, sys: System<S>, s: Stream): S {
    if s in sys.states then sys.states[s] else c.handler.initial
  }

  /** A new row has a fresh id, and the rows of its own stream were created before it. */
  predicate MayAppend(table: seq<Entry>, record: Record, at: nat) {
    && at <= |table|
    && record.id !in Ids(Records(table))
    && forall i :: at <= i < |table| ==> StreamOf(table[i].record) != StreamOf(record)
  }

  // IdempotentConsumer.runOnce in the transaction of the handler.
  function RunOnce<S>(c: Config<S>, sys: System<S>, r: Record): System<S> {
    if r.id in sys.processed then sys
    else
      var s := StreamOf(r);
      sys.(processed := sys.processed + {r.id}, states := sys.states[s := c.handler.handle(StateOf(c, sys, s), r)])
  }

  function Next<S>(c: Config<S>, sys: System<S>, step: Step): System<S> {
    match step
    case Append(record, at) =>
      if MayAppend(sys.table, record, at) then sys.(table := Inserted(sys.table, at, record)) else sys
    case Fetch =>
      if sys.drainer.Idle? then sys.(drainer := Fetched(Take(Unpublished(sys.table), c.batchSize))) else sys
    case Publish(fate) =>
      if sys.drainer.Fetched? then
        var batch := sys.drainer.batch;
        sys.(logs := Delivered(c.partitionOf, sys.logs, batch, fate),
             table := if fate.Sent? then sys.table else Attempted(sys.table, Ids(batch)),
             drainer := if fate.Sent? then Published(batch) else Idle)
      else sys
    case MarkPublished =>
      if sys.drainer.Published? then sys.(table := Marked(sys.table, Ids(sys.drainer.batch)), drainer := Idle) else sys
    case StopDrainer =>
      sys.(drainer := Idle)
    case Deliver(lane) =>
      var consumer := ConsumerOf(sys, lane);
      if consumer.cursor < |Log(sys.logs, lane)| then
        var handled := RunOnce(c, sys, Log(sys.logs, lane)[consumer.cursor]);
        handled.(consumers := sys.consumers[lane := consumer.(cursor := consumer.cursor + 1)])
      else sys
    case Commit(lane) =>
      var consumer := ConsumerOf(sys, lane);
      sys.(consumers := sys.consumers[lane := consumer.(committed := consumer.cursor)])
    case Rewind(lane) =>
      var consumer := ConsumerOf(sys, lane);
      sys.(consumers := sys.consumers[lane := consumer.(cursor := consumer.committed)])
  }

  function Run<S>(c: Config<S>, sys: System<S>, steps: seq<Step>): System<S> {
    if steps == [] then sys
    else Next(c, Run(c, sys, steps[..|steps| - 1]), steps[|steps| - 1])
  }

  // ----- One stream of the system -----

  function Holds(p: Record -> bool): Entry -> bool {
    (e: Entry) => p(e.record)
  }

  function EntriesWhere(table: seq<Entry>, p: Record -> bool): seq<Entry> {
    Filter(table, Holds(p))
  }

  // The rows of a stream with their flags, in creation order.
  function Entries(table: seq<Entry>, s: Stream): seq<Entry> {
    EntriesWhere(table, OnStream(s))
  }

  function Rows(table: seq<Entry>, s: Stream): seq<Record> {
    Records(Entries(table, s))
  }

  function Batch<S>(sys: System<S>): seq<Record> {
    if sys.drainer.Idle? then [] else sys.drainer.batch
  }

  // The part of a partition its consumer has passed.
  function Behind<S>(sys: System<S>, lane: Lane): seq<Record> {
    Take(Log(sys.logs, lane), ConsumerOf(sys, lane).cursor)
  }

  function Project<S>(c: Config<S>, sys: System<S>, s: Stream): View<S> {
    var lane := LaneOf(s, c.partitionOf);
    View(Entries(sys.table, s), Filter(Batch(sys), OnStream(s)), sys.drainer.Published?,
         Filter(Log(sys.logs, lane), OnStream(s)), Filter(Behind(sys, lane), OnStream(s)),
         sys.processed, StateOf(c, sys, s))
  }

  // ----- The invariant -----

  ghost predicate UniqueIds(table: seq<Entry>) {
    forall i, j :: 0 <= i < j < |table| ==> table[i].record.id != table[j].record.id
  }

  ghost predicate Known(table: seq<Entry>, rs: seq<Record>) {
    forall r <- rs :: r in Records(table)
  }

  ghost predicate LogsKnown<S>(c: Config<S>, sys: System<S>) {
    forall lane :: Known(sys.table, Log(sys.logs, lane)) && OnlyLane(c.partitionOf, Log(sys.logs, lane), lane)
  }

  ghost predicate OnlyLane(partitionOf: string -> nat, rs: seq<Record>, lane: Lane) {
    forall r <- rs :: LaneOf(StreamOf(r), partitionOf) == lane
  }

  ghost predicate CursorsInLogs<S>(sys: System<S>) {
    forall lane :: CursorInLog(ConsumerOf(sys, lane), Log(sys.logs, lane))
  }

  predicate CursorInLog(consumer: Consumer, log: seq<Record>) {
    consumer.committed <= consumer.cursor <= |log|
  }

  /** What holds across streams: ids are unique, and whatever is in flight, logged or processed is in the table. */
  ghost predicate Sound<S>(c: Config<S>, sys: System<S>) {
    && UniqueIds(sys.table)
    && sys.processed <= Ids(Records(sys.table))
    && Known(sys.table, Batch(sys))
    && LogsKnown(c, sys)
    && CursorsInLogs(sys)
  }

  ghost predicate StreamInOrder<S>(c: Config<S>, sys: System<S>, s: Stream) {
    exists marked, applied :: InOrder(c.handler, Project(c, sys, s), marked, applied)
  }

  ghost predicate Invariant<S>(c: Config<S>, sys: System<S>) {
    Sound(c, sys) && forall s :: StreamInOrder(c, sys, s)
  }

  // ----- Table lemmas -----

  lemma RowsMembers(table: seq<Entry>, p: Record -> bool)
    ensures forall r :: r in Records(EntriesWhere(table, p)) <==> r in Records(table) && p(r)
  {
    FilterMembers(table, Holds(p));
    forall r ensures r in Records(EntriesWhere(table, p)) <==> r in Records(table) && p(r) {
      if r in Records(EntriesWhere(table, p)) {
        var i :| 0 <= i < |EntriesWhere(table, p)| && EntriesWhere(table, p)[i].record == r;
        assert EntriesWhere(table, p)[i] in table;
      }
      if r in Records(table) && p(r) {
        var i :| 0 <= i < |table| && table[i].record == r;
        assert table[i] in EntriesWhere(table, p);
      }
    }
  }

  lemma EntriesInserted(table: seq<Entry>, record: Record, at: nat, s: Stream)
    requires MayAppend(table, record, at)
    ensures Entries(Inserted(table, at, record), s)
            == SnocIf(Entries(table, s), s == StreamOf(record), Entry(record, false, 0))
  {
    FilterInsert(table[..at], Entry(record, false, 0), table[at..], Holds(OnStream(s)));
    assert table == table[..at] + table[at..];
    if s == StreamOf(record) {
      forall e <- table[at..] ensures !Holds(OnStream(s))(e) {
        var i :| at <= i < |table| && table[i] == e;
      }
      FilterNothing(table[at..], Holds(OnStream(s)));
    } else {
      assert !Holds(OnStream(s))(Entry(record, false, 0));
    }
  }

  lemma {:induction false} EntriesMarked(table: seq<Entry>, ids: set<nat>, p: Record -> bool)
    ensures EntriesWhere(Marked(table, ids), p) == Marked(EntriesWhere(table, p), ids)
    ensures EntriesWhere(Attempted(table, ids), p) == Attempted(EntriesWhere(table, p), ids)
    ensures Records(Marked(table, ids)) == Records(table) == Records(Attempted(table, ids))
  {
    if table != [] {
      var init, last := table[..|table| - 1], table[|table| - 1];
      EntriesMarked(init, ids, p);
      assert Marked(table, ids)[..|table| - 1] == Marked(init, ids);
      assert Attempted(table, ids)[..|table| - 1] == Attempted(init, ids);
    }
  }

  lemma UnpublishedSnoc(entries: seq<Entry>, e: Entry)
    ensures Unpublished(entries + [e]) == SnocIf(Unpublished(entries), !e.published, e.record)
  {
    assert (entries + [e])[..|entries|] == entries;
  }

  lemma {:induction false} UnpublishedWhere(table: seq<Entry>, p: Record -> bool)
    ensures Filter(Unpublished(table), p) == Unpublished(EntriesWhere(table, p))
    ensures forall r <- Unpublished(table) :: r in Records(table)
  {
    if table != [] {
      var init, last := table[..|table| - 1], table[|table| - 1];
      UnpublishedWhere(init, p);
      FilterSnoc(Unpublished(init), last.record, p);
      UnpublishedSnoc(EntriesWhere(init, p), last);
      assert Records(table) == Records(init) + [last.record];
    }
  }

  lemma SameId(table: seq<Entry>, x: Record, y: Record)
    requires UniqueIds(table) && x in Records(table) && y in Records(table) && x.id == y.id
    ensures x == y
  {
    var i :| 0 <= i < |table| && table[i].record == x;
    var j :| 0 <= j < |table| && table[j].record == y;
    assert !(i < j) && !(j < i);
  }

  // Marking by id reaches just the rows of the batch.
  lemma BatchIds(table: seq<Entry>, batch: seq<Record>, p: Record -> bool)
    requires UniqueIds(table) && Known(table, batch)
    ensures var entries := EntriesWhere(table, p);
            forall i :: 0 <= i < |entries| ==> (entries[i].record.id in Ids(batch) <==> entries[i].record in Filter(batch, p))
  {
    var entries := EntriesWhere(table, p);
    RowsMembers(table, p);
    FilterMembers(batch, p);
    forall i | 0 <= i < |entries| ensures entries[i].record.id in Ids(batch) <==> entries[i].record in Filter(batch, p) {
      var row := entries[i].record;
      assert Records(entries)[i] in Records(entries);
      if row.id in Ids(batch) {
        var r :| r in batch && r.id == row.id;
        SameId(table, r, row);
      }
    }
  }

  // ----- Every step keeps what holds across streams -----

  lemma InsertedFacts(table: seq<Entry>, record: Record, at: nat)
    requires UniqueIds(table) && MayAppend(table, record, at)
    ensures UniqueIds(Inserted(table, at, record))
    ensures forall r :: r in Records(table) ==> r in Records(Inserted(table, at, record))
  {
    var next := Inserted(table, at, record);
    forall i | 0 <= i < |table| ensures table[i].record.id != record.id {
      assert Records(table)[i] in Records(table);
    }
    forall r | r in Records(table) ensures r in Records(next) {
      var i :| 0 <= i < |table| && table[i].record == r;
      assert Records(next)[if i < at then i else i + 1] == r;
    }
  }

  lemma AppendIsSound<S>(c: Config<S>, sys: System<S>, record: Record, at: nat)
    requires Sound(c, sys) && MayAppend(sys.table, record, at)
    ensures Sound(c, Next(c, sys, Append(record, at)))
  {
    var next := Next(c, sys, Append(record, at));
    InsertedFacts(sys.table, record, at);
    assert Known(next.table, Batch(next));
    forall lane ensures Known(next.table, Log(next.logs, lane)) && OnlyLane(c.partitionOf, Log(next.logs, lane), lane) {
      assert Known(sys.table, Log(sys.logs, lane)) && OnlyLane(c.partitionOf, Log(sys.logs, lane), lane);
    }
    forall lane ensures CursorInLog(ConsumerOf(next, lane), Log(next.logs, lane)) {
      assert CursorInLog(ConsumerOf(sys, lane), Log(sys.logs, lane));
    }
    forall id <- next.processed ensures id in Ids(Records(next.table)) {
      var r :| r in Records(sys.table) && r.id == id;
    }
  }

  lemma TableOnlyIsSound<S>(c: Config<S>, sys: System<S>, table: seq<Entry>, drainer: Drainer)
    requires Sound(c, sys)
    requires Records(table) == Records(sys.table)
    requires drainer.Idle? || drainer.batch == Batch(sys) || Known(sys.table, drainer.batch)
    ensures Sound(c, sys.(table := table, drainer := drainer))
  {
    var next := sys.(table := table, drainer := drainer);
    forall i | 0 <= i < |table| ensures table[i].record == sys.table[i].record {
      assert Records(table)[i] == Records(sys.table)[i];
    }
    forall lane ensures Known(next.table, Log(next.logs, lane)) && OnlyLane(c.partitionOf, Log(next.logs, lane), lane) {
      assert Known(sys.table, Log(sys.logs, lane)) && OnlyLane(c.partitionOf, Log(sys.logs, lane), lane);
    }
    forall lane ensures CursorInLog(ConsumerOf(next, lane), Log(next.logs, lane)) {
      assert CursorInLog(ConsumerOf(sys, lane), Log(sys.logs, lane));
    }
  }

  lemma DeliveredIsSound<S>(c: Config<S>, sys: System<S>, fate: Fate)
    requires Sound(c, sys)
    ensures Sound(c, sys.(logs := Delivered(c.partitionOf, sys.logs, Batch(sys), fate)))
  {
    var next := sys.(logs := Delivered(c.partitionOf, sys.logs, Batch(sys), fate));
    forall lane
      ensures Known(next.table, Log(next.logs, lane)) && OnlyLane(c.partitionOf, Log(next.logs, lane), lane)
      ensures CursorInLog(ConsumerOf(next, lane), Log(next.logs, lane))
    {
      assert Known(sys.table, Log(sys.logs, lane)) && OnlyLane(c.partitionOf, Log(sys.logs, lane), lane);
      assert CursorInLog(ConsumerOf(sys, lane), Log(sys.logs, lane));
      DeliveredLog(c.partitionOf, sys.logs, Batch(sys), fate, lane);
      ArrivingMembers(c.partitionOf, Batch(sys), fate, lane);
    }
  }

  lemma ArrivingMembers(partitionOf: string -> nat, batch: seq<Record>, fate: Fate, lane: Lane)
    ensures forall r <- Arriving(batch, lane, fate, partitionOf) :: r in batch && LaneOf(StreamOf(r), partitionOf) == lane
  {
    FilterMembers(batch, OnLane(lane, partitionOf));
    var all := Filter(batch, OnLane(lane, partitionOf));
    forall r <- Arriving(batch, lane, fate, partitionOf) ensures r in batch && LaneOf(StreamOf(r), partitionOf) == lane {
      assert r in all;
    }
  }

  lemma ConsumerIsSound<S>(c: Config<S>, sys: System<S>, lane: Lane, consumer: Consumer, processed: set<nat>, states: map<Stream, S>)
    requires Sound(c, sys) && CursorInLog(consumer, Log(sys.logs, lane)) && processed <= Ids(Records(sys.table))
    ensures Sound(c, sys.(consumers := sys.consumers[lane := consumer], processed := processed, states := states))
  {
    var next := sys.(consumers := sys.consumers[lane := consumer], processed := processed, states := states);
    forall other ensures CursorInLog(ConsumerOf(next, other), Log(next.logs, other)) {
      assert CursorInLog(ConsumerOf(sys, other), Log(sys.logs, other));
    }
    forall other ensures Known(next.table, Log(next.logs, other)) && OnlyLane(c.partitionOf, Log(next.logs, other), other) {
      assert Known(sys.table, Log(sys.logs, other)) && OnlyLane(c.partitionOf, Log(sys.logs, other), other);
    }
  }

  lemma HandedOver<S>(c: Config<S>, sys: System<S>, lane: Lane)
    requires Sound(c, sys) && ConsumerOf(sys, lane).cursor < |Log(sys.logs, lane)|
    ensures var r := Log(sys.logs, lane)[ConsumerOf(sys, lane).cursor];
            r in Records(sys.table) && LaneOf(StreamOf(r), c.partitionOf) == lane && r.id in Ids(Records(sys.table))
  {
    var log := Log(sys.logs, lane);
    assert Known(sys.table, log) && OnlyLane(c.partitionOf, log, lane);
    assert log[ConsumerOf(sys, lane).cursor] in log;
  }

  lemma NextIsSound<S>(c: Config<S>, sys: System<S>, step: Step)
    requires Sound(c, sys)
    ensures Sound(c, Next(c, sys, step))
  {
    match step
    case Append(record, at) =>
      if MayAppend(sys.table, record, at) {
        AppendIsSound(c, sys, record, at);
      }
    case Fetch =>
      UnpublishedKnown(sys.table);
      TableOnlyIsSound(c, sys, sys.table, Fetched(Take(Unpublished(sys.table), c.batchSize)));
    case Publish(fate) =>
      if sys.drainer.Fetched? {
        var batch := sys.drainer.batch;
        var sent := sys.(logs := Delivered(c.partitionOf, sys.logs, batch, fate));
        DeliveredIsSound(c, sys, fate);
        MarkedRecords(sys.table, Ids(batch));
        TableOnlyIsSound(c, sent, if fate.Sent? then sys.table else Attempted(sys.table, Ids(batch)),
                         if fate.Sent? then Published(batch) else Idle);
      }
    case MarkPublished =>
      MarkedRecords(sys.table, Ids(Batch(sys)));
      TableOnlyIsSound(c, sys, Marked(sys.table, Ids(Batch(sys))), Idle);
    case StopDrainer =>
      TableOnlyIsSound(c, sys, sys.table, Idle);
    case Deliver(lane) =>
      var consumer := ConsumerOf(sys, lane);
      if consumer.cursor < |Log(sys.logs, lane)| {
        HandedOver(c, sys, lane);
        assert CursorInLog(consumer, Log(sys.logs, lane));
        var handled := RunOnce(c, sys, Log(sys.logs, lane)[consumer.cursor]);
        ConsumerIsSound(c, sys, lane, consumer.(cursor := consumer.cursor + 1), handled.processed, handled.states);
      }
    case Commit(lane) =>
      assert CursorInLog(ConsumerOf(sys, lane), Log(sys.logs, lane));
      ConsumerIsSound(c, sys, lane, ConsumerOf(Next(c, sys, step), lane), sys.processed, sys.states);
    case Rewind(lane) =>
      assert CursorInLog(ConsumerOf(sys, lane), Log(sys.logs, lane));
      ConsumerIsSound(c, sys, lane, ConsumerOf(Next(c, sys, step), lane), sys.processed, sys.states);
  }

  lemma UnpublishedKnown(table: seq<Entry>)
    ensures Known(table, Unpublished(table))
  {
    UnpublishedWhere(table, OnTopic(""));
  }

  lemma MarkedRecords(table: seq<Entry>, ids: set<nat>)
    ensures Records(Marked(table, ids)) == Records(table) == Records(Attempted(table, ids))
  {
    EntriesMarked(table, ids, OnTopic(""));
  }

  // ----- Every step is a step of each stream -----

  lemma AppendProjects<S>(c: Config<S>, sys: System<S>, record: Record, at: nat, s: Stream)
    requires Sound(c, sys) && MayAppend(sys.table, record, at)
    ensures var v := Project(c, sys, s);
            && Project(c, Next(c, sys, Append(record, at)), s)
               == (if s == StreamOf(record) then v.(entries := v.entries + [Entry(record, false, 0)]) else v)
            && record.id !in v.processed && record.id !in Ids(Records(v.entries))
  {
    EntriesInserted(sys.table, record, at, s);
    RowsMembers(sys.table, OnStream(s));
  }

  lemma FetchProjects<S>(c: Config<S>, sys: System<S>, s: Stream)
    requires sys.drainer.Idle?
    ensures var v, next := Project(c, sys, s), Project(c, Next(c, sys, Fetch), s);
            next == v.(batch := next.batch, published := false) && next.batch <= Unpublished(v.entries)
  {
    var unpublished := Unpublished(sys.table);
    var batch := Take(unpublished, c.batchSize);
    UnpublishedWhere(sys.table, OnStream(s));
    assert batch == unpublished[..|batch|];
    FilterPrefix(unpublished, |batch|, OnStream(s));
  }

  /** What a publish adds to the log of a stream is a beginning of its part of the batch, all of it on success. */
  lemma ArrivingOfStream(partitionOf: string -> nat, batch: seq<Record>, fate: Fate, s: Stream)
    ensures var arriving := Filter(Arriving(batch, LaneOf(s, partitionOf), fate, partitionOf), OnStream(s));
            && arriving <= Filter(batch, OnStream(s))
            && (fate.Sent? ==> arriving == Filter(batch, OnStream(s)))
  {
    var lane := LaneOf(s, partitionOf);
    FilterTwice(batch, OnLane(lane, partitionOf), OnStream(s));
    var part, arriving := Filter(batch, OnLane(lane, partitionOf)), Arriving(batch, lane, fate, partitionOf);
    assert arriving == part[..|arriving|];
    FilterPrefix(part, |arriving|, OnStream(s));
  }

  lemma PublishProjects<S>(c: Config<S>, sys: System<S>, fate: Fate, s: Stream) returns (arriving: seq<Record>)
    requires Sound(c, sys) && sys.drainer.Fetched?
    ensures var v := Project(c, sys, s);
            && arriving <= v.batch
            && (fate.Sent? ==> arriving == v.batch)
            && Project(c, Next(c, sys, Publish(fate)), s)
               == if fate.Sent? then v.(log := v.log + arriving, published := true)
                  else v.(log := v.log + arriving, batch := [], published := false,
                          entries := Attempted(v.entries, Ids(sys.drainer.batch)))
  {
    arriving := Filter(Arriving(sys.drainer.batch, LaneOf(s, c.partitionOf), fate, c.partitionOf), OnStream(s));
    PublishedParts(c, sys, fate, s, arriving, Next(c, sys, Publish(fate)));
    PublishedView(c, sys, fate, s, arriving, Next(c, sys, Publish(fate)));
  }

  lemma PublishedParts<S>(c: Config<S>, sys: System<S>, fate: Fate, s: Stream, arriving: seq<Record>, next: System<S>)
    requires Sound(c, sys) && sys.drainer.Fetched? && next == Next(c, sys, Publish(fate))
    requires arriving == Filter(Arriving(sys.drainer.batch, LaneOf(s, c.partitionOf), fate, c.partitionOf), OnStream(s))
    ensures arriving <= Filter(sys.drainer.batch, OnStream(s)) && (fate.Sent? ==> arriving == Filter(sys.drainer.batch, OnStream(s)))
    ensures var lane := LaneOf(s, c.partitionOf);
            && Filter(Log(next.logs, lane), OnStream(s)) == Filter(Log(sys.logs, lane), OnStream(s)) + arriving
            && Behind(next, lane) == Behind(sys, lane)
    ensures fate.Sent? || Entries(next.table, s) == Attempted(Entries(sys.table, s), Ids(sys.drainer.batch))
  {
    var lane, batch := LaneOf(s, c.partitionOf), sys.drainer.batch;
    ArrivingOfStream(c.partitionOf, batch, fate, s);
    assert CursorInLog(ConsumerOf(sys, lane), Log(sys.logs, lane));
    PublishLogs(c.partitionOf, sys.logs, batch, fate, s, ConsumerOf(sys, lane).cursor);
    if !fate.Sent? {
      EntriesMarked(sys.table, Ids(batch), OnStream(s));
    }
  }

  // The stream's view after a publish, part by part.
  lemma PublishedView<S>(c: Config<S>, sys: System<S>, fate: Fate, s: Stream, arriving: seq<Record>, next: System<S>)
    requires sys.drainer.Fetched? && next == Next(c, sys, Publish(fate))
    requires var lane := LaneOf(s, c.partitionOf);
             && Filter(Log(next.logs, lane), OnStream(s)) == Filter(Log(sys.logs, lane), OnStream(s)) + arriving
             && Behind(next, lane) == Behind(sys, lane)
    requires fate.Sent? || Entries(next.table, s) == Attempted(Entries(sys.table, s), Ids(sys.drainer.batch))
    ensures var v := Project(c, sys, s);
            Project(c, next, s)
            == if fate.Sent? then v.(log := v.log + arriving, published := true)
               else v.(log := v.log + arriving, batch := [], published := false, entries := Attempted(v.entries, Ids(sys.drainer.batch)))
  {
  }

  lemma PublishLogs(partitionOf: string -> nat, logs: map<Lane, seq<Record>>, batch: seq<Record>, fate: Fate, s: Stream, cursor: nat)
    requires cursor <= |Log(logs, LaneOf(s, partitionOf))|
    ensures var lane, next := LaneOf(s, partitionOf), Delivered(partitionOf, logs, batch, fate);
            && Filter(Log(next, lane), OnStream(s))
               == Filter(Log(logs, lane), OnStream(s)) + Filter(Arriving(batch, lane, fate, partitionOf), OnStream(s))
            && Take(Log(next, lane), cursor) == Take(Log(logs, lane), cursor)
  {
    var lane := LaneOf(s, partitionOf);
    var log, part := Log(logs, lane), Arriving(batch, lane, fate, partitionOf);
    DeliveredLog(partitionOf, logs, batch, fate, lane);
    FilterConcat(log, part, OnStream(s));
    assert Take(log + part, cursor) == Take(log, cursor);
  }

  lemma MarkProjects<S>(c: Config<S>, sys: System<S>, s: Stream)
    requires Sound(c, sys) && sys.drainer.Published?
    ensures var v, ids := Project(c, sys, s), Ids(sys.drainer.batch);
            && Project(c, Next(c, sys, MarkPublished), s)
               == v.(entries := Marked(v.entries, ids), batch := [], published := false)
            && forall i :: 0 <= i < |v.entries| ==> (v.entries[i].record.id in ids <==> v.entries[i].record in v.batch)
  {
    EntriesMarked(sys.table, Ids(sys.drainer.batch), OnStream(s));
    BatchIds(sys.table, sys.drainer.batch, OnStream(s));
  }

  lemma DeliverProjects<S>(c: Config<S>, sys: System<S>, s: Stream)
    requires var lane := LaneOf(s, c.partitionOf);
             && ConsumerOf(sys, lane).cursor < |Log(sys.logs, lane)|
             && StreamOf(Log(sys.logs, lane)[ConsumerOf(sys, lane).cursor]) == s
    ensures var v, lane := Project(c, sys, s), LaneOf(s, c.partitionOf);
            var r := Log(sys.logs, lane)[ConsumerOf(sys, lane).cursor];
            && Project(c, Next(c, sys, Deliver(lane)), s) == Streams.Deliver(c.handler, v, r)
            && v.passed + [r] <= v.log
  {
    var lane := LaneOf(s, c.partitionOf);
    var r, next := Log(sys.logs, lane)[ConsumerOf(sys, lane).cursor], Next(c, sys, Deliver(lane));
    PassNext(Log(sys.logs, lane), ConsumerOf(sys, lane).cursor, s);
    DeliverEffect(c, sys, lane);
    ProjectDelivered(c, sys, next, r);
  }

  lemma DeliverEffect<S>(c: Config<S>, sys: System<S>, lane: Lane)
    requires ConsumerOf(sys, lane).cursor < |Log(sys.logs, lane)|
    ensures var next, cursor := Next(c, sys, Deliver(lane)), ConsumerOf(sys, lane).cursor;
            var handled := RunOnce(c, sys, Log(sys.logs, lane)[cursor]);
            && next.table == sys.table && next.drainer == sys.drainer && next.logs == sys.logs
            && next.processed == handled.processed && next.states == handled.states
            && ConsumerOf(next, lane).cursor == cursor + 1
            && forall other :: other != lane ==> ConsumerOf(next, other) == ConsumerOf(sys, other)
  {
  }

  lemma ProjectDelivered<S>(c: Config<S>, sys: System<S>, next: System<S>, r: Record)
    requires next.table == sys.table && next.drainer == sys.drainer && next.logs == sys.logs
    requires next.processed == RunOnce(c, sys, r).processed && next.states == RunOnce(c, sys, r).states
    requires var s := StreamOf(r); Project(c, next, s).passed == Project(c, sys, s).passed + [r]
    ensures var s := StreamOf(r); Project(c, next, s) == Streams.Deliver(c.handler, Project(c, sys, s), r)
  {
  }

  lemma PassNext(log: seq<Record>, cursor: nat, s: Stream)
    requires cursor < |log|
    ensures Filter(Take(log, cursor + 1), OnStream(s))
            == SnocIf(Filter(Take(log, cursor), OnStream(s)), StreamOf(log[cursor]) == s, log[cursor])
    ensures Filter(Take(log, cursor + 1), OnStream(s)) <= Filter(log, OnStream(s))
  {
    assert Take(log, cursor + 1) == Take(log, cursor) + [log[cursor]];
    FilterSnoc(Take(log, cursor), log[cursor], OnStream(s));
    FilterPrefix(log, cursor + 1, OnStream(s));
  }

  lemma DeliverOtherProjects<S>(c: Config<S>, sys: System<S>, lane: Lane, s: Stream)
    requires Sound(c, sys) && ConsumerOf(sys, lane).cursor < |Log(sys.logs, lane)|
    requires StreamOf(Log(sys.logs, lane)[ConsumerOf(sys, lane).cursor]) != s
    ensures var v, r := Project(c, sys, s), Log(sys.logs, lane)[ConsumerOf(sys, lane).cursor];
            && r.id !in Ids(Records(v.entries))
            && Project(c, Next(c, sys, Deliver(lane)), s) == v.(processed := v.processed + {r.id})
  {
    OtherRow(c, sys, lane, s);
    DeliverEffect(c, sys, lane);
    OtherPassed(c, sys, Next(c, sys, Deliver(lane)), lane, s);
    ProjectOther(c, sys, Next(c, sys, Deliver(lane)), Log(sys.logs, lane)[ConsumerOf(sys, lane).cursor], s);
  }

  lemma ProjectOther<S>(c: Config<S>, sys: System<S>, next: System<S>, r: Record, s: Stream)
    requires next.table == sys.table && next.drainer == sys.drainer && next.logs == sys.logs
    requires next.processed == RunOnce(c, sys, r).processed && next.states == RunOnce(c, sys, r).states
    requires Project(c, next, s).passed == Project(c, sys, s).passed && StreamOf(r) != s
    ensures var v := Project(c, sys, s); Project(c, next, s) == v.(processed := v.processed + {r.id})
  {
  }

  lemma OtherPassed<S>(c: Config<S>, sys: System<S>, next: System<S>, lane: Lane, s: Stream)
    requires ConsumerOf(sys, lane).cursor < |Log(sys.logs, lane)|
    requires StreamOf(Log(sys.logs, lane)[ConsumerOf(sys, lane).cursor]) != s
    requires next.logs == sys.logs && ConsumerOf(next, lane).cursor == ConsumerOf(sys, lane).cursor + 1
    requires forall other :: other != lane ==> ConsumerOf(next, other) == ConsumerOf(sys, other)
    ensures Filter(Behind(next, LaneOf(s, c.partitionOf)), OnStream(s))
            == Filter(Behind(sys, LaneOf(s, c.partitionOf)), OnStream(s))
  {
    PassNext(Log(sys.logs, lane), ConsumerOf(sys, lane).cursor, s);
  }

  lemma OtherRow<S>(c: Config<S>, sys: System<S>, lane: Lane, s: Stream)
    requires Sound(c, sys) && ConsumerOf(sys, lane).cursor < |Log(sys.logs, lane)|
    requires StreamOf(Log(sys.logs, lane)[ConsumerOf(sys, lane).cursor]) != s
    ensures Log(sys.logs, lane)[ConsumerOf(sys, lane).cursor].id !in Ids(Rows(sys.table, s))
  {
    var r := Log(sys.logs, lane)[ConsumerOf(sys, lane).cursor];
    HandedOver(c, sys, lane);
    RowsMembers(sys.table, OnStream(s));
    forall row <- Rows(sys.table, s) ensures row.id != r.id {
      if row.id == r.id {
        SameId(sys.table, row, r);
      }
    }
  }

  lemma CursorProjects<S>(c: Config<S>, sys: System<S>, step: Step, s: Stream)
    requires Sound(c, sys) && (step.Commit? || step.Rewind?)
    ensures var v, next := Project(c, sys, s), Project(c, Next(c, sys, step), s);
            next == v.(passed := next.passed) && next.passed <= v.passed
  {
    var next, lane := Next(c, sys, step), LaneOf(s, c.partitionOf);
    assert CursorInLog(ConsumerOf(sys, lane), Log(sys.logs, lane));
    var before, after := Behind(sys, lane), Behind(next, lane);
    assert after == before[..|after|];
    FilterPrefix(before, |after|, OnStream(s));
  }

  // ----- Every run -----

  lemma RelayKeepsStream<S>(c: Config<S>, sys: System<S>, step: Step, s: Stream, marked: nat, applied: nat)
    requires Sound(c, sys) && InOrder(c.handler, Project(c, sys, s), marked, applied)
    requires step.Append? || step.Fetch? || step.StopDrainer?
    ensures InOrder(c.handler, Project(c, Next(c, sys, step), s), marked, applied)
  {
    var h, v := c.handler, Project(c, sys, s);
    match step
    case Append(record, at) =>
      if MayAppend(sys.table, record, at) {
        AppendProjects(c, sys, record, at, s);
        AppendKeeps(h, v, record, marked, applied);
      }
    case Fetch =>
      if sys.drainer.Idle? {
        FetchProjects(c, sys, s);
        FetchKeeps(h, v, Project(c, Next(c, sys, Fetch), s).batch, marked, applied);
      }
    case StopDrainer =>
      StopKeeps(h, v, marked, applied);
  }

  lemma PublishKeepsStream<S>(c: Config<S>, sys: System<S>, fate: Fate, s: Stream, marked: nat, applied: nat)
    requires Sound(c, sys) && InOrder(c.handler, Project(c, sys, s), marked, applied) && sys.drainer.Fetched?
    ensures InOrder(c.handler, Project(c, Next(c, sys, Publish(fate)), s), marked, applied)
  {
    var h, v := c.handler, Project(c, sys, s);
    var arriving := PublishProjects(c, sys, fate, s);
    PublishKeeps(h, v, arriving, marked, applied);
    AttemptKeeps(h, v.(log := v.log + arriving, batch := [], published := false), Ids(sys.drainer.batch), marked, applied);
  }

  lemma MarkKeepsStream<S>(c: Config<S>, sys: System<S>, s: Stream, marked: nat, applied: nat)
    requires Sound(c, sys) && InOrder(c.handler, Project(c, sys, s), marked, applied) && sys.drainer.Published?
    ensures InOrder(c.handler, Project(c, Next(c, sys, MarkPublished), s), marked + |Project(c, sys, s).batch|, applied)
  {
    MarkProjects(c, sys, s);
    MarkKeeps(c.handler, Project(c, sys, s), Ids(sys.drainer.batch), marked, applied);
  }

  lemma CursorKeepsStream<S>(c: Config<S>, sys: System<S>, step: Step, s: Stream, marked: nat, applied: nat)
    requires Sound(c, sys) && InOrder(c.handler, Project(c, sys, s), marked, applied)
    requires step.Commit? || step.Rewind?
    ensures InOrder(c.handler, Project(c, Next(c, sys, step), s), marked, applied)
  {
    CursorProjects(c, sys, step, s);
    RewindKeeps(c.handler, Project(c, sys, s), Project(c, Next(c, sys, step), s).passed, marked, applied);
  }

  lemma NextKeepsStream<S>(c: Config<S>, sys: System<S>, step: Step, s: Stream)
    requires Sound(c, sys) && StreamInOrder(c, sys, s)
    ensures StreamInOrder(c, Next(c, sys, step), s)
  {
    var marked: nat, applied: nat :| InOrder(c.handler, Project(c, sys, s), marked, applied);
    match step
    case Publish(fate) =>
      if sys.drainer.Fetched? {
        PublishKeepsStream(c, sys, fate, s, marked, applied);
      }
    case MarkPublished =>
      if sys.drainer.Published? {
        MarkKeepsStream(c, sys, s, marked, applied);
      }
    case Deliver(lane) =>
      if ConsumerOf(sys, lane).cursor < |Log(sys.logs, lane)| {
        DeliverKeepsStream(c, sys, lane, s, marked, applied);
      }
    case Commit(_) => CursorKeepsStream(c, sys, step, s, marked, applied);
    case Rewind(_) => CursorKeepsStream(c, sys, step, s, marked, applied);
    case _ => RelayKeepsStream(c, sys, step, s, marked, applied);
  }

  lemma DeliverKeepsStream<S>(c: Config<S>, sys: System<S>, lane: Lane, s: Stream, marked: nat, applied: nat)
    requires Sound(c, sys) && InOrder(c.handler, Project(c, sys, s), marked, applied)
    requires ConsumerOf(sys, lane).cursor < |Log(sys.logs, lane)|
    ensures StreamInOrder(c, Next(c, sys, Deliver(lane)), s)
  {
    var h, v, next := c.handler, Project(c, sys, s), Next(c, sys, Deliver(lane));
    var r := Log(sys.logs, lane)[ConsumerOf(sys, lane).cursor];
    HandedOver(c, sys, lane);
    if StreamOf(r) == s {
      DeliverProjects(c, sys, s);
      var more := DeliverKeeps(h, v, r, marked, applied);
      assert InOrder(h, Project(c, next, s), marked, more);
    } else {
      DeliverOtherProjects(c, sys, lane, s);
      DeliverOtherKeeps(h, v, r.id, marked, applied);
      assert InOrder(h, Project(c, next, s), marked, applied);
    }
  }

  lemma {:induction false} RunKeepsInvariant<S>(c: Config<S>, steps: seq<Step>)
    ensures Invariant(c, Run(c, Start(), steps))
  {
    if steps == [] {
      forall s ensures StreamInOrder(c, Start<S>(), s) {
        assert InOrder(c.handler, Project(c, Start<S>(), s), 0, 0);
      }
    } else {
      var sys, step := Run(c, Start(), steps[..|steps| - 1]), steps[|steps| - 1];
      RunKeepsInvariant(c, steps[..|steps| - 1]);
      NextIsSound(c, sys, step);
      forall s ensures StreamInOrder(c, Next(c, sys, step), s) {
        assert StreamInOrder(c, sys, s);
        NextKeepsStream(c, sys, step, s);
      }
    }
  }

  /** Exactly once: after any run, the consumer's state for an aggregate is the fold of the handler over a prefix of
      that aggregate's rows in creation order, and the processed ids among them are exactly those of the prefix. */
  lemma ExactlyOnceInOrder<S>(c: Config<S>, steps: seq<Step>, s: Stream, sys: System<S>, rows: seq<Record>) returns (applied: nat)
    requires sys == Run(c, Start(), steps) && rows == Rows(sys.table, s)
    ensures applied <= |rows| && StateOf(c, sys, s) == Fold(c.handler, rows[..applied])
    ensures forall i :: 0 <= i < |rows| ==> (rows[i].id in sys.processed <==> i < applied)
  {
    RunKeepsInvariant(c, steps);
    assert StreamInOrder(c, sys, s);
    ghost var marked :| exists n :: InOrder(c.handler, Project(c, sys, s), marked, n);
    applied :| InOrder(c.handler, Project(c, sys, s), marked, applied);
  }

  /** Nothing is lost: once every row is marked and the consumer of a partition has reached the end of its log, the
      state of each aggregate there is the fold over all of its rows. */
  lemma NothingIsLost<S>(c: Config<S>, steps: seq<Step>, s: Stream)
    requires var sys, lane := Run(c, Start(), steps), LaneOf(s, c.partitionOf);
             && (forall i :: 0 <= i < |sys.table| ==> sys.table[i].published)
             && ConsumerOf(sys, lane).cursor == |Log(sys.logs, lane)|
    ensures var sys := Run(c, Start(), steps);
            StateOf(c, sys, s) == Fold(c.handler, Rows(sys.table, s))
  {
    RunKeepsInvariant(c, steps);
    var sys, lane := Run(c, Start(), steps), LaneOf(s, c.partitionOf);
    var v := Project(c, sys, s);
    assert StreamInOrder(c, sys, s);
    var marked: nat, applied: nat :| InOrder(c.handler, v, marked, applied);
    AllMarked(sys.table, s, marked);
    assert Behind(sys, lane) == Log(sys.logs, lane);
    CaughtUp(c.handler, v, marked, applied);
  }

  lemma AllMarked(table: seq<Entry>, s: Stream, marked: nat)
    requires forall i :: 0 <= i < |table| ==> table[i].published
    requires MarkedInOrder(Entries(table, s), marked)
    ensures marked == |Entries(table, s)|
  {
    FilterMembers(table, Holds(OnStream(s)));
    var mine := Entries(table, s);
    if |mine| > 0 {
      assert mine[|mine| - 1] in table;
    }
  }

  /** The relay's half: the marked rows of an aggregate are a prefix of its rows, and what its partition holds of
      them, repetitions aside, is a prefix too, at least as long. */
  lemma RelayIsInOrder<S>(c: Config<S>, steps: seq<Step>, s: Stream)
    ensures var sys := Run(c, Start(), steps);
            var entries, logged := Entries(sys.table, s), Dedup(Filter(Log(sys.logs, LaneOf(s, c.partitionOf)), OnStream(s)));
            && logged <= Records(entries)
            && forall i :: 0 <= i < |entries| && entries[i].published ==>
                 i < |logged| && forall j :: 0 <= j < i ==> entries[j].published
  {
    RunKeepsInvariant(c, steps);
    var sys := Run(c, Start(), steps);
    assert StreamInOrder(c, sys, s);
    var marked: nat, applied: nat :| InOrder(c.handler, Project(c, sys, s), marked, applied);
  }

  // ----- Attempts -----

  // A publish of a batch with this row fails.
  predicate FailsFor<S>(sys: System<S>, step: Step, id: nat) {
    step.Publish? && step.fate.Failed? && sys.drainer.Fetched? && id in Ids(sys.drainer.batch)
  }

  function Failures<S>(c: Config<S>, steps: seq<Step>, id: nat): nat {
    if steps == [] then 0
    else
      Failures(c, steps[..|steps| - 1], id)
      + if FailsFor(Run(c, Start(), steps[..|steps| - 1]), steps[|steps| - 1], id) then 1 else 0
  }

  ghost predicate Counted<S>(c: Config<S>, steps: seq<Step>, table: seq<Entry>) {
    && (forall i :: 0 <= i < |table| ==> table[i].attempts == Failures(c, steps, table[i].record.id))
    && (forall id :: id !in Ids(Records(table)) ==> Failures(c, steps, id) == 0)
  }

  // One more failure for the rows of a failed batch, and for no other.
  lemma FailureCounts<S>(c: Config<S>, init: seq<Step>, step: Step, sys: System<S>, next: seq<Entry>, steps: seq<Step>)
    requires sys == Run(c, Start(), init) && steps == init + [step] && Sound(c, sys) && Counted(c, init, sys.table)
    requires next == if step.Publish? && step.fate.Failed? && sys.drainer.Fetched? then Attempted(sys.table, Ids(sys.drainer.batch)) else sys.table
    ensures Counted(c, steps, next)
  {
    assert steps[..|steps| - 1] == init;
    MarkedRecords(sys.table, Ids(Batch(sys)));
    forall id | FailsFor(sys, step, id) ensures id in Ids(Records(sys.table)) {
      var r :| r in sys.drainer.batch && r.id == id;
      assert r in Records(sys.table);
    }
  }

  lemma OthersCount<S>(c: Config<S>, steps: seq<Step>, table: seq<Entry>, next: seq<Entry>)
    requires Counted(c, steps, table) && Records(next) == Records(table)
    requires forall i :: 0 <= i < |table| ==> next[i].attempts == table[i].attempts
    ensures Counted(c, steps, next)
  {
    forall i | 0 <= i < |next| ensures next[i].attempts == Failures(c, steps, next[i].record.id) {
      assert Records(next)[i] == Records(table)[i];
    }
  }

  lemma StepCounts<S>(c: Config<S>, init: seq<Step>, step: Step, sys: System<S>, next: System<S>, steps: seq<Step>)
    requires sys == Run(c, Start(), init) && next == Next(c, sys, step) && steps == init + [step]
    requires Sound(c, sys) && Counted(c, init, sys.table)
    ensures Counted(c, steps, next.table)
  {
    match step
    case Append(record, at) =>
      FailureCounts(c, init, step, sys, sys.table, steps);
      if MayAppend(sys.table, record, at) { AppendCounts(c, steps, sys.table, record, at); }
    case MarkPublished =>
      FailureCounts(c, init, step, sys, sys.table, steps);
      MarkedRecords(sys.table, Ids(Batch(sys)));
      OthersCount(c, steps, sys.table, next.table);
    case _ => FailureCounts(c, init, step, sys, next.table, steps);
  }

  lemma AppendCounts<S>(c: Config<S>, steps: seq<Step>, table: seq<Entry>, record: Record, at: nat)
    requires MayAppend(table, record, at) && Counted(c, steps, table)
    ensures Counted(c, steps, Inserted(table, at, record))
  {
    var next := Inserted(table, at, record);
    forall id | id in Ids(Records(table)) ensures id in Ids(Records(next)) {
      var i :| 0 <= i < |table| && table[i].record.id == id;
      assert Records(next)[if i < at then i else i + 1].id == id;
    }
  }

  lemma RunIsSound<S>(c: Config<S>, steps: seq<Step>, sys: System<S>)
    requires sys == Run(c, Start(), steps)
    ensures Sound(c, sys)
  {
    RunKeepsInvariant(c, steps);
  }

  /** In every run a row's attempts are the failed publishes of batches it was in. */
  lemma {:induction false} AttemptsCountFailures<S>(c: Config<S>, steps: seq<Step>, sys: System<S>)
    requires sys == Run(c, Start(), steps)
    ensures Counted(c, steps, sys.table)
  {
    if steps != [] {
      var init, step := steps[..|steps| - 1], steps[|steps| - 1];
      AttemptsCountFailures(c, init, Run(c, Start(), init));
      CountsOnward(c, init, step, Run(c, Start(), init), sys, steps);
    } else {
      NothingCounted(c, sys.table);
    }
  }

  lemma NothingCounted<S>(c: Config<S>, table: seq<Entry>)
    requires table == []
    ensures Counted(c, [], table)
  {
  }

  lemma CountsOnward<S>(c: Config<S>, init: seq<Step>, step: Step, before: System<S>, sys: System<S>, steps: seq<Step>)
    requires before == Run(c, Start(), init) && sys == Next(c, before, step) && steps == init + [step] && Counted(c, init, before.table)
    ensures Counted(c, steps, sys.table)
  {
    assert Sound(c, before) by {
      RunIsSound(c, init, before);
    }
    StepCounts(c, init, step, before, sys, steps);
  }

  // ----- Commits -----

  // Where the consumer of a partition last committed.
  function LastCommit<S>(c: Config<S>, steps: seq<Step>, lane: Lane): nat {
    if steps == [] then 0
    else if steps[|steps| - 1] == Commit(lane) then ConsumerOf(Run(c, Start(), steps[..|steps| - 1]), lane).cursor
    else LastCommit(c, steps[..|steps| - 1], lane)
  }

  /** A consumer that goes back goes to where it last committed, and only a commit moves that. */
  lemma StepCommits<S>(c: Config<S>, sys: System<S>, step: Step, lane: Lane, next: System<S>)
    requires next == Next(c, sys, step)
    ensures ConsumerOf(next, lane).committed == if step == Commit(lane) then ConsumerOf(sys, lane).cursor else ConsumerOf(sys, lane).committed
  {
  }

  lemma {:induction false} CommittedIsLastCommit<S>(c: Config<S>, steps: seq<Step>, lane: Lane, sys: System<S>)
    requires sys == Run(c, Start(), steps)
    ensures ConsumerOf(sys, lane).committed == LastCommit(c, steps, lane)
  {
    if steps != [] {
      var init := steps[..|steps| - 1];
      CommittedIsLastCommit(c, init, lane, Run(c, Start(), init));
      StepCommits(c, Run(c, Start(), init), steps[|steps| - 1], lane, sys);
    }
  }

  /** A consumer that goes back goes to where it last committed, and only a commit moves that. */
  lemma RewindsToLastCommit<S>(c: Config<S>, steps: seq<Step>, lane: Lane, sys: System<S>)
    requires sys == Run(c, Start(), steps)
    ensures ConsumerOf(sys, lane).committed == LastCommit(c, steps, lane)
    ensures ConsumerOf(Next(c, sys, Rewind(lane)), lane) == Consumer(LastCommit(c, steps, lane), LastCommit(c, steps, lane))
  {
    CommittedIsLastCommit(c, steps, lane, sys);
  }
}
