/**
 The transactional outbox: the table of typeorm-order-outbox.adapter.ts, the batch grouping of
 kafka-producer.ts and the drain and back-off of outbox-relay.ts.
 */
module Outbox {
  import opened Sequences

  /** An outbox row as it is published. `id` is the event id, `key` the aggregate id. */
  datatype Record = Record(id: nat, topic: string, key: string, value: string)

  datatype Entry = Entry(record: Record, published: bool, attempts: nat)

  /** A topic partition, and the messages of one aggregate in it. */
  datatype Lane = Lane(topic: string, partition: nat)
  datatype Stream = Stream(topic: string, key: string)

  /** What became of a batch handed to the broker: all of it arrived, or an error was raised after the given number
      of its messages had reached each partition. */
  datatype Fate = Sent | Failed(reached: Lane -> nat)

  function OnStream(s: Stream): Record -> bool {
    (r: Record) => StreamOf(r) == s
  }

  function OnTopic(topic: string): Record -> bool {
    (r: Record) => r.topic == topic
  }

  function OnLane(lane: Lane, partitionOf: string -> nat): Record -> bool {
    (r: Record) => r.topic == lane.topic && partitionOf(r.key) == lane.partition
  }

  function StreamOf(r: Record): Stream {
    Stream(r.topic, r.key)
  }

  function LaneOf(s: Stream, partitionOf: string -> nat): Lane {
    Lane(s.topic, partitionOf(s.key))
  }

  // ----- The table -----

  function Records(table: seq<Entry>): (rs: seq<Record>)
    ensures |rs| == |table| && forall i :: 0 <= i < |table| ==> rs[i] == table[i].record
  {
    seq(|table|, i requires 0 <= i < |table| => table[i].record)
  }

  function Unpublished(table: seq<Entry>): seq<Record> {
    if table == [] then []
    else
      var last := table[|table| - 1];
      SnocIf(Unpublished(table[..|table| - 1]), !last.published, last.record)
  }

  function Mark(entry: Entry, ids: set<nat>): Entry {
    if entry.record.id in ids then entry.(published := true) else entry
  }

  function Marked(table: seq<Entry>, ids: set<nat>): (marked: seq<Entry>)
    ensures |marked| == |table| && forall i :: 0 <= i < |table| ==> marked[i] == Mark(table[i], ids)
  {
    seq(|table|, i requires 0 <= i < |table| => Mark(table[i], ids))
  }

  function Attempt(entry: Entry, ids: set<nat>): Entry {
    if entry.record.id in ids then entry.(attempts := entry.attempts + 1) else entry
  }

  function Attempted(table: seq<Entry>, ids: set<nat>): (tried: seq<Entry>)
    ensures |tried| == |table| && forall i :: 0 <= i < |table| ==> tried[i] == Attempt(table[i], ids)
  {
    seq(|table|, i requires 0 <= i < |table| => Attempt(table[i], ids))
  }

  function Ids(rs: seq<Record>): set<nat> {
    set r <- rs :: r.id
  }

  function Inserted(table: seq<Entry>, at: nat, record: Record): seq<Entry>
    requires at <= |table|
  {
    table[..at] + [Entry(record, false, 0)] + table[at..]
  }

  /** The adapter. Rows stand in the order of `created_at`. */
  class OutboxTable {
    var table: seq<Entry>

    constructor ()
      ensures table == []
    {
      table := [];
    }

    // `at` is where the new row's creation time puts it.
    method Append(record: Record, at: nat)
      requires at <= |table|
      modifies this
      ensures table == Inserted(old(table), at, record)
    {
      table := table[..at] + [Entry(record, false, 0)] + table[at..];
    }

    /** The oldest unpublished rows, at most `limit` of them. */
    method FetchUnpublished(limit: nat) returns (rows: seq<Record>)
      ensures rows == Take(Unpublished(table), limit)
    {
      rows := [];
      var i := 0;
      while i < |table| && |rows| < limit
        invariant i <= |table| && |rows| <= limit
        invariant rows == Unpublished(table[..i])
      {
        assert table[..i + 1][..i] == table[..i];
        if !table[i].published {
          rows := rows + [table[i].record];
        }
        i := i + 1;
      }
      UnpublishedPrefix(table, i);
      assert table[..|table|] == table;
    }

    method MarkPublished(ids: set<nat>)
      modifies this
      ensures table == Marked(old(table), ids)
    {
      var i := 0;
      while i < |table|
        invariant i <= |table| == |old(table)|
        invariant forall k :: 0 <= k < i ==> table[k] == Mark(old(table)[k], ids)
        invariant forall k :: i <= k < |table| ==> table[k] == old(table)[k]
      {
        if !table[i].published && table[i].record.id in ids {
          table := table[i := table[i].(published := true)];
        }
        i := i + 1;
      }
    }

    method IncrementAttempts(ids: set<nat>)
      modifies this
      ensures table == Attempted(old(table), ids)
    {
      var i := 0;
      while i < |table|
        invariant i <= |table| == |old(table)|
        invariant forall k :: 0 <= k < i ==> table[k] == Attempt(old(table)[k], ids)
        invariant forall k :: i <= k < |table| ==> table[k] == old(table)[k]
      {
        if table[i].record.id in ids {
          table := table[i := table[i].(attempts := table[i].attempts + 1)];
        }
        i := i + 1;
      }
    }
  }

  lemma {:induction false} UnpublishedPrefix(table: seq<Entry>, n: nat)
    requires n <= |table|
    ensures Unpublished(table[..n]) <= Unpublished(table)
  {
    if n < |table| {
      UnpublishedPrefix(table[..|table| - 1], n);
      assert table[..|table| - 1][..n] == table[..n];
    } else {
      assert table[..n] == table;
    }
  }

  // ----- The producer -----

  function Log(logs: map<Lane, seq<Record>>, lane: Lane): seq<Record> {
    if lane in logs then logs[lane] else []
  }

  // The messages of a batch that reach a partition.
  function Arriving(batch: seq<Record>, lane: Lane, fate: Fate, partitionOf: string -> nat): seq<Record> {
    Reaching(Filter(batch, OnLane(lane, partitionOf)), lane, fate)
  }

  function Reaching(messages: seq<Record>, lane: Lane, fate: Fate): seq<Record> {
    match fate
    case Sent => messages
    case Failed(reached) => Take(messages, reached(lane))
  }

  function Delivered(partitionOf: string -> nat, logs: map<Lane, seq<Record>>, batch: seq<Record>, fate: Fate)
    : map<Lane, seq<Record>>
  {
    var lanes := logs.Keys + set r <- batch :: LaneOf(StreamOf(r), partitionOf);
    map lane <- lanes :: Log(logs, lane) + Arriving(batch, lane, fate, partitionOf)
  }

  lemma NothingArrives(partitionOf: string -> nat, batch: seq<Record>, lane: Lane)
    requires forall r <- batch :: LaneOf(StreamOf(r), partitionOf) != lane
    ensures Filter(batch, OnLane(lane, partitionOf)) == []
  {
    forall r <- batch ensures !OnLane(lane, partitionOf)(r) {
      assert LaneOf(StreamOf(r), partitionOf) != lane;
    }
    FilterNothing(batch, OnLane(lane, partitionOf));
  }

  /** What every partition holds after a publish, partitions the batch does not touch included. */
  lemma DeliveredLog(partitionOf: string -> nat, logs: map<Lane, seq<Record>>, batch: seq<Record>, fate: Fate, lane: Lane)
    ensures Log(Delivered(partitionOf, logs, batch, fate), lane)
            == Log(logs, lane) + Arriving(batch, lane, fate, partitionOf)
  {
    if lane !in Delivered(partitionOf, logs, batch, fate) {
      NothingArrives(partitionOf, batch, lane);
    }
  }

  function Bucket(byTopic: map<string, seq<Record>>, topic: string): seq<Record> {
    if topic in byTopic then byTopic[topic] else []
  }

  class KafkaProducer {
    const partitionOf: string -> nat
    var logs: map<Lane, seq<Record>>

    constructor (partitionOf: string -> nat)
      ensures this.partitionOf == partitionOf && logs == map[]
    {
      this.partitionOf := partitionOf;
      logs := map[];
    }

    /** The Map of the batch by topic: every topic's messages, all of them, in batch order. */
    method GroupByTopic(messages: seq<Record>) returns (byTopic: map<string, seq<Record>>)
      ensures Groups(byTopic, messages)
    {
      byTopic := map[];
      var i := 0;
      while i < |messages|
        invariant i <= |messages|
        invariant Groups(byTopic, messages[..i])
      {
        var message := messages[i];
        var bucket := if message.topic in byTopic then byTopic[message.topic] else [];
        GroupsSnoc(byTopic, messages[..i], message);
        byTopic := byTopic[message.topic := bucket + [message]];
        assert messages[..i + 1] == messages[..i] + [message];
        i := i + 1;
      }
      assert messages[..|messages|] == messages;
    }

    /** Every partition receives its part of the batch, in batch order; after an error, a prefix of that part. */
    method PublishBatch(messages: seq<Record>, fate: Fate)
      modifies this
      ensures logs == Delivered(partitionOf, old(logs), messages, fate)
    {
      if |messages| == 0 {
        NothingDelivered(partitionOf, logs, fate);
        return;
      }
      var byTopic := GroupByTopic(messages);
      SendBatch(byTopic, fate);
      GroupsDeliver(partitionOf, byTopic, messages, old(logs), fate, logs);
    }

    // The broker: each topic's messages go to the partitions of their keys.
    method SendBatch(byTopic: map<string, seq<Record>>, fate: Fate)
      modifies this
      ensures logs.Keys == old(logs).Keys + Lanes(partitionOf, byTopic)
      ensures forall lane <- logs ::
        logs[lane] == Log(old(logs), lane) + Arriving(Bucket(byTopic, lane.topic), lane, fate, partitionOf)
    {
      logs := map lane <- logs.Keys + Lanes(partitionOf, byTopic) ::
        Log(logs, lane) + Arriving(Bucket(byTopic, lane.topic), lane, fate, partitionOf);
    }
  }

  function Lanes(partitionOf: string -> nat, byTopic: map<string, seq<Record>>): set<Lane> {
    set topic <- byTopic, r <- byTopic[topic] :: LaneOf(StreamOf(r), partitionOf)
  }

  ghost predicate Groups(byTopic: map<string, seq<Record>>, messages: seq<Record>) {
    forall topic :: Bucket(byTopic, topic) == Filter(messages, OnTopic(topic))
  }

  lemma GroupsSnoc(byTopic: map<string, seq<Record>>, messages: seq<Record>, message: Record)
    requires Groups(byTopic, messages)
    ensures Groups(byTopic[message.topic := Bucket(byTopic, message.topic) + [message]], messages + [message])
  {
    forall topic
      ensures Bucket(byTopic[message.topic := Bucket(byTopic, message.topic) + [message]], topic)
              == Filter(messages + [message], OnTopic(topic))
    {
      FilterSnoc(messages, message, OnTopic(topic));
      assert Bucket(byTopic, topic) == Filter(messages, OnTopic(topic));
    }
  }

  /** Splitting the groups among the partitions gives the same as splitting the batch. */
  lemma GroupsSplit(partitionOf: string -> nat, byTopic: map<string, seq<Record>>, messages: seq<Record>)
    requires Groups(byTopic, messages)
    ensures forall lane: Lane ::
      Filter(Bucket(byTopic, lane.topic), OnLane(lane, partitionOf)) == Filter(messages, OnLane(lane, partitionOf))
    ensures Lanes(partitionOf, byTopic) == set r <- messages :: LaneOf(StreamOf(r), partitionOf)
  {
    forall lane: Lane
      ensures Filter(Bucket(byTopic, lane.topic), OnLane(lane, partitionOf)) == Filter(messages, OnLane(lane, partitionOf))
    {
      FilterTwice(messages, OnTopic(lane.topic), OnLane(lane, partitionOf));
    }
    forall topic ensures forall r :: r in Bucket(byTopic, topic) <==> r in messages && r.topic == topic {
      FilterMembers(messages, OnTopic(topic));
    }
    forall r <- messages ensures LaneOf(StreamOf(r), partitionOf) in Lanes(partitionOf, byTopic) {
      assert r in Bucket(byTopic, r.topic);
    }
    forall topic <- byTopic, r <- byTopic[topic] ensures r in messages {
      assert r in Bucket(byTopic, topic);
    }
  }

  lemma GroupsDeliver(partitionOf: string -> nat, byTopic: map<string, seq<Record>>, messages: seq<Record>,
                      before: map<Lane, seq<Record>>, fate: Fate, after: map<Lane, seq<Record>>)
    requires Groups(byTopic, messages)
    requires after.Keys == before.Keys + Lanes(partitionOf, byTopic)
    requires forall lane <- after ::
      after[lane] == Log(before, lane) + Arriving(Bucket(byTopic, lane.topic), lane, fate, partitionOf)
    ensures after == Delivered(partitionOf, before, messages, fate)
  {
    GroupsSplit(partitionOf, byTopic, messages);
    var delivered := Delivered(partitionOf, before, messages, fate);
    assert after.Keys == delivered.Keys;
    forall lane <- after ensures after[lane] == delivered[lane] {
      assert Filter(Bucket(byTopic, lane.topic), OnLane(lane, partitionOf)) == Filter(messages, OnLane(lane, partitionOf));
    }
  }

  lemma NothingDelivered(partitionOf: string -> nat, logs: map<Lane, seq<Record>>, fate: Fate)
    ensures Delivered(partitionOf, logs, [], fate) == logs
  {
    var none: set<Lane> := set r: Record | r in [] :: LaneOf(StreamOf(r), partitionOf);
    assert none == {};
    forall lane <- logs ensures Log(logs, lane) + Arriving([], lane, fate, partitionOf) == logs[lane] {
    }
  }
}
