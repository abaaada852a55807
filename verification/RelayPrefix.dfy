/**
 The relay across streams. Rows stand in the order of their creation times and may commit late. The published rows are a prefix
 of the whole table, and a partition's log holds a prefix of its rows, exactly as long as no row lands before those that are
 published, logged or about to be; within a stream none is taken to.
 */
module RelayPrefix {
  import opened Sequences
  import opened Outbox
  import opened Streams
  import opened ExactlyOnce

  /** The open batch is the stretch right behind the published rows. */
  ghost predicate BatchNext<S>(sys: System<S>, n: nat)
    requires n <= |sys.table|
  {
    n + |Batch(sys)| <= |sys.table| && Batch(sys) == Records(sys.table)[n..n + |Batch(sys)|]
  }

  ghost predicate Aligned<S>(sys: System<S>, n: nat) {
    MarkedInOrder(sys.table, n) && BatchNext(sys, n)
  }

  // How many rows are published or about to be.
  function Front<S>(sys: System<S>): int {
    |sys.table| - |Unpublished(sys.table)| + |Batch(sys)|
  }

  /** An append that takes effect puts its row behind the published rows and the open batch. */
  predicate LandsBehind<S>(sys: System<S>, step: Step) {
    step.Append? && MayAppend(sys.table, step.record, step.at) ==> Front(sys) <= step.at
  }

  // Every append of the run does.
  predicate RowsLandBehind<S>(c: Config<S>, steps: seq<Step>) {
    steps == []
    || (RowsLandBehind(c, steps[..|steps| - 1]) && LandsBehind(Run(c, Start(), steps[..|steps| - 1]), steps[|steps| - 1]))
  }

  lemma FrontIs<S>(sys: System<S>, n: nat)
    requires Aligned(sys, n)
    ensures Front(sys) == n + |Batch(sys)|
  {
    UnpublishedAfterMarked(sys.table, n);
  }

  lemma InsertedFlags(table: seq<Entry>, at: nat, record: Record)
    requires at <= |table|
    ensures var next := Inserted(table, at, record);
            && |next| == |table| + 1 && next[at] == Entry(record, false, 0) && next[..at] == table[..at]
            && (forall i :: at <= i < |table| ==> next[i + 1] == table[i])
  {
  }

  lemma InsertedMarks(table: seq<Entry>, at: nat, record: Record, n: nat)
    requires MarkedInOrder(table, n) && n <= at <= |table|
    ensures MarkedInOrder(Inserted(table, at, record), n)
  {
    var next := Inserted(table, at, record);
    InsertedFlags(table, at, record);
    forall i | 0 <= i < |next| ensures next[i].published <==> i < n {
      if i < at {
        assert next[i] == next[..at][i] == table[i];
      } else if i > at {
        assert next[i - 1 + 1] == table[i - 1];
      }
    }
  }

  lemma AppendAligned<S>(c: Config<S>, sys: System<S>, record: Record, at: nat, n: nat, next: System<S>)
    requires Aligned(sys, n) && next == Next(c, sys, Append(record, at)) && LandsBehind(sys, Append(record, at))
    ensures Aligned(next, n)
  {
    FrontIs(sys, n);
    if MayAppend(sys.table, record, at) {
      InsertedMarks(sys.table, at, record, n);
      BatchStaysNext(sys.table, at, record, n, n + |Batch(sys)|);
    }
  }

  lemma BatchStaysNext(table: seq<Entry>, at: nat, record: Record, n: nat, m: nat)
    requires n <= m <= at <= |table|
    ensures m <= |Inserted(table, at, record)| && Records(Inserted(table, at, record))[n..m] == Records(table)[n..m]
  {
    InsertedRows(table, at, record);
    SameStretch(Records(table), Records(Inserted(table, at, record)), at, n, m);
  }

  lemma SameStretch(rows: seq<Record>, next: seq<Record>, at: nat, n: nat, m: nat)
    requires n <= m <= at <= |rows| && at <= |next| && next[..at] == rows[..at]
    ensures next[n..m] == rows[n..m]
  {
    assert next[..at][n..m] == next[n..m] && rows[..at][n..m] == rows[n..m];
  }

  /** The guard is exact: a row that lands anywhere else breaks the order at once. */
  lemma EarlyAppendMisaligns<S>(c: Config<S>, sys: System<S>, record: Record, at: nat, n: nat, next: System<S>, m: nat)
    requires Aligned(sys, n) && next == Next(c, sys, Append(record, at)) && !LandsBehind(sys, Append(record, at))
    ensures !Aligned(next, m)
  {
    FrontIs(sys, n);
    if at < n {
      EarlyRowUnmarked(sys.table, record, at, n, m);
    } else {
      if MarkedInOrder(next.table, m) {
        SameMarks(sys.table, record, at, n, m);
      }
      InsertBreaksBatch(sys.table, record, at, Batch(sys), n);
    }
  }

  lemma EarlyRowUnmarked(table: seq<Entry>, record: Record, at: nat, n: nat, m: nat)
    requires MarkedInOrder(table, n) && at < n
    ensures !MarkedInOrder(Inserted(table, at, record), m)
  {
    InsertedFlags(table, at, record);
    assert Inserted(table, at, record)[n - 1 + 1] == table[n - 1];
    assert !Inserted(table, at, record)[at].published;
  }

  lemma FetchAligned<S>(c: Config<S>, sys: System<S>, n: nat, next: System<S>)
    requires Aligned(sys, n) && next == Next(c, sys, Fetch)
    ensures Aligned(next, n)
  {
    UnpublishedAfterMarked(sys.table, n);
  }

  lemma AttemptAligned(table: seq<Entry>, ids: set<nat>)
    ensures Records(Attempted(table, ids)) == Records(table)
    ensures forall i :: 0 <= i < |table| ==> Attempted(table, ids)[i].published == table[i].published
  {
  }

  lemma PublishAligned<S>(c: Config<S>, sys: System<S>, fate: Fate, n: nat, next: System<S>)
    requires Aligned(sys, n) && next == Next(c, sys, Publish(fate))
    ensures Aligned(next, n)
  {
    if sys.drainer.Fetched? {
      AttemptAligned(sys.table, Ids(sys.drainer.batch));
      assert Batch(next) == [] || Batch(next) == Batch(sys);
    }
  }

  lemma MarkedStretch(table: seq<Entry>, n: nat, m: nat, batch: seq<Record>)
    requires UniqueIds(table) && MarkedInOrder(table, n) && n <= m <= |table| && batch == Records(table)[n..m]
    ensures MarkedInOrder(Marked(table, Ids(batch)), m)
  {
    forall i | 0 <= i < |table| ensures Marked(table, Ids(batch))[i].published <==> i < m {
      if n <= i < m {
        assert batch[i - n] == table[i].record;
        assert table[i].record in batch;
      } else {
        forall k | 0 <= k < |batch| ensures batch[k].id != table[i].record.id {
          assert batch[k] == table[n + k].record;
        }
      }
    }
  }

  lemma MarkAligned<S>(c: Config<S>, sys: System<S>, n: nat, next: System<S>)
    requires Aligned(sys, n) && UniqueIds(sys.table) && next == Next(c, sys, MarkPublished)
    ensures Aligned(next, if sys.drainer.Published? then n + |Batch(sys)| else n)
  {
    if sys.drainer.Published? {
      MarkedStretch(sys.table, n, n + |sys.drainer.batch|, sys.drainer.batch);
    }
  }

  lemma StepAligned<S>(c: Config<S>, sys: System<S>, step: Step, n: nat, next: System<S>) returns (m: nat)
    requires Aligned(sys, n) && UniqueIds(sys.table) && next == Next(c, sys, step) && LandsBehind(sys, step)
    ensures Aligned(next, m)
  {
    m := if step.MarkPublished? && sys.drainer.Published? then n + |Batch(sys)| else n;
    match step
    case Append(record, at) => AppendAligned(c, sys, record, at, n, next);
    case Fetch => FetchAligned(c, sys, n, next);
    case Publish(fate) => PublishAligned(c, sys, fate, n, next);
    case MarkPublished => MarkAligned(c, sys, n, next);
    case _ =>
  }

  /** The published rows are a prefix of the table, whatever is fetched, published, lost, marked or not, as long as no row comes
      to stand before the published ones or within the open batch; and the batch being drained is what comes next. */
  lemma {:induction false} PublishedRowsArePrefix<S>(c: Config<S>, steps: seq<Step>) returns (n: nat)
    requires RowsLandBehind(c, steps)
    ensures Aligned(Run(c, Start(), steps), n)
  {
    if steps == [] {
      n := 0;
    } else {
      var init := steps[..|steps| - 1];
      var before := PublishedRowsArePrefix(c, init);
      RunIsSound(c, init, Run(c, Start(), init));
      n := StepAligned(c, Run(c, Start(), init), steps[|steps| - 1], before, Run(c, Start(), steps));
    }
  }

  ghost predicate AlignedAfter<S>(c: Config<S>, steps: seq<Step>) {
    exists n: nat :: Aligned(Run(c, Start(), steps), n)
  }

  // At every point of the run.
  ghost predicate AlwaysAligned<S>(c: Config<S>, steps: seq<Step>) {
    AlignedAfter(c, steps) && (steps == [] || AlwaysAligned(c, steps[..|steps| - 1]))
  }

  /** The prefix property holds all through a run if and only if every row that is appended lands behind the published rows and
      the open batch. */
  lemma {:induction false} TablePrefixExactlyWhen<S>(c: Config<S>, steps: seq<Step>)
    ensures AlwaysAligned(c, steps) <==> RowsLandBehind(c, steps)
  {
    if RowsLandBehind(c, steps) {
      var n := PublishedRowsArePrefix(c, steps);
    }
    if steps != [] {
      var init, last := steps[..|steps| - 1], steps[|steps| - 1];
      TablePrefixExactlyWhen(c, init);
      if AlwaysAligned(c, steps) {
        AlignedEarlier(c, steps);
        AlignedAppends(c, Run(c, Start(), init), last, Run(c, Start(), steps));
      }
    }
  }

  lemma AlignedEarlier<S>(c: Config<S>, steps: seq<Step>)
    requires AlwaysAligned(c, steps) && steps != []
    ensures AlignedAfter(c, steps) && AlignedAfter(c, steps[..|steps| - 1])
  {
  }

  lemma AlignedAppends<S>(c: Config<S>, sys: System<S>, step: Step, next: System<S>)
    requires next == Next(c, sys, step) && (exists n: nat :: Aligned(sys, n)) && (exists m: nat :: Aligned(next, m))
    ensures LandsBehind(sys, step)
  {
    var n: nat :| Aligned(sys, n);
    var m: nat :| Aligned(next, m);
    if !LandsBehind(sys, step) {
      EarlyAppendMisaligns(c, sys, step.record, step.at, n, next, m);
    }
  }

  // What the drainer does next with its batch.
  function Drained<S>(c: Config<S>, sys: System<S>): System<S> {
    if sys.drainer.Fetched? then Next(c, Next(c, sys, Publish(Sent)), MarkPublished) else Next(c, sys, MarkPublished)
  }

  /** Such a row does show: as soon as the drainer has finished its batch, a published row stands behind an unpublished one. */
  lemma EarlyRowIsOvertaken<S>(c: Config<S>, sys: System<S>, record: Record, at: nat, n: nat, next: System<S>)
    requires Sound(c, sys) && Aligned(sys, n) && next == Next(c, sys, Append(record, at)) && !LandsBehind(sys, Append(record, at))
    ensures at < |sys.table| && Drained(c, next).table[at] == Entry(record, false, 0) && Drained(c, next).table[at + 1].published
  {
    FrontIs(sys, n);
    Overtaken(sys.table, record, at, n, Batch(sys));
  }

  lemma Overtaken(table: seq<Entry>, record: Record, at: nat, n: nat, batch: seq<Record>)
    requires MarkedInOrder(table, n) && at < n + |batch| <= |table| && batch == Records(table)[n..n + |batch|]
    requires record.id !in Ids(Records(table)) && Known(table, batch)
    ensures var next := Marked(Inserted(table, at, record), Ids(batch)); next[at] == Entry(record, false, 0) && next[at + 1].published
  {
    InsertedFlags(table, at, record);
    forall r | r in batch ensures r.id != record.id {
      assert r in Records(table);
    }
    assert Inserted(table, at, record)[at + 1] == table[at];
    if n <= at {
      assert batch[at - n] == table[at].record && batch[at - n] in batch;
    }
  }

  // ----- One partition -----

  // A partition as a stream nobody has read yet.
  function Quiet(): Handler<()> {
    Handler((s: (), r: Record) => (), ())
  }

  function OnLaneOf<S>(c: Config<S>, lane: Lane): Record -> bool {
    OnLane(lane, c.partitionOf)
  }

  function LaneRows<S>(c: Config<S>, sys: System<S>, lane: Lane): seq<Entry> {
    EntriesWhere(sys.table, OnLaneOf(c, lane))
  }

  function LaneView<S>(c: Config<S>, sys: System<S>, lane: Lane): View<()> {
    View(LaneRows(c, sys, lane), Filter(Batch(sys), OnLaneOf(c, lane)), sys.drainer.Published?, Log(sys.logs, lane), [], {}, ())
  }

  /** The partition's rows are marked in order, its log holds, repetitions aside, a prefix of them, and the batch is next. */
  ghost predicate LaneInOrder<S>(c: Config<S>, sys: System<S>, lane: Lane) {
    exists marked: nat :: InOrder(Quiet(), LaneView(c, sys, lane), marked, 0)
  }

  // Where a row of the partition comes to stand among its rows.
  function LanePlace<S>(c: Config<S>, sys: System<S>, lane: Lane, at: nat): nat
    requires at <= |sys.table|
  {
    |EntriesWhere(sys.table[..at], OnLaneOf(c, lane))|
  }

  /** An append puts a row of this partition behind all that is logged there or about to be; other rows may go anywhere. */
  predicate LandsBehindLane<S>(c: Config<S>, sys: System<S>, step: Step, lane: Lane) {
    step.Append? && MayAppend(sys.table, step.record, step.at) && OnLaneOf(c, lane)(step.record) ==>
      Streams.Front(LaneView(c, sys, lane)) <= LanePlace(c, sys, lane, step.at)
  }

  predicate RowsLandBehindLane<S>(c: Config<S>, steps: seq<Step>, lane: Lane) {
    steps == []
    || (RowsLandBehindLane(c, steps[..|steps| - 1], lane)
        && LandsBehindLane(c, Run(c, Start(), steps[..|steps| - 1]), steps[|steps| - 1], lane))
  }

  lemma AppendOnLane<S>(c: Config<S>, sys: System<S>, record: Record, at: nat, lane: Lane, next: System<S>)
    requires MayAppend(sys.table, record, at) && next == Next(c, sys, Append(record, at))
    ensures LanePlace(c, sys, lane, at) <= |LaneRows(c, sys, lane)|
    ensures record.id !in Ids(Records(LaneRows(c, sys, lane)))
    ensures var v := LaneView(c, sys, lane);
            LaneView(c, next, lane) == if OnLaneOf(c, lane)(record)
                                       then v.(entries := Inserted(v.entries, LanePlace(c, sys, lane, at), record)) else v
  {
    var p := OnLaneOf(c, lane);
    var front, rest := sys.table[..at], sys.table[at..];
    assert sys.table == front + rest;
    FilterInsert(front, Entry(record, false, 0), rest, Holds(p));
    RowsMembers(sys.table, p);
    Inserts(EntriesWhere(front, p), EntriesWhere(rest, p), record);
  }

  lemma Inserts(front: seq<Entry>, rest: seq<Entry>, record: Record)
    ensures Inserted(front + rest, |front|, record) == front + [Entry(record, false, 0)] + rest
  {
    assert (front + rest)[..|front|] == front && (front + rest)[|front|..] == rest;
  }

  lemma AppendKeepsLane<S>(c: Config<S>, sys: System<S>, record: Record, at: nat, lane: Lane, marked: nat, next: System<S>)
    requires InOrder(Quiet(), LaneView(c, sys, lane), marked, 0) && next == Next(c, sys, Append(record, at))
    requires LandsBehindLane(c, sys, Append(record, at), lane)
    ensures InOrder(Quiet(), LaneView(c, next, lane), marked, 0)
  {
    if MayAppend(sys.table, record, at) {
      AppendOnLane(c, sys, record, at, lane, next);
      if OnLaneOf(c, lane)(record) {
        InsertKeeps(Quiet(), LaneView(c, sys, lane), record, LanePlace(c, sys, lane, at), marked, 0);
      }
    }
  }

  lemma FetchKeepsLane<S>(c: Config<S>, sys: System<S>, lane: Lane, marked: nat, next: System<S>)
    requires InOrder(Quiet(), LaneView(c, sys, lane), marked, 0) && sys.drainer.Idle? && next == Next(c, sys, Fetch)
    ensures InOrder(Quiet(), LaneView(c, next, lane), marked, 0)
  {
    var p, unpublished := OnLaneOf(c, lane), Unpublished(sys.table);
    var batch := Take(unpublished, c.batchSize);
    UnpublishedWhere(sys.table, p);
    assert batch == unpublished[..|batch|];
    FilterPrefix(unpublished, |batch|, p);
    FetchKeeps(Quiet(), LaneView(c, sys, lane), Filter(batch, p), marked, 0);
  }

  lemma PublishOnLane<S>(c: Config<S>, sys: System<S>, fate: Fate, lane: Lane, next: System<S>) returns (arriving: seq<Record>)
    requires sys.drainer.Fetched? && next == Next(c, sys, Publish(fate))
    ensures var v := LaneView(c, sys, lane);
            && arriving <= v.batch && (fate.Sent? ==> arriving == v.batch)
            && LaneView(c, next, lane)
               == if fate.Sent? then v.(log := v.log + arriving, published := true)
                  else v.(log := v.log + arriving, batch := [], published := false, entries := Attempted(v.entries, Ids(sys.drainer.batch)))
  {
    arriving := Arriving(sys.drainer.batch, lane, fate, c.partitionOf);
    DeliveredLog(c.partitionOf, sys.logs, sys.drainer.batch, fate, lane);
    EntriesMarked(sys.table, Ids(sys.drainer.batch), OnLaneOf(c, lane));
  }

  lemma PublishKeepsLane<S>(c: Config<S>, sys: System<S>, fate: Fate, lane: Lane, marked: nat, next: System<S>)
    requires InOrder(Quiet(), LaneView(c, sys, lane), marked, 0) && sys.drainer.Fetched? && next == Next(c, sys, Publish(fate))
    ensures InOrder(Quiet(), LaneView(c, next, lane), marked, 0)
  {
    var v := LaneView(c, sys, lane);
    var arriving := PublishOnLane(c, sys, fate, lane, next);
    PublishKeeps(Quiet(), v, arriving, marked, 0);
    if !fate.Sent? {
      AttemptKeeps(Quiet(), v.(log := v.log + arriving, batch := [], published := false), Ids(sys.drainer.batch), marked, 0);
    }
  }

  lemma MarkKeepsLane<S>(c: Config<S>, sys: System<S>, lane: Lane, marked: nat, next: System<S>) returns (more: nat)
    requires Sound(c, sys) && InOrder(Quiet(), LaneView(c, sys, lane), marked, 0)
    requires sys.drainer.Published? && next == Next(c, sys, MarkPublished)
    ensures InOrder(Quiet(), LaneView(c, next, lane), more, 0)
  {
    var v, ids := LaneView(c, sys, lane), Ids(sys.drainer.batch);
    EntriesMarked(sys.table, ids, OnLaneOf(c, lane));
    BatchIds(sys.table, sys.drainer.batch, OnLaneOf(c, lane));
    MarkKeeps(Quiet(), v, ids, marked, 0);
    more := marked + |v.batch|;
  }

  lemma StepKeepsLane<S>(c: Config<S>, sys: System<S>, step: Step, lane: Lane, next: System<S>)
    requires Sound(c, sys) && LaneInOrder(c, sys, lane) && next == Next(c, sys, step) && LandsBehindLane(c, sys, step, lane)
    ensures LaneInOrder(c, next, lane)
  {
    var marked: nat :| InOrder(Quiet(), LaneView(c, sys, lane), marked, 0);
    match step
    case Append(record, at) => AppendKeepsLane(c, sys, record, at, lane, marked, next);
    case Fetch =>
      if sys.drainer.Idle? { FetchKeepsLane(c, sys, lane, marked, next); }
    case Publish(fate) =>
      if sys.drainer.Fetched? { PublishKeepsLane(c, sys, fate, lane, marked, next); }
    case MarkPublished =>
      if sys.drainer.Published? { var more := MarkKeepsLane(c, sys, lane, marked, next); }
    case StopDrainer =>
      StopKeeps(Quiet(), LaneView(c, sys, lane), marked, 0);
      assert LaneView(c, next, lane) == LaneView(c, sys, lane).(batch := [], published := false);
    case _ => assert LaneView(c, next, lane) == LaneView(c, sys, lane);
  }

  lemma StartsInOrder<S>(c: Config<S>, lane: Lane)
    ensures LaneInOrder(c, Start<S>(), lane)
  {
    assert InOrder(Quiet(), LaneView(c, Start<S>(), lane), 0, 0);
  }

  lemma {:induction false} LaneStaysInOrder<S>(c: Config<S>, steps: seq<Step>, lane: Lane, sys: System<S>)
    requires RowsLandBehindLane(c, steps, lane) && sys == Run(c, Start(), steps)
    ensures LaneInOrder(c, sys, lane)
  {
    if steps == [] {
      StartsInOrder(c, lane);
    } else {
      var init, last := steps[..|steps| - 1], steps[|steps| - 1];
      var before := Run(c, Start(), init);
      LaneStaysInOrder(c, init, lane, before);
      RunIsSound(c, init, Run(c, Start(), init));
      StepKeepsLane(c, before, last, lane, sys);
    }
  }

  // At every point of the run.
  ghost predicate LaneAlwaysInOrder<S>(c: Config<S>, steps: seq<Step>, lane: Lane) {
    LaneInOrder(c, Run(c, Start(), steps), lane) && (steps == [] || LaneAlwaysInOrder(c, steps[..|steps| - 1], lane))
  }

  lemma LaneInOrderEarlier<S>(c: Config<S>, steps: seq<Step>, lane: Lane)
    requires LaneAlwaysInOrder(c, steps, lane) && steps != []
    ensures LaneInOrder(c, Run(c, Start(), steps), lane) && LaneInOrder(c, Run(c, Start(), steps[..|steps| - 1]), lane)
  {
  }

  lemma EarlyRowMisalignsLane<S>(c: Config<S>, sys: System<S>, record: Record, at: nat, lane: Lane, next: System<S>)
    requires LaneInOrder(c, sys, lane) && next == Next(c, sys, Append(record, at)) && !LandsBehindLane(c, sys, Append(record, at), lane)
    ensures !LaneInOrder(c, next, lane)
  {
    var marked: nat :| InOrder(Quiet(), LaneView(c, sys, lane), marked, 0);
    AppendOnLane(c, sys, record, at, lane, next);
    forall m: nat ensures !InOrder(Quiet(), LaneView(c, next, lane), m, 0) {
      InsertBreaks(Quiet(), LaneView(c, sys, lane), record, LanePlace(c, sys, lane, at), marked, 0, m, 0, LaneView(c, next, lane));
    }
  }

  /** A partition is relayed in order all through a run if and only if each of its rows lands behind all that is logged there or
      in the open batch, whatever the other partitions do. */
  lemma {:induction false} LanePrefixExactlyWhen<S>(c: Config<S>, steps: seq<Step>, lane: Lane)
    ensures LaneAlwaysInOrder(c, steps, lane) <==> RowsLandBehindLane(c, steps, lane)
  {
    if RowsLandBehindLane(c, steps, lane) {
      LaneStaysInOrder(c, steps, lane, Run(c, Start(), steps));
    }
    if steps != [] {
      var init, last := steps[..|steps| - 1], steps[|steps| - 1];
      LanePrefixExactlyWhen(c, init, lane);
      if LaneAlwaysInOrder(c, steps, lane) {
        LaneInOrderEarlier(c, steps, lane);
        if !LandsBehindLane(c, Run(c, Start(), init), last, lane) {
          EarlyRowMisalignsLane(c, Run(c, Start(), init), last.record, last.at, lane, Run(c, Start(), steps));
        }
      }
    }
  }

  /** The marked rows come first, and what is logged, repetitions aside, is the first rows, all marked ones among them. */
  ghost predicate RelayedInOrder(log: seq<Record>, entries: seq<Entry>) {
    && Dedup(log) <= Records(entries)
    && forall i :: 0 <= i < |entries| && entries[i].published ==> i < |Dedup(log)| && forall j :: 0 <= j < i ==> entries[j].published
  }

  /** Relay prefix: under a single drainer, whatever fails half way or is repeated, and wherever rows of other partitions land,
      the distinct rows in a partition's log are a prefix of its rows, at least as long as the marked ones. */
  lemma LoggedRowsArePrefix<S>(c: Config<S>, steps: seq<Step>, lane: Lane, sys: System<S>)
    requires RowsLandBehindLane(c, steps, lane) && sys == Run(c, Start(), steps)
    ensures RelayedInOrder(Log(sys.logs, lane), LaneRows(c, sys, lane))
  {
    LaneStaysInOrder(c, steps, lane, sys);
    var marked: nat :| InOrder(Quiet(), LaneView(c, sys, lane), marked, 0);
  }

  /** With one partition this is the statement about whole topics. */
  lemma TopicLogIsPrefix<S>(c: Config<S>, steps: seq<Step>, topic: string, sys: System<S>)
    requires RowsLandBehindLane(c, steps, Lane(topic, 0)) && sys == Run(c, Start(), steps)
    requires forall key :: c.partitionOf(key) == 0
    ensures RelayedInOrder(Log(sys.logs, Lane(topic, 0)), EntriesWhere(sys.table, OnTopic(topic)))
  {
    LoggedRowsArePrefix(c, steps, Lane(topic, 0), sys);
    SoleLane(sys.table, topic, c.partitionOf);
  }

  lemma SoleLane(table: seq<Entry>, topic: string, partitionOf: string -> nat)
    requires forall key :: partitionOf(key) == 0
    ensures EntriesWhere(table, OnLane(Lane(topic, 0), partitionOf)) == EntriesWhere(table, OnTopic(topic))
  {
    forall e | e in table ensures Holds(OnLane(Lane(topic, 0), partitionOf))(e) == Holds(OnTopic(topic))(e) {
      assert partitionOf(e.record.key) == 0;
    }
    FilterSame(table, Holds(OnLane(Lane(topic, 0), partitionOf)), Holds(OnTopic(topic)));
  }

  // ----- What an early row does to the log -----

  // The log breaks at once, or with the next publish.
  function Published<S>(c: Config<S>, sys: System<S>): System<S> {
    if sys.drainer.Fetched? then Next(c, sys, Publish(Sent)) else sys
  }

  /** A row of the partition that lands too early does show: once the batch is published, the log skips it. */
  lemma EarlyRowIsSkipped<S>(c: Config<S>, sys: System<S>, record: Record, at: nat, lane: Lane, next: System<S>)
    requires Sound(c, sys) && LaneInOrder(c, sys, lane)
    requires next == Next(c, sys, Append(record, at)) && !LandsBehindLane(c, sys, Append(record, at), lane)
    ensures !(Dedup(Log(Published(c, next).logs, lane)) <= Records(LaneRows(c, Published(c, next), lane)))
  {
    var marked: nat :| InOrder(Quiet(), LaneView(c, sys, lane), marked, 0);
    AppendOnLane(c, sys, record, at, lane, next);
    Streams.FrontIs(Quiet(), LaneView(c, sys, lane), marked, 0);
    if sys.drainer.Fetched? {
      var arriving := PublishOnLane(c, next, Sent, lane, Published(c, next));
    }
    Skipped(LaneView(c, sys, lane), record, LanePlace(c, sys, lane, at), marked);
  }

  lemma Skipped(v: View<()>, record: Record, at: nat, marked: nat)
    requires InOrder(Quiet(), v, marked, 0) && at < Max(|Dedup(v.log)|, marked + |v.batch|) <= |v.entries|
    requires record.id !in Ids(Records(v.entries))
    ensures at < |Dedup(v.log)| ==> !(Dedup(v.log) <= Records(Inserted(v.entries, at, record)))
    ensures !(Dedup(v.log + v.batch) <= Records(Inserted(v.entries, at, record)))
  {
    Streams.PublishLogged(v, v.batch, marked);
    InsertBreaksLog(v.entries, record, at, Dedup(v.log + v.batch));
    if at < |Dedup(v.log)| {
      InsertBreaksLog(v.entries, record, at, Dedup(v.log));
    }
  }

  // ----- Without the order of appends -----

  const EARLY := Record(1, "orders", "a", "early")
  const LATE := Record(2, "orders", "b", "late")

  /** A row of another stream that commits late but was created early stands before a row already published. */
  lemma LateCommitBreaksPrefix<S>(c: Config<S>, sys: System<S>)
    requires c.batchSize > 0
    requires sys == Next(c, Next(c, Next(c, Next(c, Next(c, Start<S>(), Append(LATE, 0)), Fetch), Publish(Sent)), MarkPublished), Append(EARLY, 0))
    ensures forall n: nat :: !MarkedInOrder(sys.table, n)
  {
    var s1 := Next(c, Start<S>(), Append(LATE, 0));
    assert s1.table == [Entry(LATE, false, 0)];
    UnpublishedAfterMarked(s1.table, 0);
    assert Records(s1.table) == [LATE];
    var s4 := Next(c, Next(c, Next(c, s1, Fetch), Publish(Sent)), MarkPublished);
    LateRowPublished(c, s1, s4);
    EarlyRowInserted(c, s4, sys);
    forall n: nat ensures !MarkedInOrder(sys.table, n) {
      assert !sys.table[0].published && sys.table[1].published;
    }
  }

  lemma LateRowPublished<S>(c: Config<S>, s1: System<S>, s4: System<S>)
    requires c.batchSize > 0 && s1.drainer == Idle && s1.table == [Entry(LATE, false, 0)] && Unpublished(s1.table) == [LATE]
    requires s4 == Next(c, Next(c, Next(c, s1, Fetch), Publish(Sent)), MarkPublished)
    ensures s4.table == [Entry(LATE, true, 0)]
  {
    assert Batch(Next(c, s1, Fetch)) == [LATE];
    assert LATE in [LATE];
  }

  lemma EarlyRowInserted<S>(c: Config<S>, sys: System<S>, next: System<S>)
    requires sys.table == [Entry(LATE, true, 0)] && next == Next(c, sys, Append(EARLY, 0))
    ensures next.table == [Entry(EARLY, false, 0), Entry(LATE, true, 0)]
  {
    assert Records(sys.table) == [LATE];
  }
}
