/**
 One aggregate's messages in one topic, seen through the whole pipeline: the rows with their flags, what of them the
 drainer holds, what the log and the consumer have seen of them, and the state the consumer built.
 */
module Streams {
  import opened Sequences
  import opened Outbox

  datatype View<S> = View(
    entries: seq<Entry>,
    batch: seq<Record>,
    published: bool,
    log: seq<Record>,
    passed: seq<Record>,
    processed: set<nat>,
    state: S)

  /** A handler and the state it starts from. */
  datatype Handler<!S> = Handler(handle: (S, Record) -> S, initial: S)

  function Fold<S>(h: Handler<S>, rows: seq<Record>): S {
    if rows == [] then h.initial
    else h.handle(Fold(h, rows[..|rows| - 1]), rows[|rows| - 1])
  }

  ghost predicate DistinctIds(rows: seq<Record>) {
    forall i, j :: 0 <= i < j < |rows| ==> rows[i].id != rows[j].id
  }

  /** The rows are marked in creation order, `marked` of them so far. */
  ghost predicate MarkedInOrder(entries: seq<Entry>, marked: nat) {
    marked <= |entries| && forall i :: 0 <= i < |entries| ==> (entries[i].published <==> i < marked)
  }

  /** The drainer holds the rows that are next to be marked; once it has published them they are in the log. */
  ghost predicate Draining<S>(v: View<S>, marked: nat) {
    var end := marked + |v.batch|;
    && end <= |v.entries|
    && v.batch == Records(v.entries)[marked..end]
    && (v.published ==> end <= |Dedup(v.log)|)
  }

  /** The log holds, repetitions aside, a prefix of the rows: nothing marked is missing, nothing is out of order. */
  ghost predicate LoggedInOrder<S>(v: View<S>, marked: nat) {
    Dedup(v.log) <= Records(v.entries) && marked <= |Dedup(v.log)|
  }

  /** The consumer has applied the first `applied` rows, once each and in order, and nothing else. */
  ghost predicate AppliedInOrder<S>(h: Handler<S>, v: View<S>, applied: nat) {
    var rows := Records(v.entries);
    && applied <= |rows|
    && v.state == Fold(h, rows[..applied])
    && forall i :: 0 <= i < |rows| ==> (rows[i].id in v.processed <==> i < applied)
  }

  /** What is applied lies between what the consumer has passed and what is logged. */
  ghost predicate Consuming<S>(v: View<S>, applied: nat) {
    v.passed <= v.log && |Dedup(v.passed)| <= applied <= |Dedup(v.log)|
  }

  ghost predicate InOrder<S>(h: Handler<S>, v: View<S>, marked: nat, applied: nat) {
    && DistinctIds(Records(v.entries))
    && MarkedInOrder(v.entries, marked)
    && LoggedInOrder(v, marked)
    && Draining(v, marked)
    && AppliedInOrder(h, v, applied)
    && Consuming(v, applied)
  }

  /** How far rows are in the log or about to be: a row must not come to stand before this. */
  function Front<S>(v: View<S>): int {
    Max(|Dedup(v.log)|, |v.entries| - |Unpublished(v.entries)| + |v.batch|)
  }

  lemma FrontIs<S>(h: Handler<S>, v: View<S>, marked: nat, applied: nat)
    requires InOrder(h, v, marked, applied)
    ensures Front(v) == Max(|Dedup(v.log)|, marked + |v.batch|) && Front(v) <= |v.entries|
  {
    UnpublishedAfterMarked(v.entries, marked);
  }

  lemma InsertedRows(entries: seq<Entry>, at: nat, record: Record)
    requires at <= |entries|
    ensures var rows, next := Records(entries), Records(Inserted(entries, at, record));
            && |next| == |rows| + 1 && next[at] == record && next[..at] == rows[..at]
            && (forall i :: at <= i < |rows| ==> next[i + 1] == rows[i])
  {
  }

  lemma InsertedDistinct(entries: seq<Entry>, at: nat, record: Record)
    requires DistinctIds(Records(entries)) && record.id !in Ids(Records(entries)) && at <= |entries|
    ensures DistinctIds(Records(Inserted(entries, at, record)))
  {
    var rows, next := Records(entries), Records(Inserted(entries, at, record));
    InsertedRows(entries, at, record);
    forall i | 0 <= i < |rows| ensures rows[i].id != record.id {
      assert rows[i] in rows;
    }
    forall i, j | 0 <= i < j < |next| ensures next[i].id != next[j].id {
      if i < at {
        assert next[i] == next[..at][i] == rows[i];
      }
      if j < at {
        assert next[j] == next[..at][j] == rows[j];
      } else if at < j {
        assert next[j - 1 + 1] == rows[j - 1];
      }
      if at < i {
        assert next[i - 1 + 1] == rows[i - 1];
      }
    }
  }

  lemma InsertKeepsApplied<S>(h: Handler<S>, v: View<S>, record: Record, at: nat, applied: nat)
    requires AppliedInOrder(h, v, applied) && record.id !in v.processed && applied <= at <= |v.entries|
    ensures AppliedInOrder(h, v.(entries := Inserted(v.entries, at, record)), applied)
  {
    var rows, next := Records(v.entries), Records(Inserted(v.entries, at, record));
    InsertedRows(v.entries, at, record);
    assert next[..applied] == rows[..applied];
    forall i | 0 <= i < |next| ensures next[i].id in v.processed <==> i < applied {
      if i < at {
        assert next[i] == next[..at][i] == rows[i];
      } else if i > at {
        assert next[i] == rows[i - 1];
      }
    }
  }

  lemma InsertKeepsDraining<S>(v: View<S>, record: Record, at: nat, marked: nat)
    requires MarkedInOrder(v.entries, marked) && LoggedInOrder(v, marked) && Draining(v, marked)
    requires at <= |v.entries| && marked + |v.batch| <= at && |Dedup(v.log)| <= at
    ensures var x := v.(entries := Inserted(v.entries, at, record));
            MarkedInOrder(x.entries, marked) && LoggedInOrder(x, marked) && Draining(x, marked)
  {
    var rows, next := Records(v.entries), Records(Inserted(v.entries, at, record));
    InsertedRows(v.entries, at, record);
    assert Dedup(v.log) <= next[..at] && Dedup(v.log) <= next;
    assert next[..at][marked..marked + |v.batch|] == next[marked..marked + |v.batch|];
    assert rows[..at][marked..marked + |v.batch|] == rows[marked..marked + |v.batch|];
  }

  /** A row that lands behind the front keeps everything in order. */
  lemma InsertKeeps<S>(h: Handler<S>, v: View<S>, record: Record, at: nat, marked: nat, applied: nat)
    requires InOrder(h, v, marked, applied) && Front(v) <= at <= |v.entries|
    requires record.id !in v.processed && record.id !in Ids(Records(v.entries))
    ensures InOrder(h, v.(entries := Inserted(v.entries, at, record)), marked, applied)
  {
    FrontIs(h, v, marked, applied);
    InsertedDistinct(v.entries, at, record);
    InsertKeepsApplied(h, v, record, at, applied);
    InsertKeepsDraining(v, record, at, marked);
  }

  lemma AppendKeeps<S>(h: Handler<S>, v: View<S>, record: Record, marked: nat, applied: nat)
    requires InOrder(h, v, marked, applied)
    requires record.id !in v.processed && record.id !in Ids(Records(v.entries))
    ensures InOrder(h, v.(entries := v.entries + [Entry(record, false, 0)]), marked, applied)
  {
    FrontIs(h, v, marked, applied);
    InsertKeeps(h, v, record, |v.entries|, marked, applied);
    assert Inserted(v.entries, |v.entries|, record) == v.entries + [Entry(record, false, 0)];
  }

  // A row amid the logged ones takes the place of one of them.
  lemma InsertBreaksLog(entries: seq<Entry>, record: Record, at: nat, logged: seq<Record>)
    requires logged <= Records(entries) && at < |logged| && record.id !in Ids(Records(entries))
    ensures !(logged <= Records(Inserted(entries, at, record)))
  {
    InsertedRows(entries, at, record);
    assert logged[at] == Records(entries)[at] && Records(entries)[at] in Records(entries);
    assert Records(Inserted(entries, at, record))[at] == record != logged[at];
  }

  // And so does one amid the batch.
  lemma InsertBreaksBatch(entries: seq<Entry>, record: Record, at: nat, batch: seq<Record>, marked: nat)
    requires marked <= at < marked + |batch| <= |entries| && batch == Records(entries)[marked..marked + |batch|]
    requires record.id !in Ids(Records(entries))
    ensures marked + |batch| <= |Inserted(entries, at, record)|
    ensures batch != Records(Inserted(entries, at, record))[marked..marked + |batch|]
  {
    InsertedRows(entries, at, record);
    assert batch[at - marked] == Records(entries)[at] && Records(entries)[at] in Records(entries);
    assert Records(Inserted(entries, at, record))[marked..marked + |batch|][at - marked] == record != batch[at - marked];
  }

  /** And one that lands before it never does. */
  lemma InsertBreaks<S>(h: Handler<S>, v: View<S>, record: Record, at: nat, marked: nat, applied: nat, m: nat, a: nat, x: View<S>)
    requires InOrder(h, v, marked, applied) && at < Front(v) && at <= |v.entries| && record.id !in Ids(Records(v.entries))
    requires x == v.(entries := Inserted(v.entries, at, record))
    ensures !InOrder(h, x, m, a)
  {
    FrontIs(h, v, marked, applied);
    if at < |Dedup(v.log)| {
      InsertBreaksLog(v.entries, record, at, Dedup(v.log));
      assert !LoggedInOrder(x, m);
    } else {
      InsertBreaksBatch(v.entries, record, at, v.batch, marked);
      if MarkedInOrder(x.entries, m) {
        SameMarks(v.entries, record, at, marked, m);
        assert !Draining(x, m);
      }
    }
  }

  lemma SameMarks(entries: seq<Entry>, record: Record, at: nat, marked: nat, m: nat)
    requires MarkedInOrder(entries, marked) && marked <= at < |entries| && MarkedInOrder(Inserted(entries, at, record), m)
    ensures m == marked
  {
    var next := Inserted(entries, at, record);
    assert !next[at].published;
    if marked > 0 {
      assert next[marked - 1] == entries[marked - 1];
    }
    if marked < at {
      assert next[marked] == entries[marked];
    }
  }

  lemma FetchKeeps<S>(h: Handler<S>, v: View<S>, batch: seq<Record>, marked: nat, applied: nat)
    requires InOrder(h, v, marked, applied)
    requires batch <= Unpublished(v.entries)
    ensures InOrder(h, v.(batch := batch, published := false), marked, applied)
  {
    UnpublishedAfterMarked(v.entries, marked);
    assert batch == Records(v.entries)[marked..][..|batch|];
  }

  lemma {:induction false} UnpublishedAfterMarked(entries: seq<Entry>, marked: nat)
    requires MarkedInOrder(entries, marked)
    ensures Unpublished(entries) == Records(entries)[marked..]
  {
    if entries != [] {
      var init, last := entries[..|entries| - 1], entries[|entries| - 1];
      UnpublishedAfterMarked(init, if last.published then marked - 1 else marked);
      assert Records(entries) == Records(init) + [last.record];
      if last.published {
        assert marked == |entries| && Records(init)[marked - 1..] == [] == Records(entries)[marked..];
      } else {
        assert Records(entries)[marked..] == Records(init)[marked..] + [last.record];
      }
    }
  }

  lemma PublishLogged<S>(v: View<S>, arriving: seq<Record>, marked: nat)
    requires DistinctIds(Records(v.entries)) && LoggedInOrder(v, marked) && Draining(v, marked)
    requires arriving <= v.batch
    ensures var log := Dedup(v.log + arriving);
            && log <= Records(v.entries)
            && |log| == Max(|Dedup(v.log)|, marked + |arriving|)
  {
    var rows := Records(v.entries);
    forall i | 0 <= i < |arriving| ensures arriving[i] == rows[marked + i] {
      assert arriving[i] == v.batch[i];
    }
    DedupResend(v.log, arriving, rows, marked);
  }

  /** A publish, complete or not, adds a beginning of the batch to the log. */
  lemma PublishKeeps<S>(h: Handler<S>, v: View<S>, arriving: seq<Record>, marked: nat, applied: nat)
    requires InOrder(h, v, marked, applied)
    requires arriving <= v.batch
    ensures InOrder(h, v.(log := v.log + arriving, batch := [], published := false), marked, applied)
    ensures arriving == v.batch ==> InOrder(h, v.(log := v.log + arriving, published := true), marked, applied)
  {
    PublishLogged(v, arriving, marked);
    LogKeeps(h, v, v.log + arriving, marked, applied, [], false);
    if arriving == v.batch {
      LogKeeps(h, v, v.log + arriving, marked, applied, v.batch, true);
    }
  }

  lemma LogKeeps<S>(h: Handler<S>, v: View<S>, log: seq<Record>, marked: nat, applied: nat, batch: seq<Record>, published: bool)
    requires InOrder(h, v, marked, applied) && v.log <= log && batch in {[], v.batch}
    requires Dedup(log) <= Records(v.entries) && |Dedup(v.log)| <= |Dedup(log)| && (published ==> marked + |batch| <= |Dedup(log)|)
    ensures InOrder(h, v.(log := log, batch := batch, published := published), marked, applied)
  {
    var x := v.(log := log, batch := batch, published := published);
    assert Consuming(x, applied);
    assert Draining(x, marked);
    assert AppliedInOrder(h, x, applied);
  }

  lemma MarkKeeps<S>(h: Handler<S>, v: View<S>, ids: set<nat>, marked: nat, applied: nat)
    requires InOrder(h, v, marked, applied) && v.published
    requires forall i :: 0 <= i < |v.entries| ==> (v.entries[i].record.id in ids <==> v.entries[i].record in v.batch)
    ensures InOrder(h, v.(entries := Marked(v.entries, ids), batch := [], published := false), marked + |v.batch|, applied)
  {
    var rows, entries, end := Records(v.entries), Marked(v.entries, ids), marked + |v.batch|;
    assert Records(entries) == rows;
    forall i | 0 <= i < |entries| ensures entries[i].published <==> i < end {
      if rows[i] in v.batch {
        var k :| 0 <= k < |v.batch| && v.batch[k] == rows[i];
        assert rows[marked + k] == rows[i];
      }
      if marked <= i < end {
        assert v.batch[i - marked] == rows[i];
      }
    }
  }

  lemma StopKeeps<S>(h: Handler<S>, v: View<S>, marked: nat, applied: nat)
    requires InOrder(h, v, marked, applied)
    ensures InOrder(h, v.(batch := [], published := false), marked, applied)
  {
  }

  /** Failed publishes are counted without touching rows or flags. */
  lemma AttemptKeeps<S>(h: Handler<S>, v: View<S>, ids: set<nat>, marked: nat, applied: nat)
    requires InOrder(h, v, marked, applied)
    ensures InOrder(h, v.(entries := Attempted(v.entries, ids)), marked, applied)
  {
    assert Records(Attempted(v.entries, ids)) == Records(v.entries);
  }

  lemma DeliverOtherKeeps<S>(h: Handler<S>, v: View<S>, id: nat, marked: nat, applied: nat)
    requires InOrder(h, v, marked, applied) && id !in Ids(Records(v.entries))
    ensures InOrder(h, v.(processed := v.processed + {id}), marked, applied)
  {
    var rows := Records(v.entries);
    forall i | 0 <= i < |rows| ensures rows[i].id != id {
      assert rows[i] in rows;
    }
  }

  function Deliver<S>(h: Handler<S>, v: View<S>, r: Record): View<S> {
    if r.id in v.processed then v.(passed := v.passed + [r])
    else v.(passed := v.passed + [r], processed := v.processed + {r.id}, state := h.handle(v.state, r))
  }

  /** The next message of the log is a row passed before, or the first row not passed yet. */
  lemma NextRow<S>(v: View<S>, r: Record, marked: nat) returns (i: nat)
    requires LoggedInOrder(v, marked) && v.passed + [r] <= v.log
    ensures i < |v.entries| && Records(v.entries)[i] == r && i <= |Dedup(v.passed)|
    ensures |Dedup(v.passed + [r])| == Max(|Dedup(v.passed)|, i + 1) <= |Dedup(v.log)|
  {
    var rows, firsts := Records(v.entries), Dedup(v.passed);
    DedupPrefix(v.passed + [r], v.log);
    DedupSnoc(v.passed, r);
    if r in firsts {
      i :| 0 <= i < |firsts| && firsts[i] == r;
      assert Dedup(v.passed + [r])[i] == rows[i];
    } else {
      i := |firsts|;
      assert Dedup(v.passed + [r])[i] == rows[i];
    }
  }

  /** Delivering the next message applies it exactly when it is the first row not applied yet. */
  lemma DeliverKeeps<S>(h: Handler<S>, v: View<S>, r: Record, marked: nat, applied: nat) returns (more: nat)
    requires InOrder(h, v, marked, applied) && v.passed + [r] <= v.log
    ensures InOrder(h, Deliver(h, v, r), marked, more)
    ensures more == if r.id in v.processed then applied else applied + 1
  {
    var i := NextRow(v, r, marked);
    more := if i < applied then applied else applied + 1;
    if i < applied {
      assert r.id in v.processed;
    } else {
      ApplyNext(h, v, r, applied);
    }
    PassesNext(h, v, r, marked, more);
  }

  // The relay's side does not change.
  lemma PassesNext<S>(h: Handler<S>, v: View<S>, r: Record, marked: nat, more: nat)
    requires DistinctIds(Records(v.entries)) && MarkedInOrder(v.entries, marked) && LoggedInOrder(v, marked) && Draining(v, marked)
    requires AppliedInOrder(h, Deliver(h, v, r), more) && Consuming(Deliver(h, v, r), more)
    ensures InOrder(h, Deliver(h, v, r), marked, more)
  {
  }

  lemma ApplyNext<S>(h: Handler<S>, v: View<S>, r: Record, applied: nat)
    requires DistinctIds(Records(v.entries)) && AppliedInOrder(h, v, applied)
    requires applied < |v.entries| && Records(v.entries)[applied] == r
    ensures r.id !in v.processed && AppliedInOrder(h, Deliver(h, v, r), applied + 1)
  {
    var rows, next := Records(v.entries), Deliver(h, v, r);
    FoldNext(h, rows, applied);
    forall i | 0 <= i < |rows| ensures rows[i].id in next.processed <==> i < applied + 1 {
      assert rows[i].id in v.processed <==> i < applied;
    }
  }

  lemma FoldNext<S>(h: Handler<S>, rows: seq<Record>, n: nat)
    requires n < |rows|
    ensures Fold(h, rows[..n + 1]) == h.handle(Fold(h, rows[..n]), rows[n])
  {
    assert rows[..n + 1][..n] == rows[..n];
  }

  lemma RewindKeeps<S>(h: Handler<S>, v: View<S>, passed: seq<Record>, marked: nat, applied: nat)
    requires InOrder(h, v, marked, applied) && passed <= v.passed
    ensures InOrder(h, v.(passed := passed), marked, applied)
  {
    DedupPrefix(passed, v.passed);
  }

  /** Once every row is marked and every message is passed, every row has been applied. */
  lemma CaughtUp<S>(h: Handler<S>, v: View<S>, marked: nat, applied: nat)
    requires InOrder(h, v, marked, applied)
    requires marked == |v.entries| && v.passed == v.log
    ensures v.state == Fold(h, Records(v.entries))
  {
    var rows := Records(v.entries);
    assert applied == |rows|;
    assert rows[..applied] == rows;
  }
}
