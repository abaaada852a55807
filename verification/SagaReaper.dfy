/**
 The reaper: under an advisory lock it picks the sagas that have not moved for too long and re-drives them one by one, while
 the other handlers of the service keep running. A sweep is a run of the order service.
 */
module SagaReaper {
  import opened Results
  import opened Sequences
  import opened Orders
  import opened Sagas
  import opened OrderService
  import opened OrderSystem

  // ----- The worklist -----

  datatype Candidate = Candidate(orderId: nat, tenantId: string, state: SagaState, updatedAt: int)

  function IsStranded(now: int, timeoutMs: nat): Candidate -> bool {
    (c: Candidate) => !IsTerminal(c.state) && c.updatedAt < now - timeoutMs
  }

  method SelectStranded(candidates: seq<Candidate>, now: int, timeoutMs: nat) returns (stranded: seq<Candidate>)
    ensures stranded == Filter(candidates, IsStranded(now, timeoutMs))
    ensures forall c :: c in stranded <==>
              c in candidates && c.state in {SagaState.Started, StockReserved, Compensating} && now - c.updatedAt > timeoutMs
  {
    forall c: Candidate ensures IsStranded(now, timeoutMs)(c)
                                <==> c.state in {SagaState.Started, StockReserved, Compensating} && now - c.updatedAt > timeoutMs {
      TransitionsLowerRank(c.state, SagaState.Started);
    }
    FilterMembers(candidates, IsStranded(now, timeoutMs));
    stranded := [];
    for i := 0 to |candidates|
      invariant stranded == Filter(candidates[..i], IsStranded(now, timeoutMs))
    {
      var c := candidates[i];
      TransitionsLowerRank(c.state, SagaState.Started);
      assert candidates[..i + 1] == candidates[..i] + [c];
      FilterSnoc(candidates[..i], c, IsStranded(now, timeoutMs));
      if c.state in {SagaState.Started, StockReserved, Compensating} && c.updatedAt < now - timeoutMs {
        stranded := stranded + [c];
      }
    }
    assert candidates[..|candidates|] == candidates;
  }

  // ----- Other handlers at work -----

  predicate IsReapers(e: Event) {
    e.ReaperReads? || e.ReaperCommits? || e.ReaperStops?
  }

  function Continued(maxAttempts: nat, s: System, events: seq<Event>): System {
    if events == [] then s
    else Step(maxAttempts, Continued(maxAttempts, s, events[..|events| - 1]), events[|events| - 1])
  }

  lemma ContinuedSnoc(maxAttempts: nat, s: System, events: seq<Event>, e: Event)
    ensures Continued(maxAttempts, s, events + [e]) == Step(maxAttempts, Continued(maxAttempts, s, events), e)
  {
    assert (events + [e])[..|events|] == events;
  }

  lemma {:induction false} ContinuedOn(maxAttempts: nat, s: System, events: seq<Event>, more: seq<Event>)
    ensures Continued(maxAttempts, s, events + more) == Continued(maxAttempts, Continued(maxAttempts, s, events), more)
  {
    if more == [] {
      assert events + more == events;
    } else {
      var init, last := more[..|more| - 1], more[|more| - 1];
      ContinuedOn(maxAttempts, s, events, init);
      ContinuedSnoc(maxAttempts, s, events + init, last);
      ContinuedSnoc(maxAttempts, Continued(maxAttempts, s, events), init, last);
      SnocLast(events, more);
    }
  }

  lemma SnocLast(events: seq<Event>, more: seq<Event>)
    requires more != []
    ensures events + more == events + more[..|more| - 1] + [more[|more| - 1]]
    ensures more == more[..|more| - 1] + [more[|more| - 1]]
  {
  }

  // A run continued is a run.
  lemma {:induction false} ContinuedRun(maxAttempts: nat, before: seq<Event>, events: seq<Event>)
    ensures Continued(maxAttempts, Run(maxAttempts, before), events) == Run(maxAttempts, before + events)
  {
    if events == [] {
      assert before + events == before;
    } else {
      ContinuedRun(maxAttempts, before, events[..|events| - 1]);
      assert (before + events)[..|before + events| - 1] == before + events[..|events| - 1];
    }
  }

  ghost predicate OthersEvents(events: seq<Event>) {
    forall e <- events :: !IsReapers(e)
  }

  lemma {:induction false} OthersLeaveReaper(maxAttempts: nat, s: System, events: seq<Event>)
    requires OthersEvents(events)
    ensures Continued(maxAttempts, s, events).reaper == s.reaper
  {
    if events != [] {
      assert events[|events| - 1] in events;
      OthersLeaveReaper(maxAttempts, s, events[..|events| - 1]);
    }
  }

  // ----- Rows stay under their own id -----

  lemma ReplyKeepsKeyed(db: Tables, source: Source, env: Envelope)
    requires KeyedByOrderId(db)
    ensures KeyedByOrderId(HandleReply(db, source, env).0)
  {
  }

  lemma EventKeepsKeyed(maxAttempts: nat, s: System, e: Event)
    requires KeyedByOrderId(s.db)
    ensures KeyedByOrderId(Step(maxAttempts, s, e).db)
  {
    match e
    case Deliver(source, env) => ReplyKeepsKeyed(s.db, source, env);
    case _ =>
  }

  // ----- The lock -----

  class AdvisoryLock {
    var holder: Option<nat>

    method TryLock(session: nat) returns (acquired: bool)
      modifies this
      ensures acquired <==> old(holder) == None
      ensures holder == if acquired then Some(session) else old(holder)
    {
      if holder.Some? {
        return false;
      }
      holder := Some(session);
      return true;
    }

    method Unlock(session: nat)
      modifies this
      ensures holder == if old(holder) == Some(session) then None else old(holder)
    {
      if holder == Some(session) {
        holder := None;
      }
    }
  }

  // ----- The sweep -----

  /** What happens around one recovery: a fresh correlation id, the other handlers' events between its read and its
      transaction, and whether that transaction fails. */
  datatype Recovery = Recovery(newCorrelation: string, between: seq<Event>, fails: bool)

  function RecoveryEvents(c: Candidate, r: Recovery): seq<Event> {
    [ReaperReads(c.tenantId, c.orderId, r.newCorrelation)] + r.between + [if r.fails then ReaperStops else ReaperCommits]
  }

  function SweepEvents(stranded: seq<Candidate>, around: nat -> Recovery): seq<Event> {
    if stranded == [] then []
    else SweepEvents(stranded[..|stranded| - 1], around) + RecoveryEvents(stranded[|stranded| - 1], around(|stranded| - 1))
  }

  class Reaper {
    const service: OrderService
    const lock: AdvisoryLock
    const maxAttempts: nat
    const timeoutMs: nat
    const session: nat
    var strandedTotal: nat

    constructor (service: OrderService, lock: AdvisoryLock, maxAttempts: nat, timeoutMs: nat, session: nat)
      ensures this.service == service && this.lock == lock && this.maxAttempts == maxAttempts && this.timeoutMs == timeoutMs
      ensures this.session == session && strandedTotal == 0
    {
      this.service, this.lock, this.maxAttempts, this.timeoutMs, this.session := service, lock, maxAttempts, timeoutMs, session;
      strandedTotal := 0;
    }

    // One event of another handler, on the service's own methods.
    method Perform(e: Event, ghost s: System)
      requires !IsReapers(e) && s.db == service.Current() && KeyedByOrderId(s.db)
      modifies service
      ensures service.Current() == Step(maxAttempts, s, e).db
    {
      match e {
        case Place(order, correlationId) =>
          var placed := service.Place(order, correlationId);
        case Deliver(source, env) =>
          var replied;
          match source {
            case Inventory => replied := service.HandleInventoryReply(env);
            case Payment => replied := service.HandlePaymentReply(env);
          }
        case OperatorResets(tenantId, orderId) =>
          var reset := service.ResetReconcileAttempts(tenantId, orderId);
        case UserCancels(actor, orderId) =>
          var cancelled := service.CancelOrConfirm(actor, orderId, OrderStatus.Cancelled);
        case UserConfirms(actor, orderId) =>
          var confirmed := service.CancelOrConfirm(actor, orderId, Confirmed);
      }
    }

    method PerformAll(events: seq<Event>, ghost s: System)
      requires OthersEvents(events) && s.db == service.Current() && KeyedByOrderId(s.db)
      modifies service
      ensures service.Current() == Continued(maxAttempts, s, events).db && KeyedByOrderId(service.Current())
    {
      for i := 0 to |events|
        invariant service.Current() == Continued(maxAttempts, s, events[..i]).db && KeyedByOrderId(service.Current())
      {
        ghost var now := Continued(maxAttempts, s, events[..i]);
        assert events[i] in events;
        assert events[..i + 1] == events[..i] + [events[i]];
        ContinuedSnoc(maxAttempts, s, events[..i], events[i]);
        EventKeepsKeyed(maxAttempts, now, events[i]);
        Perform(events[i], now);
      }
      assert events[..|events|] == events;
    }

    method RecoverOne(c: Candidate, r: Recovery, ghost s: System)
      requires s.db == service.Current() && s.reaper == None && KeyedByOrderId(s.db) && OthersEvents(r.between)
      modifies service
      ensures service.Current()
              == Continued(maxAttempts, s, [ReaperReads(c.tenantId, c.orderId, r.newCorrelation)] + r.between
                                           + [if r.fails then ReaperStops else ReaperCommits]).db
      ensures KeyedByOrderId(service.Current())
    {
      ghost var read := ReaperReads(c.tenantId, c.orderId, r.newCorrelation);
      ghost var s1 := Step(maxAttempts, s, read);
      ghost var s2 := Continued(maxAttempts, s1, r.between);
      ThreeParts(maxAttempts, s, read, r.between, if r.fails then ReaperStops else ReaperCommits);
      OthersLeaveReaper(maxAttempts, s1, r.between);
      var d := service.ReadStranded(c.tenantId, c.orderId, maxAttempts, r.newCorrelation);
      PerformAll(r.between, s1);
      EventKeepsKeyed(maxAttempts, s2, if r.fails then ReaperStops else ReaperCommits);
      if d.Some? && !r.fails {
        var committed := service.RecordAttemptAndAppend(d.value);
      }
    }

    // The worklist, one saga after the other.
    method Reconcile(candidates: seq<Candidate>, now: int, around: nat -> Recovery, ghost s: System) returns (n: nat)
      requires s.db == service.Current() && s.reaper == None && KeyedByOrderId(s.db)
      requires forall i: nat :: OthersEvents(around(i).between)
      modifies this`strandedTotal, service
      ensures
        var stranded := Filter(candidates, IsStranded(now, timeoutMs));
        && n == |stranded| && strandedTotal == old(strandedTotal) + n
        && service.Current() == Continued(maxAttempts, s, SweepEvents(stranded, around)).db
    {
      var stranded := SelectStranded(candidates, now, timeoutMs);
      strandedTotal := strandedTotal + |stranded|;
      ghost var so := s;
      for i := 0 to |stranded|
        invariant so == Continued(maxAttempts, s, SweepEvents(stranded[..i], around))
        invariant service.Current() == so.db && KeyedByOrderId(so.db) && so.reaper == None
        invariant strandedTotal == old(strandedTotal) + |stranded|
      {
        SweepEventsSnoc(stranded, i, around);
        ContinuedOn(maxAttempts, s, SweepEvents(stranded[..i], around), RecoveryEvents(stranded[i], around(i)));
        RecoveryEnds(maxAttempts, so, stranded[i], around(i));
        RecoverOne(stranded[i], around(i), so);
        so := Continued(maxAttempts, so, RecoveryEvents(stranded[i], around(i)));
      }
      assert stranded[..|stranded|] == stranded;
      return |stranded|;
    }

    /** One sweep: nothing if another reconciler holds the lock, otherwise every stranded saga is recovered in turn. After any run
        the tables are those of that run continued, so everything proved of runs holds with sweeps in them. The lock is free
        again afterwards. */
    method Sweep(candidates: seq<Candidate>, now: int, around: nat -> Recovery, ghost s: System) returns (n: nat)
      requires s.db == service.Current() && s.reaper == None && KeyedByOrderId(s.db)
      requires forall i: nat :: OthersEvents(around(i).between)
      modifies this`strandedTotal, service, lock
      ensures
        var stranded := Filter(candidates, IsStranded(now, timeoutMs));
        if old(lock.holder) != None then
          n == 0 && service.Current() == old(service.Current()) && strandedTotal == old(strandedTotal) && lock.holder == old(lock.holder)
        else
          && n == |stranded| && strandedTotal == old(strandedTotal) + n && lock.holder == None
          && service.Current() == Continued(maxAttempts, s, SweepEvents(stranded, around)).db
          && (forall before :: s == Run(maxAttempts, before) ==>
                service.Current() == Run(maxAttempts, before + SweepEvents(stranded, around)).db)
    {
      var acquired := lock.TryLock(session);
      if !acquired {
        return 0;
      }
      n := Reconcile(candidates, now, around, s);
      lock.Unlock(session);
      ghost var events := SweepEvents(Filter(candidates, IsStranded(now, timeoutMs)), around);
      forall before | s == Run(maxAttempts, before) ensures service.Current() == Run(maxAttempts, before + events).db {
        ContinuedRun(maxAttempts, before, events);
      }
    }
  }

  lemma SweepEventsSnoc(stranded: seq<Candidate>, i: nat, around: nat -> Recovery)
    requires i < |stranded|
    ensures SweepEvents(stranded[..i + 1], around) == SweepEvents(stranded[..i], around) + RecoveryEvents(stranded[i], around(i))
  {
    assert stranded[..i + 1][..i] == stranded[..i];
  }

  lemma ThreeParts(maxAttempts: nat, s: System, first: Event, between: seq<Event>, last: Event)
    ensures Continued(maxAttempts, s, [first] + between + [last])
            == Step(maxAttempts, Continued(maxAttempts, Step(maxAttempts, s, first), between), last)
  {
    ContinuedSnoc(maxAttempts, s, [first] + between, last);
    ContinuedOn(maxAttempts, s, [first], between);
    assert [first][..0] == [];
  }

  lemma RecoveryEnds(maxAttempts: nat, s: System, c: Candidate, r: Recovery)
    ensures Continued(maxAttempts, s, RecoveryEvents(c, r)).reaper == None
  {
    ThreeParts(maxAttempts, s, ReaperReads(c.tenantId, c.orderId, r.newCorrelation), r.between,
               if r.fails then ReaperStops else ReaperCommits);
  }

  // The orders the reaper reads, in turn.
  function ReadsIn(events: seq<Event>): seq<nat> {
    if events == [] then []
    else if events[|events| - 1].ReaperReads? then ReadsIn(events[..|events| - 1]) + [events[|events| - 1].orderId]
    else ReadsIn(events[..|events| - 1])
  }

  lemma {:induction false} ReadsConcat(events: seq<Event>, more: seq<Event>)
    ensures ReadsIn(events + more) == ReadsIn(events) + ReadsIn(more)
  {
    if more == [] {
      assert events + more == events;
    } else {
      ReadsConcat(events, more[..|more| - 1]);
      assert (events + more)[..|events + more| - 1] == events + more[..|more| - 1];
    }
  }

  lemma {:induction false} OthersReadNothing(events: seq<Event>)
    requires OthersEvents(events)
    ensures ReadsIn(events) == []
  {
    if events != [] {
      assert events[|events| - 1] in events;
      OthersReadNothing(events[..|events| - 1]);
    }
  }

  /** A sweep reads every order of its worklist once, in the worklist's order. */
  lemma {:induction false} SweepReadsEachOnce(stranded: seq<Candidate>, around: nat -> Recovery)
    requires forall i: nat :: OthersEvents(around(i).between)
    ensures |ReadsIn(SweepEvents(stranded, around))| == |stranded|
    ensures forall i :: 0 <= i < |stranded| ==> ReadsIn(SweepEvents(stranded, around))[i] == stranded[i].orderId
  {
    if stranded != [] {
      var init, c, r := stranded[..|stranded| - 1], stranded[|stranded| - 1], around(|stranded| - 1);
      SweepReadsEachOnce(init, around);
      OneRead(c, r);
      ReadsConcat(SweepEvents(init, around), RecoveryEvents(c, r));
    }
  }

  lemma OneRead(c: Candidate, r: Recovery)
    requires OthersEvents(r.between)
    ensures ReadsIn(RecoveryEvents(c, r)) == [c.orderId]
  {
    var read, last := [ReaperReads(c.tenantId, c.orderId, r.newCorrelation)], [if r.fails then ReaperStops else ReaperCommits];
    OthersReadNothing(r.between);
    ReadsConcat(read, r.between);
    ReadsConcat(read + r.between, last);
    assert read[..0] == [] && last[..0] == [];
  }
}
