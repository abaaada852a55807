/**
 The order service under any traffic: orders placed, replies delivered in any order and any number of times, the reaper
 reading and committing with anything in between, operators resetting budgets and users cancelling or confirming.
 A run is any sequence of these events. One reaper works at a time (advisory-lock.ts); each event is one transaction.
 */
module OrderSystem {
  import opened Results
  import opened Sequences
  import opened Orders
  import opened Sagas
  import opened OrderService
  import opened SagaView

  datatype Event =
    | Place(order: Order, correlationId: string)
    | Deliver(source: Source, env: Envelope)
    | ReaperReads(tenantId: string, orderId: nat, freshCorrelation: string)
    | ReaperCommits
    | ReaperStops
    | OperatorResets(tenantId: string, orderId: nat)
    | UserCancels(actor: Actor, orderId: nat)
    | UserConfirms(actor: Actor, orderId: nat)

  /** The tables, the reaper's open decision, and for the record how often each saga was re-driven and reset. */
  datatype System = System(db: Tables, reaper: Option<Decision>, redrives: map<nat, nat>, resets: map<nat, nat>)

  const EMPTY: System := System(Tables(map[], map[], {}, []), None, map[], map[])

  function Count(counts: map<nat, nat>, id: nat): nat {
    if id in counts then counts[id] else 0
  }

  function Counted(counts: map<nat, nat>, id: nat): map<nat, nat> {
    counts[id := Count(counts, id) + 1]
  }

  // Order.create and the placing handler give a new order status PENDING and version zero.
  predicate WellFormed(e: Event) {
    e.Place? ==> e.order.status == Pending && e.order.version == 0
  }

  function Step(maxAttempts: nat, s: System, e: Event): System {
    match e
    case Place(order, correlationId) => s.(db := PlaceOrder(s.db, order, correlationId).0)
    case Deliver(source, env) => s.(db := HandleReply(s.db, source, env).0)
    case ReaperReads(tenantId, orderId, newCorrelation) =>
      if s.reaper.Some? then s else s.(reaper := ReadCandidate(s.db, tenantId, orderId, maxAttempts, newCorrelation))
    case ReaperCommits =>
      if s.reaper.None? then s
      else
        var r := CommitRedrive(s.db, s.reaper.value);
        s.(db := r.0, reaper := None,
           redrives := if r.1.Ok? then Counted(s.redrives, s.reaper.value.orderId) else s.redrives)
    case ReaperStops => s.(reaper := None)
    case OperatorResets(tenantId, orderId) =>
      var r := ResetAttempts(s.db, tenantId, orderId);
      s.(db := r.0, resets := if r.1.WasReset? then Counted(s.resets, orderId) else s.resets)
    case UserCancels(actor, orderId) => s.(db := MoveOrder(s.db, actor, orderId, OrderStatus.Cancelled).0)
    case UserConfirms(actor, orderId) => s.(db := MoveOrder(s.db, actor, orderId, Confirmed).0)
  }

  function Run(maxAttempts: nat, events: seq<Event>): System {
    if events == [] then EMPTY
    else Step(maxAttempts, Run(maxAttempts, events[..|events| - 1]), events[|events| - 1])
  }

  // ----- One order's view of the system -----

  function Of(id: nat): Row -> bool {
    (row: Row) => row.orderId == id
  }

  function RowsOf(outbox: seq<Row>, id: nat): seq<Row> {
    Filter(outbox, Of(id))
  }

  function PendingOf(reaper: Option<Decision>, id: nat): Option<Decision> {
    if reaper.Some? && reaper.value.orderId == id then reaper else None
  }

  function ViewOf(s: System, id: nat): View {
    View(Lookup(s.db.orders, id), Lookup(s.db.sagas, id), RowsOf(s.db.outbox, id), PendingOf(s.reaper, id),
         Count(s.redrives, id), Count(s.resets, id))
  }

  /** What an event does to one order, if it does anything to it. */
  function AfterEvent(maxAttempts: nat, id: nat, v: View, e: Event): View {
    match e
    case Place(order, correlationId) => if order.id == id then AfterPlace(v, order, correlationId) else v
    case Deliver(source, env) => if env.orderId == id then AfterReply(v, source, env) else v
    case ReaperReads(tenantId, orderId, newCorrelation) => if orderId == id then AfterRead(v, id, tenantId, maxAttempts, newCorrelation) else v
    case ReaperCommits => AfterCommit(v)
    case ReaperStops => v.(pending := None)
    case OperatorResets(tenantId, orderId) => if orderId == id then AfterReset(v, tenantId) else v
    case UserCancels(actor, orderId) => if orderId == id then AfterMove(v, actor, OrderStatus.Cancelled) else v
    case UserConfirms(actor, orderId) => if orderId == id then AfterMove(v, actor, Confirmed) else v
  }

  lemma RowsOfSnoc(outbox: seq<Row>, row: Row, id: nat)
    ensures RowsOf(outbox + [row], id) == SnocIf(RowsOf(outbox, id), row.orderId == id, row)
  {
    FilterSnoc(outbox, row, Of(id));
  }

  // An event that is not applied: a repeated reply, or a read while a decision is open.
  predicate Skipped(s: System, e: Event) {
    || (e.Deliver? && e.env.eventId in s.db.processed)
    || (e.ReaperReads? && s.reaper.Some?)
  }

  /** The tables move every order exactly as its own history says, and no other. */
  lemma StepIsLocal(maxAttempts: nat, s: System, e: Event, id: nat)
    requires s.reaper.Some? ==> s.reaper.value.row.orderId == s.reaper.value.orderId
    ensures ViewOf(Step(maxAttempts, s, e), id)
            == if Skipped(s, e) then ViewOf(s, id) else AfterEvent(maxAttempts, id, ViewOf(s, id), e)
  {
    match e
    case Place(order, correlationId) => PlaceIsLocal(s, order, correlationId, id);
    case Deliver(source, env) => ReplyIsLocal(s, source, env, id);
    case ReaperCommits => CommitIsLocal(maxAttempts, s, id);
    case OperatorResets(tenantId, orderId) => ResetIsLocal(maxAttempts, s, tenantId, orderId, id);
    case UserCancels(actor, orderId) => MoveIsLocal(s, actor, orderId, OrderStatus.Cancelled, id);
    case UserConfirms(actor, orderId) => MoveIsLocal(s, actor, orderId, Confirmed, id);
    case _ =>
  }

  lemma PlaceIsLocal(s: System, order: Order, correlationId: string, id: nat)
    ensures ViewOf(s.(db := PlaceOrder(s.db, order, correlationId).0), id)
            == if order.id == id then AfterPlace(ViewOf(s, id), order, correlationId) else ViewOf(s, id)
  {
    var row := Row(order.id, order.tenantId, ReserveStock(order.items), correlationId);
    RowsOfSnoc(s.db.outbox, row, id);
  }

  lemma EmittedIsOneRow(a: Aggregate, source: Source, env: Envelope)
    ensures ApplyReply(a, source, env).Ok? ==>
              var emitted := ApplyReply(a, source, env).value.emitted;
              emitted == [] || (|emitted| == 1 && emitted == [emitted[0]] && emitted[0].orderId == env.orderId)
  {
  }

  lemma ReplyIsLocal(s: System, source: Source, env: Envelope, id: nat)
    ensures ViewOf(s.(db := HandleReply(s.db, source, env).0), id)
            == if env.eventId !in s.db.processed && env.orderId == id then AfterReply(ViewOf(s, id), source, env) else ViewOf(s, id)
  {
    var a := AggregateOf(s.db, env.orderId);
    var reply := ApplyReply(a, source, env);
    EmittedIsOneRow(a, source, env);
    RepliesKeepRows(a, source, env);
    if env.eventId !in s.db.processed && reply.Ok? {
      WrittenTables(s, env, reply.value, s.(db := HandleReply(s.db, source, env).0), id);
    }
  }

  lemma WrittenTables(s: System, env: Envelope, r: Response, next: System, id: nat)
    requires r.emitted == [] || (|r.emitted| == 1 && r.emitted[0].orderId == env.orderId)
    requires r.after.order.None? <==> env.orderId !in s.db.orders
    requires r.after.saga.None? <==> env.orderId !in s.db.sagas
    requires next == s.(db := Write(s.db, env.orderId, r.after, r.emitted).(processed := s.db.processed + {env.eventId}))
    ensures ViewOf(next, id)
            == if env.orderId == id then ViewOf(s, id).(order := r.after.order, saga := r.after.saga, rows := ViewOf(s, id).rows + r.emitted)
               else ViewOf(s, id)
  {
    if r.emitted == [] {
      assert s.db.outbox + [] == s.db.outbox;
    } else {
      assert r.emitted == [r.emitted[0]];
      RowsOfSnoc(s.db.outbox, r.emitted[0], id);
    }
  }

  // A reply never removes the order or the saga.
  lemma RepliesKeepRows(a: Aggregate, source: Source, env: Envelope)
    ensures ApplyReply(a, source, env).Ok? ==>
              var after := ApplyReply(a, source, env).value.after;
              (after.order.None? <==> a.order.None?) && (after.saga.None? <==> a.saga.None?)
  {
  }

  lemma CommitIsLocal(maxAttempts: nat, s: System, id: nat)
    requires s.reaper.Some? ==> s.reaper.value.row.orderId == s.reaper.value.orderId
    ensures ViewOf(Step(maxAttempts, s, ReaperCommits), id) == AfterCommit(ViewOf(s, id))
  {
    if s.reaper.Some? {
      var d := s.reaper.value;
      if d.orderId in s.db.sagas && s.db.sagas[d.orderId].state == d.expected {
        RowsOfSnoc(s.db.outbox, d.row, id);
        CommittedTables(s, d, s.db.sagas[d.orderId], Step(maxAttempts, s, ReaperCommits), id);
      } else {
        RefusedCommit(s, d, Step(maxAttempts, s, ReaperCommits), id);
      }
    }
  }

  lemma RefusedCommit(s: System, d: Decision, next: System, id: nat)
    requires s.reaper == Some(d) && !(d.orderId in s.db.sagas && s.db.sagas[d.orderId].state == d.expected)
    requires next == s.(reaper := None)
    ensures ViewOf(next, id) == AfterCommit(ViewOf(s, id))
  {
  }

  lemma CommittedTables(s: System, d: Decision, saga: Saga, next: System, id: nat)
    requires s.reaper == Some(d) && Lookup(s.db.sagas, d.orderId) == Some(saga) && saga.state == d.expected
    requires next == System(CommitRedrive(s.db, d).0, None, Counted(s.redrives, d.orderId), s.resets)
    requires RowsOf(s.db.outbox + [d.row], id) == SnocIf(RowsOf(s.db.outbox, id), d.orderId == id, d.row)
    ensures ViewOf(next, id) == AfterCommit(ViewOf(s, id))
  {
    var attempted := saga.(attempts := saga.attempts + 1);
    assert next.db.outbox == s.db.outbox + [d.row];
    assert next.db.sagas == s.db.sagas[d.orderId := attempted];
    assert Lookup(next.db.sagas, id) == if d.orderId == id then Some(attempted) else Lookup(s.db.sagas, id);
    assert Count(next.redrives, id) == Count(s.redrives, id) + if d.orderId == id then 1 else 0;
  }

  lemma ResetIsLocal(maxAttempts: nat, s: System, tenantId: string, orderId: nat, id: nat)
    ensures ViewOf(Step(maxAttempts, s, OperatorResets(tenantId, orderId)), id)
            == if orderId == id then AfterReset(ViewOf(s, id), tenantId) else ViewOf(s, id)
  {
  }

  lemma MoveIsLocal(s: System, actor: Actor, orderId: nat, next: OrderStatus, id: nat)
    ensures ViewOf(s.(db := MoveOrder(s.db, actor, orderId, next).0), id)
            == if orderId == id then AfterMove(ViewOf(s, id), actor, next) else ViewOf(s, id)
  {
  }

  // ----- Every run keeps every order healthy -----

  lemma EventKeepsHealth(maxAttempts: nat, id: nat, v: View, e: Event, next: View)
    requires Healthy(maxAttempts, id, v) && WellFormed(e)
    requires next == AfterEvent(maxAttempts, id, v, e)
    ensures Healthy(maxAttempts, id, next)
  {
    match e
    case Place(order, correlationId) =>
      if order.id == id { PlaceKeepsHealth(maxAttempts, v, order, correlationId); }
    case Deliver(source, env) =>
      if env.orderId == id { ReplyKeepsHealth(maxAttempts, id, v, source, env); }
    case ReaperReads(tenantId, orderId, newCorrelation) =>
      if orderId == id { ReadKeepsHealth(maxAttempts, id, v, tenantId, newCorrelation); }
    case ReaperCommits => CommitKeepsHealth(maxAttempts, id, v);
    case ReaperStops => StopKeepsHealth(maxAttempts, id, v);
    case OperatorResets(tenantId, orderId) =>
      if orderId == id { ResetKeepsHealth(maxAttempts, id, v, tenantId); }
    case UserCancels(actor, orderId) =>
      if orderId == id { UserKeepsHealth(maxAttempts, id, v, actor, OrderStatus.Cancelled); }
    case UserConfirms(actor, orderId) =>
      if orderId == id { UserKeepsHealth(maxAttempts, id, v, actor, Confirmed); }
  }

  lemma StopKeepsHealth(maxAttempts: nat, id: nat, v: View)
    requires Healthy(maxAttempts, id, v)
    ensures Healthy(maxAttempts, id, v.(pending := None))
  {
  }

  lemma UserKeepsHealth(maxAttempts: nat, id: nat, v: View, actor: Actor, next: OrderStatus)
    requires Healthy(maxAttempts, id, v) && (next == Confirmed || next == OrderStatus.Cancelled)
    ensures Healthy(maxAttempts, id, AfterMove(v, actor, next))
  {
    assert IsFinal(next);
    MoveKeepsHealth(maxAttempts, id, v, actor, next);
  }

  lemma EventEvolves(maxAttempts: nat, id: nat, v: View, e: Event, next: View)
    requires Healthy(maxAttempts, id, v)
    requires next == AfterEvent(maxAttempts, id, v, e)
    ensures Evolves(v, next)
  {
    match e
    case Deliver(source, env) => ReplyEvolves(maxAttempts, id, v, source, env);
    case _ => OthersEvolve(v, id, maxAttempts, e);
  }

  lemma OthersEvolve(v: View, id: nat, maxAttempts: nat, e: Event)
    requires !e.Deliver?
    ensures Evolves(v, AfterEvent(maxAttempts, id, v, e))
  {
  }

  ghost predicate AllWellFormed(events: seq<Event>) {
    forall e <- events :: WellFormed(e)
  }

  lemma {:induction false} RunIsHealthy(maxAttempts: nat, events: seq<Event>, id: nat)
    requires AllWellFormed(events)
    ensures Healthy(maxAttempts, id, ViewOf(Run(maxAttempts, events), id))
    decreases |events|, 0
  {
    if events == [] {
      assert ViewOf(EMPTY, id) == NOTHING;
    } else {
      var init, e := events[..|events| - 1], events[|events| - 1];
      assert AllWellFormed(init);
      RunIsHealthy(maxAttempts, init, id);
      assert init + [e] == events;
      LastEvent(maxAttempts, init, e, id);
      var v := ViewOf(Run(maxAttempts, init), id);
      EventKeepsHealth(maxAttempts, id, v, e, AfterEvent(maxAttempts, id, v, e));
    }
  }

  lemma {:induction false} LastEvent(maxAttempts: nat, init: seq<Event>, e: Event, id: nat)
    requires AllWellFormed(init)
    ensures var v, w := ViewOf(Run(maxAttempts, init), id), ViewOf(Run(maxAttempts, init + [e]), id);
            w == if Skipped(Run(maxAttempts, init), e) then v else AfterEvent(maxAttempts, id, v, e)
    decreases |init|, 2
  {
    assert (init + [e])[..|init|] == init;
    var s := Run(maxAttempts, init);
    if s.reaper.Some? {
      ReaperHoldsItsOwnRow(maxAttempts, init);
    }
    StepIsLocal(maxAttempts, s, e, id);
  }

  lemma ReaperHoldsItsOwnRow(maxAttempts: nat, events: seq<Event>)
    requires AllWellFormed(events) && Run(maxAttempts, events).reaper.Some?
    ensures var d := Run(maxAttempts, events).reaper.value; d.row.orderId == d.orderId
    decreases |events|, 1
  {
    var d := Run(maxAttempts, events).reaper.value;
    RunIsHealthy(maxAttempts, events, d.orderId);
    assert ViewOf(Run(maxAttempts, events), d.orderId).pending == Some(d);
  }
}
