/** What holds of every order in every run of the order service. */
module OrderRuns {
  import opened Results
  import opened Sequences
  import opened Orders
  import opened Sagas
  import opened OrderService
  import opened SagaView
  import opened OrderSystem

  function ViewAt(maxAttempts: nat, events: seq<Event>, n: nat, id: nat): View
    requires n <= |events|
  {
    ViewOf(Run(maxAttempts, events[..n]), id)
  }

  lemma NextView(maxAttempts: nat, events: seq<Event>, n: nat, id: nat)
    requires AllWellFormed(events) && n < |events|
    ensures var v, w := ViewAt(maxAttempts, events, n, id), ViewAt(maxAttempts, events, n + 1, id);
            && Healthy(maxAttempts, id, v) && Healthy(maxAttempts, id, w)
            && w == if Skipped(Run(maxAttempts, events[..n]), events[n]) then v else AfterEvent(maxAttempts, id, v, events[n])
  {
    assert events[..n + 1] == events[..n] + [events[n]];
    RunIsHealthy(maxAttempts, events[..n], id);
    RunIsHealthy(maxAttempts, events[..n + 1], id);
    LastEvent(maxAttempts, events[..n], events[n], id);
  }

  // ----- The order and its saga -----

  /** In every run, an order and its saga are coupled, or a user has ended the order under a running saga; which of the two
      is decided by the order alone. */
  lemma OrderAndSagaAgree(maxAttempts: nat, events: seq<Event>, id: nat, v: View)
    requires AllWellFormed(events) && v == ViewOf(Run(maxAttempts, events), id)
    ensures v.saga.Some? <==> v.order.Some?
    ensures v.saga.Some? ==>
              var status, state := v.order.value.status, v.saga.value.state;
              if IsFinal(status) && !IsTerminal(state) then Diverged(status, state) else Coupled(status, state)
  {
    RunIsHealthy(maxAttempts, events, id);
    if v.saga.Some? {
      CoupledOrDiverged(v.order.value.status, v.saga.value.state);
    }
  }

  // The order is there for this user, and it is not too early or too late for the move: confirming takes a reserved order,
  // cancelling a pending or reserved one.
  predicate MayEnd(db: Tables, actor: Actor, id: nat, next: OrderStatus) {
    && id in db.orders && db.orders[id].tenantId == actor.tenantId
    && (actor.isAdmin || db.orders[id].userId == actor.userId)
    && (if next == Confirmed then db.orders[id].status == Reserved
        else next == OrderStatus.Cancelled && db.orders[id].status in {Pending, Reserved})
  }

  /** When a user's confirm or cancel goes through, what it then does, and what is thrown otherwise. */
  lemma UserMovesExactlyWhen(db: Tables, actor: Actor, id: nat, next: OrderStatus, r: (Tables, Result<(), HandlerError>))
    requires next == Confirmed || next == OrderStatus.Cancelled
    requires r == MoveOrder(db, actor, id, next)
    ensures r.1.Ok? <==> MayEnd(db, actor, id, next)
    ensures r.1.Ok? ==> r.0 == db.(orders := db.orders[id := db.orders[id].(status := next, version := db.orders[id].version + 1)])
    ensures r.1.Err? ==>
              && r.0 == db
              && r.1.error == if id !in db.orders || db.orders[id].tenantId != actor.tenantId then OrderNotFound
                              else if !actor.isAdmin && db.orders[id].userId != actor.userId then OrderForbidden
                              else IllegalOrderTransition
  {
  }

  // A cancel or confirm of this order by its owner or an administrator, before the order is final.
  predicate EndsOrder(db: Tables, e: Event, id: nat) {
    || (e.UserCancels? && e.orderId == id && MayEnd(db, e.actor, id, OrderStatus.Cancelled))
    || (e.UserConfirms? && e.orderId == id && MayEnd(db, e.actor, id, Confirmed))
  }

  ghost predicate UserEnds(maxAttempts: nat, events: seq<Event>, n: nat, id: nat)
    requires n < |events|
  {
    EndsOrder(Run(maxAttempts, events[..n]).db, events[n], id)
  }

  ghost predicate IsDiverged(v: View) {
    v.saga.Some? && v.order.Some? && Diverged(v.order.value.status, v.saga.value.state)
  }

  lemma DivergedStep(maxAttempts: nat, id: nat, v: View, e: Event, w: View)
    requires Healthy(maxAttempts, id, v) && WellFormed(e)
    requires w == AfterEvent(maxAttempts, id, v, e)
    requires !e.UserCancels? && !e.UserConfirms?
    ensures IsDiverged(w) <==> IsDiverged(v)
  {
    match e
    case Place(order, _) => CoupledOrDiverged(order.status, Started);
    case Deliver(source, env) => DivergedReply(maxAttempts, id, v, source, env);
    case _ =>
  }

  lemma DivergedReply(maxAttempts: nat, id: nat, v: View, source: Source, env: Envelope)
    requires Healthy(maxAttempts, id, v)
    ensures IsDiverged(AfterReply(v, source, env)) <==> IsDiverged(v)
  {
    if v.saga.Some? {
      var status, state := v.order.value.status, v.saga.value.state;
      ReplyOutcome(maxAttempts, id, v, source, env);
      ReactionsFit(source, status, state, env.eventType);
      CoupledOrDiverged(status, state);
      var reaction := ReactionTo(source, state, env.eventType);
      if reaction.Some? {
        CoupledOrDiverged(OrderAfter(v.order.value, reaction.value).status, reaction.value.next);
        TransitionsLowerRank(Compensating, Started);
      }
    }
  }

  lemma DivergedByUser(maxAttempts: nat, s: System, id: nat, actor: Actor, next: OrderStatus)
    requires Healthy(maxAttempts, id, ViewOf(s, id)) && (next == Confirmed || next == OrderStatus.Cancelled)
    ensures IsDiverged(AfterMove(ViewOf(s, id), actor, next))
            <==> IsDiverged(ViewOf(s, id)) || MayEnd(s.db, actor, id, next)
  {
    assert IsFinal(next);
    var v := ViewOf(s, id);
    if v.saga.Some? {
      CoupledOrDiverged(v.order.value.status, v.saga.value.state);
    }
  }

  lemma DivergedOneMore(maxAttempts: nat, events: seq<Event>, n: nat, id: nat)
    requires AllWellFormed(events) && n < |events|
    ensures IsDiverged(ViewAt(maxAttempts, events, n + 1, id))
            <==> IsDiverged(ViewAt(maxAttempts, events, n, id)) || UserEnds(maxAttempts, events, n, id)
  {
    NextView(maxAttempts, events, n, id);
    var s, e := Run(maxAttempts, events[..n]), events[n];
    assert WellFormed(e);
    DivergedEvent(maxAttempts, s, id, e, ViewAt(maxAttempts, events, n + 1, id));
  }

  lemma DivergedEvent(maxAttempts: nat, s: System, id: nat, e: Event, w: View)
    requires Healthy(maxAttempts, id, ViewOf(s, id)) && WellFormed(e)
    requires w == if Skipped(s, e) then ViewOf(s, id) else AfterEvent(maxAttempts, id, ViewOf(s, id), e)
    ensures IsDiverged(w) <==> IsDiverged(ViewOf(s, id)) || EndsOrder(s.db, e, id)
  {
    if e.UserCancels? && e.orderId == id {
      DivergedByUser(maxAttempts, s, id, e.actor, OrderStatus.Cancelled);
    } else if e.UserConfirms? && e.orderId == id {
      DivergedByUser(maxAttempts, s, id, e.actor, Confirmed);
    } else if !e.UserCancels? && !e.UserConfirms? && !Skipped(s, e) {
      DivergedStep(maxAttempts, id, ViewOf(s, id), e, w);
    }
  }

  ghost predicate EverEnded(maxAttempts: nat, events: seq<Event>, n: nat, id: nat)
    requires n <= |events|
  {
    exists k | 0 <= k < n :: UserEnds(maxAttempts, events, k, id)
  }

  lemma EverEndedOneMore(maxAttempts: nat, events: seq<Event>, n: nat, id: nat)
    requires n < |events|
    ensures EverEnded(maxAttempts, events, n + 1, id) <==> EverEnded(maxAttempts, events, n, id) || UserEnds(maxAttempts, events, n, id)
  {
  }

  /** An order and its saga part exactly when some user of its tenant, its owner or an administrator, cancelled or confirmed
      it at a time when its status allowed that, and they never come together again. */
  lemma {:induction false} DivergedExactlyWhenUserEndedIt(maxAttempts: nat, events: seq<Event>, n: nat, id: nat)
    requires AllWellFormed(events) && n <= |events|
    ensures IsDiverged(ViewAt(maxAttempts, events, n, id)) <==> EverEnded(maxAttempts, events, n, id)
  {
    if n == 0 {
      assert events[..0] == [];
    } else {
      DivergedExactlyWhenUserEndedIt(maxAttempts, events, n - 1, id);
      DivergedOneMore(maxAttempts, events, n - 1, id);
      EverEndedOneMore(maxAttempts, events, n - 1, id);
    }
  }

  // ----- No confirmation before the reservation -----

  // A reserved or confirmed order has been charged for, which follows its reservation.
  ghost predicate ReservedFirst(v: View) {
    v.order.Some? && v.order.value.status in {Reserved, Confirmed} ==> Charged(v.rows)
  }

  lemma EventKeepsReservedFirst(maxAttempts: nat, id: nat, v: View, e: Event, w: View)
    requires Healthy(maxAttempts, id, v) && WellFormed(e) && ReservedFirst(v) && w == AfterEvent(maxAttempts, id, v, e)
    ensures ReservedFirst(w)
  {
    EventEvolves(maxAttempts, id, v, e, w);
    match e
    case Deliver(source, env) =>
      if env.orderId == id && v.saga.Some? { ReplyKeepsReservedFirst(maxAttempts, id, v, source, env, w); }
    case _ =>
      if Charged(v.rows) { StillCharged(v.rows, w.rows); }
  }

  lemma StillCharged(rows: seq<Row>, more: seq<Row>)
    requires rows <= more && Charged(rows)
    ensures Charged(more)
  {
    var i :| 0 <= i < |rows| && rows[i].message.ChargePayment?;
    assert more[i].message.ChargePayment?;
  }

  lemma ReplyKeepsReservedFirst(maxAttempts: nat, id: nat, v: View, source: Source, env: Envelope, w: View)
    requires Healthy(maxAttempts, id, v) && v.saga.Some? && ReservedFirst(v) && w == AfterReply(v, source, env)
    ensures ReservedFirst(w)
  {
    ReplyOutcome(maxAttempts, id, v, source, env);
    var reaction := ReactionTo(source, v.saga.value.state, env.eventType);
    assert v.rows + [] == v.rows;
    if reaction.Some? {
      var row := Row(env.orderId, env.tenantId, MessageFor(reaction.value.emission, v.order.value), env.correlationId);
      SentSnoc(v.rows, row, row.message);
      CoupledOrDiverged(v.order.value.status, v.saga.value.state);
    }
  }

  lemma {:induction false} ReservedFirstInRuns(maxAttempts: nat, events: seq<Event>, id: nat)
    requires AllWellFormed(events)
    ensures ReservedFirst(ViewOf(Run(maxAttempts, events), id))
  {
    if events != [] {
      var init, e := events[..|events| - 1], events[|events| - 1];
      ReservedFirstInRuns(maxAttempts, init, id);
      RunIsHealthy(maxAttempts, init, id);
      assert init + [e] == events;
      LastEvent(maxAttempts, init, e, id);
      var v := ViewOf(Run(maxAttempts, init), id);
      EventKeepsReservedFirst(maxAttempts, id, v, e, AfterEvent(maxAttempts, id, v, e));
    }
  }

  /** In every run, an order is reserved or confirmed only after its saga has taken in the reservation and asked for the
      payment. */
  lemma ConfirmedOnlyAfterReservation(maxAttempts: nat, events: seq<Event>, id: nat, v: View)
    requires AllWellFormed(events) && v == ViewOf(Run(maxAttempts, events), id)
    ensures v.order.Some? && v.order.value.status in {Reserved, Confirmed} ==> Charged(v.rows) && v.saga.Some? && v.saga.value.state != Started
  {
    ReservedFirstInRuns(maxAttempts, events, id);
    RunIsHealthy(maxAttempts, events, id);
    if v.saga.Some? && v.saga.value.state == Started {
      NotChargedYet(v.order.value, v.rows);
    }
  }

  // ----- Replies never fail, except on a diverged order -----

  /** When a delivered reply throws: an unknown order or a foreign tenant, or a reply that would move an order the user has
      already ended. Nothing else ever does, however late, repeated or out of order the reply is. */
  lemma ReplyThrowsExactlyWhen(maxAttempts: nat, events: seq<Event>, source: Source, env: Envelope, s: System, v: View)
    requires AllWellFormed(events) && s == Run(maxAttempts, events) && v == ViewOf(s, env.orderId)
    ensures
      var r := HandleReply(s.db, source, env).1;
      && (r.Err? <==> env.eventId !in s.db.processed && (Unknown(v, env.tenantId) || Blocked(v, source, env)))
      && (r.Err? ==> r.error == if Unknown(v, env.tenantId) then SagaNotFound else IllegalOrderTransition)
  {
    RunIsHealthy(maxAttempts, events, env.orderId);
    if v.saga.Some? {
      ReplyOutcome(maxAttempts, env.orderId, v, source, env);
    }
  }

  predicate Unknown(v: View, tenantId: string) {
    v.saga.None? || v.saga.value.tenantId != tenantId
  }

  // The saga wants to move an order that is already final.
  predicate Blocked(v: View, source: Source, env: Envelope) {
    && v.saga.Some? && v.order.Some?
    && IsFinal(v.order.value.status)
    && ReactionTo(source, v.saga.value.state, env.eventType).Some?
    && ReactionTo(source, v.saga.value.state, env.eventType).value.move.Some?
  }

  /** What a handled reply reports: a completed order when its saga has just completed, a cancelled one when it has just been
      cancelled, and otherwise nothing. */
  lemma ReplyReportsTheEnd(db: Tables, source: Source, env: Envelope, r: (Tables, Result<Option<SagaOutcome>, HandlerError>))
    requires r == HandleReply(db, source, env) && r.1.Ok?
    ensures r.1.value == Some(ConfirmedOutcome) <==> EntersState(db, r.0, env.orderId, Completed)
    ensures r.1.value == Some(CancelledOutcome) <==> EntersState(db, r.0, env.orderId, SagaState.Cancelled)
  {
    TransitionsLowerRank(Started, StockReserved);
  }

  predicate EntersState(db: Tables, next: Tables, id: nat, state: SagaState) {
    id in db.sagas && id in next.sagas && db.sagas[id].state != state && next.sagas[id].state == state
  }

  /** On any tables, even ones no run leads to: a reply that would move an order throws if the order is missing or another tenant's,
      and whatever throws leaves everything as it was, the reply unrecorded. */
  lemma ThrowingReplyChangesNothing(db: Tables, source: Source, env: Envelope, saga: Saga, r: (Tables, Result<Option<SagaOutcome>, HandlerError>))
    requires r == HandleReply(db, source, env) && env.eventId !in db.processed
    requires Lookup(db.sagas, env.orderId) == Some(saga) && saga.tenantId == env.tenantId
    requires var reaction := ReactionTo(source, saga.state, env.eventType); reaction.Some? && reaction.value.move.Some?
    ensures env.orderId !in db.orders || db.orders[env.orderId].tenantId != env.tenantId ==> r == (db, Err(OrderNotFound))
    ensures r.1.Err? ==> r.0 == db
  {
  }

  // ----- Versions -----

  // An order's version counts its moves, a saga's its transitions, and only a saga that has moved knows what moved it.
  ghost predicate Versioned(v: View) {
    && (v.order.Some? ==>
          match v.order.value.status
          case Pending => v.order.value.version == 0
          case Reserved => v.order.value.version == 1
          case Confirmed => v.order.value.version == 2
          case Cancelled => v.order.value.version in {1, 2})
    && (v.saga.Some? ==>
          && (v.saga.value.version == 0 <==> v.saga.value.state == Started)
          && (v.saga.value.lastEventId.None? <==> v.saga.value.version == 0))
  }

  lemma EventKeepsVersioned(maxAttempts: nat, id: nat, v: View, e: Event, w: View)
    requires Healthy(maxAttempts, id, v) && WellFormed(e) && Versioned(v) && w == AfterEvent(maxAttempts, id, v, e)
    ensures Versioned(w)
  {
    match e
    case Deliver(source, env) =>
      if env.orderId == id && v.saga.Some? { ReplyKeepsVersioned(maxAttempts, id, v, source, env, w); }
    case _ =>
  }

  lemma ReplyKeepsVersioned(maxAttempts: nat, id: nat, v: View, source: Source, env: Envelope, w: View)
    requires Healthy(maxAttempts, id, v) && v.saga.Some? && Versioned(v) && w == AfterReply(v, source, env)
    ensures Versioned(w)
  {
    ReplyOutcome(maxAttempts, id, v, source, env);
    CoupledOrDiverged(v.order.value.status, v.saga.value.state);
  }

  /** In every run the versions count: an order's by its status, a saga's from zero as long as it is started, and the event that last
      moved a saga is recorded with it. */
  lemma {:induction false} VersionsCount(maxAttempts: nat, events: seq<Event>, id: nat)
    requires AllWellFormed(events)
    ensures Versioned(ViewOf(Run(maxAttempts, events), id))
  {
    if events != [] {
      var init, e := events[..|events| - 1], events[|events| - 1];
      VersionsCount(maxAttempts, init, id);
      RunIsHealthy(maxAttempts, init, id);
      assert init + [e] == events;
      LastEvent(maxAttempts, init, e, id);
      var v := ViewOf(Run(maxAttempts, init), id);
      EventKeepsVersioned(maxAttempts, id, v, e, AfterEvent(maxAttempts, id, v, e));
    }
  }

  // ----- Lifecycle events and amounts -----

  /** The outbox holds exactly one lifecycle event of an order if and only if its saga is over; it is a confirmation exactly
      when the saga completed, and it carries the order's total. */
  lemma OneLifecycleEvent(maxAttempts: nat, events: seq<Event>, id: nat)
    requires AllWellFormed(events)
    ensures
      var v := ViewOf(Run(maxAttempts, events), id);
      && |Announced(v.rows)| <= 1
      && (|Announced(v.rows)| == 1 <==> v.saga.Some? && IsTerminal(v.saga.value.state))
      && (v.saga.Some? && v.order.Some? && v.saga.value.state == Completed ==>
            Announced(v.rows) == [OrderConfirmed(v.order.value.userId, v.order.value.restaurantId, v.order.value.totalCents)])
      && (v.saga.Some? && v.order.Some? && v.saga.value.state == SagaState.Cancelled ==>
            Announced(v.rows) == [OrderCancelled(v.order.value.userId, v.order.value.totalCents)])
  {
    RunIsHealthy(maxAttempts, events, id);
    var v := ViewOf(Run(maxAttempts, events), id);
    assert Announced([]) == [];
    if v.saga.Some? {
      TransitionsLowerRank(v.saga.value.state, Started);
    }
  }

  /** Every row ever sent for an order, first time or again, is addressed to it, carries its terms and fits its history: no
      charge before the reservation, no release before the failed payment. */
  lemma EveryRowFits(maxAttempts: nat, events: seq<Event>, row: Row)
    requires AllWellFormed(events) && row in Run(maxAttempts, events).db.outbox
    ensures
      var v := ViewOf(Run(maxAttempts, events), row.orderId);
      && v.order.Some? && v.saga.Some? && Fitting(v.order.value, v.saga.value.state, row)
      && (row.message.ReleaseStock? ==> v.saga.value.state in {Compensating, SagaState.Cancelled})
      && (row.message.ChargePayment? && v.saga.value.state == SagaState.Cancelled ==> Sent(v.rows, ReleaseStock))
  {
    var v := ViewOf(Run(maxAttempts, events), row.orderId);
    RunIsHealthy(maxAttempts, events, row.orderId);
    FilterMembers(Run(maxAttempts, events).db.outbox, Of(row.orderId));
    assert row in v.rows;
    var i :| 0 <= i < |v.rows| && v.rows[i] == row;
  }

  // ----- Histories go forward -----

  /** Any number of steps further: terms kept, messages only added, one version per transition, and no state twice. */
  ghost predicate Grows(v: View, w: View) {
    && v.rows <= w.rows && v.redrives <= w.redrives && v.resets <= w.resets
    && (v.saga.Some? ==> w.saga.Some?) && (v.order.Some? ==> w.order.Some?)
    && (v.order.Some? ==> SameTerms(v.order.value, w.order.value))
    && (v.saga.Some? ==>
          var past, now := v.saga.value, w.saga.value;
          && past.version <= now.version
          && Rank(now.state) + (now.version - past.version) <= Rank(past.state)
          && (past.version == now.version ==> past.state == now.state))
  }

  lemma GrowsOneMore(u: View, v: View, w: View)
    requires Grows(u, v) && Evolves(v, w)
    ensures Grows(u, w)
  {
    if u.saga.Some? {
      TransitionsLowerRank(v.saga.value.state, w.saga.value.state);
    }
  }

  /** From any point of a run to any later one. */
  lemma {:induction false} HistoryGrows(maxAttempts: nat, events: seq<Event>, i: nat, j: nat, id: nat)
    requires AllWellFormed(events) && i <= j <= |events|
    ensures Grows(ViewAt(maxAttempts, events, i, id), ViewAt(maxAttempts, events, j, id))
    decreases j
  {
    if i < j {
      HistoryGrows(maxAttempts, events, i, j - 1, id);
      NextView(maxAttempts, events, j - 1, id);
      var v, w := ViewAt(maxAttempts, events, j - 1, id), ViewAt(maxAttempts, events, j, id);
      EventEvolves(maxAttempts, id, v, events[j - 1], AfterEvent(maxAttempts, id, v, events[j - 1]));
      StaysEvolves(v);
      GrowsOneMore(ViewAt(maxAttempts, events, i, id), v, w);
    }
  }

  lemma StaysEvolves(v: View)
    ensures Evolves(v, v)
  {
  }

  /** A saga never comes back to a state it has left: if its state is the same at two points of a run, it made no transition
      in between. This is what lets the reaper compare states and not versions. */
  lemma NoStateTwice(maxAttempts: nat, events: seq<Event>, i: nat, k: nat, j: nat, id: nat)
    requires AllWellFormed(events) && i <= k <= j <= |events|
    ensures
      var u, v, w := ViewAt(maxAttempts, events, i, id), ViewAt(maxAttempts, events, k, id), ViewAt(maxAttempts, events, j, id);
      u.saga.Some? && w.saga.Some? && u.saga.value.state == w.saga.value.state ==>
        v.saga.Some? && v.saga.value.state == u.saga.value.state
        && u.saga.value.version == v.saga.value.version == w.saga.value.version
  {
    HistoryGrows(maxAttempts, events, i, k, id);
    HistoryGrows(maxAttempts, events, k, j, id);
    HistoryGrows(maxAttempts, events, i, j, id);
  }

  /** A saga makes at most three transitions, whatever is delivered to it and however often. */
  lemma ThreeTransitionsAtMost(maxAttempts: nat, events: seq<Event>, id: nat, saga: Saga)
    requires AllWellFormed(events) && ViewOf(Run(maxAttempts, events), id).saga == Some(saga)
    ensures saga.version + Rank(saga.state) <= 3
  {
    RunIsHealthy(maxAttempts, events, id);
  }

  // ----- The reaper -----

  /** Whatever happened between the reaper's read and its transaction: it appends its command if and only if the saga is
      still in the state it read, and then the command is the one for the order as it is now; otherwise nothing changes. */
  lemma RedriveIsSafe(maxAttempts: nat, events: seq<Event>)
    requires AllWellFormed(events) && Run(maxAttempts, events).reaper.Some?
    ensures
      var s := Run(maxAttempts, events);
      var d := s.reaper.value;
      var v, r := ViewOf(s, d.orderId), CommitRedrive(s.db, d);
      && (r.1.Ok? <==> v.saga.Some? && v.saga.value.state == d.expected)
      && (r.1.Err? ==> r.0 == s.db)
      && (r.1.Ok? ==>
            && r.0.outbox == s.db.outbox + [d.row] && v.order.Some?
            && CommandFor(v.saga.value, v.order.value) == Some(d.row.message)
            && d.row.orderId == d.orderId && d.row.tenantId == v.order.value.tenantId
            && (d.row.message.ChargePayment? <==> v.saga.value.state == StockReserved)
            && (d.row.message.ReleaseStock? <==> v.saga.value.state == Compensating))
  {
    var s := Run(maxAttempts, events);
    var d := s.reaper.value;
    var v := ViewOf(s, d.orderId);
    RunIsHealthy(maxAttempts, events, d.orderId);
    if v.saga.Some? && v.saga.value.state == d.expected {
      RedriveIsRight(maxAttempts, d.orderId, v);
    }
  }

  /** The reconcile budget: attempts never pass the maximum, and over its whole life a saga is re-driven at most the
      maximum once, and once more for each reset. */
  lemma RedriveBudget(maxAttempts: nat, events: seq<Event>, id: nat, v: View)
    requires AllWellFormed(events) && v == ViewOf(Run(maxAttempts, events), id)
    ensures v.saga.Some? ==> v.saga.value.attempts <= maxAttempts
    ensures v.redrives <= maxAttempts * (1 + v.resets)
  {
    RunIsHealthy(maxAttempts, events, id);
    BudgetOf(maxAttempts, id, v);
  }

  lemma BudgetOf(maxAttempts: nat, id: nat, v: View)
    requires Healthy(maxAttempts, id, v)
    ensures v.saga.Some? ==> v.saga.value.attempts <= maxAttempts
    ensures v.redrives <= maxAttempts * (1 + v.resets)
  {
    var attempts := if v.saga.Some? then v.saga.value.attempts else 0;
    BudgetOverLife(maxAttempts, attempts, v.redrives, v.resets);
  }

  lemma BudgetOverLife(maxAttempts: nat, attempts: nat, redrives: nat, resets: nat)
    requires WithinBudget(maxAttempts, attempts, redrives, resets)
    ensures redrives <= maxAttempts * (1 + resets)
  {
    assert maxAttempts * (1 + resets) == maxAttempts + maxAttempts * resets;
  }

  // What the reaper sends for a saga, in the state it is in.
  function RowFor(saga: Saga, order: Order, freshCorrelation: string): Row
    requires saga.state in {Started, StockReserved, Compensating}
  {
    Row(saga.orderId, saga.tenantId,
        if saga.state == Started then ReserveStock(order.items)
        else if saga.state == StockReserved then ChargePayment(order.totalCents) else ReleaseStock,
        if saga.correlationId.Some? then saga.correlationId.value else freshCorrelation)
  }

  // The saga is the tenant's, it runs, and its budget is not used up.
  predicate MayRedrive(maxAttempts: nat, v: View, tenantId: string) {
    && v.saga.Some? && v.order.Some? && v.saga.value.tenantId == tenantId
    && v.saga.value.state in {Started, StockReserved, Compensating} && v.saga.value.attempts < maxAttempts
  }

  /** In every run, an idle reaper that reads an order decides to re-drive it if and only if the saga is there, still running, and
      has attempts left; it then remembers the command for the saga's state, and its read changes nothing else. */
  lemma ReadDecidesExactlyWhen(maxAttempts: nat, events: seq<Event>, tenantId: string, id: nat, newCorrelation: string, s: System, v: View, next: System)
    requires AllWellFormed(events) && s == Run(maxAttempts, events) && v == ViewOf(s, id) && s.reaper == None
    requires next == Step(maxAttempts, s, ReaperReads(tenantId, id, newCorrelation))
    ensures next.reaper == if MayRedrive(maxAttempts, v, tenantId)
                           then Some(Decision(id, v.saga.value.state, RowFor(v.saga.value, v.order.value, newCorrelation))) else None
    ensures next == s.(reaper := next.reaper)
  {
    RunIsHealthy(maxAttempts, events, id);
  }

  // One recovery after the newCorrelation, with nothing in between.
  function Recoveries(tenantId: string, id: nat, newCorrelation: string, n: nat): seq<Event> {
    if n == 0 then [] else Recoveries(tenantId, id, newCorrelation, n - 1) + [ReaperReads(tenantId, id, newCorrelation)] + [ReaperCommits]
  }

  function Least(x: int, y: int): int {
    if x < y then x else y
  }

  // The tables after k commands were sent again.
  function Redriven(db: Tables, id: nat, saga: Saga, row: Row, k: nat): Tables {
    db.(sagas := db.sagas[id := saga.(attempts := saga.attempts + k)], outbox := db.outbox + Copies(row, k))
  }

  lemma OneRecovery(maxAttempts: nat, s: System, tenantId: string, id: nat, newCorrelation: string, saga: Saga, order: Order, next: System)
    requires s.reaper == None && Lookup(s.db.sagas, id) == Some(saga) && Lookup(s.db.orders, id) == Some(order)
    requires saga.orderId == id && saga.tenantId == tenantId == order.tenantId && saga.state in {Started, StockReserved, Compensating}
    requires next == Step(maxAttempts, Step(maxAttempts, s, ReaperReads(tenantId, id, newCorrelation)), ReaperCommits)
    ensures next.reaper == None
    ensures next.db == if saga.attempts < maxAttempts
                       then s.db.(sagas := s.db.sagas[id := saga.(attempts := saga.attempts + 1)],
                                  outbox := s.db.outbox + [RowFor(saga, order, newCorrelation)])
                       else s.db
  {
  }

  // The same recoveries, from a given state.
  function Recovered(maxAttempts: nat, s: System, tenantId: string, id: nat, newCorrelation: string, n: nat): System {
    if n == 0 then s
    else Step(maxAttempts, Step(maxAttempts, Recovered(maxAttempts, s, tenantId, id, newCorrelation, n - 1),
                                ReaperReads(tenantId, id, newCorrelation)), ReaperCommits)
  }

  lemma OneMoreRecovery(events: seq<Event>, tenantId: string, id: nat, newCorrelation: string, n: nat)
    ensures n == 0 ==> events + Recoveries(tenantId, id, newCorrelation, n) == events
    ensures n > 0 ==> events + Recoveries(tenantId, id, newCorrelation, n)
                      == events + Recoveries(tenantId, id, newCorrelation, n - 1) + [ReaperReads(tenantId, id, newCorrelation)] + [ReaperCommits]
  {
  }

  lemma {:induction false} RecoveriesRun(maxAttempts: nat, events: seq<Event>, tenantId: string, id: nat, newCorrelation: string, n: nat, s: System)
    requires s == Run(maxAttempts, events)
    ensures Run(maxAttempts, events + Recoveries(tenantId, id, newCorrelation, n)) == Recovered(maxAttempts, s, tenantId, id, newCorrelation, n)
  {
    OneMoreRecovery(events, tenantId, id, newCorrelation, n);
    if n > 0 {
      RecoveriesRun(maxAttempts, events, tenantId, id, newCorrelation, n - 1, s);
      TwoMoreEvents(maxAttempts, events + Recoveries(tenantId, id, newCorrelation, n - 1), ReaperReads(tenantId, id, newCorrelation), ReaperCommits);
    }
  }

  lemma TwoMoreEvents(maxAttempts: nat, events: seq<Event>, e1: Event, e2: Event)
    ensures Run(maxAttempts, events + [e1] + [e2]) == Step(maxAttempts, Step(maxAttempts, Run(maxAttempts, events), e1), e2)
  {
    assert (events + [e1] + [e2])[..|events| + 1] == events + [e1];
    assert (events + [e1])[..|events|] == events;
  }

  // One more recovery, on the tables alone.
  lemma RedrivenOnce(db: Tables, id: nat, saga: Saga, order: Order, newCorrelation: string, n: nat, left: nat, before: Tables, next: Tables)
    requires saga.state in {Started, StockReserved, Compensating}
    requires before == Redriven(db, id, saga, RowFor(saga, order, newCorrelation), Least(n, left))
    requires var now := before.sagas[id];
             next == if Least(n, left) < left
                     then before.(sagas := before.sagas[id := now.(attempts := now.attempts + 1)],
                                  outbox := before.outbox + [RowFor(now, order, newCorrelation)])
                     else before
    ensures next == Redriven(db, id, saga, RowFor(saga, order, newCorrelation), Least(n + 1, left))
  {
    var row := RowFor(saga, order, newCorrelation);
    if n < left {
      assert db.outbox + Copies(row, n) + [row] == db.outbox + Copies(row, n + 1);
    }
  }

  lemma RecoveredOnce(maxAttempts: nat, db: Tables, tenantId: string, id: nat, newCorrelation: string, n: nat, left: nat, saga: Saga, order: Order,
                      before: System, next: System)
    requires n > 0 && before.reaper == None && Lookup(db.orders, id) == Some(order)
    requires saga.orderId == id && saga.tenantId == tenantId == order.tenantId && saga.state in {Started, StockReserved, Compensating}
    requires saga.attempts + left == maxAttempts
    requires before.db == Redriven(db, id, saga, RowFor(saga, order, newCorrelation), Least(n - 1, left))
    requires next == Step(maxAttempts, Step(maxAttempts, before, ReaperReads(tenantId, id, newCorrelation)), ReaperCommits)
    ensures next.reaper == None && next.db == Redriven(db, id, saga, RowFor(saga, order, newCorrelation), Least(n, left))
  {
    OneRecovery(maxAttempts, before, tenantId, id, newCorrelation, saga.(attempts := saga.attempts + Least(n - 1, left)), order, next);
    RedrivenOnce(db, id, saga, order, newCorrelation, n - 1, left, before.db, next.db);
  }

  lemma {:induction false} RecoveredTables(maxAttempts: nat, s: System, tenantId: string, id: nat, newCorrelation: string, n: nat, left: nat,
                                           saga: Saga, order: Order)
    requires s.reaper == None && Lookup(s.db.sagas, id) == Some(saga) && Lookup(s.db.orders, id) == Some(order)
    requires saga.orderId == id && saga.tenantId == tenantId == order.tenantId && saga.state in {Started, StockReserved, Compensating}
    requires saga.attempts + left == maxAttempts
    ensures var next := Recovered(maxAttempts, s, tenantId, id, newCorrelation, n);
            next.reaper == None && next.db == Redriven(s.db, id, saga, RowFor(saga, order, newCorrelation), Least(n, left))
  {
    if n == 0 {
      assert s.db.outbox + [] == s.db.outbox && s.db.sagas[id := saga] == s.db.sagas;
    } else {
      var before := Recovered(maxAttempts, s, tenantId, id, newCorrelation, n - 1);
      RecoveredTables(maxAttempts, s, tenantId, id, newCorrelation, n - 1, left, saga, order);
      RecoveredOnce(maxAttempts, s.db, tenantId, id, newCorrelation, n, left, saga, order, before,
                    Recovered(maxAttempts, s, tenantId, id, newCorrelation, n));
    }
  }

  /** The budget is used to the full: after any run, n recoveries in a row send the command of a running saga again n times, or as
      often as it has attempts left, and count each. */
  lemma RecoveriesSendWhatIsLeft(maxAttempts: nat, events: seq<Event>, tenantId: string, id: nat, newCorrelation: string, n: nat, left: nat,
                                 s: System, saga: Saga, order: Order)
    requires AllWellFormed(events) && s == Run(maxAttempts, events) && s.reaper == None
    requires Lookup(s.db.sagas, id) == Some(saga) && Lookup(s.db.orders, id) == Some(order)
    requires saga.tenantId == tenantId && saga.state in {Started, StockReserved, Compensating} && left == maxAttempts - saga.attempts
    ensures Run(maxAttempts, events + Recoveries(tenantId, id, newCorrelation, n)).db
            == Redriven(s.db, id, saga, RowFor(saga, order, newCorrelation), Least(n, left))
  {
    RunIsHealthy(maxAttempts, events, id);
    assert ViewOf(s, id).saga == Some(saga) && ViewOf(s, id).order == Some(order);
    RecoveriesRun(maxAttempts, events, tenantId, id, newCorrelation, n, s);
    RecoveredTables(maxAttempts, s, tenantId, id, newCorrelation, n, left, saga, order);
  }

  /** An operator's reset gives the whole budget back, to every saga of the tenant that still runs, and to no other. */
  lemma ResetGivesBudgetBack(maxAttempts: nat, s: System, tenantId: string, id: nat, next: System)
    requires next == Step(maxAttempts, s, OperatorResets(tenantId, id))
    ensures var saga := Lookup(s.db.sagas, id);
            next.db == if saga.Some? && saga.value.tenantId == tenantId && saga.value.state in {Started, StockReserved, Compensating}
                       then s.db.(sagas := s.db.sagas[id := saga.value.(attempts := 0)]) else s.db
    ensures next.reaper == s.reaper
    ensures ResetAttempts(s.db, tenantId, id).1
            == if id !in s.db.sagas || s.db.sagas[id].tenantId != tenantId then WasNotFound
               else if s.db.sagas[id].state in {Completed, SagaState.Cancelled} then WasTerminal else WasReset
  {
    if id in s.db.sagas {
      TransitionsLowerRank(s.db.sagas[id].state, Started);
    }
  }

  // The replies the other services can give to a command: inventory-command.consumer.ts and charge-workflow.ts.
  function Answers(command: Message): set<(Source, EventType)> {
    match command
    case ReserveStock(_) => {(Inventory, StockReservedEvent), (Inventory, StockReservationFailed)}
    case ReleaseStock => {(Inventory, StockReleased)}
    case ChargePayment(_) => {(Payment, PaymentSucceeded), (Payment, PaymentFailed)}
    case _ => {}
  }

  lemma AnswerAdvances(maxAttempts: nat, id: nat, v: View, source: Source, env: Envelope)
    requires Healthy(maxAttempts, id, v) && v.saga.Some? && !IsTerminal(v.saga.value.state)
    ensures
      var command := CommandFor(v.saga.value, v.order.value);
      && command.Some? && Answers(command.value) != {}
      && (!IsDiverged(v) && env.tenantId == v.saga.value.tenantId && (source, env.eventType) in Answers(command.value) ==>
            AfterReply(v, source, env).saga.Some?
            && Rank(AfterReply(v, source, env).saga.value.state) < Rank(v.saga.value.state))
  {
    TransitionsLowerRank(v.saga.value.state, Started);
    var command := CommandFor(v.saga.value, v.order.value).value;
    assert Answers(command) != {} by {
      assert command.ReserveStock? ==> (Inventory, StockReservedEvent) in Answers(command);
      assert command.ReleaseStock? ==> (Inventory, StockReleased) in Answers(command);
      assert command.ChargePayment? ==> (Payment, PaymentFailed) in Answers(command);
    }
    ReplyOutcome(maxAttempts, id, v, source, env);
  }

  // The command for the state a saga is in has been sent.
  ghost predicate CommandSent(v: View) {
    v.saga.Some? && v.order.Some? && CommandFor(v.saga.value, v.order.value).Some? ==>
      Sent(v.rows, CommandFor(v.saga.value, v.order.value).value)
  }

  lemma StillSent(rows: seq<Row>, more: seq<Row>, message: Message)
    requires rows <= more && Sent(rows, message)
    ensures Sent(more, message)
  {
    var i :| 0 <= i < |rows| && rows[i].message == message;
    assert more[i].message == message;
  }

  lemma SameStateSent(v: View, w: View)
    requires CommandSent(v) && Evolves(v, w) && v.saga.Some? && v.order.Some? && w.saga.value.state == v.saga.value.state
    ensures CommandSent(w)
  {
    var command := CommandFor(v.saga.value, v.order.value);
    if command.Some? {
      StillSent(v.rows, w.rows, command.value);
    }
  }

  lemma ReplySendsCommand(maxAttempts: nat, id: nat, v: View, source: Source, env: Envelope, w: View)
    requires Healthy(maxAttempts, id, v) && CommandSent(v) && w == AfterReply(v, source, env)
    ensures CommandSent(w)
  {
    if v.saga.Some? {
      ReplyOutcome(maxAttempts, id, v, source, env);
      ReplyEvolves(maxAttempts, id, v, source, env);
      var reaction := ReactionTo(source, v.saga.value.state, env.eventType);
      if w.saga.value.state == v.saga.value.state {
        SameStateSent(v, w);
      } else {
        var row := Row(env.orderId, env.tenantId, MessageFor(reaction.value.emission, v.order.value), env.correlationId);
        SentSnoc(v.rows, row, row.message);
      }
    }
  }

  lemma EventSendsCommand(maxAttempts: nat, id: nat, v: View, e: Event, w: View)
    requires Healthy(maxAttempts, id, v) && CommandSent(v) && w == AfterEvent(maxAttempts, id, v, e)
    ensures CommandSent(w)
  {
    EventEvolves(maxAttempts, id, v, e, w);
    match e
    case Deliver(source, env) =>
      if env.orderId == id { ReplySendsCommand(maxAttempts, id, v, source, env, w); }
    case Place(order, correlationId) =>
      if v.saga.None? && order.id == id {
        SentSnoc(v.rows, Row(order.id, order.tenantId, ReserveStock(order.items), correlationId), ReserveStock(order.items));
      } else if v.saga.Some? {
        SameStateSent(v, w);
      }
    case _ =>
      if v.saga.Some? { SameStateSent(v, w); }
  }

  /** The command for the state a running saga is in is always in the outbox, with or without the reaper. */
  lemma {:induction false} CommandWasSent(maxAttempts: nat, events: seq<Event>, id: nat)
    requires AllWellFormed(events)
    ensures CommandSent(ViewOf(Run(maxAttempts, events), id))
  {
    if events != [] {
      var init, e := events[..|events| - 1], events[|events| - 1];
      CommandWasSent(maxAttempts, init, id);
      RunIsHealthy(maxAttempts, init, id);
      assert init + [e] == events;
      LastEvent(maxAttempts, init, e, id);
      var v := ViewOf(Run(maxAttempts, init), id);
      EventSendsCommand(maxAttempts, id, v, e, AfterEvent(maxAttempts, id, v, e));
    }
  }

  /** Re-driving makes progress: every running saga has a command, and unless a user ended the order, any first answer to
      that command is accepted and brings the saga closer to its end. */
  lemma RedriveMakesProgress(maxAttempts: nat, events: seq<Event>, source: Source, env: Envelope, v: View, w: View)
    requires AllWellFormed(events)
    requires env.eventId !in Run(maxAttempts, events).db.processed
    requires v == ViewOf(Run(maxAttempts, events), env.orderId)
    requires w == ViewOf(Step(maxAttempts, Run(maxAttempts, events), Deliver(source, env)), env.orderId)
    requires v.saga.Some? && v.order.Some? && !IsTerminal(v.saga.value.state)
    ensures
      var command := CommandFor(v.saga.value, v.order.value);
      && command.Some? && Answers(command.value) != {}
      && (!IsDiverged(v) && env.tenantId == v.saga.value.tenantId && (source, env.eventType) in Answers(command.value) ==>
            w.saga.Some? && Rank(w.saga.value.state) < Rank(v.saga.value.state))
  {
    RunIsHealthy(maxAttempts, events, env.orderId);
    AnswerAdvances(maxAttempts, env.orderId, v, source, env);
    ReplyIsLocal(Run(maxAttempts, events), source, env, env.orderId);
  }

  // ----- Where the coupling fails -----

  // Whatever the order: it is placed, its stock is reserved, and the user confirms it.
  function ConfirmedUnpaid(order: Order, correlationId: string): seq<Event> {
    [Place(order, correlationId)] + [ReservedReply(order, correlationId)] + [UserConfirms(Owner(order), order.id)]
  }

  function Owner(order: Order): Actor {
    Actor(order.tenantId, order.userId, false)
  }

  function ReservedReply(order: Order, correlationId: string): Event {
    Deliver(Inventory, Envelope(FromInventory(0), StockReservedEvent, order.tenantId, order.id, correlationId))
  }

  // A first event, a reply and a confirmation, none of them skipped.
  lemma ThreeEvents(maxAttempts: nat, e0: Event, e1: Event, e2: Event, id: nat)
    requires WellFormed(e0) && e0.Place? && e1.Deliver? && e2.UserConfirms?
    ensures ViewOf(Run(maxAttempts, [e0] + [e1] + [e2]), id)
            == AfterEvent(maxAttempts, id, AfterEvent(maxAttempts, id, AfterEvent(maxAttempts, id, NOTHING, e0), e1), e2)
  {
    PlacedFirst(maxAttempts, e0, id);
    LastEvent(maxAttempts, [e0], e1, id);
    LastEvent(maxAttempts, [e0] + [e1], e2, id);
  }

  lemma PlacedFirst(maxAttempts: nat, e: Event, id: nat)
    requires e.Place?
    ensures Run(maxAttempts, [e]).db.processed == {}
    ensures ViewOf(Run(maxAttempts, [e]), id) == AfterEvent(maxAttempts, id, NOTHING, e)
  {
    assert [e][..0] == [];
    assert ViewOf(EMPTY, id) == NOTHING;
    StepIsLocal(maxAttempts, EMPTY, e, id);
  }

  // The same three steps on the order alone.
  lemma ConfirmedView(order: Order, correlationId: string, w: View)
    requires order.status == Pending && order.version == 0
    requires w == AfterMove(AfterReply(AfterPlace(NOTHING, order, correlationId), Inventory, ReservedReply(order, correlationId).env),
                            Owner(order), Confirmed)
    ensures w.order.Some? && w.saga.Some? && w.order.value.status == Confirmed && w.saga.value.state == StockReserved
  {
    assert CanMove(Pending, Reserved) && CanMove(Reserved, Confirmed) && CanTransition(Started, StockReserved);
  }

  lemma ConfirmedRun(maxAttempts: nat, order: Order, correlationId: string, v: View)
    requires order.status == Pending && order.version == 0
    requires v == ViewOf(Run(maxAttempts, ConfirmedUnpaid(order, correlationId)), order.id)
    ensures AllWellFormed(ConfirmedUnpaid(order, correlationId))
    ensures v == AfterMove(AfterReply(AfterPlace(NOTHING, order, correlationId), Inventory, ReservedReply(order, correlationId).env),
                           Owner(order), Confirmed)
  {
    ThreeEvents(maxAttempts, Place(order, correlationId), ReservedReply(order, correlationId), UserConfirms(Owner(order), order.id), order.id);
  }

  /** A run in which an order is confirmed though no payment reply was ever processed, and no confirmation is announced. */
  lemma UserConfirmsUnpaidOrder(maxAttempts: nat, order: Order, correlationId: string, v: View)
    requires order.status == Pending && order.version == 0
    requires v == ViewOf(Run(maxAttempts, ConfirmedUnpaid(order, correlationId)), order.id)
    ensures AllWellFormed(ConfirmedUnpaid(order, correlationId))
    ensures v.order.Some? && v.saga.Some? && v.order.value.status == Confirmed && v.saga.value.state == StockReserved
    ensures Announced(v.rows) == []
  {
    ConfirmedRun(maxAttempts, order, correlationId, v);
    ConfirmedView(order, correlationId, v);
    assert Healthy(maxAttempts, order.id, v) by {
      RunIsHealthy(maxAttempts, ConfirmedUnpaid(order, correlationId), order.id);
    }
  }
}
