/**
 One order seen through the order service: its row, its saga, the messages sent for it, what the reaper is about to do
 with it, and how often it was re-driven and reset. What every step keeps is stated and proved here, one order at a time.
 */
module SagaView {
  import opened Results
  import opened Sequences
  import opened Orders
  import opened Sagas
  import opened OrderService

  datatype View = View(
    order: Option<Order>,
    saga: Option<Saga>,
    rows: seq<Row>,
    pending: Option<Decision>,
    redrives: nat,
    resets: nat)

  const NOTHING: View := View(None, None, [], None, 0, 0)

  // ----- What an order and its saga are to each other -----

  predicate Coupled(status: OrderStatus, state: SagaState) {
    match state
    case Started => status == Pending
    case StockReserved => status == Reserved
    case Compensating => status == Reserved
    case Completed => status == Confirmed
    case Cancelled => status == OrderStatus.Cancelled
  }

  /** A user ended the order while its saga was still running. */
  predicate Diverged(status: OrderStatus, state: SagaState) {
    IsFinal(status) && !IsTerminal(state)
  }

  predicate IsLifecycle(message: Message) {
    message.OrderConfirmed? || message.OrderCancelled?
  }

  const LIFECYCLE: Message -> bool := m => IsLifecycle(m)

  function Messages(rows: seq<Row>): (ms: seq<Message>)
    ensures |ms| == |rows| && forall i :: 0 <= i < |rows| ==> ms[i] == rows[i].message
  {
    seq(|rows|, i requires 0 <= i < |rows| => rows[i].message)
  }

  /** The lifecycle events sent for an order. */
  function Announced(rows: seq<Row>): seq<Message> {
    Filter(Messages(rows), LIFECYCLE)
  }

  /** The lifecycle events an order in this state should have had: one when the saga is over, none before. */
  function Due(order: Order, state: SagaState): seq<Message> {
    match state
    case Completed => [OrderConfirmed(order.userId, order.restaurantId, order.totalCents)]
    case Cancelled => [OrderCancelled(order.userId, order.totalCents)]
    case _ => []
  }

  predicate Sent(rows: seq<Row>, message: Message) {
    exists i | 0 <= i < |rows| :: rows[i].message == message
  }

  predicate Charged(rows: seq<Row>) {
    exists i | 0 <= i < |rows| :: rows[i].message.ChargePayment?
  }

  // ----- The invariant -----

  ghost predicate Keyed(id: nat, order: Order, saga: Saga) {
    order.id == id && saga.orderId == id && order.tenantId == saga.tenantId
  }

  /** A message sent for an order fits its terms, and was not sent too early: a charge follows the reservation, a release
      the failed payment. */
  predicate Fitting(order: Order, state: SagaState, row: Row) {
    && row.orderId == order.id && row.tenantId == order.tenantId
    && match row.message
       case ReserveStock(items) => items == order.items
       case ChargePayment(amount) => amount == order.totalCents && state != Started
       case ReleaseStock => state == Compensating || state == SagaState.Cancelled
       case OrderConfirmed(_, _, _) => state == Completed
       case OrderCancelled(_, _) => state == SagaState.Cancelled
  }

  ghost predicate AllFitting(order: Order, state: SagaState, rows: seq<Row>) {
    forall row <- rows :: Fitting(order, state, row)
  }

  /** Compensation has asked for the stock back; a saga that ended cancelled after a charge went through compensation. */
  ghost predicate ReleasedWhenDue(state: SagaState, rows: seq<Row>) {
    && (state == Compensating ==> Sent(rows, ReleaseStock))
    && (state == SagaState.Cancelled && Charged(rows) ==> Sent(rows, ReleaseStock))
  }

  ghost predicate WithinBudget(maxAttempts: nat, attempts: nat, redrives: nat, resets: nat) {
    attempts <= maxAttempts && redrives <= maxAttempts * resets + attempts
  }

  /** What the reaper is about to send is the command for the state it saw, and the saga has not moved back since. */
  ghost predicate PendingFits(maxAttempts: nat, order: Order, saga: Saga, pending: Option<Decision>) {
    pending.Some? ==>
      var d := pending.value;
      && d.orderId == order.id
      && Rank(saga.state) <= Rank(d.expected)
      && CommandFor(saga.(state := d.expected), order) == Some(d.row.message)
      && d.row.orderId == order.id && d.row.tenantId == order.tenantId
      && saga.attempts < maxAttempts
  }

  ghost predicate Healthy(maxAttempts: nat, id: nat, v: View) {
    if v.saga.None? then v == NOTHING
    else
      && v.order.Some?
      && var order, saga := v.order.value, v.saga.value;
      && Keyed(id, order, saga)
      && (Coupled(order.status, saga.state) || Diverged(order.status, saga.state))
      && saga.version + Rank(saga.state) <= 3
      && Announced(v.rows) == Due(order, saga.state)
      && AllFitting(order, saga.state, v.rows)
      && ReleasedWhenDue(saga.state, v.rows)
      && WithinBudget(maxAttempts, saga.attempts, v.redrives, v.resets)
      && PendingFits(maxAttempts, order, saga, v.pending)
  }

  // ----- Sending one more message -----

  lemma AnnouncedSnoc(rows: seq<Row>, row: Row)
    ensures Announced(rows + [row]) == SnocIf(Announced(rows), IsLifecycle(row.message), row.message)
  {
    assert Messages(rows + [row]) == Messages(rows) + [row.message];
    FilterSnoc(Messages(rows), row.message, LIFECYCLE);
  }

  lemma SentSnoc(rows: seq<Row>, row: Row, message: Message)
    ensures Sent(rows + [row], message) <==> Sent(rows, message) || row.message == message
    ensures Charged(rows + [row]) <==> Charged(rows) || row.message.ChargePayment?
  {
    var after := rows + [row];
    assert after[|rows|] == row;
    assert forall i :: 0 <= i < |rows| ==> after[i] == rows[i];
  }

  // A message sent stays fitting as the saga moves on.
  lemma FittingLater(order: Order, state: SagaState, later: Order, next: SagaState, rows: seq<Row>)
    requires AllFitting(order, state, rows)
    requires SameTerms(order, later) && (next == state || CanTransition(state, next))
    ensures AllFitting(later, next, rows)
  {
    forall row | row in rows ensures Fitting(later, next, row) {
      assert Fitting(order, state, row);
    }
  }

  // Before the reservation nothing was charged.
  lemma NotChargedYet(order: Order, rows: seq<Row>)
    requires AllFitting(order, Started, rows)
    ensures !Charged(rows)
  {
    forall i | 0 <= i < |rows| ensures !rows[i].message.ChargePayment? {
      assert rows[i] in rows;
    }
  }

  // Before the payment is declined nothing was released.
  lemma NotReleasedYet(order: Order, state: SagaState, rows: seq<Row>)
    requires AllFitting(order, state, rows) && state != Compensating && state != SagaState.Cancelled
    ensures !Sent(rows, ReleaseStock)
  {
    forall i | 0 <= i < |rows| ensures rows[i].message != ReleaseStock {
      assert rows[i] in rows;
    }
  }

  // ----- The steps of one order -----

  function AfterReply(v: View, source: Source, env: Envelope): View {
    match ApplyReply(Aggregate(v.order, v.saga), source, env)
    case Err(_) => v
    case Ok(r) => v.(order := r.after.order, saga := r.after.saga, rows := v.rows + r.emitted)
  }

  function AfterPlace(v: View, order: Order, correlationId: string): View {
    if v.order.Some? || v.saga.Some? then v
    else
      v.(order := Some(order), saga := Some(Saga(order.id, order.tenantId, Started, Some(correlationId), None, 0, 0)),
         rows := v.rows + [Row(order.id, order.tenantId, ReserveStock(order.items), correlationId)])
  }

  // The reaper reads an order and, if it decides to re-drive it, remembers how.
  function AfterRead(v: View, id: nat, tenantId: string, maxAttempts: nat, freshCorrelation: string): View {
    var saga, order := SagaOf(Aggregate(v.order, v.saga), tenantId), OrderOf(Aggregate(v.order, v.saga), tenantId);
    if saga.None? || order.None? then v
    else
      match Decide(saga.value, order.value, maxAttempts, freshCorrelation)
      case Ok(Redrive(row)) => v.(pending := Some(Decision(id, saga.value.state, row)))
      case _ => v
  }

  function AfterCommit(v: View): View {
    if v.pending.None? then v
    else if v.saga.None? || v.saga.value.state != v.pending.value.expected then v.(pending := None)
    else
      v.(saga := Some(v.saga.value.(attempts := v.saga.value.attempts + 1)), rows := v.rows + [v.pending.value.row],
         pending := None, redrives := v.redrives + 1)
  }

  function AfterReset(v: View, tenantId: string): View {
    var saga := SagaOf(Aggregate(v.order, v.saga), tenantId);
    if saga.None? || IsTerminal(saga.value.state) then v
    else v.(saga := Some(saga.value.(attempts := 0)), resets := v.resets + 1)
  }

  function AfterMove(v: View, actor: Actor, next: OrderStatus): View {
    var order := OrderOf(Aggregate(v.order, v.saga), actor.tenantId);
    if order.None? || !MayTouch(actor, order.value) || !CanMove(order.value.status, next) then v
    else v.(order := Some(Moved(order.value, next)))
  }

  // ----- Every step keeps the invariant -----

  /** A saga in a final state no longer reacts; the table of reactions fits the coupling. */
  lemma ReactionsFit(source: Source, status: OrderStatus, state: SagaState, event: EventType)
    requires Coupled(status, state) || Diverged(status, state)
    ensures ReactionTo(source, state, event).Some? ==>
              var reaction := ReactionTo(source, state, event).value;
              && CanTransition(state, reaction.next) && !IsTerminal(state)
              && (reaction.move.None? ==>
                    state == StockReserved && reaction == Reaction(None, Compensating, EmitRelease)
                    && (Coupled(status, reaction.next) || Diverged(status, reaction.next)))
              && (reaction.move.Some? ==>
                    && reaction.move.value != Pending
                    && (CanMove(status, reaction.move.value) <==> Coupled(status, state))
                    && Coupled(reaction.move.value, reaction.next))
  {
    TransitionsLowerRank(state, Started);
    assert CanTransition(Started, StockReserved) && CanTransition(Started, SagaState.Cancelled);
    assert CanTransition(StockReserved, Completed) && CanTransition(StockReserved, Compensating);
    assert CanTransition(Compensating, SagaState.Cancelled);
    assert CanMove(Pending, Reserved) && CanMove(Pending, OrderStatus.Cancelled);
    assert CanMove(Reserved, Confirmed) && CanMove(Reserved, OrderStatus.Cancelled);
    assert !IsFinal(Pending) by { assert Reserved in AllowedStatuses(Pending); }
    assert !IsFinal(Reserved) by { assert Confirmed in AllowedStatuses(Reserved); }
    assert IsFinal(Confirmed) && IsFinal(OrderStatus.Cancelled);
  }

  // What a reply does to a healthy order, case by case.
  lemma ReplyOutcome(maxAttempts: nat, id: nat, v: View, source: Source, env: Envelope)
    requires Healthy(maxAttempts, id, v) && v.saga.Some?
    ensures
      var order, saga := v.order.value, v.saga.value;
      var r := ApplyReply(Aggregate(v.order, v.saga), source, env);
      var reaction := ReactionTo(source, saga.state, env.eventType);
      if env.tenantId != saga.tenantId then r == Err(SagaNotFound)
      else if reaction.None? then r == Ok(Response(Aggregate(v.order, v.saga), [], None))
      else if reaction.value.move.Some? && Diverged(order.status, saga.state) then r == Err(IllegalOrderTransition)
      else r.Ok? && r.value.after == Aggregate(Some(OrderAfter(order, reaction.value)), Some(Transitioned(saga, reaction.value.next, env.eventId)))
           && r.value.emitted == [Row(env.orderId, env.tenantId, MessageFor(reaction.value.emission, order), env.correlationId)]
  {
    var order, saga := v.order.value, v.saga.value;
    ReactionsFit(source, order.status, saga.state, env.eventType);
    CoupledOrDiverged(order.status, saga.state);
  }

  function OrderAfter(order: Order, reaction: Reaction): Order {
    if reaction.move.Some? then Moved(order, reaction.move.value) else order
  }

  /** The two relations exclude each other: a coupled order is final exactly when its saga is terminal. */
  lemma CoupledOrDiverged(status: OrderStatus, state: SagaState)
    ensures !(Coupled(status, state) && Diverged(status, state))
    ensures Coupled(status, state) ==> (IsFinal(status) <==> IsTerminal(state))
  {
    TransitionsLowerRank(state, Started);
    assert !IsFinal(Pending) by { assert Reserved in AllowedStatuses(Pending); }
    assert !IsFinal(Reserved) by { assert Confirmed in AllowedStatuses(Reserved); }
  }

  // The row a reaction sends keeps the account of what was sent.
  lemma ReactionSends(source: Source, order: Order, saga: Saga, env: Envelope, reaction: Reaction, rows: seq<Row>, row: Row)
    requires ReactionTo(source, saga.state, env.eventType) == Some(reaction)
    requires row == Row(order.id, order.tenantId, MessageFor(reaction.emission, order), env.correlationId)
    requires Announced(rows) == Due(order, saga.state)
    requires AllFitting(order, saga.state, rows) && ReleasedWhenDue(saga.state, rows)
    ensures Announced(rows + [row]) == Due(OrderAfter(order, reaction), reaction.next)
    ensures AllFitting(OrderAfter(order, reaction), reaction.next, rows + [row])
    ensures ReleasedWhenDue(reaction.next, rows + [row])
  {
    AnnouncedSnoc(rows, row);
    ReactionsFit(source, match saga.state case Started => Pending case _ => Reserved, saga.state, env.eventType);
    FittingLater(order, saga.state, OrderAfter(order, reaction), reaction.next, rows);
    forall r | r in rows + [row] ensures Fitting(OrderAfter(order, reaction), reaction.next, r) {
      assert r in rows || r == row;
    }
    SentSnoc(rows, row, ReleaseStock);
    if saga.state == Started {
      NotChargedYet(order, rows);
    }
  }

  lemma ReplyKeepsHealth(maxAttempts: nat, id: nat, v: View, source: Source, env: Envelope)
    requires Healthy(maxAttempts, id, v) && env.orderId == id
    ensures Healthy(maxAttempts, id, AfterReply(v, source, env))
  {
    if v.saga.None? {
      return;
    }
    ReplyOutcome(maxAttempts, id, v, source, env);
    var order, saga := v.order.value, v.saga.value;
    var reaction := ReactionTo(source, saga.state, env.eventType);
    assert v.rows + [] == v.rows;
    if env.tenantId == saga.tenantId && reaction.Some?
       && !(reaction.value.move.Some? && Diverged(order.status, saga.state)) {
      ReactionKeepsHealth(maxAttempts, id, v, source, env, reaction.value, AfterReply(v, source, env));
    }
  }

  lemma ReactionKeepsHealth(maxAttempts: nat, id: nat, v: View, source: Source, env: Envelope, reaction: Reaction, next: View)
    requires Healthy(maxAttempts, id, v) && v.saga.Some?
    requires ReactionTo(source, v.saga.value.state, env.eventType) == Some(reaction)
    requires reaction.move.Some? ==> !Diverged(v.order.value.status, v.saga.value.state)
    requires next == v.(order := Some(OrderAfter(v.order.value, reaction)),
                        saga := Some(Transitioned(v.saga.value, reaction.next, env.eventId)),
                        rows := v.rows + [Row(id, v.saga.value.tenantId, MessageFor(reaction.emission, v.order.value), env.correlationId)])
    ensures Healthy(maxAttempts, id, next)
  {
    var order, saga := v.order.value, v.saga.value;
    var row := Row(id, saga.tenantId, MessageFor(reaction.emission, order), env.correlationId);
    ReactionSends(source, order, saga, env, reaction, v.rows, row);
    ReactionsFit(source, order.status, saga.state, env.eventType);
    TransitionsLowerRank(saga.state, reaction.next);
    PendingStillFits(maxAttempts, order, saga, next.order.value, next.saga.value, v.pending);
  }

  lemma PendingStillFits(maxAttempts: nat, order: Order, saga: Saga, order': Order, saga': Saga, pending: Option<Decision>)
    requires PendingFits(maxAttempts, order, saga, pending)
    requires SameTerms(order, order') && saga'.attempts <= saga.attempts && Rank(saga'.state) <= Rank(saga.state)
    ensures PendingFits(maxAttempts, order', saga', pending)
  {
  }

  lemma PlaceKeepsHealth(maxAttempts: nat, v: View, order: Order, correlationId: string)
    requires Healthy(maxAttempts, order.id, v) && order.status == Pending
    ensures Healthy(maxAttempts, order.id, AfterPlace(v, order, correlationId))
  {
    var row := Row(order.id, order.tenantId, ReserveStock(order.items), correlationId);
    AnnouncedSnoc([], row);
    assert [] + [row] == [row];
    assert Announced([]) == [];
  }

  lemma ReadKeepsHealth(maxAttempts: nat, id: nat, v: View, tenantId: string, freshCorrelation: string)
    requires Healthy(maxAttempts, id, v)
    ensures Healthy(maxAttempts, id, AfterRead(v, id, tenantId, maxAttempts, freshCorrelation))
  {
  }

  /** Between the reaper's read and its transaction the order may have moved on. If the saga's state is still the one read,
      then what the reaper sends is the command for the order as it is now. */
  lemma RedriveIsRight(maxAttempts: nat, id: nat, v: View)
    requires Healthy(maxAttempts, id, v) && v.pending.Some? && v.saga.Some?
    requires v.saga.value.state == v.pending.value.expected
    ensures CommandFor(v.saga.value, v.order.value) == Some(v.pending.value.row.message)
    ensures v.pending.value.row.orderId == id && v.pending.value.row.tenantId == v.order.value.tenantId
    ensures Fitting(v.order.value, v.saga.value.state, v.pending.value.row) && !IsLifecycle(v.pending.value.row.message)
  {
    var saga := v.saga.value;
    assert saga.(state := saga.state) == saga;
  }

  lemma CommitKeepsHealth(maxAttempts: nat, id: nat, v: View)
    requires Healthy(maxAttempts, id, v)
    ensures Healthy(maxAttempts, id, AfterCommit(v))
  {
    if v.pending.Some? && v.saga.Some? && v.saga.value.state == v.pending.value.expected {
      RedriveIsRight(maxAttempts, id, v);
      var row := v.pending.value.row;
      AnnouncedSnoc(v.rows, row);
      SentSnoc(v.rows, row, ReleaseStock);
    }
  }

  lemma ResetKeepsHealth(maxAttempts: nat, id: nat, v: View, tenantId: string)
    requires Healthy(maxAttempts, id, v)
    ensures Healthy(maxAttempts, id, AfterReset(v, tenantId))
  {
    assert maxAttempts * (v.resets + 1) == maxAttempts * v.resets + maxAttempts;
  }

  lemma MoveKeepsHealth(maxAttempts: nat, id: nat, v: View, actor: Actor, next: OrderStatus)
    requires Healthy(maxAttempts, id, v) && IsFinal(next)
    ensures Healthy(maxAttempts, id, AfterMove(v, actor, next))
  {
    if v.saga.Some? && v.order.value.tenantId == actor.tenantId && CanMove(v.order.value.status, next) {
      var order, saga := v.order.value, v.saga.value;
      CoupledOrDiverged(order.status, saga.state);
      FittingLater(order, saga.state, Moved(order, next), saga.state, v.rows);
    }
  }

  // ----- How an order's history goes forward -----

  /** One step further: the terms stay, messages are only added, and the saga stays or makes one transition. */
  ghost predicate Evolves(v: View, w: View) {
    && v.rows <= w.rows && v.redrives <= w.redrives && v.resets <= w.resets
    && (v.saga.Some? ==> w.saga.Some?) && (v.order.Some? ==> w.order.Some?)
    && (v.order.Some? ==> SameTerms(v.order.value, w.order.value))
    && (v.saga.Some? ==>
          (w.saga.value.state == v.saga.value.state && w.saga.value.version == v.saga.value.version)
          || (CanTransition(v.saga.value.state, w.saga.value.state) && w.saga.value.version == v.saga.value.version + 1))
  }

  lemma ReplyEvolves(maxAttempts: nat, id: nat, v: View, source: Source, env: Envelope)
    requires Healthy(maxAttempts, id, v)
    ensures Evolves(v, AfterReply(v, source, env))
  {
    if v.saga.Some? {
      ReplyOutcome(maxAttempts, id, v, source, env);
      ReactionsFit(source, v.order.value.status, v.saga.value.state, env.eventType);
    }
  }
}
