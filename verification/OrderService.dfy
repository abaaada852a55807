/**
 The order service's side of the saga: the two reply handlers, the reaper's re-drive, the admin reset, order placement
 and the user's cancel and confirm, on the tables they share.
 */
module OrderService {
  import opened Results
  import opened Orders
  import opened Sagas

  // ----- Messages -----

  datatype Message =
    | ReserveStock(items: seq<Line>)
    | ReleaseStock
    | ChargePayment(amountCents: int)
    | OrderConfirmed(userId: string, restaurantId: string, totalCents: int)
    | OrderCancelled(userId: string, totalCents: int)

  /** An outbox row: a command to another service, or a lifecycle event. */
  datatype Row = Row(orderId: nat, tenantId: string, message: Message, correlationId: string)

  datatype EventType =
    | StockReservedEvent
    | StockReservationFailed
    | StockReleased
    | PaymentSucceeded
    | PaymentFailed
    | OtherEvent(name: string)

  datatype Envelope = Envelope(eventId: EventId, eventType: EventType, tenantId: string, orderId: nat, correlationId: string)

  // Which of the two handlers a reply reaches.
  datatype Source = Inventory | Payment

  datatype HandlerError =
    | SagaNotFound
    | OrderNotFound
    | IllegalOrderTransition
    | IllegalSagaTransition
    | ConcurrencyConflict
    | SagaStateChanged
    | SagaTerminal
    | DuplicateOrder
    | OrderForbidden

  datatype SagaOutcome = ConfirmedOutcome | CancelledOutcome

  // ----- The tables -----

  datatype Tables = Tables(orders: map<nat, Order>, sagas: map<nat, Saga>, processed: set<EventId>, outbox: seq<Row>)

  /** The rows of one order. */
  datatype Aggregate = Aggregate(order: Option<Order>, saga: Option<Saga>)

  function Lookup<T>(rows: map<nat, T>, id: nat): Option<T> {
    if id in rows then Some(rows[id]) else None
  }

  function Stored<T>(rows: map<nat, T>, id: nat, row: Option<T>): map<nat, T> {
    if row.Some? then rows[id := row.value] else rows
  }

  function AggregateOf(db: Tables, orderId: nat): Aggregate {
    Aggregate(Lookup(db.orders, orderId), Lookup(db.sagas, orderId))
  }

  function Write(db: Tables, orderId: nat, a: Aggregate, emitted: seq<Row>): Tables {
    db.(orders := Stored(db.orders, orderId, a.order), sagas := Stored(db.sagas, orderId, a.saga),
        outbox := db.outbox + emitted)
  }

  // findByOrderId and findById see only the tenant's rows.
  function SagaOf(a: Aggregate, tenantId: string): Option<Saga> {
    if a.saga.Some? && a.saga.value.tenantId == tenantId then a.saga else None
  }

  function OrderOf(a: Aggregate, tenantId: string): Option<Order> {
    if a.order.Some? && a.order.value.tenantId == tenantId then a.order else None
  }

  // ----- Replies: what a saga does on an event -----

  datatype Emission = EmitCharge | EmitRelease | EmitConfirmed | EmitCancelled

  /** A reaction moves the order (unless stock must be released first), moves the saga and sends one message. */
  datatype Reaction = Reaction(move: Option<OrderStatus>, next: SagaState, emission: Emission)

  /** The whole saga in one table; every other pair of state and event is ignored. */
  function ReactionTo(source: Source, state: SagaState, event: EventType): Option<Reaction> {
    match (source, state, event)
    case (Inventory, Started, StockReservedEvent) => Some(Reaction(Some(Reserved), StockReserved, EmitCharge))
    case (Inventory, Started, StockReservationFailed) => Some(Reaction(Some(OrderStatus.Cancelled), SagaState.Cancelled, EmitCancelled))
    case (Inventory, Compensating, StockReleased) => Some(Reaction(Some(OrderStatus.Cancelled), SagaState.Cancelled, EmitCancelled))
    case (Payment, StockReserved, PaymentSucceeded) => Some(Reaction(Some(Confirmed), Completed, EmitConfirmed))
    case (Payment, StockReserved, PaymentFailed) => Some(Reaction(None, Compensating, EmitRelease))
    case _ => None
  }

  function OutcomeOf(emission: Emission): Option<SagaOutcome> {
    match emission
    case EmitConfirmed => Some(ConfirmedOutcome)
    case EmitCancelled => Some(CancelledOutcome)
    case _ => None
  }

  function MessageFor(emission: Emission, order: Order): Message {
    match emission
    case EmitCharge => ChargePayment(order.totalCents)
    case EmitRelease => ReleaseStock
    case EmitConfirmed => OrderConfirmed(order.userId, order.restaurantId, order.totalCents)
    case EmitCancelled => OrderCancelled(order.userId, order.totalCents)
  }

  datatype Response = Response(after: Aggregate, emitted: seq<Row>, outcome: Option<SagaOutcome>)

  function Respond(a: Aggregate, env: Envelope, saga: Saga, reaction: Reaction): Result<Response, HandlerError> {
    var order := OrderOf(a, env.tenantId);
    if reaction.move.Some? && order.None? then Err(OrderNotFound)
    else if reaction.move.Some? && !CanMove(order.value.status, reaction.move.value) then Err(IllegalOrderTransition)
    else if !CanTransition(saga.state, reaction.next) then Err(IllegalSagaTransition)
    else
      var message := if reaction.move.Some? then MessageFor(reaction.emission, order.value) else ReleaseStock;
      Ok(Response(
        Aggregate(if reaction.move.Some? then Some(Moved(order.value, reaction.move.value)) else a.order,
                  Some(Transitioned(saga, reaction.next, env.eventId))),
        [Row(env.orderId, env.tenantId, message, env.correlationId)],
        OutcomeOf(reaction.emission)))
  }

  function ApplyReply(a: Aggregate, source: Source, env: Envelope): Result<Response, HandlerError> {
    var saga := SagaOf(a, env.tenantId);
    if saga.None? then Err(SagaNotFound)
    else
      var reaction := ReactionTo(source, saga.value.state, env.eventType);
      if reaction.None? then Ok(Response(a, [], None)) else Respond(a, env, saga.value, reaction.value)
  }

  /** A reply's transaction: a repeated event changes nothing, an error leaves every table alone. */
  function HandleReply(db: Tables, source: Source, env: Envelope): (Tables, Result<Option<SagaOutcome>, HandlerError>) {
    if env.eventId in db.processed then (db, Ok(None))
    else
      match ApplyReply(AggregateOf(db, env.orderId), source, env)
      case Err(e) => (db, Err(e))
      case Ok(response) =>
        (Write(db, env.orderId, response.after, response.emitted).(processed := db.processed + {env.eventId}),
         Ok(response.outcome))
  }

  // ----- The reaper -----

  datatype Action = Redrive(row: Row) | Escalate

  /** The reaper's decision, kept between its read and its transaction. */
  datatype Decision = Decision(orderId: nat, expected: SagaState, row: Row)

  function CommandFor(saga: Saga, order: Order): Option<Message> {
    match saga.state
    case Started => Some(ReserveStock(order.items))
    case StockReserved => Some(ChargePayment(order.totalCents))
    case Compensating => Some(ReleaseStock)
    case _ => None
  }

  // decideReconcileAction
  function Decide(saga: Saga, order: Order, maxAttempts: int, freshCorrelation: string): Result<Action, HandlerError> {
    if saga.attempts >= maxAttempts then Ok(Escalate)
    else if CommandFor(saga, order).None? then Err(SagaTerminal)
    else
      var correlation := if saga.correlationId.Some? then saga.correlationId.value else freshCorrelation;
      Ok(Redrive(Row(saga.orderId, saga.tenantId, CommandFor(saga, order).value, correlation)))
  }

  // The first half of recoverOne: anything but a re-drive is logged and dropped.
  function ReadCandidate(db: Tables, tenantId: string, orderId: nat, maxAttempts: int, freshCorrelation: string): Option<Decision> {
    var a := AggregateOf(db, orderId);
    var saga, order := SagaOf(a, tenantId), OrderOf(a, tenantId);
    if saga.None? || order.None? then None
    else
      match Decide(saga.value, order.value, maxAttempts, freshCorrelation)
      case Ok(Redrive(row)) => Some(Decision(orderId, saga.value.state, row))
      case _ => None
  }

  // The second half: its transaction.
  function CommitRedrive(db: Tables, d: Decision): (Tables, Result<(), HandlerError>) {
    var saga := Lookup(db.sagas, d.orderId);
    if saga.None? || saga.value.state != d.expected then (db, Err(SagaStateChanged))
    else
      (db.(sagas := db.sagas[d.orderId := saga.value.(attempts := saga.value.attempts + 1)], outbox := db.outbox + [d.row]),
       Ok(()))
  }

  datatype ResetOutcome = WasReset | WasTerminal | WasNotFound

  function ResetAttempts(db: Tables, tenantId: string, orderId: nat): (Tables, ResetOutcome) {
    var saga := SagaOf(AggregateOf(db, orderId), tenantId);
    if saga.None? then (db, WasNotFound)
    else if IsTerminal(saga.value.state) then (db, WasTerminal)
    else (db.(sagas := db.sagas[orderId := saga.value.(attempts := 0)]), WasReset)
  }

  // ----- The user's commands -----

  function PlaceOrder(db: Tables, order: Order, correlationId: string): (Tables, Result<(), HandlerError>) {
    if order.id in db.orders || order.id in db.sagas then (db, Err(DuplicateOrder))
    else
      (Write(db, order.id,
             Aggregate(Some(order), Some(Saga(order.id, order.tenantId, Started, Some(correlationId), None, 0, 0))),
             [Row(order.id, order.tenantId, ReserveStock(order.items), correlationId)]),
       Ok(()))
  }

  /** Who asks: a user of a tenant, or one of its administrators. */
  datatype Actor = Actor(tenantId: string, userId: string, isAdmin: bool)

  predicate MayTouch(actor: Actor, order: Order) {
    actor.isAdmin || order.userId == actor.userId
  }

  /** Cancel and confirm move the order alone: no saga, no outbox. */
  function MoveOrder(db: Tables, actor: Actor, orderId: nat, next: OrderStatus): (Tables, Result<(), HandlerError>) {
    var order := OrderOf(AggregateOf(db, orderId), actor.tenantId);
    if order.None? then (db, Err(OrderNotFound))
    else if !MayTouch(actor, order.value) then (db, Err(OrderForbidden))
    else if !CanMove(order.value.status, next) then (db, Err(IllegalOrderTransition))
    else (db.(orders := db.orders[orderId := Moved(order.value, next)]), Ok(()))
  }

  // ----- The service object -----

  class OrderService {
    var orders: map<nat, Order>
    var sagas: map<nat, Saga>
    var processed: set<EventId>
    var outbox: seq<Row>

    function Current(): Tables
      reads this
    {
      Tables(orders, sagas, processed, outbox)
    }

    constructor ()
      ensures Current() == Tables(map[], map[], {}, [])
    {
      orders, sagas, processed, outbox := map[], map[], {}, [];
    }

    // ----- Repositories -----

    method FindSaga(tenantId: string, orderId: nat) returns (saga: Option<Saga>)
      ensures saga == SagaOf(AggregateOf(Current(), orderId), tenantId)
    {
      if orderId in sagas && sagas[orderId].tenantId == tenantId {
        return Some(sagas[orderId]);
      }
      return None;
    }

    method FindOrder(tenantId: string, orderId: nat) returns (order: Option<Order>)
      ensures order == OrderOf(AggregateOf(Current(), orderId), tenantId)
    {
      if orderId in orders && orders[orderId].tenantId == tenantId {
        return Some(orders[orderId]);
      }
      return None;
    }

    // Compare the version read, then set the status and count the version up.
    method UpdateStatus(order: Order, next: OrderStatus) returns (ok: bool)
      modifies this`orders
      ensures ok <==> order.id in old(orders) && old(orders)[order.id].tenantId == order.tenantId
                      && old(orders)[order.id].version == order.version
      ensures ok ==> orders == old(orders)[order.id := Moved(old(orders)[order.id], next)]
      ensures !ok ==> orders == old(orders)
    {
      if order.id !in orders || orders[order.id].tenantId != order.tenantId || orders[order.id].version != order.version {
        return false;
      }
      var row := orders[order.id];
      orders := orders[order.id := row.(status := next, version := row.version + 1)];
      return true;
    }

    method TransitionSaga(saga: Saga, next: SagaState, eventId: EventId) returns (ok: bool)
      modifies this`sagas
      ensures ok <==> saga.orderId in old(sagas) && old(sagas)[saga.orderId].tenantId == saga.tenantId
                      && old(sagas)[saga.orderId].version == saga.version
      ensures ok ==> sagas == old(sagas)[saga.orderId := Transitioned(old(sagas)[saga.orderId], next, eventId)]
      ensures !ok ==> sagas == old(sagas)
    {
      if saga.orderId !in sagas || sagas[saga.orderId].tenantId != saga.tenantId || sagas[saga.orderId].version != saga.version {
        return false;
      }
      var row := sagas[saga.orderId];
      sagas := sagas[saga.orderId := row.(state := next, lastEventId := Some(eventId), version := row.version + 1)];
      return true;
    }

    method Append(row: Row)
      modifies this`outbox
      ensures outbox == old(outbox) + [row]
    {
      outbox := outbox + [row];
    }

    // False when the event was processed before.
    method MarkProcessed(eventId: EventId) returns (first: bool)
      modifies this`processed
      ensures first <==> eventId !in old(processed)
      ensures processed == if first then old(processed) + {eventId} else old(processed)
    {
      if eventId in processed {
        return false;
      }
      processed := processed + {eventId};
      return true;
    }

    // ----- The inventory reply handler -----

    method HandleInventoryReply(env: Envelope) returns (r: Result<Option<SagaOutcome>, HandlerError>)
      requires KeyedByOrderId(Current())
      modifies this
      ensures (Current(), r) == HandleReply(old(Current()), Inventory, env)
    {
      var before := (orders, sagas, processed, outbox);
      var first := MarkProcessed(env.eventId);
      if !first {
        return Ok(None);
      }
      r := ApplyInventoryReply(env);
      if r.Err? {
        orders, sagas, processed, outbox := before.0, before.1, before.2, before.3;
      }
    }

    method ApplyInventoryReply(env: Envelope) returns (r: Result<Option<SagaOutcome>, HandlerError>)
      requires KeyedByOrderId(Current())
      modifies this`orders, this`sagas, this`outbox
      ensures Follows(old(Current()), Inventory, env, Current(), r)
    {
      var saga := FindSaga(env.tenantId, env.orderId);
      if saga.None? {
        return Err(SagaNotFound);
      }
      match env.eventType {
        case StockReservedEvent =>
          if saga.value.state != Started {
            return Ok(None);
          }
          var order := FindOrder(env.tenantId, env.orderId);
          if order.None? {
            return Err(OrderNotFound);
          }
          if !CanMove(order.value.status, Reserved) {
            return Err(IllegalOrderTransition);
          }
          var moved := UpdateStatus(order.value, Reserved);
          var advanced := TransitionSaga(saga.value, StockReserved, env.eventId);
          assert moved && advanced;
          Append(Row(env.orderId, env.tenantId, ChargePayment(order.value.totalCents), env.correlationId));
          return Ok(None);
        case StockReservationFailed =>
          if saga.value.state != Started {
            return Ok(None);
          }
          r := CancelBySaga(env, saga.value);
        case StockReleased =>
          if saga.value.state != Compensating {
            return Ok(None);
          }
          r := CancelBySaga(env, saga.value);
        case _ =>
          return Ok(None);
      }
    }

    // loadOrder and cancelOrder
    method CancelBySaga(env: Envelope, saga: Saga) returns (r: Result<Option<SagaOutcome>, HandlerError>)
      requires KeyedByOrderId(Current())
      requires SagaOf(AggregateOf(Current(), env.orderId), env.tenantId) == Some(saga)
      requires CanTransition(saga.state, SagaState.Cancelled)
      modifies this`orders, this`sagas, this`outbox
      ensures Responds(old(Current()), env, saga, Reaction(Some(OrderStatus.Cancelled), SagaState.Cancelled, EmitCancelled), Current(), r)
    {
      var order := FindOrder(env.tenantId, env.orderId);
      if order.None? {
        return Err(OrderNotFound);
      }
      if !CanMove(order.value.status, OrderStatus.Cancelled) {
        return Err(IllegalOrderTransition);
      }
      var moved := UpdateStatus(order.value, OrderStatus.Cancelled);
      var advanced := TransitionSaga(saga, SagaState.Cancelled, env.eventId);
      assert moved && advanced;
      Append(Row(env.orderId, env.tenantId, OrderCancelled(order.value.userId, order.value.totalCents), env.correlationId));
      return Ok(Some(CancelledOutcome));
    }

    // ----- The payment reply handler -----

    method HandlePaymentReply(env: Envelope) returns (r: Result<Option<SagaOutcome>, HandlerError>)
      requires KeyedByOrderId(Current())
      modifies this
      ensures (Current(), r) == HandleReply(old(Current()), Payment, env)
    {
      var before := (orders, sagas, processed, outbox);
      var first := MarkProcessed(env.eventId);
      if !first {
        return Ok(None);
      }
      r := ApplyPaymentReply(env);
      if r.Err? {
        orders, sagas, processed, outbox := before.0, before.1, before.2, before.3;
      }
    }

    method ApplyPaymentReply(env: Envelope) returns (r: Result<Option<SagaOutcome>, HandlerError>)
      requires KeyedByOrderId(Current())
      modifies this`orders, this`sagas, this`outbox
      ensures Follows(old(Current()), Payment, env, Current(), r)
    {
      var saga := FindSaga(env.tenantId, env.orderId);
      if saga.None? {
        return Err(SagaNotFound);
      }
      if saga.value.state != StockReserved {
        return Ok(None);
      }
      match env.eventType {
        case PaymentSucceeded =>
          var order := FindOrder(env.tenantId, env.orderId);
          if order.None? {
            return Err(OrderNotFound);
          }
          if !CanMove(order.value.status, Confirmed) {
            return Err(IllegalOrderTransition);
          }
          var moved := UpdateStatus(order.value, Confirmed);
          var advanced := TransitionSaga(saga.value, Completed, env.eventId);
          assert moved && advanced;
          Append(Row(env.orderId, env.tenantId,
                     OrderConfirmed(order.value.userId, order.value.restaurantId, order.value.totalCents), env.correlationId));
          return Ok(Some(ConfirmedOutcome));
        case PaymentFailed =>
          var advanced := TransitionSaga(saga.value, Compensating, env.eventId);
          assert advanced;
          Append(Row(env.orderId, env.tenantId, ReleaseStock, env.correlationId));
          return Ok(None);
        case _ =>
          return Ok(None);
      }
    }

    // ----- The reaper's two steps -----

    method ReadStranded(tenantId: string, orderId: nat, maxAttempts: int, freshCorrelation: string) returns (d: Option<Decision>)
      ensures d == ReadCandidate(Current(), tenantId, orderId, maxAttempts, freshCorrelation)
    {
      var saga := FindSaga(tenantId, orderId);
      if saga.None? {
        return None;
      }
      var order := FindOrder(tenantId, orderId);
      if order.None? {
        return None;
      }
      match Decide(saga.value, order.value, maxAttempts, freshCorrelation) {
        case Ok(Redrive(row)) => return Some(Decision(orderId, saga.value.state, row));
        case _ => return None;
      }
    }

    method RecordAttemptAndAppend(d: Decision) returns (r: Result<(), HandlerError>)
      modifies this`sagas, this`outbox
      ensures (Current(), r) == CommitRedrive(old(Current()), d)
    {
      if d.orderId !in sagas || sagas[d.orderId].state != d.expected {
        return Err(SagaStateChanged);
      }
      var saga := sagas[d.orderId];
      sagas := sagas[d.orderId := saga.(attempts := saga.attempts + 1)];
      Append(d.row);
      return Ok(());
    }

    method ResetReconcileAttempts(tenantId: string, orderId: nat) returns (outcome: ResetOutcome)
      modifies this`sagas
      ensures (Current(), outcome) == ResetAttempts(old(Current()), tenantId, orderId)
    {
      var saga := FindSaga(tenantId, orderId);
      if saga.None? {
        return WasNotFound;
      }
      if saga.value.state !in {Started, StockReserved, Compensating} {
        TransitionsLowerRank(saga.value.state, Started);
        return WasTerminal;
      }
      TransitionsLowerRank(saga.value.state, Started);
      sagas := sagas[orderId := saga.value.(attempts := 0)];
      return WasReset;
    }

    // ----- The user's commands -----

    method Place(order: Order, correlationId: string) returns (r: Result<(), HandlerError>)
      modifies this`orders, this`sagas, this`outbox
      ensures (Current(), r) == PlaceOrder(old(Current()), order, correlationId)
    {
      if order.id in orders || order.id in sagas {
        return Err(DuplicateOrder);
      }
      orders := orders[order.id := order];
      sagas := sagas[order.id := Saga(order.id, order.tenantId, Started, Some(correlationId), None, 0, 0)];
      Append(Row(order.id, order.tenantId, ReserveStock(order.items), correlationId));
      return Ok(());
    }

    method CancelOrConfirm(actor: Actor, orderId: nat, next: OrderStatus) returns (r: Result<(), HandlerError>)
      requires KeyedByOrderId(Current())
      modifies this`orders
      ensures (Current(), r) == MoveOrder(old(Current()), actor, orderId, next)
    {
      var order := FindOrder(actor.tenantId, orderId);
      if order.None? {
        return Err(OrderNotFound);
      }
      if !MayTouch(actor, order.value) {
        return Err(OrderForbidden);
      }
      if !CanMove(order.value.status, next) {
        return Err(IllegalOrderTransition);
      }
      var moved := UpdateStatus(order.value, next);
      assert moved;
      return Ok(());
    }
  }

  /** Rows are stored under their own order id. */
  ghost predicate KeyedByOrderId(db: Tables) {
    && (forall id <- db.orders :: db.orders[id].id == id)
    && (forall id <- db.sagas :: db.sagas[id].orderId == id)
  }

  // What a handler's work does to the tables, apart from the processed events.
  ghost predicate Responds(before: Tables, env: Envelope, saga: Saga, reaction: Reaction, after: Tables,
                           r: Result<Option<SagaOutcome>, HandlerError>) {
    match Respond(AggregateOf(before, env.orderId), env, saga, reaction)
    case Err(e) => r == Err(e)
    case Ok(response) => r == Ok(response.outcome) && after == Write(before, env.orderId, response.after, response.emitted)
  }

  ghost predicate Follows(before: Tables, source: Source, env: Envelope, after: Tables,
                          r: Result<Option<SagaOutcome>, HandlerError>) {
    match ApplyReply(AggregateOf(before, env.orderId), source, env)
    case Err(e) => r == Err(e)
    case Ok(response) => r == Ok(response.outcome) && after == Write(before, env.orderId, response.after, response.emitted)
  }
}
