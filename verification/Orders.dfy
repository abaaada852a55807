/** The order entity of order.ts and its status table. */
module Orders {
  datatype OrderStatus = Pending | Reserved | Confirmed | Cancelled

  datatype Line = Line(itemId: nat, qty: int)

  /** `items` and every amount are fixed when the order is created; only status and version change. */
  datatype Order = Order(
    id: nat,
    tenantId: string,
    userId: string,
    restaurantId: string,
    status: OrderStatus,
    items: seq<Line>,
    totalCents: int,
    version: nat)

  function AllowedStatuses(status: OrderStatus): set<OrderStatus> {
    match status
    case Pending => {Reserved, Cancelled}
    case Reserved => {Confirmed, Cancelled}
    case Confirmed => {}
    case Cancelled => {}
  }

  predicate CanMove(status: OrderStatus, next: OrderStatus) {
    next in AllowedStatuses(status)
  }

  predicate IsFinal(status: OrderStatus) {
    AllowedStatuses(status) == {}
  }

  // A status update as the repository stores it.
  function Moved(order: Order, next: OrderStatus): Order {
    order.(status := next, version := order.version + 1)
  }

  // What the saga never touches.
  predicate SameTerms(order: Order, other: Order) {
    order.(status := other.status, version := other.version) == other
  }
}

/** The saga record of order-saga.ts and its transition table. */
module Sagas {
  import opened Results

  datatype SagaState = Started | StockReserved | Completed | Compensating | Cancelled

  datatype Saga = Saga(
    orderId: nat,
    tenantId: string,
    state: SagaState,
    correlationId: Option<string>,
    lastEventId: Option<EventId>,
    version: nat,
    attempts: nat)

  /** Event ids are the ids of outbox rows: of the inventory service, of the payment service, or of anyone else. */
  datatype EventId = FromInventory(row: nat) | FromPayment(row: nat) | FromElsewhere(name: string)

  function AllowedStates(state: SagaState): set<SagaState> {
    match state
    case Started => {StockReserved, Cancelled}
    case StockReserved => {Completed, Compensating}
    case Compensating => {Cancelled}
    case Completed => {}
    case Cancelled => {}
  }

  predicate CanTransition(state: SagaState, next: SagaState) {
    next in AllowedStates(state)
  }

  predicate IsTerminal(state: SagaState) {
    AllowedStates(state) == {}
  }

  // A transition as the repository stores it.
  function Transitioned(saga: Saga, next: SagaState, drivingEvent: EventId): Saga {
    saga.(state := next, lastEventId := Some(drivingEvent), version := saga.version + 1)
  }

  /** How many transitions can still follow. */
  function Rank(state: SagaState): nat {
    match state
    case Started => 3
    case StockReserved => 2
    case Compensating => 1
    case Completed => 0
    case Cancelled => 0
  }

  /** The table has no cycles: every transition lowers the rank, and the terminal states are those of rank zero. */
  lemma TransitionsLowerRank(state: SagaState, next: SagaState)
    ensures CanTransition(state, next) ==> Rank(next) < Rank(state)
    ensures IsTerminal(state) <==> Rank(state) == 0
  {
    assert state.Started? ==> StockReserved in AllowedStates(state);
    assert state.StockReserved? ==> Completed in AllowedStates(state);
    assert state.Compensating? ==> Cancelled in AllowedStates(state);
  }
}
