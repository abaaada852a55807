/** What the three services guarantee together, in every run. */
module SagaOutcomes {
  import opened Results
  import opened Sequences
  import opened Orders
  import opened Sagas
  import opened OrderService
  import opened SagaView
  import opened OrderSystem
  import opened Inventory
  import opened InventoryLaws
  import opened Payment
  import opened SagaSystem

  predicate InState(v: View, states: set<SagaState>) {
    v.saga.Some? && v.saga.value.state in states
  }

  // ----- Payment and outcome -----

  // The cases behind the theorem, on one order's view.
  lemma OutcomeFollowsReply(maxAttempts: nat, id: nat, v: View, p: Payments)
    requires Healthy(maxAttempts, id, v) && PaymentLinks(v, p, id) && Faithful(p, id)
    ensures Replied(p, id, true) ==> InState(v, {StockReserved, SagaState.Completed}) && !Replied(p, id, false)
    ensures Replied(p, id, false) ==> InState(v, {StockReserved, Compensating, SagaState.Cancelled})
    ensures InState(v, {SagaState.Completed}) ==> Replied(p, id, true)
    ensures InState(v, {Compensating}) ==> Replied(p, id, false)
  {
    if Replied(p, id, true) || Replied(p, id, false) {
      assert RepliesOf(p, id) != [];
      assert SagaView.Charged(v.rows);
      assert v.saga.Some?;
      if v.saga.value.state == SagaState.Started {
        NotChargedYet(v.order.value, v.rows);
      }
    }
  }

  /** Payment and outcome agree, with any number of re-driven and redelivered charges, each workflow free to succeed or fail
      and to be forgotten afterwards, as long as no charge command starts a second workflow for an order already answered: a
      payment means the saga is or will be completed and never cancelled, a declined one that it is or will be cancelled and
      never completed; and conversely no order is completed without a payment, none compensated without a declined one. */
  lemma PaymentAndOutcomeAgree(c: Setup, moves: seq<Move>, id: nat, w: World, v: View, p: Payments)
    requires NonNegative(c.initial) && AllAllowed(moves) && NeverRestarted(w.steps, id)
    requires w == WorldAfter(c, moves) && v == ViewIn(c, w, id) && p == PaymentsOf(w)
    ensures Replied(p, id, true) ==> InState(v, {StockReserved, SagaState.Completed}) && !Replied(p, id, false)
    ensures Replied(p, id, false) ==> InState(v, {StockReserved, Compensating, SagaState.Cancelled})
    ensures InState(v, {SagaState.Completed}) ==> Replied(p, id, true)
    ensures InState(v, {Compensating}) ==> Replied(p, id, false)
  {
    WorldIsLinked(c, moves, id);
    WorldIsSound(c, moves);
    RunIsHealthy(c.maxAttempts, w.events, id);
    RepliesRepeatTheOutcome(w.steps, id);
    OutcomeFollowsReply(c.maxAttempts, id, v, p);
  }

  lemma MoveHappens(c: Setup, moves: seq<Move>, m: Move)
    ensures WorldAfter(c, moves + [m]) == Onward(c, WorldAfter(c, moves), m)
  {
    assert (moves + [m])[..|moves|] == moves;
  }

  // Steps of the payment service, as moves of the world.
  lemma {:induction false} PaymentMovesOn(c: Setup, moves: seq<Move>, steps: seq<PaymentStep>, n: nat) returns (more: seq<Move>)
    requires AllAllowed(moves)
    requires forall s <- steps :: s.StartCharge? ==> ChargeRow(c, WorldAfter(c, moves), n, s.input) && s.recovers
    ensures AllAllowed(more) && moves <= more && OnlyThese(more[|moves|..], steps)
    ensures WorldAfter(c, more) == WorldAfter(c, moves).(steps := WorldAfter(c, moves).steps + steps)
  {
    var w := WorldAfter(c, moves);
    if steps == [] {
      more := moves;
      assert w.steps + steps == w.steps;
    } else {
      var init, s := steps[..|steps| - 1], steps[|steps| - 1];
      var before := PaymentMovesOn(c, moves, init, n);
      assert s in steps;
      var m := if s.StartCharge? then ChargeArrives(n, true) else PaymentWorks(s);
      more := before + [m];
      MoveHappens(c, before, m);
      assert steps == init + [s];
      assert w.steps + init + [s] == w.steps + steps;
      OneMoreOfThese(more[|moves|..|before|], m, init, steps);
      assert more[|moves|..] == more[|moves|..|before|] + [m];
    }
  }

  // The payment service does nothing else.
  ghost predicate OnlyThese(moves: seq<Move>, steps: seq<PaymentStep>) {
    forall m <- moves :: m.PaymentWorks? ==> m.s in steps
  }

  lemma OneMoreOfThese(moves: seq<Move>, m: Move, init: seq<PaymentStep>, steps: seq<PaymentStep>)
    requires OnlyThese(moves, init) && init <= steps && (m.PaymentWorks? ==> m.s in steps)
    ensures OnlyThese(moves + [m], steps)
  {
  }

  // Row n is the charge command with this input.
  predicate ChargeRow(c: Setup, w: World, n: nat, input: ChargeInput) {
    && n < |OrdersOf(c, w).db.outbox|
    && var row := OrdersOf(c, w).db.outbox[n];
    && row.message.ChargePayment? && input == ChargeInput(row.orderId, row.tenantId, row.message.amountCents, row.correlationId)
  }

  /** The condition is exact: in any world where a charge row could start a second workflow for an answered order, the run can
      go on so that the order is told both that it was paid and that it was not. */
  lemma RestartBreaksAgreement(c: Setup, moves: seq<Move>, n: nat, input: ChargeInput) returns (more: seq<Move>)
    requires AllAllowed(moves) && ChargeRow(c, WorldAfter(c, moves), n, input)
    requires Restarts(PaymentsOf(WorldAfter(c, moves)), StartCharge(input, true), input.orderId)
    ensures AllAllowed(more) && moves <= more
    ensures Replied(PaymentsOf(WorldAfter(c, more)), input.orderId, true) && Replied(PaymentsOf(WorldAfter(c, more)), input.orderId, false)
  {
    var w := WorldAfter(c, moves);
    var steps := RestartedWorkflowContradictsItself(w.steps, input);
    more := PaymentMovesOn(c, moves, steps, n);
  }

  // ----- Stock and outcome -----

  /** A reserved order that neither the saga nor a user has given up holds exactly its items, and a completed order holds them
      for good. */
  lemma CompletedOrdersHoldTheirItems(c: Setup, moves: seq<Move>, id: nat, w: World, v: View)
    requires NonNegative(c.initial) && AllAllowed(moves) && w == WorldAfter(c, moves) && v == ViewIn(c, w, id)
    ensures InState(v, {SagaState.Completed}) || (InState(v, {StockReserved}) && !IsFreed(v)) ==>
              HoldsItsItems(v, ShelfOf(c, w).reservations, id)
  {
    WorldIsLinked(c, moves, id);
    WorldIsSound(c, moves);
    RunIsHealthy(c.maxAttempts, w.events, id);
    if InState(v, {StockReserved, SagaState.Completed}) {
      NotReleasedYet(v.order.value, v.saga.value.state, v.rows);
      TransitionsLowerRank(v.saga.value.state, SagaState.Started);
    }
  }

  /** What these orders sold of an item. */
  function Sold(s: System, ids: seq<nat>, key: StockKey): int {
    if ids == [] then 0
    else
      var v := ViewOf(s, ids[|ids| - 1]);
      Sold(s, ids[..|ids| - 1], key)
      + if v.order.Some? then Share(v.order.value.tenantId, v.order.value.items, key) else 0
  }

  function KeyOf(s: System, id: nat): OrderKey {
    var v := ViewOf(s, id);
    OrderKey(if v.order.Some? then v.order.value.tenantId else "", id)
  }

  function KeysOf(s: System, ids: seq<nat>): (keys: seq<OrderKey>)
    ensures |keys| == |ids| && forall i :: 0 <= i < |ids| ==> keys[i] == KeyOf(s, ids[i])
  {
    seq(|ids|, i requires 0 <= i < |ids| => KeyOf(s, ids[i]))
  }

  lemma {:induction false} SoldIsPromised(c: Setup, w: World, ids: seq<nat>, key: StockKey)
    requires forall id <- ids :: HoldsItsItems(ViewIn(c, w, id), ShelfOf(c, w).reservations, id)
    ensures Sold(OrdersOf(c, w), ids, key) == Promised(ShelfOf(c, w).reservations, KeysOf(OrdersOf(c, w), ids), key)
  {
    if ids != [] {
      var init, id := ids[..|ids| - 1], ids[|ids| - 1];
      SoldIsPromised(c, w, init, key);
      assert id in ids;
      var keys := KeysOf(OrdersOf(c, w), ids);
      assert keys[..|keys| - 1] == KeysOf(OrdersOf(c, w), init);
      NormalizedAsksTheSame(ViewIn(c, w, id).order.value.items, key.itemId);
    }
  }

  /** Nothing is sold twice: any distinct completed orders together took no more of an item than there was in stock. */
  lemma CompletedOrdersNeverOversell(c: Setup, moves: seq<Move>, ids: seq<nat>, key: StockKey)
    requires NonNegative(c.initial) && AllAllowed(moves) && key in c.initial && Distinct(ids)
    requires forall id <- ids :: InState(ViewIn(c, WorldAfter(c, moves), id), {SagaState.Completed})
    ensures Sold(OrdersOf(c, WorldAfter(c, moves)), ids, key) <= c.initial[key]
  {
    var w := WorldAfter(c, moves);
    forall id | id in ids ensures HoldsItsItems(ViewIn(c, w, id), ShelfOf(c, w).reservations, id) {
      CompletedOrdersHoldTheirItems(c, moves, id, w, ViewIn(c, w, id));
    }
    SoldIsPromised(c, w, ids, key);
    NothingIsPromisedTwice(c.initial, w.commands, KeysOf(OrdersOf(c, w), ids), key);
  }

  /** Every inventory command is answered at most once, though its effect may run many times. */
  lemma OneAnswerPerCommand(c: Setup, moves: seq<Move>, i: nat, j: nat)
    requires AllAllowed(moves) && i < j < |WorldAfter(c, moves).replies.outbox|
    ensures WorldAfter(c, moves).replies.outbox[i].command != WorldAfter(c, moves).replies.outbox[j].command
  {
    WorldIsSound(c, moves);
  }

  // ----- When a cancelled order holds stock -----

  /** A cancelled order, whether its saga or a user cancelled it, holds nothing if and only if none of its reserve commands
      was granted since the last release of its stock was carried out. */
  lemma CancelledOrderHoldsNothingExactlyWhen(c: Setup, moves: seq<Move>, id: nat, w: World, v: View, order: Order)
    requires NonNegative(c.initial) && AllAllowed(moves) && w == WorldAfter(c, moves) && v == ViewIn(c, w, id)
    requires v.order == Some(order) && (order.status == OrderStatus.Cancelled || InState(v, {SagaState.Cancelled}))
    ensures ActiveLines(ShelfOf(c, w).reservations, order.tenantId, id) == []
            <==> !GrantedSinceRelease(c.initial, w.commands, order.tenantId, id)
  {
    HoldsExactlyWhenGrantedSinceRelease(c.initial, w.commands, order.tenantId, id);
  }

  /** A user's cancel does not touch the stock by itself: if its release call is lost the order holds what it held; when the
      call arrives it holds nothing. */
  lemma CancelLeavesStockToItsRelease(c: Setup, w: World, actor: Actor, tenantId: string, id: nat, cancelled: World, released: World)
    requires tenantId == actor.tenantId && cancelled == Onward(c, w, OrdersDo(UserCancels(actor, id)))
    requires released == Onward(c, cancelled, CancelReleases(tenantId, id))
    requires IsCancelled(OrderOf(AggregateOf(OrdersOf(c, cancelled).db, id), tenantId))
    ensures ActiveLines(ShelfOf(c, cancelled).reservations, tenantId, id) == ActiveLines(ShelfOf(c, w).reservations, tenantId, id)
    ensures ActiveLines(ShelfOf(c, released).reservations, tenantId, id) == []
  {
    assert released.commands[..|cancelled.commands|] == cancelled.commands;
    ClosedActive(ShelfOf(c, cancelled).reservations, tenantId, id, tenantId, id);
  }

  /** When a reserve command delivered again after its order was cancelled and its stock returned takes the stock once more:
      exactly if the request is valid and there is enough of everything. */
  lemma RedeliveryReservesForCancelledOrder(c: Setup, w: World, n: nat, id: nat, order: Order, row: Row, x: World)
    requires NonNegative(c.initial) && Sound(w) && x == Onward(c, w, InventoryWorks(n))
    requires n < |OrdersOf(c, w).db.outbox| && OrdersOf(c, w).db.outbox[n] == row
    requires row.orderId == id && row.message.ReserveStock?
    requires InState(ViewIn(c, w, id), {SagaState.Cancelled}) && ViewIn(c, w, id).order == Some(order)
    requires ActiveLines(ShelfOf(c, w).reservations, order.tenantId, id) == []
    ensures ViewIn(c, x, id) == ViewIn(c, w, id)
    ensures ActiveLines(ShelfOf(c, x).reservations, order.tenantId, id) != []
            <==> Valid(order.items) && AllAvailable(ShelfOf(c, w).stock, order.tenantId, Merged(order.items))
    ensures ActiveLines(ShelfOf(c, x).reservations, order.tenantId, id) in {[], Merged(order.items)}
  {
    RowFitsItsOrder(c, w, n);
    ShelfIsKept(c, w);
    EffectIsItsCommand(c, w, n, row);
    if Valid(order.items) {
      ReserveOutcome(ShelfOf(c, w), order.tenantId, id, order.items);
      NormalizedIsSorted(order.items);
    }
  }
}
