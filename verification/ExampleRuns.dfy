/**
 Runs of the three services, from the start, that show what is not excluded: a cancelled order that holds stock because its
 reserve command is delivered once more, a saga stuck behind a failed charge, and a charge that may start a second time.
 */
module ExampleRuns {
  import opened Results
  import opened Orders
  import opened Sagas
  import opened OrderService
  import opened OrderSystem
  import opened OrderRuns
  import opened Inventory
  import opened InventoryLaws
  import opened InventoryConsumer
  import opened Payment
  import opened SagaSystem
  import opened SagaOutcomes
  import opened SagaProgress

  const EXAMPLE_ORDER := Order(0, "t", "u", "r", Pending, [Line(1, 1)], 900, 0)

  const SETUP := Setup(3, map[StockKey("t", 1) := 5])

  // The four rows the order service sends, the two answers of the inventory service and the one of the payment service.
  const RESERVE := Row(0, "t", ReserveStock([Line(1, 1)]), "c")
  const CHARGE := Row(0, "t", ChargePayment(900), "c")
  const RELEASE := Row(0, "t", ReleaseStock, "c")
  const CANCELLED := Row(0, "t", OrderCancelled("u", 900), "c")
  const GRANT := InventoryReply(0, 0, "t", StockReservedEvent, "c")
  const RELEASED := InventoryReply(2, 0, "t", StockReleased, "c")
  const DECLINE := Reply(0, "t", false, "c", false)

  function SystemWith(order: Order, saga: Saga, processed: set<EventId>, rows: seq<Row>): System {
    System(Tables(map[0 := order], map[0 := saga], processed, rows), None, map[], map[])
  }

  lemma ReplyHappens(order: Order, saga: Saga, processed: set<EventId>, rows: seq<Row>, source: Source, env: Envelope, r: Response)
    requires ApplyReply(Aggregate(Some(order), Some(saga)), source, env) == Ok(r) && env.orderId == 0 && env.eventId !in processed
    requires r.after.order.Some? && r.after.saga.Some?
    ensures Step(3, SystemWith(order, saga, processed, rows), Deliver(source, env))
            == SystemWith(r.after.order.value, r.after.saga.value, processed + {env.eventId}, rows + r.emitted)
  {
    assert map[0 := order][0 := r.after.order.value] == map[0 := r.after.order.value];
    assert map[0 := saga][0 := r.after.saga.value] == map[0 := r.after.saga.value];
    assert AggregateOf(Tables(map[0 := order], map[0 := saga], processed, rows), 0) == Aggregate(Some(order), Some(saga));
  }

  const FIRST_SAGA := Saga(0, "t", SagaState.Started, Some("c"), None, 0, 0)
  const RESERVED_ORDER := EXAMPLE_ORDER.(status := Reserved, version := 1)
  const RESERVED_SAGA := Saga(0, "t", StockReserved, Some("c"), Some(FromInventory(0)), 1, 0)
  const COMPENSATING_SAGA := Saga(0, "t", Compensating, Some("c"), Some(FromPayment(0)), 2, 0)
  const LAST_ORDER := EXAMPLE_ORDER.(status := OrderStatus.Cancelled, version := 2)
  const LAST_SAGA := Saga(0, "t", SagaState.Cancelled, Some("c"), Some(FromInventory(1)), 3, 0)

  const AFTER_PLACING := SystemWith(EXAMPLE_ORDER, FIRST_SAGA, {}, [RESERVE])
  const AFTER_GRANT := SystemWith(RESERVED_ORDER, RESERVED_SAGA, {FromInventory(0)}, [RESERVE, CHARGE])
  const AFTER_DECLINE := SystemWith(RESERVED_ORDER, COMPENSATING_SAGA, {FromInventory(0), FromPayment(0)}, [RESERVE, CHARGE, RELEASE])
  const AT_THE_END := SystemWith(LAST_ORDER, LAST_SAGA, {FromInventory(0), FromPayment(0), FromInventory(1)}, [RESERVE, CHARGE, RELEASE, CANCELLED])

  // ----- The order service's four steps -----

  lemma PlaceStep()
    ensures Step(3, EMPTY, Place(EXAMPLE_ORDER, "c")) == AFTER_PLACING
  {
    assert [] + [RESERVE] == [RESERVE];
  }

  lemma GrantStep()
    ensures Step(3, AFTER_PLACING, Deliver(Source.Inventory, InventoryEnvelope(0, GRANT))) == AFTER_GRANT
  {
    assert CanMove(Pending, Reserved) && CanTransition(SagaState.Started, StockReserved);
    ReplyHappens(EXAMPLE_ORDER, FIRST_SAGA, {}, [RESERVE], Source.Inventory, InventoryEnvelope(0, GRANT),
                 Response(Aggregate(Some(RESERVED_ORDER), Some(RESERVED_SAGA)), [CHARGE], None));
    assert [RESERVE] + [CHARGE] == [RESERVE, CHARGE];
    assert {} + {FromInventory(0)} == {FromInventory(0)};
  }

  lemma DeclineStep()
    ensures Step(3, AFTER_GRANT, Deliver(Source.Payment, PaymentEnvelope(0, DECLINE))) == AFTER_DECLINE
  {
    assert CanTransition(StockReserved, Compensating);
    ReplyHappens(RESERVED_ORDER, RESERVED_SAGA, {FromInventory(0)}, [RESERVE, CHARGE], Source.Payment, PaymentEnvelope(0, DECLINE),
                 Response(Aggregate(Some(RESERVED_ORDER), Some(COMPENSATING_SAGA)), [RELEASE], None));
    assert [RESERVE, CHARGE] + [RELEASE] == [RESERVE, CHARGE, RELEASE];
    assert {FromInventory(0)} + {FromPayment(0)} == {FromInventory(0), FromPayment(0)};
  }

  lemma ReleasedStep()
    ensures Step(3, AFTER_DECLINE, Deliver(Source.Inventory, InventoryEnvelope(1, RELEASED))) == AT_THE_END
  {
    assert CanMove(Reserved, OrderStatus.Cancelled) && CanTransition(Compensating, SagaState.Cancelled);
    ReplyHappens(RESERVED_ORDER, COMPENSATING_SAGA, {FromInventory(0), FromPayment(0)}, [RESERVE, CHARGE, RELEASE], Source.Inventory,
                 InventoryEnvelope(1, RELEASED),
                 Response(Aggregate(Some(LAST_ORDER), Some(LAST_SAGA)), [CANCELLED], Some(CancelledOutcome)));
    assert [RESERVE, CHARGE, RELEASE] + [CANCELLED] == [RESERVE, CHARGE, RELEASE, CANCELLED];
  }

  // ----- Stock and payment -----

  const SHELF := Shelf(map[StockKey("t", 1) := 5], [])

  // The shelf after the reservation, and after the release, which puts everything back.
  ghost predicate ShelvesAre(full: Shelf, less: Shelf, back: Shelf) {
    && RunEffect(full, 0, RESERVE) == (less, Some(GRANT))
    && RunEffect(less, 2, RELEASE) == (back, Some(RELEASED))
    && ActiveLines(back.reservations, "t", 0) == []
    && AllAvailable(back.stock, "t", Merged([Line(1, 1)]))
  }

  lemma ExampleRequest()
    ensures Valid([Line(1, 1)]) && Merged([Line(1, 1)]) == [Line(1, 1)] && AllAvailable(SHELF.stock, "t", [Line(1, 1)])
  {
    assert [Line(1, 1)][..0] == [];
    assert Available(SHELF.stock, "t", Line(1, 1));
  }

  lemma Shelves() returns (less: Shelf, back: Shelf)
    ensures ShelvesAre(SHELF, less, back)
  {
    ExampleRequest();
    less, back := ThereAndBackAgain(SHELF, [Line(1, 1)], RESERVE, RELEASE);
  }

  lemma ThereAndBackAgain(full: Shelf, items: seq<Line>, reserve: Row, release: Row) returns (less: Shelf, back: Shelf)
    requires Valid(items) && full.reservations == [] && AllAvailable(full.stock, "t", Merged(items))
    requires reserve == Row(0, "t", ReserveStock(items), "c") && release == Row(0, "t", ReleaseStock, "c")
    ensures RunEffect(full, 0, reserve) == (less, Some(InventoryReply(0, 0, "t", StockReservedEvent, "c")))
    ensures RunEffect(less, 2, release) == (back, Some(InventoryReply(2, 0, "t", StockReleased, "c")))
    ensures ActiveLines(back.reservations, "t", 0) == [] && AllAvailable(back.stock, "t", Merged(items))
  {
    less := Reserve(full, "t", 0, items).0;
    back := Release(less, "t", 0);
    ReleaseUndoesReserve(full, "t", 0, items);
  }

  const EXAMPLE_INPUT := ChargeInput(0, "t", 900, "c")
  const DECLINED := ProviderResult(false, false)
  const P1 := Payments(map[0 := Charging(EXAMPLE_INPUT, None)], {}, [])
  const P2 := Payments(map[0 := Replying(EXAMPLE_INPUT, DECLINED)], {}, [])
  const P3 := Payments(map[0 := Replying(EXAMPLE_INPUT, DECLINED)], {0}, [DECLINE])

  lemma PaymentSteps()
    ensures PaymentNext(NO_PAYMENTS, StartCharge(EXAMPLE_INPUT, true)) == P1
    ensures PaymentNext(P1, ChargeReturns(0, DECLINED)) == P2
    ensures PaymentNext(P2, EmitReply(0)) == P3
  {
    assert [] + [DECLINE] == [DECLINE];
    assert {} + {0} == {0};
  }

  // ----- The services' tables after a sequence of moves -----

  datatype Tableau = Tableau(sys: System, shelf: Shelf, inFlight: seq<InventoryReply>, replies: Replies, pay: Payments)

  ghost predicate At(moves: seq<Move>, t: Tableau) {
    && AllAllowed(moves)
    && var w := WorldAfter(SETUP, moves);
    t == Tableau(OrdersOf(SETUP, w), ShelfOf(SETUP, w), w.inFlight, w.replies, PaymentsOf(w))
  }

  lemma EventAt(moves: seq<Move>, m: Move, t: Tableau, e: Event)
    requires At(moves, t) && Allowed(m)
    requires var w := WorldAfter(SETUP, moves); Onward(SETUP, w, m) == w.(events := w.events + [e])
    ensures At(moves + [m], t.(sys := Step(3, t.sys, e)))
  {
    var w := WorldAfter(SETUP, moves);
    assert (moves + [m])[..|moves|] == moves;
    assert (w.events + [e])[..|w.events|] == w.events;
  }

  lemma PlaceAt(moves: seq<Move>, t: Tableau, e: Event)
    requires At(moves, t) && WellFormed(e) && !e.Deliver?
    ensures At(moves + [OrdersDo(e)], t.(sys := Step(3, t.sys, e)))
  {
    EventAt(moves, OrdersDo(e), t, e);
  }

  lemma InventoryReplyAt(moves: seq<Move>, t: Tableau, n: nat)
    requires At(moves, t) && n < |t.replies.outbox|
    ensures At(moves + [InventoryReplyArrives(n)],
               t.(sys := Step(3, t.sys, Deliver(Source.Inventory, InventoryEnvelope(n, t.replies.outbox[n])))))
  {
    EventAt(moves, InventoryReplyArrives(n), t, Deliver(Source.Inventory, InventoryEnvelope(n, t.replies.outbox[n])));
  }

  lemma PaymentReplyAt(moves: seq<Move>, t: Tableau, n: nat)
    requires At(moves, t) && n < |t.pay.outbox|
    ensures At(moves + [PaymentReplyArrives(n)],
               t.(sys := Step(3, t.sys, Deliver(Source.Payment, PaymentEnvelope(n, t.pay.outbox[n])))))
  {
    EventAt(moves, PaymentReplyArrives(n), t, Deliver(Source.Payment, PaymentEnvelope(n, t.pay.outbox[n])));
  }

  lemma WorkAt(moves: seq<Move>, t: Tableau, n: nat, row: Row, shelf: Shelf, reply: InventoryReply)
    requires At(moves, t) && n < |t.sys.db.outbox| && t.sys.db.outbox[n] == row && CommandOf(row).Some?
    requires RunEffect(t.shelf, n, row) == (shelf, Some(reply))
    ensures At(moves + [InventoryWorks(n)], t.(shelf := shelf, inFlight := t.inFlight + [reply]))
  {
    assert (moves + [InventoryWorks(n)])[..|moves|] == moves;
    EffectIsItsCommand(SETUP, WorldAfter(SETUP, moves), n, row);
  }

  lemma RecordAt(moves: seq<Move>, t: Tableau, n: nat)
    requires At(moves, t) && n < |t.inFlight|
    ensures At(moves + [InventoryRecords(n)], t.(replies := RecordReply(t.replies, t.inFlight[n])))
  {
    assert (moves + [InventoryRecords(n)])[..|moves|] == moves;
  }

  lemma PaymentAt(moves: seq<Move>, t: Tableau, m: Move, s: PaymentStep)
    requires At(moves, t) && Allowed(m)
    requires var w := WorldAfter(SETUP, moves); Onward(SETUP, w, m) == w.(steps := w.steps + [s])
    ensures At(moves + [m], t.(pay := PaymentNext(t.pay, s)))
  {
    assert (moves + [m])[..|moves|] == moves;
    RunSnoc(WorldAfter(SETUP, moves).steps, s);
  }

  lemma ChargeAt(moves: seq<Move>, t: Tableau, n: nat, row: Row, s: PaymentStep)
    requires At(moves, t) && n < |t.sys.db.outbox| && t.sys.db.outbox[n] == row && row.message.ChargePayment?
    requires s == StartCharge(ChargeInput(row.orderId, row.tenantId, row.message.amountCents, row.correlationId), true)
    ensures At(moves + [ChargeArrives(n, true)], t.(pay := PaymentNext(t.pay, s)))
  {
    PaymentAt(moves, t, ChargeArrives(n, true), s);
  }

  // ----- The run -----

  // The tables at five points of the run.
  function T1(full: Shelf): Tableau {
    Tableau(AFTER_PLACING, full, [], Replies({}, []), NO_PAYMENTS)
  }

  function T3(less: Shelf): Tableau {
    Tableau(AFTER_PLACING, less, [GRANT], Replies({0}, [GRANT]), NO_PAYMENTS)
  }

  function T4(less: Shelf): Tableau {
    Tableau(AFTER_GRANT, less, [GRANT], Replies({0}, [GRANT]), NO_PAYMENTS)
  }

  function T8(less: Shelf): Tableau {
    Tableau(AFTER_DECLINE, less, [GRANT], Replies({0}, [GRANT]), P3)
  }

  function T10(back: Shelf): Tableau {
    Tableau(AFTER_DECLINE, back, [GRANT, RELEASED], Replies({0, 2}, [GRANT, RELEASED]), P3)
  }

  function T11(back: Shelf): Tableau {
    Tableau(AT_THE_END, back, [GRANT, RELEASED], Replies({0, 2}, [GRANT, RELEASED]), P3)
  }

  lemma Places() returns (moves: seq<Move>)
    ensures At(moves, T1(SHELF))
  {
    PlaceStep();
    assert At([], Tableau(EMPTY, SHELF, [], Replies({}, []), NO_PAYMENTS));
    PlaceAt([], Tableau(EMPTY, SHELF, [], Replies({}, []), NO_PAYMENTS), Place(EXAMPLE_ORDER, "c"));
    moves := [] + [OrdersDo(Place(EXAMPLE_ORDER, "c"))];
  }

  lemma ReservesStock(before: seq<Move>, full: Shelf, less: Shelf, back: Shelf) returns (moves: seq<Move>)
    requires At(before, T1(full)) && ShelvesAre(full, less, back)
    ensures At(moves, T3(less))
  {
    assert [] + [GRANT] == [GRANT] && {} + {0} == {0};
    WorkAt(before, T1(full), 0, RESERVE, less, GRANT);
    moves := before + [InventoryWorks(0)];
    RecordAt(moves, Tableau(AFTER_PLACING, less, [GRANT], Replies({}, []), NO_PAYMENTS), 0);
    moves := moves + [InventoryRecords(0)];
  }

  lemma ReservesOrder(before: seq<Move>, less: Shelf) returns (moves: seq<Move>)
    requires At(before, T3(less))
    ensures At(moves, T4(less))
  {
    GrantStep();
    InventoryReplyAt(before, T3(less), 0);
    moves := before + [InventoryReplyArrives(0)];
  }

  lemma Declines(before: seq<Move>, less: Shelf) returns (moves: seq<Move>)
    requires At(before, T4(less))
    ensures At(moves, T8(less))
  {
    DeclineStep();
    PaymentSteps();
    ChargeAt(before, T4(less), 1, CHARGE, StartCharge(EXAMPLE_INPUT, true));
    moves := before + [ChargeArrives(1, true)];
    PaymentAt(moves, T4(less).(pay := P1), PaymentWorks(ChargeReturns(0, DECLINED)), ChargeReturns(0, DECLINED));
    moves := moves + [PaymentWorks(ChargeReturns(0, DECLINED))];
    PaymentAt(moves, T4(less).(pay := P2), PaymentWorks(EmitReply(0)), EmitReply(0));
    moves := moves + [PaymentWorks(EmitReply(0))];
    PaymentReplyAt(moves, T4(less).(pay := P3), 0);
    moves := moves + [PaymentReplyArrives(0)];
  }

  lemma ReleasesStock(before: seq<Move>, full: Shelf, less: Shelf, back: Shelf) returns (moves: seq<Move>)
    requires At(before, T8(less)) && ShelvesAre(full, less, back)
    ensures At(moves, T10(back))
  {
    WorkAt(before, T8(less), 2, RELEASE, back, RELEASED);
    moves := before + [InventoryWorks(2)];
    assert [GRANT] + [RELEASED] == [GRANT, RELEASED] && {0} + {2} == {0, 2};
    RecordAt(moves, Tableau(AFTER_DECLINE, back, [GRANT, RELEASED], Replies({0}, [GRANT]), P3), 1);
    moves := moves + [InventoryRecords(1)];
  }

  lemma CancelsOrder(before: seq<Move>, back: Shelf) returns (moves: seq<Move>)
    requires At(before, T10(back))
    ensures At(moves, T11(back))
  {
    ReleasedStep();
    InventoryReplyAt(before, T10(back), 1);
    moves := before + [InventoryReplyArrives(1)];
  }

  // What the order service knows at the end.
  lemma EndOfOrder(w: World)
    requires OrdersOf(SETUP, w) == AT_THE_END
    ensures |OrdersOf(SETUP, w).db.outbox| > 0 && OrdersOf(SETUP, w).db.outbox[0] == RESERVE
    ensures InState(ViewIn(SETUP, w, 0), {SagaState.Cancelled}) && ViewIn(SETUP, w, 0).order == Some(LAST_ORDER)
  {
  }

  // The twelfth move.
  lemma Redelivers(before: seq<Move>, full: Shelf, less: Shelf, back: Shelf)
    requires At(before, T11(back)) && ShelvesAre(full, less, back)
    ensures CancelledAndHolding(before + [InventoryWorks(0)])
  {
    var w := WorldAfter(SETUP, before);
    var x := Onward(SETUP, w, InventoryWorks(0));
    WorldIsSound(SETUP, before);
    EndOfOrder(w);
    TakesAgain(w, x, back);
    assert (before + [InventoryWorks(0)])[..|before|] == before;
  }

  lemma TakesAgain(w: World, x: World, back: Shelf)
    requires Sound(w) && x == Onward(SETUP, w, InventoryWorks(0)) && ShelfOf(SETUP, w) == back
    requires |OrdersOf(SETUP, w).db.outbox| > 0 && OrdersOf(SETUP, w).db.outbox[0] == RESERVE
    requires InState(ViewIn(SETUP, w, 0), {SagaState.Cancelled}) && ViewIn(SETUP, w, 0).order == Some(LAST_ORDER)
    requires ActiveLines(back.reservations, "t", 0) == [] && AllAvailable(back.stock, "t", Merged([Line(1, 1)]))
    ensures ViewIn(SETUP, x, 0) == ViewIn(SETUP, w, 0)
    ensures ActiveLines(ShelfOf(SETUP, x).reservations, "t", 0) == Merged([Line(1, 1)]) != []
  {
    ExampleRequest();
    NormalizedIsSorted([Line(1, 1)]);
    RedeliveryReservesForCancelledOrder(SETUP, w, 0, 0, LAST_ORDER, RESERVE, x);
  }

  ghost predicate CancelledAndHolding(moves: seq<Move>) {
    && AllAllowed(moves)
    && var x := WorldAfter(SETUP, moves);
    && InState(ViewIn(SETUP, x, 0), {SagaState.Cancelled})
    && HoldsItsItems(ViewIn(SETUP, x, 0), ShelfOf(SETUP, x).reservations, 0)
    && Merged(ViewIn(SETUP, x, 0).order.value.items) != []
  }

  /** "A cancelled order holds no stock" is false: in this run the payment is declined, the stock released, the order
      cancelled, and the first reserve command, delivered again, takes the stock once more. */
  lemma CancelledOrderHoldsStock() returns (moves: seq<Move>)
    ensures CancelledAndHolding(moves)
  {
    var less, back := Shelves();
    moves := Places();
    moves := ReservesStock(moves, SHELF, less, back);
    moves := ReservesOrder(moves, less);
    moves := Declines(moves, less);
    moves := ReleasesStock(moves, SHELF, less, back);
    moves := CancelsOrder(moves, back);
    Redelivers(moves, SHELF, less, back);
    moves := moves + [InventoryWorks(0)];
  }

  // ----- Up to the reservation -----

  lemma Reserves() returns (moves: seq<Move>, less: Shelf)
    ensures At(moves, T4(less))
  {
    var back;
    less, back := Shelves();
    moves := Places();
    moves := ReservesStock(moves, SHELF, less, back);
    moves := ReservesOrder(moves, less);
  }

  const FAILED := Payments(map[0 := Failed(EXAMPLE_INPUT, None)], {}, [])

  /** A saga does get stuck: its charge command arrives, and the workflow fails before it replies. */
  lemma StuckHappens() returns (moves: seq<Move>)
    ensures AllAllowed(moves) && Stuck(SETUP, WorldAfter(SETUP, moves), 0) && !IsDiverged(ViewIn(SETUP, WorldAfter(SETUP, moves), 0))
  {
    var less;
    moves, less := Reserves();
    moves := ChargeFails(moves, less);
    StuckThere(WorldAfter(SETUP, moves));
  }

  lemma ChargeFails(before: seq<Move>, less: Shelf) returns (moves: seq<Move>)
    requires At(before, T4(less))
    ensures At(moves, T4(less).(pay := FAILED))
  {
    PaymentSteps();
    ChargeAt(before, T4(less), 1, CHARGE, StartCharge(EXAMPLE_INPUT, true));
    moves := before + [ChargeArrives(1, true)];
    PaymentAt(moves, T4(less).(pay := P1), PaymentWorks(Fail(0)), Fail(0));
    moves := moves + [PaymentWorks(Fail(0))];
    assert PaymentNext(P1, Fail(0)) == FAILED;
  }

  lemma StuckThere(w: World)
    requires OrdersOf(SETUP, w) == AFTER_GRANT && PaymentsOf(w) == FAILED
    ensures Stuck(SETUP, w, 0) && !IsDiverged(ViewIn(SETUP, w, 0))
  {
    assert Confirmed in AllowedStatuses(Reserved);
  }

  const P4 := Payments(map[0 := Workflow.Completed(EXAMPLE_INPUT, DECLINED)], {0}, [DECLINE])
  const FORGOTTEN := Payments(map[], {0}, [DECLINE])

  lemma ClosedAndForgotten()
    ensures PaymentNext(P3, Finish(0)) == P4 && PaymentNext(P4, Forget(0)) == FORGOTTEN
  {
  }

  /** A charge can start a second time: the order is answered, its workflow is closed and forgotten, and its charge row is
      still there to be delivered again. */
  lemma RestartHappens() returns (moves: seq<Move>)
    ensures AllAllowed(moves) && ChargeRow(SETUP, WorldAfter(SETUP, moves), 1, EXAMPLE_INPUT)
    ensures Restarts(PaymentsOf(WorldAfter(SETUP, moves)), StartCharge(EXAMPLE_INPUT, true), 0)
  {
    var less;
    moves, less := Reserves();
    moves := Declines(moves, less);
    PaymentAt(moves, T8(less), PaymentWorks(Finish(0)), Finish(0));
    moves := moves + [PaymentWorks(Finish(0))];
    ClosedAndForgotten();
    PaymentAt(moves, T8(less).(pay := P4), PaymentWorks(Forget(0)), Forget(0));
    moves := moves + [PaymentWorks(Forget(0))];
    RestartThere(WorldAfter(SETUP, moves));
  }

  lemma RestartThere(w: World)
    requires OrdersOf(SETUP, w) == AFTER_DECLINE && PaymentsOf(w) == FORGOTTEN
    ensures ChargeRow(SETUP, w, 1, EXAMPLE_INPUT) && Restarts(PaymentsOf(w), StartCharge(EXAMPLE_INPUT, true), 0)
  {
    assert OrdersOf(SETUP, w).db.outbox[1] == CHARGE;
  }
}
