/**
 What answers a saga's commands can get, derived from the two services that answer them, and when a saga can get none at all.
 */
module SagaProgress {
  import opened Sequences
  import opened Orders
  import opened Sagas
  import opened OrderService
  import opened SagaView
  import opened OrderSystem
  import opened OrderRuns
  import opened Inventory
  import opened InventoryLaws
  import opened InventoryConsumer
  import opened Payment
  import opened SagaSystem
  import opened SagaOutcomes

  // ----- The possible answers -----

  // The inventory service, in some state it can be in, answers this row with this event.
  ghost predicate InventoryCanAnswer(row: Row, event: EventType) {
    exists shelf :: WellKept(shelf) && AnswersWith(shelf, row, event)
  }

  predicate AnswersWith(shelf: Shelf, row: Row, event: EventType) {
    RunEffect(shelf, 0, row).1.Some? && RunEffect(shelf, 0, row).1.value.eventType == event
  }

  // The payment service, in some run of it, sends this event for this charge.
  ghost predicate PaymentCanAnswer(row: Row, event: EventType) {
    row.message.ChargePayment? && exists steps :: PaysWith(steps, row, event)
  }

  ghost predicate PaysWith(steps: seq<PaymentStep>, row: Row, event: EventType) {
    exists r <- RepliesOf(PaymentRun(steps), row.orderId) :: PaymentEnvelope(0, r).eventType == event
  }

  ghost predicate CanAnswer(row: Row, source: Source, event: EventType) {
    match source
    case Inventory => InventoryCanAnswer(row, event)
    case Payment => PaymentCanAnswer(row, event)
  }

  // A shelf with just these lines on it.
  function StockFor(tenantId: string, lines: seq<Line>): map<StockKey, int> {
    if lines == [] then map[]
    else StockFor(tenantId, lines[..|lines| - 1])[StockKey(tenantId, lines[|lines| - 1].itemId) := lines[|lines| - 1].qty]
  }

  lemma {:induction false} StockForSuffices(tenantId: string, lines: seq<Line>)
    requires Increasing(lines) && Positive(lines)
    ensures AllAvailable(StockFor(tenantId, lines), tenantId, lines) && NonNegative(StockFor(tenantId, lines))
  {
    if lines != [] {
      var init := lines[..|lines| - 1];
      StockForSuffices(tenantId, init);
      forall i | 0 <= i < |init| ensures Available(StockFor(tenantId, lines), tenantId, lines[i]) {
        assert Available(StockFor(tenantId, init), tenantId, init[i]);
      }
    }
  }

  lemma EmptyShelfIsKept(stock: map<StockKey, int>)
    requires NonNegative(stock)
    ensures WellKept(Shelf(stock, []))
  {
    forall t: string, o: nat ensures Increasing(ActiveLines([], t, o)) {
    }
  }

  lemma ReserveAnswers(row: Row, items: seq<Line>)
    requires row.message == ReserveStock(items) && Valid(items)
    ensures InventoryCanAnswer(row, StockReservedEvent) && InventoryCanAnswer(row, StockReservationFailed)
  {
    NormalizedIsSorted(items);
    StockForSuffices(row.tenantId, Merged(items));
    var full, empty := Shelf(StockFor(row.tenantId, Merged(items)), []), Shelf(map[], []);
    EmptyShelfIsKept(full.stock);
    EmptyShelfIsKept(map[]);
    assert AnswersWith(full, row, StockReservedEvent);
    assert !Available(map[], row.tenantId, Merged(items)[0]);
    assert AnswersWith(empty, row, StockReservationFailed);
  }

  lemma ReleaseAnswers(row: Row)
    requires row.message == ReleaseStock
    ensures InventoryCanAnswer(row, StockReleased)
  {
    EmptyShelfIsKept(map[]);
    assert AnswersWith(Shelf(map[], []), row, StockReleased);
  }

  lemma ChargeAnswers(row: Row, ok: bool)
    requires row.message.ChargePayment?
    ensures PaymentCanAnswer(row, if ok then PaymentSucceeded else PaymentFailed)
  {
    var input := ChargeInput(row.orderId, row.tenantId, row.message.amountCents, row.correlationId);
    var steps := ChargeThrough(input, ProviderResult(ok, false));
    assert [] + steps == steps;
    ChargedThrough([], input, ProviderResult(ok, false), NO_PAYMENTS, PaymentRun(steps));
    var reply := Reply(row.orderId, row.tenantId, ok, row.correlationId, false);
    assert PaymentRun(steps).outbox == [reply];
    FilterMembers(PaymentRun(steps).outbox, ReplyOf(row.orderId));
    assert reply in [reply] && reply in RepliesOf(PaymentRun(steps), row.orderId);
    assert PaysWith(steps, row, if ok then PaymentSucceeded else PaymentFailed);
  }

  /** The answers a saga reckons with are exactly those the other services can give: what the stock handlers and the charge
      workflow can make of the command, and nothing else. */
  lemma AnswersAreExact(row: Row, source: Source, event: EventType)
    requires row.message.ReserveStock? ==> Valid(row.message.items)
    ensures (source, event) in Answers(row.message) <==> CanAnswer(row, source, event)
  {
    match row.message
    case ReserveStock(items) => ReserveAnswers(row, items);
    case ReleaseStock => ReleaseAnswers(row);
    case ChargePayment(_) =>
      ChargeAnswers(row, true);
      ChargeAnswers(row, false);
    case _ =>
  }

  // ----- Every command is answered by the inventory service -----

  // A reserve command carries its order's items.
  predicate FitsOrder(v: View, command: Command) {
    command.ReserveCommand? ==>
      v.order.Some? && v.order.value.tenantId == command.tenantId && v.order.value.items == command.items
  }

  ghost predicate CommandsFit(c: Setup, w: World) {
    forall command <- w.commands :: FitsOrder(ViewIn(c, w, command.orderId), command)
  }

  lemma MoveEvolves(c: Setup, w: World, m: Move, id: nat)
    requires Sound(w) && Allowed(m)
    ensures Evolves(ViewIn(c, w, id), ViewIn(c, Onward(c, w, m), id))
  {
    var v := ViewIn(c, w, id);
    StaysEvolves(v);
    match m
    case OrdersDo(e) => EventMovesOn(c, w, e, id);
    case InventoryReplyArrives(n) =>
      if n < |w.replies.outbox| { EventMovesOn(c, w, Deliver(Source.Inventory, InventoryEnvelope(n, w.replies.outbox[n])), id); }
    case PaymentReplyArrives(n) =>
      if n < |PaymentsOf(w).outbox| { EventMovesOn(c, w, Deliver(Source.Payment, PaymentEnvelope(n, PaymentsOf(w).outbox[n])), id); }
    case _ =>
  }

  lemma EventMovesOn(c: Setup, w: World, e: Event, id: nat)
    requires Sound(w) && WellFormed(e)
    ensures Evolves(ViewIn(c, w, id), ViewIn(c, w.(events := w.events + [e]), id))
  {
    var v := ViewIn(c, w, id);
    RunIsHealthy(c.maxAttempts, w.events, id);
    LastEvent(c.maxAttempts, w.events, e, id);
    EventEvolves(c.maxAttempts, id, v, e, AfterEvent(c.maxAttempts, id, v, e));
    StaysEvolves(v);
  }

  lemma MoveKeepsCommandsFit(c: Setup, w: World, m: Move, next: World)
    requires Sound(w) && Allowed(m) && CommandsFit(c, w) && next == Onward(c, w, m)
    ensures CommandsFit(c, next)
  {
    forall command | command in next.commands ensures FitsOrder(ViewIn(c, next, command.orderId), command) {
      MoveEvolves(c, w, m, command.orderId);
      if command !in w.commands {
        NewCommandFits(c, w, m, next, command);
      } else {
        assert FitsOrder(ViewIn(c, w, command.orderId), command);
      }
    }
  }

  lemma NewCommandFits(c: Setup, w: World, m: Move, next: World, command: Command)
    requires Sound(w) && next == Onward(c, w, m) && command in next.commands && command !in w.commands
    ensures FitsOrder(ViewIn(c, w, command.orderId), command)
  {
    if m.InventoryWorks? && m.row < |OrdersOf(c, w).db.outbox| {
      RowFitsItsOrder(c, w, m.row);
    }
  }

  lemma {:induction false} WorldCommandsFit(c: Setup, moves: seq<Move>)
    requires AllAllowed(moves)
    ensures CommandsFit(c, WorldAfter(c, moves))
  {
    if moves != [] {
      var init, m := moves[..|moves| - 1], moves[|moves| - 1];
      WorldCommandsFit(c, init);
      WorldIsSound(c, init);
      assert m in moves;
      MoveKeepsCommandsFit(c, WorldAfter(c, init), m, WorldAfter(c, moves));
    }
  }

  // If all reserve commands of an order ask for the same items, it holds those or nothing.
  lemma {:induction false} HoldsItsRequest(initial: map<StockKey, int>, commands: seq<Command>, tenantId: string, orderId: nat, items: seq<Line>)
    requires NonNegative(initial)
    requires forall k <- commands :: IsReserveOf(k, tenantId, orderId) ==> k.items == items
    ensures ActiveLines(ApplyAll(initial, commands).reservations, tenantId, orderId) in {[], Merged(items)}
  {
    if commands != [] {
      var init, k := commands[..|commands| - 1], commands[|commands| - 1];
      HoldsItsRequest(initial, init, tenantId, orderId, items);
      RunKeepsTables(initial, init);
      assert k in commands;
      HoldsItsNext(ApplyAll(initial, init), k, tenantId, orderId, items);
    }
  }

  lemma HoldsItsNext(shelf: Shelf, k: Command, tenantId: string, orderId: nat, items: seq<Line>)
    requires WellKept(shelf) && (IsReserveOf(k, tenantId, orderId) ==> k.items == items)
    requires ActiveLines(shelf.reservations, tenantId, orderId) in {[], Merged(items)}
    ensures ActiveLines(Apply(shelf, k).reservations, tenantId, orderId) in {[], Merged(items)}
  {
    if k.tenantId != tenantId || k.orderId != orderId {
      OthersHoldTheSame(shelf, k, tenantId, orderId);
    } else if k.ReleaseCommand? {
      ClosedActive(shelf.reservations, tenantId, orderId, tenantId, orderId);
    } else if Valid(items) {
      ReserveOutcome(shelf, tenantId, orderId, items);
    }
  }

  /** In every world a stock command is answered, whenever it is delivered, unless it asks for an invalid request; in
      particular no reserve command of an order ever conflicts with what the order holds. */
  lemma StockCommandsAreAnswered(c: Setup, moves: seq<Move>, w: World, n: nat, row: Row)
    requires NonNegative(c.initial) && AllAllowed(moves) && w == WorldAfter(c, moves)
    requires n < |OrdersOf(c, w).db.outbox| && row == OrdersOf(c, w).db.outbox[n] && CommandOf(row).Some?
    ensures RunEffect(ShelfOf(c, w), n, row).1.None? <==> row.message.ReserveStock? && !Valid(row.message.items)
  {
    if row.message.ReserveStock? && Valid(row.message.items) {
      var items := row.message.items;
      WorldIsSound(c, moves);
      WorldCommandsFit(c, moves);
      RowFitsItsOrder(c, w, n);
      ShelfIsKept(c, w);
      forall k | k in w.commands && IsReserveOf(k, row.tenantId, row.orderId) ensures k.items == items {
        assert FitsOrder(ViewIn(c, w, k.orderId), k);
      }
      HoldsItsRequest(c.initial, w.commands, row.tenantId, row.orderId, items);
      NormalizedIsSorted(items);
      ReserveOutcome(ShelfOf(c, w), row.tenantId, row.orderId, items);
    }
  }

  // ----- When the payment service never answers -----

  // The charge failed before a reply was sent, and the saga waits for it.
  ghost predicate Stuck(c: Setup, w: World, id: nat) {
    && InState(ViewIn(c, w, id), {StockReserved})
    && IsFailed(PaymentsOf(w), id) && RepliesOf(PaymentsOf(w), id) == []
  }

  /** It takes one failure: a charge that fails before its reply is sent leaves its saga stuck. */
  lemma FailureSticks(c: Setup, w: World, id: nat)
    requires InState(ViewIn(c, w, id), {StockReserved})
    requires id in PaymentsOf(w).workflows && !PaymentsOf(w).workflows[id].Completed? && RepliesOf(PaymentsOf(w), id) == []
    ensures Stuck(c, Onward(c, w, PaymentWorks(Fail(id))), id)
  {
    RunSnoc(w.steps, Fail(id));
    StepAddsReplies(PaymentsOf(w), Fail(id), id);
    assert RepliesOf(PaymentsOf(w), id) + [] == RepliesOf(PaymentsOf(w), id);
  }

  lemma StuckStays(c: Setup, w: World, m: Move, id: nat)
    requires NonNegative(c.initial) && Sound(w) && Linked(c, w, id) && Allowed(m) && m != PaymentWorks(Forget(id))
    requires Stuck(c, w, id)
    ensures Stuck(c, Onward(c, w, m), id)
  {
    match m
    case OrdersDo(e) => StuckThroughEvent(c, w, e, id);
    case InventoryReplyArrives(n) =>
      if n < |w.replies.outbox| {
        StuckThroughEvent(c, w, Deliver(Source.Inventory, InventoryEnvelope(n, w.replies.outbox[n])), id);
      }
    case PaymentReplyArrives(n) =>
      if n < |PaymentsOf(w).outbox| {
        var e := Deliver(Source.Payment, PaymentEnvelope(n, PaymentsOf(w).outbox[n]));
        ReplyIsBacked(w, n, id);
        StuckThroughEvent(c, w, e, id);
      }
    case ChargeArrives(n, recovers) =>
      var outbox := OrdersOf(c, w).db.outbox;
      if n < |outbox| && outbox[n].message.ChargePayment? {
        StuckThroughStep(c, w, StartCharge(ChargeInput(outbox[n].orderId, outbox[n].tenantId, outbox[n].message.amountCents,
                                                       outbox[n].correlationId), recovers), id);
      }
    case PaymentWorks(s) => StuckThroughStep(c, w, s, id);
    case _ =>
  }

  lemma StuckThroughStep(c: Setup, w: World, s: PaymentStep, id: nat)
    requires Stuck(c, w, id) && s != Forget(id)
    ensures Stuck(c, w.(steps := w.steps + [s]), id)
  {
    RunSnoc(w.steps, s);
    FailedStays(PaymentsOf(w), s, id);
  }

  // Nothing but a payment reply takes a saga out of STOCK_RESERVED.
  lemma StuckThroughEvent(c: Setup, w: World, e: Event, id: nat)
    requires Sound(w) && Stuck(c, w, id) && WellFormed(e) && Backed(w, e, id)
    ensures Stuck(c, w.(events := w.events + [e]), id)
  {
    var v := ViewIn(c, w, id);
    var x := AfterEvent(c.maxAttempts, id, v, e);
    RunIsHealthy(c.maxAttempts, w.events, id);
    LastEvent(c.maxAttempts, w.events, e, id);
    EventKeepsHealth(c.maxAttempts, id, v, e, x);
    EventEvolves(c.maxAttempts, id, v, e, x);
    EventCauses(c.maxAttempts, id, v, e, x);
    WaitsForPayment(c.maxAttempts, id, v, e, x);
  }

  lemma WaitsForPayment(maxAttempts: nat, id: nat, v: View, e: Event, x: View)
    requires Healthy(maxAttempts, id, v) && Healthy(maxAttempts, id, x) && Evolves(v, x) && Caused(v, e, x, id)
    requires InState(v, {StockReserved})
    requires !Brings(e, Source.Payment, PaymentSucceeded, id) && !Brings(e, Source.Payment, PaymentFailed, id)
    ensures InState(x, {StockReserved})
  {
    NotReleasedYet(v.order.value, StockReserved, v.rows);
    assert CanTransition(StockReserved, x.saga.value.state) ==> x.saga.value.state in {SagaState.Completed, Compensating};
  }

  predicate Retains(m: Move, id: nat) {
    m != PaymentWorks(Forget(id))
  }

  ghost predicate NeverForgets(moves: seq<Move>, id: nat) {
    forall m <- moves :: Retains(m, id)
  }

  /** A charge that fails for good strands its saga: from then on, as long as the failed workflow is retained, nothing that
      happens, no re-driven charge, no operator's reset and no signal, takes the saga out of STOCK_RESERVED; it announces
      nothing, and all that re-driving does is use up its budget. */
  lemma {:induction false} FailedChargeStrandsSaga(c: Setup, moves: seq<Move>, more: seq<Move>, id: nat)
    requires NonNegative(c.initial) && AllAllowed(moves + more) && Stuck(c, WorldAfter(c, moves), id) && NeverForgets(more, id)
    ensures Stuck(c, WorldAfter(c, moves + more), id)
    ensures Announced(ViewIn(c, WorldAfter(c, moves + more), id).rows) == []
  {
    if more == [] {
      assert moves + more == moves;
    } else {
      var init, m := more[..|more| - 1], more[|more| - 1];
      assert m in more && moves + more == (moves + init) + [m];
      assert AllAllowed(moves + init) && Allowed(m) && NeverForgets(init, id) && Retains(m, id);
      FailedChargeStrandsSaga(c, moves, init, id);
      WorldIsSound(c, moves + init);
      WorldIsLinked(c, moves + init, id);
      MoveHappens(c, moves + init, m);
      StuckStays(c, WorldAfter(c, moves + init), m, id);
    }
    NothingAnnounced(c, moves + more, id, ViewIn(c, WorldAfter(c, moves + more), id));
  }

  lemma NothingAnnounced(c: Setup, moves: seq<Move>, id: nat, v: View)
    requires AllAllowed(moves) && v == ViewIn(c, WorldAfter(c, moves), id) && InState(v, {StockReserved})
    ensures Announced(v.rows) == []
  {
    WorldIsSound(c, moves);
    RunIsHealthy(c.maxAttempts, WorldAfter(c, moves).events, id);
  }
}
