/** When a running saga can still be brought to its end, from wherever the three services stand. */
module SagaEnding {
  import opened Results
  import opened Sequences
  import opened Sagas
  import opened OrderService
  import opened SagaView
  import opened OrderSystem
  import opened OrderRuns
  import opened Inventory
  import opened InventoryLaws
  import opened InventoryConsumer
  import opened Payment
  import opened SagaSystem
  import opened SagaOutcomes
  import opened SagaProgress
  import opened SagaReplies

  /** Nothing stands in the saga's way: no user has ended the order, its charge has not failed unanswered, and what it asks
      the inventory service for is a valid request. */
  ghost predicate Unblocked(c: Setup, w: World, id: nat) {
    var v := ViewIn(c, w, id);
    && v.saga.Some? && v.order.Some?
    && !IsDiverged(v) && !Stuck(c, w, id)
    && (v.saga.value.state == SagaState.Started ==> Valid(v.order.value.items))
  }

  predicate IsRunning(v: View) {
    v.saga.Some? && !IsTerminal(v.saga.value.state)
  }

  predicate IsOver(v: View) {
    v.saga.Some? && IsTerminal(v.saga.value.state)
  }

  // The run goes on, without the end of this workflow's retention.
  ghost predicate Continues(moves: seq<Move>, more: seq<Move>, id: nat) {
    AllAllowed(more) && moves <= more && NeverForgets(more[|moves|..], id)
  }

  lemma ContinuesOneMore(moves: seq<Move>, more: seq<Move>, m: Move, id: nat)
    requires Continues(moves, more, id) && Allowed(m) && Retains(m, id)
    ensures Continues(moves, more + [m], id)
  {
    assert (more + [m])[|moves|..] == more[|moves|..] + [m];
  }

  lemma ContinuesOn(moves: seq<Move>, more: seq<Move>, most: seq<Move>, id: nat)
    requires Continues(moves, more, id) && Continues(more, most, id)
    ensures Continues(moves, most, id)
  {
    assert most[|moves|..] == more[|moves|..] + most[|more|..];
  }

  // What is known of a world about one order.
  ghost predicate Known(c: Setup, w: World, id: nat) {
    var v := ViewIn(c, w, id);
    && Sound(w) && Linked(c, w, id) && RecordedArePast(c, w, id) && Healthy(c.maxAttempts, id, v) && CommandSent(v)
    && RepliesFit(OrdersOf(c, w).db.outbox, w.inFlight, w.replies.outbox) && OwnCharges(v.order, PaymentsOf(w), id)
  }

  lemma WorldIsKnown(c: Setup, moves: seq<Move>, id: nat, w: World)
    requires NonNegative(c.initial) && AllAllowed(moves) && w == WorldAfter(c, moves)
    ensures Known(c, w, id)
  {
    WorldIsSound(c, moves);
    WorldIsLinked(c, moves, id);
    RecordedRepliesArePast(c, moves, id, w);
    RunIsHealthy(c.maxAttempts, w.events, id);
    CommandWasSent(c.maxAttempts, w.events, id);
    RepliesAnswerTheirCommands(c, moves, w);
    ChargesAreOwn(c, moves, id, w);
  }

  // ----- One answer -----

  // The row of the command the saga waits for.
  lemma CommandRow(c: Setup, w: World, id: nat, v: View) returns (n: nat)
    requires Known(c, w, id) && v == ViewIn(c, w, id) && IsRunning(v)
    ensures v.order.Some? && n < |OrdersOf(c, w).db.outbox|
    ensures var row := OrdersOf(c, w).db.outbox[n];
            row.orderId == id && row.tenantId == v.saga.value.tenantId && CommandFor(v.saga.value, v.order.value) == Some(row.message)
  {
    TransitionsLowerRank(v.saga.value.state, SagaState.Started);
    var rows := OrdersOf(c, w).db.outbox;
    var i :| 0 <= i < |v.rows| && Some(v.rows[i].message) == CommandFor(v.saga.value, v.order.value);
    var row := v.rows[i];
    FilterMembers(rows, Of(id));
    assert row in v.rows && Of(id)(row) && row in rows;
    n :| n < |rows| && rows[n] == row;
    assert Fitting(v.order.value, v.saga.value.state, row);
  }

  /** A first answer to the command of a running saga that no user has ended takes it on, and leaves it so. */
  lemma AnswerArrives(c: Setup, w: World, id: nat, source: Source, env: Envelope, v: View, x: View)
    requires Sound(w) && Healthy(c.maxAttempts, id, v) && v == ViewIn(c, w, id) && IsRunning(v) && !IsDiverged(v) && v.order.Some?
    requires env.orderId == id && env.tenantId == v.saga.value.tenantId && env.eventId !in OrdersOf(c, w).db.processed
    requires CommandFor(v.saga.value, v.order.value).Some?
    requires (source, env.eventType) in Answers(CommandFor(v.saga.value, v.order.value).value)
    requires x == ViewIn(c, w.(events := w.events + [Deliver(source, env)]), id)
    ensures x.saga.Some? && Rank(x.saga.value.state) < Rank(v.saga.value.state) && !IsDiverged(x)
  {
    EventRowsStay(c, w, Deliver(source, env));
    RedriveMakesProgress(c.maxAttempts, w.events, source, env, v, x);
    LastEvent(c.maxAttempts, w.events, Deliver(source, env), id);
    DivergedReply(c.maxAttempts, id, v, source, env);
  }

  // ----- Stock -----

  ghost predicate SameOrders(w: World, x: World) {
    x.events == w.events && x.steps == w.steps
  }

  // The command is carried out and its answer recorded, unless that was done before.
  lemma StockIsAnswered(c: Setup, moves: seq<Move>, id: nat, n: nat, w: World, row: Row) returns (more: seq<Move>, k: nat)
    requires NonNegative(c.initial) && AllAllowed(moves) && w == WorldAfter(c, moves)
    requires n < |OrdersOf(c, w).db.outbox| && row == OrdersOf(c, w).db.outbox[n] && CommandOf(row).Some?
    requires row.message.ReserveStock? ==> Valid(row.message.items)
    ensures Continues(moves, more, id) && SameOrders(w, WorldAfter(c, more))
    ensures k < |WorldAfter(c, more).replies.outbox| && WorldAfter(c, more).replies.outbox[k].command == n
  {
    WorldIsSound(c, moves);
    if n in w.replies.processed {
      more := moves;
      assert Answered(w.replies.outbox, n);
      k :| k < |w.replies.outbox| && w.replies.outbox[k].command == n;
    } else {
      StockCommandsAreAnswered(c, moves, w, n, row);
      var w1 := Onward(c, w, InventoryWorks(n));
      var works := moves + [InventoryWorks(n)];
      MoveHappens(c, moves, InventoryWorks(n));
      more := works + [InventoryRecords(|w.inFlight|)];
      MoveHappens(c, works, InventoryRecords(|w.inFlight|));
      ContinuesOneMore(moves, moves, InventoryWorks(n), id);
      ContinuesOneMore(moves, works, InventoryRecords(|w.inFlight|), id);
      k := |w.replies.outbox|;
      Recorded(c, w, n, row, w1, Onward(c, w1, InventoryRecords(|w.inFlight|)));
    }
  }

  lemma Recorded(c: Setup, w: World, n: nat, row: Row, w1: World, w2: World)
    requires n < |OrdersOf(c, w).db.outbox| && row == OrdersOf(c, w).db.outbox[n] && CommandOf(row).Some?
    requires RunEffect(ShelfOf(c, w), n, row).1.Some? && n !in w.replies.processed
    requires w1 == Onward(c, w, InventoryWorks(n)) && w2 == Onward(c, w1, InventoryRecords(|w.inFlight|))
    ensures SameOrders(w, w2) && |w2.replies.outbox| == |w.replies.outbox| + 1 && w2.replies.outbox[|w.replies.outbox|].command == n
  {
    assert w1.inFlight == w.inFlight + [RunEffect(ShelfOf(c, w), n, row).1.value];
  }

  // A running saga's own answer was not recorded before.
  lemma StockAnswerIsNew(c: Setup, w: World, id: nat, k: nat, v: View)
    requires Known(c, w, id) && v == ViewIn(c, w, id) && IsRunning(v) && v.order.Some? && k < |w.replies.outbox|
    requires w.replies.outbox[k].command < |OrdersOf(c, w).db.outbox|
    requires var row := OrdersOf(c, w).db.outbox[w.replies.outbox[k].command];
             row.orderId == id && row.tenantId == v.saga.value.tenantId && CommandFor(v.saga.value, v.order.value) == Some(row.message)
    ensures FromInventory(k) !in OrdersOf(c, w).db.processed
    ensures var r := w.replies.outbox[k];
            && r.orderId == id && r.tenantId == v.saga.value.tenantId
            && (Source.Inventory, r.eventType) in Answers(CommandFor(v.saga.value, v.order.value).value)
  {
    assert w.replies.outbox[k] in w.replies.outbox;
  }

  lemma StockTakesItOn(c: Setup, moves: seq<Move>, id: nat, w: World, v: View) returns (more: seq<Move>)
    requires NonNegative(c.initial) && AllAllowed(moves) && w == WorldAfter(c, moves) && v == ViewIn(c, w, id)
    requires Unblocked(c, w, id) && InState(v, {SagaState.Started, Compensating})
    ensures Continues(moves, more, id) && WorldAfter(c, more).steps == w.steps
    ensures var x := ViewIn(c, WorldAfter(c, more), id);
            x.saga.Some? && Rank(x.saga.value.state) < Rank(v.saga.value.state) && !IsDiverged(x)
  {
    WorldIsKnown(c, moves, id, w);
    TransitionsLowerRank(v.saga.value.state, SagaState.Started);
    var n := CommandRow(c, w, id, v);
    var before, k := StockIsAnswered(c, moves, id, n, w, OrdersOf(c, w).db.outbox[n]);
    var w1 := WorldAfter(c, before);
    assert OrdersOf(c, w1) == OrdersOf(c, w);
    WorldIsKnown(c, before, id, w1);
    more := before + [InventoryReplyArrives(k)];
    MoveHappens(c, before, InventoryReplyArrives(k));
    ContinuesOneMore(moves, before, InventoryReplyArrives(k), id);
    StockReplyTakesItOn(c, w1, id, k, v, InventoryEnvelope(k, w1.replies.outbox[k]), WorldAfter(c, more));
  }

  lemma StockReplyTakesItOn(c: Setup, w: World, id: nat, k: nat, v: View, env: Envelope, next: World)
    requires Known(c, w, id) && v == ViewIn(c, w, id) && IsRunning(v) && v.order.Some? && !IsDiverged(v) && k < |w.replies.outbox|
    requires w.replies.outbox[k].command < |OrdersOf(c, w).db.outbox|
    requires var row := OrdersOf(c, w).db.outbox[w.replies.outbox[k].command];
             row.orderId == id && row.tenantId == v.saga.value.tenantId && CommandFor(v.saga.value, v.order.value) == Some(row.message)
    requires env == InventoryEnvelope(k, w.replies.outbox[k]) && next == w.(events := w.events + [Deliver(Source.Inventory, env)])
    ensures var x := ViewIn(c, next, id); x.saga.Some? && Rank(x.saga.value.state) < Rank(v.saga.value.state) && !IsDiverged(x)
  {
    StockAnswerIsNew(c, w, id, k, v);
    AnswerArrives(c, w, id, Source.Inventory, env, v, ViewIn(c, next, id));
  }

  // ----- Payment -----

  lemma ReplyAt(p: Payments, id: nat) returns (k: nat)
    requires RepliesOf(p, id) != []
    ensures k < |p.outbox| && p.outbox[k].orderId == id && p.outbox[k] in RepliesOf(p, id)
  {
    var r := RepliesOf(p, id)[0];
    FilterMembers(p.outbox, ReplyOf(id));
    assert r in RepliesOf(p, id) && ReplyOf(id)(r) && r in p.outbox;
    k :| k < |p.outbox| && p.outbox[k] == r;
  }

  lemma RetainingMoves(moves: seq<Move>, steps: seq<PaymentStep>, input: ChargeInput)
    requires OnlyThese(moves, steps) && Retaining(steps, input)
    ensures NeverForgets(moves, input.orderId)
  {
    forall m | m in moves ensures Retains(m, input.orderId) {
      assert m.PaymentWorks? ==> m.s in steps;
    }
  }

  // The charge is answered, unless it was before.
  lemma ChargeIsAnswered(c: Setup, moves: seq<Move>, id: nat, w: World, v: View) returns (more: seq<Move>)
    requires NonNegative(c.initial) && AllAllowed(moves) && w == WorldAfter(c, moves) && v == ViewIn(c, w, id)
    requires Unblocked(c, w, id) && InState(v, {StockReserved})
    ensures Continues(moves, more, id) && WorldAfter(c, more).events == w.events
    ensures RepliesOf(PaymentsOf(WorldAfter(c, more)), id) != []
  {
    if RepliesOf(PaymentsOf(w), id) != [] {
      more := moves;
    } else {
      WorldIsKnown(c, moves, id, w);
      TransitionsLowerRank(v.saga.value.state, SagaState.Started);
      var n := CommandRow(c, w, id, v);
      var row := OrdersOf(c, w).db.outbox[n];
      var input := ChargeInput(row.orderId, row.tenantId, row.message.amountCents, row.correlationId);
      RescueRetains(input);
      RescueAnswers(w.steps, input);
      more := PaymentMovesOn(c, moves, Rescue(input), n);
      assert Continues(moves, more, id) by {
        RetainingMoves(more[|moves|..], Rescue(input), input);
      }
    }
  }

  // While the saga waits for it, no payment reply was recorded before.
  lemma ChargeAnswerIsNew(c: Setup, w: World, id: nat, k: nat, v: View)
    requires Known(c, w, id) && v == ViewIn(c, w, id) && InState(v, {StockReserved}) && v.order.Some?
    requires k < |PaymentsOf(w).outbox| && PaymentsOf(w).outbox[k].orderId == id && PaymentsOf(w).outbox[k] in RepliesOf(PaymentsOf(w), id)
    ensures FromPayment(k) !in OrdersOf(c, w).db.processed && PaymentsOf(w).outbox[k].tenantId == v.saga.value.tenantId
    ensures CommandFor(v.saga.value, v.order.value).Some?
    ensures (Source.Payment, PaymentEnvelope(k, PaymentsOf(w).outbox[k]).eventType) in Answers(CommandFor(v.saga.value, v.order.value).value)
  {
  }

  lemma ChargeTakesItOn(c: Setup, moves: seq<Move>, id: nat, w: World, v: View) returns (more: seq<Move>)
    requires NonNegative(c.initial) && AllAllowed(moves) && w == WorldAfter(c, moves) && v == ViewIn(c, w, id)
    requires Unblocked(c, w, id) && InState(v, {StockReserved})
    ensures Continues(moves, more, id)
    ensures var x := ViewIn(c, WorldAfter(c, more), id);
            x.saga.Some? && Rank(x.saga.value.state) < Rank(v.saga.value.state) && !IsDiverged(x)
  {
    var before := ChargeIsAnswered(c, moves, id, w, v);
    var w1 := WorldAfter(c, before);
    WorldIsKnown(c, before, id, w1);
    var k := ReplyAt(PaymentsOf(w1), id);
    more := before + [PaymentReplyArrives(k)];
    MoveHappens(c, before, PaymentReplyArrives(k));
    ContinuesOneMore(moves, before, PaymentReplyArrives(k), id);
    PaymentReplyTakesItOn(c, w1, id, k, v, PaymentEnvelope(k, PaymentsOf(w1).outbox[k]), WorldAfter(c, more));
  }

  lemma PaymentReplyTakesItOn(c: Setup, w: World, id: nat, k: nat, v: View, env: Envelope, next: World)
    requires Known(c, w, id) && v == ViewIn(c, w, id) && InState(v, {StockReserved}) && v.order.Some? && !IsDiverged(v)
    requires k < |PaymentsOf(w).outbox| && PaymentsOf(w).outbox[k].orderId == id && PaymentsOf(w).outbox[k] in RepliesOf(PaymentsOf(w), id)
    requires env == PaymentEnvelope(k, PaymentsOf(w).outbox[k]) && next == w.(events := w.events + [Deliver(Source.Payment, env)])
    ensures var x := ViewIn(c, next, id); x.saga.Some? && Rank(x.saga.value.state) < Rank(v.saga.value.state) && !IsDiverged(x)
  {
    ChargeAnswerIsNew(c, w, id, k, v);
    TransitionsLowerRank(v.saga.value.state, SagaState.Started);
    AnswerArrives(c, w, id, Source.Payment, env, v, ViewIn(c, next, id));
  }

  // ----- To the end -----

  // A saga that has not been charged yet is not stuck.
  lemma NotStuckYet(c: Setup, w: World, id: nat, v: View)
    requires Known(c, w, id) && v == ViewIn(c, w, id) && InState(v, {SagaState.Started})
    ensures !IsFailed(PaymentsOf(w), id)
  {
    NotChargedYet(v.order.value, v.rows);
  }

  // What is left of the conditions once the saga has moved.
  lemma StillUnblocked(c: Setup, w: World, x: World, id: nat, v: View)
    requires Known(c, w, id) && Known(c, x, id) && v == ViewIn(c, w, id) && Unblocked(c, w, id)
    requires var y := ViewIn(c, x, id); y.saga.Some? && Rank(y.saga.value.state) < Rank(v.saga.value.state) && !IsDiverged(y)
    requires InState(v, {SagaState.Started, Compensating}) ==> x.steps == w.steps
    ensures Unblocked(c, x, id)
  {
    if v.saga.value.state == SagaState.Started {
      NotStuckYet(c, w, id, v);
    }
  }

  lemma OneStepOn(c: Setup, moves: seq<Move>, id: nat, w: World, v: View) returns (more: seq<Move>)
    requires NonNegative(c.initial) && AllAllowed(moves) && w == WorldAfter(c, moves) && v == ViewIn(c, w, id)
    requires Unblocked(c, w, id) && IsRunning(v)
    ensures Continues(moves, more, id) && Unblocked(c, WorldAfter(c, more), id)
    ensures Rank(ViewIn(c, WorldAfter(c, more), id).saga.value.state) < Rank(v.saga.value.state)
  {
    TransitionsLowerRank(v.saga.value.state, SagaState.Started);
    if v.saga.value.state == StockReserved {
      more := ChargeTakesItOn(c, moves, id, w, v);
    } else {
      more := StockTakesItOn(c, moves, id, w, v);
    }
    WorldIsKnown(c, moves, id, w);
    WorldIsKnown(c, more, id, WorldAfter(c, more));
    StillUnblocked(c, w, WorldAfter(c, more), id, v);
  }

  // Over, and announced once.
  ghost predicate Concluded(v: View) {
    IsOver(v) && |Announced(v.rows)| == 1
  }

  lemma OverIsConcluded(c: Setup, w: World, id: nat, v: View)
    requires Known(c, w, id) && v == ViewIn(c, w, id) && IsOver(v)
    ensures Concluded(v)
  {
    TransitionsLowerRank(v.saga.value.state, SagaState.Started);
  }

  /** From any world in which nothing stands in its way, every saga can be brought to its end, with exactly one lifecycle
      event. */
  lemma {:induction false} SagaCanEnd(c: Setup, moves: seq<Move>, id: nat) returns (more: seq<Move>)
    requires NonNegative(c.initial) && AllAllowed(moves) && Unblocked(c, WorldAfter(c, moves), id)
    ensures Continues(moves, more, id) && Concluded(ViewIn(c, WorldAfter(c, more), id))
    decreases Rank(ViewIn(c, WorldAfter(c, moves), id).saga.value.state)
  {
    var w := WorldAfter(c, moves);
    var v := ViewIn(c, w, id);
    if IsOver(v) {
      more := moves;
      WorldIsKnown(c, moves, id, w);
      OverIsConcluded(c, w, id, v);
    } else {
      var next := OneStepOn(c, moves, id, w, v);
      more := SagaCanEnd(c, next, id);
      ContinuesOn(moves, next, more, id);
    }
  }

  // ----- Without that, never -----

  // The saga runs, and something stands in its way.
  ghost predicate Blocked(c: Setup, w: World, id: nat) {
    IsRunning(ViewIn(c, w, id)) && !Unblocked(c, w, id)
  }

  // A request no reply will ever answer.
  predicate AsksInVain(v: View) {
    InState(v, {SagaState.Started}) && v.order.Some? && !Valid(v.order.value.items)
  }

  lemma DivergedStays(c: Setup, w: World, e: Event, id: nat)
    requires Sound(w) && WellFormed(e) && IsDiverged(ViewIn(c, w, id))
    ensures IsDiverged(ViewIn(c, w.(events := w.events + [e]), id))
  {
    RunIsHealthy(c.maxAttempts, w.events, id);
    LastEvent(c.maxAttempts, w.events, e, id);
    DivergedEvent(c.maxAttempts, OrdersOf(c, w), id, e, ViewIn(c, w.(events := w.events + [e]), id));
  }

  // A stock reply of this order could only come from a valid request.
  predicate NoStockAnswer(e: Event, id: nat) {
    e.Deliver? && e.env.orderId == id && e.source == Source.Inventory ==> e.env.eventType !in {StockReservedEvent, StockReservationFailed}
  }

  lemma VainStays(c: Setup, w: World, e: Event, id: nat)
    requires Sound(w) && WellFormed(e) && AsksInVain(ViewIn(c, w, id)) && NoStockAnswer(e, id)
    ensures AsksInVain(ViewIn(c, w.(events := w.events + [e]), id))
  {
    var v := ViewIn(c, w, id);
    RunIsHealthy(c.maxAttempts, w.events, id);
    LastEvent(c.maxAttempts, w.events, e, id);
    EventEvolves(c.maxAttempts, id, v, e, AfterEvent(c.maxAttempts, id, v, e));
    if e.Deliver? && e.env.orderId == id {
      ReplyOutcome(c.maxAttempts, id, v, e.source, e.env);
    }
  }

  lemma NoAnswerInVain(c: Setup, w: World, n: nat, id: nat)
    requires Known(c, w, id) && AsksInVain(ViewIn(c, w, id)) && n < |w.replies.outbox|
    ensures NoStockAnswer(Deliver(Source.Inventory, InventoryEnvelope(n, w.replies.outbox[n])), id)
  {
    var r := w.replies.outbox[n];
    assert r in w.replies.outbox && ReplyFits(OrdersOf(c, w).db.outbox, r);
    RowFitsItsOrder(c, w, r.command);
  }

  lemma VainStaysInMove(c: Setup, w: World, m: Move, id: nat)
    requires Known(c, w, id) && Allowed(m) && AsksInVain(ViewIn(c, w, id))
    ensures AsksInVain(ViewIn(c, Onward(c, w, m), id))
  {
    match m
    case OrdersDo(e) => VainStays(c, w, e, id);
    case InventoryReplyArrives(n) =>
      if n < |w.replies.outbox| {
        NoAnswerInVain(c, w, n, id);
        VainStays(c, w, Deliver(Source.Inventory, InventoryEnvelope(n, w.replies.outbox[n])), id);
      }
    case PaymentReplyArrives(n) =>
      if n < |PaymentsOf(w).outbox| { VainStays(c, w, Deliver(Source.Payment, PaymentEnvelope(n, PaymentsOf(w).outbox[n])), id); }
    case _ =>
  }

  lemma DivergedStaysInMove(c: Setup, w: World, m: Move, id: nat)
    requires Sound(w) && Allowed(m) && IsDiverged(ViewIn(c, w, id))
    ensures IsDiverged(ViewIn(c, Onward(c, w, m), id))
  {
    match m
    case OrdersDo(e) => DivergedStays(c, w, e, id);
    case InventoryReplyArrives(n) =>
      if n < |w.replies.outbox| { DivergedStays(c, w, Deliver(Source.Inventory, InventoryEnvelope(n, w.replies.outbox[n])), id); }
    case PaymentReplyArrives(n) =>
      if n < |PaymentsOf(w).outbox| { DivergedStays(c, w, Deliver(Source.Payment, PaymentEnvelope(n, PaymentsOf(w).outbox[n])), id); }
    case _ =>
  }

  lemma BlockedStays(c: Setup, w: World, m: Move, id: nat)
    requires NonNegative(c.initial) && Known(c, w, id) && Allowed(m) && Retains(m, id) && Blocked(c, w, id)
    ensures Blocked(c, Onward(c, w, m), id)
  {
    if IsDiverged(ViewIn(c, w, id)) {
      DivergedStaysInMove(c, w, m, id);
    } else if Stuck(c, w, id) {
      StuckStays(c, w, m, id);
      TransitionsLowerRank(StockReserved, SagaState.Started);
    } else {
      VainStaysInMove(c, w, m, id);
      TransitionsLowerRank(SagaState.Started, SagaState.Started);
    }
  }

  lemma {:induction false} BlockedForGood(c: Setup, moves: seq<Move>, more: seq<Move>, id: nat)
    requires NonNegative(c.initial) && Blocked(c, WorldAfter(c, moves), id) && Continues(moves, more, id)
    ensures Blocked(c, WorldAfter(c, more), id)
    decreases |more|
  {
    if more == moves {
    } else {
      var init, m := more[..|more| - 1], more[|more| - 1];
      assert more[|moves|..] == init[|moves|..] + [m] && m in more[|moves|..] && m in more && Retains(m, id);
      BlockedForGood(c, moves, init, id);
      WorldIsKnown(c, init, id, WorldAfter(c, init));
      BlockedStays(c, WorldAfter(c, init), m, id);
    }
  }

  ghost predicate EndsIn(c: Setup, moves: seq<Move>, more: seq<Move>, id: nat) {
    Continues(moves, more, id) && Concluded(ViewIn(c, WorldAfter(c, more), id))
  }

  /** When a saga can still end: in every world, a saga can be brought to its end with its one lifecycle event, while its
      workflow is retained, if and only if no user has ended its order, its charge has not failed unanswered, and its first
      request, if that is what it waits for, is valid. */
  lemma SagaCanEndExactlyWhen(c: Setup, moves: seq<Move>, id: nat)
    requires NonNegative(c.initial) && AllAllowed(moves) && ViewIn(c, WorldAfter(c, moves), id).saga.Some?
    ensures (exists more :: EndsIn(c, moves, more, id)) <==> Unblocked(c, WorldAfter(c, moves), id)
  {
    if Unblocked(c, WorldAfter(c, moves), id) {
      var more := SagaCanEnd(c, moves, id);
      assert EndsIn(c, moves, more, id);
    } else {
      WorldIsKnown(c, moves, id, WorldAfter(c, moves));
      HeldUpIsBlocked(c, WorldAfter(c, moves), id);
      forall more ensures !EndsIn(c, moves, more, id) {
        if Continues(moves, more, id) {
          BlockedForGood(c, moves, more, id);
        }
      }
    }
  }

  // Only a running saga can be held up.
  lemma HeldUpIsBlocked(c: Setup, w: World, id: nat)
    requires Known(c, w, id) && ViewIn(c, w, id).saga.Some? && !Unblocked(c, w, id)
    ensures Blocked(c, w, id)
  {
    TransitionsLowerRank(SagaState.Started, SagaState.Started);
    TransitionsLowerRank(StockReserved, SagaState.Started);
  }

  /** For a saga that waits for its payment this comes to one thing: unless a user ended the order, it can leave STOCK_RESERVED
      while its workflow is retained if and only if that has not failed without a reply. */
  lemma LeavesStockReservedExactlyWhen(c: Setup, moves: seq<Move>, id: nat)
    requires NonNegative(c.initial) && AllAllowed(moves)
    requires var v := ViewIn(c, WorldAfter(c, moves), id); InState(v, {StockReserved}) && !IsDiverged(v)
    ensures (exists more :: Continues(moves, more, id) && !InState(ViewIn(c, WorldAfter(c, more), id), {StockReserved}))
            <==> !Stuck(c, WorldAfter(c, moves), id)
  {
    var w := WorldAfter(c, moves);
    if Stuck(c, w, id) {
      forall more | Continues(moves, more, id) ensures InState(ViewIn(c, WorldAfter(c, more), id), {StockReserved}) {
        assert more == moves + more[|moves|..];
        FailedChargeStrandsSaga(c, moves, more[|moves|..], id);
      }
    } else {
      WorldIsKnown(c, moves, id, w);
      var more := SagaCanEnd(c, moves, id);
      TransitionsLowerRank(StockReserved, SagaState.Started);
      assert Continues(moves, more, id);
    }
  }

  /** The end of the failed workflow's retention frees the saga again. */
  lemma ForgettingFreesSaga(c: Setup, w: World, id: nat, v: View, next: World)
    requires v == ViewIn(c, w, id) && Healthy(c.maxAttempts, id, v) && Stuck(c, w, id) && !IsDiverged(v)
    requires next == w.(steps := w.steps + [Forget(id)])
    ensures next == Onward(c, w, PaymentWorks(Forget(id))) && Unblocked(c, next, id)
  {
    RunSnoc(w.steps, Forget(id));
    assert ViewIn(c, next, id) == v;
  }
}
