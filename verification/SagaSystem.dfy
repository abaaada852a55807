/**
 The three services together. The network may deliver every outbox row any number of times and in any order; between the
 steps of one service any steps of the others may run, and a crash may lose whatever is between an effect and its reply.
 The world records what each service was asked to do; its tables are what the service's own run makes of that.
 */
module SagaSystem {
  import opened Results
  import opened Sequences
  import opened Orders
  import opened Sagas
  import opened OrderService
  import opened SagaView
  import opened OrderSystem
  import OrderRuns
  import opened Inventory
  import opened InventoryLaws
  import opened InventoryConsumer
  import opened Payment

  datatype World = World(
    events: seq<Event>,
    commands: seq<Command>,
    inFlight: seq<InventoryReply>,
    replies: Replies,
    steps: seq<PaymentStep>)

  const START := World([], [], [], Replies({}, []), [])

  datatype Setup = Setup(maxAttempts: nat, initial: map<StockKey, int>)

  datatype Move =
    | OrdersDo(e: Event)
    | InventoryWorks(row: nat)
    | InventoryRecords(n: nat)
    | InventoryReplyArrives(n: nat)
    | ChargeArrives(row: nat, recovers: bool)
    | PaymentWorks(s: PaymentStep)
    | PaymentReplyArrives(n: nat)
    | CancelReleases(tenantId: string, orderId: nat)

  function OrdersOf(c: Setup, w: World): System {
    Run(c.maxAttempts, w.events)
  }

  function ShelfOf(c: Setup, w: World): Shelf {
    ApplyAll(c.initial, w.commands)
  }

  function PaymentsOf(w: World): Payments {
    PaymentRun(w.steps)
  }

  // Replies reach the order service only through the two arrival moves, charge commands the payment service only through theirs.
  predicate Allowed(m: Move) {
    match m
    case OrdersDo(e) => WellFormed(e) && !e.Deliver?
    case PaymentWorks(s) => !s.StartCharge?
    case _ => true
  }

  function CommandOf(row: Row): Option<Command> {
    match row.message
    case ReserveStock(items) => Some(ReserveCommand(row.tenantId, row.orderId, items))
    case ReleaseStock => Some(ReleaseCommand(row.tenantId, row.orderId))
    case _ => None
  }

  function InventoryEnvelope(n: nat, r: InventoryReply): Envelope {
    Envelope(FromInventory(n), r.eventType, r.tenantId, r.orderId, r.correlationId)
  }

  function PaymentEnvelope(n: nat, r: Reply): Envelope {
    Envelope(FromPayment(n), if r.ok then PaymentSucceeded else PaymentFailed, r.tenantId, r.orderId, r.correlationId)
  }

  function Worked(c: Setup, w: World, n: nat, row: Row): World {
    if CommandOf(row).None? then w
    else
      var reply := RunEffect(ShelfOf(c, w), n, row).1;
      w.(commands := w.commands + [CommandOf(row).value],
         inFlight := if reply.Some? then w.inFlight + [reply.value] else w.inFlight)
  }

  predicate IsCancelled(order: Option<Order>) {
    order.Some? && order.value.status == OrderStatus.Cancelled
  }

  function Onward(c: Setup, w: World, m: Move): World {
    match m
    case OrdersDo(e) => w.(events := w.events + [e])
    case InventoryWorks(n) =>
      if n < |OrdersOf(c, w).db.outbox| then Worked(c, w, n, OrdersOf(c, w).db.outbox[n]) else w
    case InventoryRecords(n) =>
      if n < |w.inFlight| then w.(replies := RecordReply(w.replies, w.inFlight[n])) else w
    case InventoryReplyArrives(n) =>
      if n < |w.replies.outbox| then w.(events := w.events + [Deliver(Source.Inventory, InventoryEnvelope(n, w.replies.outbox[n]))]) else w
    case ChargeArrives(n, recovers) =>
      if n < |OrdersOf(c, w).db.outbox| && OrdersOf(c, w).db.outbox[n].message.ChargePayment? then
        var row := OrdersOf(c, w).db.outbox[n];
        w.(steps := w.steps + [StartCharge(ChargeInput(row.orderId, row.tenantId, row.message.amountCents, row.correlationId), recovers)])
      else w
    case PaymentWorks(s) => w.(steps := w.steps + [s])
    // A user's cancel asks the inventory service directly, after its own update; the call may be late, repeated or lost.
    case CancelReleases(tenantId, id) =>
      if IsCancelled(OrderOf(AggregateOf(OrdersOf(c, w).db, id), tenantId)) then w.(commands := w.commands + [ReleaseCommand(tenantId, id)]) else w
    case PaymentReplyArrives(n) =>
      if n < |PaymentsOf(w).outbox| then w.(events := w.events + [Deliver(Source.Payment, PaymentEnvelope(n, PaymentsOf(w).outbox[n]))]) else w
  }

  function WorldAfter(c: Setup, moves: seq<Move>): World {
    if moves == [] then START else Onward(c, WorldAfter(c, moves[..|moves| - 1]), moves[|moves| - 1])
  }

  ghost predicate AllAllowed(moves: seq<Move>) {
    forall m <- moves :: Allowed(m)
  }

  function ViewIn(c: Setup, w: World, id: nat): View {
    ViewOf(OrdersOf(c, w), id)
  }

  /** A command's effect is one of the inventory service's own steps. */
  lemma EffectIsItsCommand(c: Setup, w: World, n: nat, row: Row)
    ensures CommandOf(row).Some? ==> ShelfOf(c, Worked(c, w, n, row)) == RunEffect(ShelfOf(c, w), n, row).0
    ensures CommandOf(row).None? ==> RunEffect(ShelfOf(c, w), n, row) == (ShelfOf(c, w), None)
  {
    if CommandOf(row).Some? {
      assert (w.commands + [CommandOf(row).value])[..|w.commands|] == w.commands;
    }
  }

  // ----- Histories the services were given -----

  ghost predicate Sound(w: World) {
    AllWellFormed(w.events) && OneReplyEach(w.replies)
  }

  lemma {:induction false} WorldIsSound(c: Setup, moves: seq<Move>)
    requires AllAllowed(moves)
    ensures Sound(WorldAfter(c, moves))
  {
    if moves != [] {
      var w, m := WorldAfter(c, moves[..|moves| - 1]), moves[|moves| - 1];
      WorldIsSound(c, moves[..|moves| - 1]);
      assert m in moves;
      if m.InventoryRecords? && m.n < |w.inFlight| {
        RecordingKeepsOneReplyEach(w.replies, w.inFlight[m.n]);
      }
    }
  }

  // ----- What one order's history and the other services know of each other -----

  predicate PastReservation(v: View) {
    v.saga.Some? && v.saga.value.state in {StockReserved, Compensating, SagaState.Completed}
  }

  predicate IsCompleted(v: View) {
    v.saga.Some? && v.saga.value.state == SagaState.Completed
  }

  ghost predicate Replied(p: Payments, id: nat, ok: bool) {
    exists r <- RepliesOf(p, id) :: r.ok == ok
  }

  /** No charge without a reservation, no release without a declined payment, no completion without a payment. */
  ghost predicate PaymentLinks(v: View, p: Payments, id: nat) {
    && (id in p.workflows || RepliesOf(p, id) != [] ==> Charged(v.rows))
    && (Sent(v.rows, ReleaseStock) ==> Replied(p, id, false))
    && (IsCompleted(v) ==> Replied(p, id, true))
  }

  predicate IsGrant(r: InventoryReply, id: nat) {
    r.orderId == id && r.eventType == StockReservedEvent
  }

  ghost predicate Granted(inFlight: seq<InventoryReply>, outbox: seq<InventoryReply>, id: nat) {
    (exists r <- inFlight :: IsGrant(r, id)) || (exists r <- outbox :: IsGrant(r, id))
  }

  ghost predicate HoldsItsItems(v: View, reservations: seq<Reservation>, id: nat) {
    v.order.Some? && ActiveLines(reservations, v.order.value.tenantId, id) == Merged(v.order.value.items)
  }

  predicate IsFreed(v: View) {
    IsCancelled(v.order)
  }

  /** Once granted, an order holds exactly its items until the saga asks for their release or the order is cancelled. */
  ghost predicate StockLinks(v: View, w: World, reservations: seq<Reservation>, id: nat) {
    && (PastReservation(v) ==> Granted(w.inFlight, w.replies.outbox, id))
    && (Granted(w.inFlight, w.replies.outbox, id) ==> v.order.Some? && (Sent(v.rows, ReleaseStock) || IsFreed(v) || HoldsItsItems(v, reservations, id)))
  }

  predicate Brings(e: Event, source: Source, eventType: EventType, id: nat) {
    e.Deliver? && e.source == source && e.env.eventType == eventType && e.env.orderId == id
  }

  /** What causes the three turning points of an order. */
  ghost predicate Caused(v: View, e: Event, w: View, id: nat) {
    && (Sent(w.rows, ReleaseStock) && !Sent(v.rows, ReleaseStock) ==> Brings(e, Source.Payment, PaymentFailed, id))
    && (IsCompleted(w) && !IsCompleted(v) ==> Brings(e, Source.Payment, PaymentSucceeded, id))
    && (PastReservation(w) && !PastReservation(v) ==> Brings(e, Source.Inventory, StockReservedEvent, id))
  }

  lemma ReplyCauses(maxAttempts: nat, id: nat, v: View, source: Source, env: Envelope, w: View)
    requires Healthy(maxAttempts, id, v) && env.orderId == id && w == AfterReply(v, source, env)
    ensures Caused(v, Deliver(source, env), w, id)
  {
    if v.saga.Some? {
      ReplyOutcome(maxAttempts, id, v, source, env);
      var saga := v.saga.value;
      var reaction := ReactionTo(source, saga.state, env.eventType);
      assert v.rows + [] == v.rows;
      if reaction.Some? {
        var row := Row(env.orderId, env.tenantId, MessageFor(reaction.value.emission, v.order.value), env.correlationId);
        SentSnoc(v.rows, row, ReleaseStock);
      }
    }
  }

  lemma CommitCauses(maxAttempts: nat, id: nat, v: View, w: View)
    requires Healthy(maxAttempts, id, v) && w == AfterCommit(v)
    ensures Caused(v, ReaperCommits, w, id)
  {
    if v.pending.Some? && v.saga.Some? && v.saga.value.state == v.pending.value.expected {
      RedriveIsRight(maxAttempts, id, v);
      SentSnoc(v.rows, v.pending.value.row, ReleaseStock);
    }
  }

  lemma EventCauses(maxAttempts: nat, id: nat, v: View, e: Event, w: View)
    requires Healthy(maxAttempts, id, v) && w == AfterEvent(maxAttempts, id, v, e)
    ensures Caused(v, e, w, id)
  {
    match e
    case Deliver(source, env) =>
      if env.orderId == id { ReplyCauses(maxAttempts, id, v, source, env, w); }
    case ReaperCommits => CommitCauses(maxAttempts, id, v, w);
    case Place(order, correlationId) =>
      if v.order.None? && v.saga.None? && order.id == id {
        assert v.rows == [];
        SentSnoc([], Row(order.id, order.tenantId, ReserveStock(order.items), correlationId), ReleaseStock);
      }
    case _ =>
  }

  // ----- Every move keeps the links -----

  ghost predicate Linked(c: Setup, w: World, id: nat) {
    PaymentLinks(ViewIn(c, w, id), PaymentsOf(w), id) && StockLinks(ViewIn(c, w, id), w, ShelfOf(c, w).reservations, id)
  }

  // What must be known before an event may turn the saga.
  ghost predicate Backed(w: World, e: Event, id: nat) {
    && (Brings(e, Source.Payment, PaymentFailed, id) ==> Replied(PaymentsOf(w), id, false))
    && (Brings(e, Source.Payment, PaymentSucceeded, id) ==> Replied(PaymentsOf(w), id, true))
    && (Brings(e, Source.Inventory, StockReservedEvent, id) ==> Granted(w.inFlight, w.replies.outbox, id))
  }

  lemma LongerRows(rows: seq<Row>, more: seq<Row>, message: Message)
    requires rows <= more
    ensures Sent(rows, message) ==> Sent(more, message)
    ensures SagaView.Charged(rows) ==> SagaView.Charged(more)
  {
    if i :| 0 <= i < |rows| && rows[i].message == message {
      assert more[i].message == message;
    }
    if i :| 0 <= i < |rows| && rows[i].message.ChargePayment? {
      assert more[i].message.ChargePayment?;
    }
  }

  lemma CancelledStays(maxAttempts: nat, id: nat, v: View, e: Event)
    ensures IsFreed(v) ==> IsFreed(AfterEvent(maxAttempts, id, v, e))
  {
    assert IsFinal(OrderStatus.Cancelled);
  }

  lemma ViewKeepsLinks(w: World, v: View, e: Event, x: View, reservations: seq<Reservation>, id: nat)
    requires PaymentLinks(v, PaymentsOf(w), id) && StockLinks(v, w, reservations, id)
    requires Evolves(v, x) && Caused(v, e, x, id) && Backed(w, e, id) && (IsFreed(v) ==> IsFreed(x))
    ensures PaymentLinks(x, PaymentsOf(w), id) && StockLinks(x, w, reservations, id)
  {
    LongerRows(v.rows, x.rows, ReleaseStock);
  }

  lemma EventKeepsLinks(c: Setup, w: World, e: Event, id: nat)
    requires Sound(w) && Linked(c, w, id) && WellFormed(e) && Backed(w, e, id)
    ensures Linked(c, w.(events := w.events + [e]), id)
  {
    var v := ViewIn(c, w, id);
    var x := AfterEvent(c.maxAttempts, id, v, e);
    RunIsHealthy(c.maxAttempts, w.events, id);
    LastEvent(c.maxAttempts, w.events, e, id);
    EventEvolves(c.maxAttempts, id, v, e, x);
    EventCauses(c.maxAttempts, id, v, e, x);
    CancelledStays(c.maxAttempts, id, v, e);
    ViewKeepsLinks(w, v, e, x, ShelfOf(c, w).reservations, id);
  }

  lemma ReplyIsBacked(w: World, n: nat, id: nat)
    requires n < |PaymentsOf(w).outbox|
    ensures Backed(w, Deliver(Source.Payment, PaymentEnvelope(n, PaymentsOf(w).outbox[n])), id)
  {
    var r := PaymentsOf(w).outbox[n];
    FilterMembers(PaymentsOf(w).outbox, ReplyOf(id));
    assert r in PaymentsOf(w).outbox;
    assert r.orderId == id ==> ReplyOf(id)(r) && r in RepliesOf(PaymentsOf(w), id);
  }

  lemma GrantIsBacked(w: World, n: nat, id: nat)
    requires n < |w.replies.outbox|
    ensures Backed(w, Deliver(Source.Inventory, InventoryEnvelope(n, w.replies.outbox[n])), id)
  {
    assert w.replies.outbox[n] in w.replies.outbox;
  }

  lemma PaymentStepKeepsLinks(v: View, p: Payments, s: PaymentStep, id: nat)
    requires PaymentLinks(v, p, id)
    requires s.StartCharge? && s.input.orderId == id ==> SagaView.Charged(v.rows)
    ensures PaymentLinks(v, PaymentNext(p, s), id)
  {
    StepAddsReplies(p, s, id);
    assert id in PaymentNext(p, s).workflows ==> id in p.workflows || (s.StartCharge? && s.input.orderId == id);
  }

  lemma PaymentMoves(c: Setup, w: World, s: PaymentStep, id: nat)
    requires Linked(c, w, id)
    requires s.StartCharge? && s.input.orderId == id ==> SagaView.Charged(ViewIn(c, w, id).rows)
    ensures Linked(c, w.(steps := w.steps + [s]), id)
  {
    RunSnoc(w.steps, s);
    PaymentStepKeepsLinks(ViewIn(c, w, id), PaymentsOf(w), s, id);
  }

  lemma ChargeRowIsCharged(c: Setup, w: World, n: nat, id: nat)
    requires n < |OrdersOf(c, w).db.outbox| && OrdersOf(c, w).db.outbox[n].message.ChargePayment?
    requires OrdersOf(c, w).db.outbox[n].orderId == id
    ensures SagaView.Charged(ViewIn(c, w, id).rows)
  {
    var outbox := OrdersOf(c, w).db.outbox;
    var row := outbox[n];
    FilterMembers(outbox, Of(id));
    assert row in outbox && Of(id)(row);
    assert row in RowsOf(outbox, id);
    var i :| 0 <= i < |RowsOf(outbox, id)| && RowsOf(outbox, id)[i] == row;
  }

  lemma RecordKeepsGranted(inFlight: seq<InventoryReply>, r: Replies, n: nat, id: nat)
    requires n < |inFlight|
    ensures Granted(inFlight, RecordReply(r, inFlight[n]).outbox, id) <==> Granted(inFlight, r.outbox, id)
  {
    assert inFlight[n] in inFlight;
    assert forall x <- r.outbox :: x in RecordReply(r, inFlight[n]).outbox;
  }

  // ----- Stock effects -----

  ghost predicate RowFits(v: View, row: Row) {
    v.order.Some? && v.saga.Some? && Fitting(v.order.value, v.saga.value.state, row) && row in v.rows
  }

  // An effect for another order leaves this one's reservations alone.
  lemma OtherOrdersEffect(shelf: Shelf, n: nat, row: Row, tenantId: string, id: nat)
    requires row.orderId != id
    ensures ActiveLines(RunEffect(shelf, n, row).0.reservations, tenantId, id) == ActiveLines(shelf.reservations, tenantId, id)
    ensures RunEffect(shelf, n, row).1.Some? ==> RunEffect(shelf, n, row).1.value.orderId != id
  {
    match row.message
    case ReserveStock(items) =>
      ActiveRows(shelf.reservations, row.tenantId, row.orderId, Merged(items), tenantId, id);
      assert ActiveLines(shelf.reservations, tenantId, id) + [] == ActiveLines(shelf.reservations, tenantId, id);
    case ReleaseStock => ClosedActive(shelf.reservations, row.tenantId, row.orderId, tenantId, id);
    case _ =>
  }

  // An effect for this order: a grant leaves it holding its items, and what it holds stays until it is released.
  lemma OwnEffect(shelf: Shelf, n: nat, row: Row, v: View, id: nat)
    requires WellKept(shelf) && row.orderId == id && RowFits(v, row)
    ensures
      var (next, reply) := RunEffect(shelf, n, row);
      && (reply.Some? && IsGrant(reply.value, id) ==> HoldsItsItems(v, next.reservations, id))
      && (HoldsItsItems(v, shelf.reservations, id) ==> Sent(v.rows, ReleaseStock) || HoldsItsItems(v, next.reservations, id))
  {
    match row.message
    case ReserveStock(items) =>
      if Valid(items) {
        ReserveOutcome(shelf, row.tenantId, row.orderId, items);
      }
    case ReleaseStock =>
      var i :| 0 <= i < |v.rows| && v.rows[i] == row;
    case _ =>
  }

  lemma GrantedByReply(inFlight: seq<InventoryReply>, outbox: seq<InventoryReply>, reply: InventoryReply, id: nat)
    ensures Granted(inFlight + [reply], outbox, id) <==> Granted(inFlight, outbox, id) || IsGrant(reply, id)
  {
    assert reply in inFlight + [reply];
    assert forall r <- inFlight :: r in inFlight + [reply];
  }

  lemma EffectKeepsStockLinks(c: Setup, w: World, n: nat, row: Row, v: View, next: World, id: nat)
    requires StockLinks(v, w, ShelfOf(c, w).reservations, id) && WellKept(ShelfOf(c, w))
    requires row.orderId == id ==> RowFits(v, row)
    requires CommandOf(row).Some? && next == Worked(c, w, n, row)
    ensures StockLinks(v, next, ShelfOf(c, next).reservations, id)
  {
    var shelf := ShelfOf(c, w);
    var (after, reply) := RunEffect(shelf, n, row);
    EffectIsItsCommand(c, w, n, row);
    if reply.Some? {
      GrantedByReply(w.inFlight, w.replies.outbox, reply.value, id);
    }
    if row.orderId == id {
      OwnEffect(shelf, n, row, v, id);
    } else if v.order.Some? {
      OtherOrdersEffect(shelf, n, row, v.order.value.tenantId, id);
    } else {
      OtherOrdersEffect(shelf, n, row, "", id);
    }
  }

  lemma RowFitsItsOrder(c: Setup, w: World, n: nat)
    requires Sound(w) && n < |OrdersOf(c, w).db.outbox|
    ensures RowFits(ViewIn(c, w, OrdersOf(c, w).db.outbox[n].orderId), OrdersOf(c, w).db.outbox[n])
  {
    var outbox := OrdersOf(c, w).db.outbox;
    OrderRuns.EveryRowFits(c.maxAttempts, w.events, outbox[n]);
    FilterMembers(outbox, Of(outbox[n].orderId));
    assert outbox[n] in outbox && Of(outbox[n].orderId)(outbox[n]);
  }

  lemma ShelfIsKept(c: Setup, w: World)
    requires NonNegative(c.initial)
    ensures WellKept(ShelfOf(c, w))
  {
    RunKeepsTables(c.initial, w.commands);
  }

  lemma WorkKeepsLinks(c: Setup, w: World, n: nat, id: nat)
    requires NonNegative(c.initial) && Sound(w) && Linked(c, w, id) && n < |OrdersOf(c, w).db.outbox|
    ensures Linked(c, Worked(c, w, n, OrdersOf(c, w).db.outbox[n]), id)
  {
    var row := OrdersOf(c, w).db.outbox[n];
    if CommandOf(row).Some? {
      RowFitsItsOrder(c, w, n);
      ShelfIsKept(c, w);
      EffectKeepsStockLinks(c, w, n, row, ViewIn(c, w, id), Worked(c, w, n, row), id);
    }
  }

  lemma CancelledOrReleased(c: Setup, w: World, v: View, tenantId: string, orderId: nat, id: nat)
    requires v == ViewIn(c, w, id) && IsCancelled(OrderOf(AggregateOf(OrdersOf(c, w).db, orderId), tenantId))
    ensures orderId == id ==> IsFreed(v)
  {
  }

  lemma ReleaseKeepsStockLinks(v: View, w: World, shelf: Shelf, tenantId: string, orderId: nat, id: nat)
    requires StockLinks(v, w, shelf.reservations, id) && (orderId == id ==> IsFreed(v))
    ensures StockLinks(v, w, Release(shelf, tenantId, orderId).reservations, id)
  {
    if orderId != id && v.order.Some? {
      ClosedActive(shelf.reservations, tenantId, orderId, v.order.value.tenantId, id);
    }
  }

  // The release a user's cancel asks for.
  lemma CancelKeepsLinks(c: Setup, w: World, tenantId: string, orderId: nat, id: nat)
    requires Linked(c, w, id) && IsCancelled(OrderOf(AggregateOf(OrdersOf(c, w).db, orderId), tenantId))
    ensures Linked(c, w.(commands := w.commands + [ReleaseCommand(tenantId, orderId)]), id)
  {
    var v, next := ViewIn(c, w, id), w.(commands := w.commands + [ReleaseCommand(tenantId, orderId)]);
    assert next.commands[..|w.commands|] == w.commands;
    assert ShelfOf(c, next) == Release(ShelfOf(c, w), tenantId, orderId);
    CancelledOrReleased(c, w, v, tenantId, orderId, id);
    ReleaseKeepsStockLinks(v, w, ShelfOf(c, w), tenantId, orderId, id);
  }

  lemma MoveKeepsLinks(c: Setup, w: World, m: Move, id: nat)
    requires NonNegative(c.initial) && Sound(w) && Linked(c, w, id) && Allowed(m)
    ensures Linked(c, Onward(c, w, m), id)
  {
    match m
    case OrdersDo(e) => EventKeepsLinks(c, w, e, id);
    case InventoryWorks(n) =>
      if n < |OrdersOf(c, w).db.outbox| { WorkKeepsLinks(c, w, n, id); }
    case InventoryRecords(n) =>
      if n < |w.inFlight| { RecordKeepsGranted(w.inFlight, w.replies, n, id); }
    case InventoryReplyArrives(n) =>
      if n < |w.replies.outbox| {
        GrantIsBacked(w, n, id);
        EventKeepsLinks(c, w, Deliver(Source.Inventory, InventoryEnvelope(n, w.replies.outbox[n])), id);
      }
    case ChargeArrives(n, recovers) =>
      var outbox := OrdersOf(c, w).db.outbox;
      if n < |outbox| && outbox[n].message.ChargePayment? {
        if outbox[n].orderId == id { ChargeRowIsCharged(c, w, n, id); }
        PaymentMoves(c, w, StartCharge(ChargeInput(outbox[n].orderId, outbox[n].tenantId, outbox[n].message.amountCents,
                                                   outbox[n].correlationId), recovers), id);
      }
    case PaymentWorks(s) => PaymentMoves(c, w, s, id);
    case CancelReleases(tenantId, orderId) =>
      if IsCancelled(OrderOf(AggregateOf(OrdersOf(c, w).db, orderId), tenantId)) {
        CancelKeepsLinks(c, w, tenantId, orderId, id);
      }
    case PaymentReplyArrives(n) =>
      if n < |PaymentsOf(w).outbox| {
        ReplyIsBacked(w, n, id);
        EventKeepsLinks(c, w, Deliver(Source.Payment, PaymentEnvelope(n, PaymentsOf(w).outbox[n])), id);
      }
  }

  lemma {:induction false} WorldIsLinked(c: Setup, moves: seq<Move>, id: nat)
    requires NonNegative(c.initial) && AllAllowed(moves)
    ensures Linked(c, WorldAfter(c, moves), id)
  {
    if moves == [] {
      assert ViewIn(c, START, id) == NOTHING;
    } else {
      var init, m := moves[..|moves| - 1], moves[|moves| - 1];
      WorldIsLinked(c, init, id);
      WorldIsSound(c, init);
      assert m in moves;
      MoveKeepsLinks(c, WorldAfter(c, init), m, id);
    }
  }
}
