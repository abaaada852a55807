/**
 Replies followed from the command they answer to the event the order service records for them: none answers anything but its
 command, and none is recorded without moving its saga.
 */
module SagaReplies {
  import opened Results
  import opened Sequences
  import opened Orders
  import opened Sagas
  import opened OrderService
  import opened SagaView
  import opened OrderSystem
  import opened OrderRuns
  import opened Inventory
  import opened InventoryLaws
  import opened InventoryConsumer
  import opened Payment
  import opened SagaSystem
  import opened SagaProgress

  // ----- Every inventory reply answers a row -----

  ghost predicate ReplyFits(rows: seq<Row>, r: InventoryReply) {
    && r.command < |rows|
    && var row := rows[r.command];
    && row.orderId == r.orderId && row.tenantId == r.tenantId && row.correlationId == r.correlationId
    && (Source.Inventory, r.eventType) in Answers(row.message)
    && (row.message.ReserveStock? ==> Valid(row.message.items))
  }

  ghost predicate RepliesFit(rows: seq<Row>, inFlight: seq<InventoryReply>, outbox: seq<InventoryReply>) {
    (forall r <- inFlight :: ReplyFits(rows, r)) && (forall r <- outbox :: ReplyFits(rows, r))
  }

  lemma OutboxGrows(maxAttempts: nat, s: System, e: Event)
    ensures s.db.outbox <= Step(maxAttempts, s, e).db.outbox
  {
  }

  lemma RowsStay(c: Setup, w: World, m: Move)
    ensures OrdersOf(c, w).db.outbox <= OrdersOf(c, Onward(c, w, m)).db.outbox
  {
    match m
    case OrdersDo(e) => EventRowsStay(c, w, e);
    case InventoryReplyArrives(n) =>
      if n < |w.replies.outbox| { EventRowsStay(c, w, Deliver(Source.Inventory, InventoryEnvelope(n, w.replies.outbox[n]))); }
    case PaymentReplyArrives(n) =>
      if n < |PaymentsOf(w).outbox| { EventRowsStay(c, w, Deliver(Source.Payment, PaymentEnvelope(n, PaymentsOf(w).outbox[n]))); }
    case _ =>
  }

  lemma EventRowsStay(c: Setup, w: World, e: Event)
    ensures OrdersOf(c, w.(events := w.events + [e])) == Step(c.maxAttempts, OrdersOf(c, w), e)
    ensures OrdersOf(c, w).db.outbox <= OrdersOf(c, w.(events := w.events + [e])).db.outbox
  {
    assert (w.events + [e])[..|w.events|] == w.events;
    OutboxGrows(c.maxAttempts, OrdersOf(c, w), e);
  }

  lemma StillFits(rows: seq<Row>, more: seq<Row>, inFlight: seq<InventoryReply>, outbox: seq<InventoryReply>)
    requires rows <= more && RepliesFit(rows, inFlight, outbox)
    ensures RepliesFit(more, inFlight, outbox)
  {
  }

  lemma EffectFits(shelf: Shelf, n: nat, rows: seq<Row>)
    requires n < |rows| && RunEffect(shelf, n, rows[n]).1.Some?
    ensures ReplyFits(rows, RunEffect(shelf, n, rows[n]).1.value)
  {
  }

  lemma MoveKeepsRepliesFit(c: Setup, w: World, m: Move, next: World)
    requires next == Onward(c, w, m) && RepliesFit(OrdersOf(c, w).db.outbox, w.inFlight, w.replies.outbox)
    ensures RepliesFit(OrdersOf(c, next).db.outbox, next.inFlight, next.replies.outbox)
  {
    RowsStay(c, w, m);
    StillFits(OrdersOf(c, w).db.outbox, OrdersOf(c, next).db.outbox, w.inFlight, w.replies.outbox);
    match m
    case InventoryWorks(n) =>
      var rows := OrdersOf(c, w).db.outbox;
      if n < |rows| && RunEffect(ShelfOf(c, w), n, rows[n]).1.Some? {
        EffectFits(ShelfOf(c, w), n, rows);
      }
    case InventoryRecords(n) =>
      if n < |w.inFlight| { assert w.inFlight[n] in w.inFlight; }
    case _ =>
  }

  /** In every world each reply of the inventory service is one of the answers to its own command. */
  lemma {:induction false} RepliesAnswerTheirCommands(c: Setup, moves: seq<Move>, w: World)
    requires w == WorldAfter(c, moves)
    ensures RepliesFit(OrdersOf(c, w).db.outbox, w.inFlight, w.replies.outbox)
  {
    if moves != [] {
      var before := WorldAfter(c, moves[..|moves| - 1]);
      RepliesAnswerTheirCommands(c, moves[..|moves| - 1], before);
      MoveKeepsRepliesFit(c, before, moves[|moves| - 1], w);
    }
  }

  // ----- Every payment reply is addressed to its order's tenant -----

  ghost predicate OwnCharges(order: Option<Order>, p: Payments, id: nat) {
    && (id in p.workflows ==> order.Some? && p.workflows[id].input.tenantId == order.value.tenantId)
    && (forall r <- RepliesOf(p, id) :: order.Some? && r.tenantId == order.value.tenantId)
  }

  lemma StepKeepsOwnCharges(order: Option<Order>, p: Payments, s: PaymentStep, id: nat)
    requires OwnCharges(order, p, id)
    requires s.StartCharge? && s.input.orderId == id ==> order.Some? && s.input.tenantId == order.value.tenantId
    ensures OwnCharges(order, PaymentNext(p, s), id)
  {
    StepAddsReplies(p, s, id);
  }

  lemma MoveKeepsOwnCharges(c: Setup, w: World, m: Move, id: nat, next: World)
    requires Sound(w) && Allowed(m) && next == Onward(c, w, m) && OwnCharges(ViewIn(c, w, id).order, PaymentsOf(w), id)
    ensures OwnCharges(ViewIn(c, next, id).order, PaymentsOf(next), id)
  {
    MoveEvolves(c, w, m, id);
    match m
    case ChargeArrives(n, recovers) =>
      var outbox := OrdersOf(c, w).db.outbox;
      if n < |outbox| && outbox[n].message.ChargePayment? {
        RowFitsItsOrder(c, w, n);
        var s := StartCharge(ChargeInput(outbox[n].orderId, outbox[n].tenantId, outbox[n].message.amountCents, outbox[n].correlationId), recovers);
        RunSnoc(w.steps, s);
        StepKeepsOwnCharges(ViewIn(c, w, id).order, PaymentsOf(w), s, id);
      }
    case PaymentWorks(s) =>
      RunSnoc(w.steps, s);
      StepKeepsOwnCharges(ViewIn(c, w, id).order, PaymentsOf(w), s, id);
    case _ =>
  }

  lemma {:induction false} ChargesAreOwn(c: Setup, moves: seq<Move>, id: nat, w: World)
    requires AllAllowed(moves) && w == WorldAfter(c, moves)
    ensures OwnCharges(ViewIn(c, w, id).order, PaymentsOf(w), id)
  {
    if moves != [] {
      var init, m := moves[..|moves| - 1], moves[|moves| - 1];
      ChargesAreOwn(c, init, id, WorldAfter(c, init));
      WorldIsSound(c, init);
      assert m in moves;
      MoveKeepsOwnCharges(c, WorldAfter(c, init), m, id, w);
    }
  }

  // ----- A reply that was recorded has moved its saga on -----

  // The rank a saga is below once it has taken in a reply of this kind.
  function Limit(event: EventType): nat {
    match event
    case StockReservedEvent => 3
    case StockReservationFailed => 3
    case StockReleased => 1
    case PaymentSucceeded => 2
    case PaymentFailed => 2
    case OtherEvent(_) => 4
  }

  predicate Past(v: View, event: EventType) {
    v.saga.Some? && Rank(v.saga.value.state) < Limit(event)
  }

  ghost predicate PastInventory(processed: set<EventId>, outbox: seq<InventoryReply>, v: View, id: nat) {
    forall k: nat :: FromInventory(k) in processed ==> k < |outbox| && (outbox[k].orderId == id ==> Past(v, outbox[k].eventType))
  }

  ghost predicate PastPayment(processed: set<EventId>, outbox: seq<Reply>, v: View, id: nat) {
    forall k: nat :: FromPayment(k) in processed ==> k < |outbox| && (outbox[k].orderId == id ==> Past(v, PaymentSucceeded))
  }

  ghost predicate RecordedArePast(c: Setup, w: World, id: nat) {
    && PastInventory(OrdersOf(c, w).db.processed, w.replies.outbox, ViewIn(c, w, id), id)
    && PastPayment(OrdersOf(c, w).db.processed, PaymentsOf(w).outbox, ViewIn(c, w, id), id)
  }

  lemma PastStays(v: View, x: View, event: EventType)
    requires Past(v, event) && Evolves(v, x)
    ensures Past(x, event)
  {
    TransitionsLowerRank(v.saga.value.state, x.saga.value.state);
  }

  lemma EvolvesKeepsPast(processed: set<EventId>, inventory: seq<InventoryReply>, payment: seq<Reply>, v: View, x: View, id: nat)
    requires PastInventory(processed, inventory, v, id) && PastPayment(processed, payment, v, id) && Evolves(v, x)
    ensures PastInventory(processed, inventory, x, id) && PastPayment(processed, payment, x, id)
  {
    forall k: nat | FromInventory(k) in processed && inventory[k].orderId == id ensures Past(x, inventory[k].eventType) {
      PastStays(v, x, inventory[k].eventType);
    }
    forall k: nat | FromPayment(k) in processed && payment[k].orderId == id ensures Past(x, PaymentSucceeded) {
      PastStays(v, x, PaymentSucceeded);
    }
  }

  // A reply came no earlier than its command was sent.
  predicate Timely(v: View, source: Source, event: EventType) {
    v.saga.Some? ==>
      && (event == StockReleased ==> v.saga.value.state in {Compensating, SagaState.Cancelled})
      && (source == Source.Payment ==> v.saga.value.state != SagaState.Started)
  }

  lemma ReplyPasses(maxAttempts: nat, id: nat, v: View, source: Source, env: Envelope, x: View)
    requires Healthy(maxAttempts, id, v) && x == AfterReply(v, source, env)
    requires ApplyReply(Aggregate(v.order, v.saga), source, env).Ok? && Timely(v, source, env.eventType)
    requires match source
             case Inventory => env.eventType in {StockReservedEvent, StockReservationFailed, StockReleased}
             case Payment => env.eventType in {PaymentSucceeded, PaymentFailed}
    ensures Past(x, env.eventType)
  {
    ReplyOutcome(maxAttempts, id, v, source, env);
  }

  lemma RecordedBy(maxAttempts: nat, s: System, e: Event)
    ensures Step(maxAttempts, s, e).db.processed
            == if e.Deliver? && ApplyReply(AggregateOf(s.db, e.env.orderId), e.source, e.env).Ok?
               then s.db.processed + {e.env.eventId} else s.db.processed
  {
  }

  lemma EventStays(c: Setup, w: World, e: Event, id: nat, next: World)
    requires Sound(w) && WellFormed(e) && !e.Deliver? && RecordedArePast(c, w, id) && next == w.(events := w.events + [e])
    ensures RecordedArePast(c, next, id)
  {
    EventRowsStay(c, w, e);
    RecordedBy(c.maxAttempts, OrdersOf(c, w), e);
    EventMovesOn(c, w, e, id);
    EvolvesKeepsPast(OrdersOf(c, w).db.processed, w.replies.outbox, PaymentsOf(w).outbox, ViewIn(c, w, id), ViewIn(c, next, id), id);
  }

  // What delivering a reply of this order records.
  lemma DeliveredIsPast(c: Setup, w: World, source: Source, env: Envelope, next: World)
    requires Sound(w) && next == w.(events := w.events + [Deliver(source, env)])
    requires Timely(ViewIn(c, w, env.orderId), source, env.eventType)
    requires match source
             case Inventory => env.eventType in {StockReservedEvent, StockReservationFailed, StockReleased}
             case Payment => env.eventType in {PaymentSucceeded, PaymentFailed}
    requires env.eventId !in OrdersOf(c, w).db.processed && env.eventId in OrdersOf(c, next).db.processed
    ensures Past(ViewIn(c, next, env.orderId), env.eventType)
  {
    var id := env.orderId;
    var v := ViewIn(c, w, id);
    EventRowsStay(c, w, Deliver(source, env));
    RecordedBy(c.maxAttempts, OrdersOf(c, w), Deliver(source, env));
    RunIsHealthy(c.maxAttempts, w.events, id);
    LastEvent(c.maxAttempts, w.events, Deliver(source, env), id);
    ReplyPasses(c.maxAttempts, id, v, source, env, ViewIn(c, next, id));
  }

  lemma InventoryTimely(c: Setup, w: World, n: nat)
    requires Sound(w) && n < |w.replies.outbox| && ReplyFits(OrdersOf(c, w).db.outbox, w.replies.outbox[n])
    ensures Timely(ViewIn(c, w, w.replies.outbox[n].orderId), Source.Inventory, w.replies.outbox[n].eventType)
    ensures w.replies.outbox[n].eventType in {StockReservedEvent, StockReservationFailed, StockReleased}
  {
    RowFitsItsOrder(c, w, w.replies.outbox[n].command);
  }

  lemma PaymentTimely(c: Setup, w: World, n: nat, id: nat)
    requires Sound(w) && n < |PaymentsOf(w).outbox| && PaymentsOf(w).outbox[n].orderId == id
    requires PaymentLinks(ViewIn(c, w, id), PaymentsOf(w), id)
    ensures Timely(ViewIn(c, w, id), Source.Payment, PaymentSucceeded) && Timely(ViewIn(c, w, id), Source.Payment, PaymentFailed)
  {
    var v, r := ViewIn(c, w, id), PaymentsOf(w).outbox[n];
    RunIsHealthy(c.maxAttempts, w.events, id);
    FilterMembers(PaymentsOf(w).outbox, ReplyOf(id));
    assert r in PaymentsOf(w).outbox && ReplyOf(id)(r);
    assert r in RepliesOf(PaymentsOf(w), id);
    if v.saga.Some? && v.saga.value.state == SagaState.Started {
      NotChargedYet(v.order.value, v.rows);
    }
  }

  lemma InventoryArrivalPasses(c: Setup, w: World, n: nat, id: nat, e: Event, next: World)
    requires Sound(w) && RecordedArePast(c, w, id) && n < |w.replies.outbox| && ReplyFits(OrdersOf(c, w).db.outbox, w.replies.outbox[n])
    requires e == Deliver(Source.Inventory, InventoryEnvelope(n, w.replies.outbox[n])) && next == w.(events := w.events + [e])
    ensures RecordedArePast(c, next, id)
  {
    var processed := OrdersOf(c, w).db.processed;
    EventRowsStay(c, w, e);
    RecordedBy(c.maxAttempts, OrdersOf(c, w), e);
    EventMovesOn(c, w, e, id);
    EvolvesKeepsPast(processed, w.replies.outbox, PaymentsOf(w).outbox, ViewIn(c, w, id), ViewIn(c, next, id), id);
    if FromInventory(n) !in processed && FromInventory(n) in OrdersOf(c, next).db.processed && w.replies.outbox[n].orderId == id {
      InventoryTimely(c, w, n);
      DeliveredIsPast(c, w, Source.Inventory, e.env, next);
    }
  }

  lemma PaymentArrivalPasses(c: Setup, w: World, n: nat, id: nat, e: Event, next: World)
    requires Sound(w) && RecordedArePast(c, w, id) && n < |PaymentsOf(w).outbox| && PaymentLinks(ViewIn(c, w, id), PaymentsOf(w), id)
    requires e == Deliver(Source.Payment, PaymentEnvelope(n, PaymentsOf(w).outbox[n])) && next == w.(events := w.events + [e])
    ensures RecordedArePast(c, next, id)
  {
    var processed := OrdersOf(c, w).db.processed;
    EventRowsStay(c, w, e);
    RecordedBy(c.maxAttempts, OrdersOf(c, w), e);
    EventMovesOn(c, w, e, id);
    EvolvesKeepsPast(processed, w.replies.outbox, PaymentsOf(w).outbox, ViewIn(c, w, id), ViewIn(c, next, id), id);
    if FromPayment(n) !in processed && FromPayment(n) in OrdersOf(c, next).db.processed && PaymentsOf(w).outbox[n].orderId == id {
      PaymentTimely(c, w, n, id);
      DeliveredIsPast(c, w, Source.Payment, e.env, next);
    }
  }

  lemma LongerKeepsPast(processed: set<EventId>, inventory: seq<InventoryReply>, moreInventory: seq<InventoryReply>, payment: seq<Reply>,
                        morePayment: seq<Reply>, v: View, id: nat)
    requires PastInventory(processed, inventory, v, id) && PastPayment(processed, payment, v, id)
    requires inventory <= moreInventory && payment <= morePayment
    ensures PastInventory(processed, moreInventory, v, id) && PastPayment(processed, morePayment, v, id)
  {
  }

  lemma PaymentOutboxGrows(w: World, s: PaymentStep)
    ensures PaymentsOf(w).outbox <= PaymentsOf(w.(steps := w.steps + [s])).outbox
  {
    RunSnoc(w.steps, s);
  }

  lemma PaymentStepKeepsPast(c: Setup, w: World, s: PaymentStep, id: nat)
    requires RecordedArePast(c, w, id)
    ensures RecordedArePast(c, w.(steps := w.steps + [s]), id)
  {
    PaymentOutboxGrows(w, s);
    LongerKeepsPast(OrdersOf(c, w).db.processed, w.replies.outbox, w.replies.outbox, PaymentsOf(w).outbox,
                    PaymentsOf(w.(steps := w.steps + [s])).outbox, ViewIn(c, w, id), id);
  }

  lemma MoveKeepsRecorded(c: Setup, w: World, m: Move, id: nat, next: World)
    requires Sound(w) && Allowed(m) && next == Onward(c, w, m) && RecordedArePast(c, w, id)
    requires PaymentLinks(ViewIn(c, w, id), PaymentsOf(w), id) && RepliesFit(OrdersOf(c, w).db.outbox, w.inFlight, w.replies.outbox)
    ensures RecordedArePast(c, next, id)
  {
    match m
    case OrdersDo(e) => EventStays(c, w, e, id, next);
    case InventoryRecords(n) =>
      LongerKeepsPast(OrdersOf(c, w).db.processed, w.replies.outbox, next.replies.outbox, PaymentsOf(w).outbox, PaymentsOf(w).outbox,
                      ViewIn(c, w, id), id);
    case InventoryReplyArrives(n) =>
      if n < |w.replies.outbox| {
        assert w.replies.outbox[n] in w.replies.outbox;
        InventoryArrivalPasses(c, w, n, id, Deliver(Source.Inventory, InventoryEnvelope(n, w.replies.outbox[n])), next);
      }
    case PaymentReplyArrives(n) =>
      if n < |PaymentsOf(w).outbox| {
        PaymentArrivalPasses(c, w, n, id, Deliver(Source.Payment, PaymentEnvelope(n, PaymentsOf(w).outbox[n])), next);
      }
    case ChargeArrives(n, recovers) =>
      var outbox := OrdersOf(c, w).db.outbox;
      if n < |outbox| && outbox[n].message.ChargePayment? {
        PaymentStepKeepsPast(c, w, StartCharge(ChargeInput(outbox[n].orderId, outbox[n].tenantId, outbox[n].message.amountCents,
                                                           outbox[n].correlationId), recovers), id);
      }
    case PaymentWorks(s) => PaymentStepKeepsPast(c, w, s, id);
    case _ =>
  }

  /** No reply is recorded and lost: in every world, a reply whose event the order service has recorded was in its outbox, and
      has taken the saga it was for beyond the state that waited for it. */
  lemma {:induction false} RecordedRepliesArePast(c: Setup, moves: seq<Move>, id: nat, w: World)
    requires NonNegative(c.initial) && AllAllowed(moves) && w == WorldAfter(c, moves)
    ensures RecordedArePast(c, w, id)
  {
    if moves != [] {
      var init, m := moves[..|moves| - 1], moves[|moves| - 1];
      var before := WorldAfter(c, init);
      RecordedRepliesArePast(c, init, id, before);
      WorldIsSound(c, init);
      WorldIsLinked(c, init, id);
      RepliesAnswerTheirCommands(c, init, before);
      assert m in moves;
      MoveKeepsRecorded(c, before, m, id, w);
    }
  }

  // ----- One correlation id per order -----

  ghost predicate RowsCorrelated(v: View, x: string) {
    (forall row <- v.rows :: row.correlationId == x) && (v.pending.Some? ==> v.pending.value.row.correlationId == x)
  }

  ghost predicate ViewCorrelated(v: View) {
    v.saga.Some? ==> v.saga.value.correlationId.Some? && RowsCorrelated(v, v.saga.value.correlationId.value)
  }

  // A reply of this order carries its correlation id.
  predicate Echoes(v: View, e: Event, id: nat) {
    e.Deliver? && e.env.orderId == id && v.saga.Some? ==> v.saga.value.correlationId == Some(e.env.correlationId)
  }

  lemma EventKeepsCorrelation(maxAttempts: nat, id: nat, v: View, e: Event, x: View)
    requires Healthy(maxAttempts, id, v) && ViewCorrelated(v) && Echoes(v, e, id) && x == AfterEvent(maxAttempts, id, v, e)
    ensures ViewCorrelated(x) && (v.saga.Some? ==> x.saga.Some? && x.saga.value.correlationId == v.saga.value.correlationId)
  {
    match e
    case Deliver(source, env) =>
      if env.orderId == id && v.saga.Some? { ReplyOutcome(maxAttempts, id, v, source, env); }
    case _ =>
  }

  // What the payment service holds and says for an order.
  ghost predicate PaymentCorrelated(p: Payments, id: nat, x: string) {
    && (id in p.workflows ==> p.workflows[id].input.correlationId == x)
    && (forall r <- RepliesOf(p, id) :: r.correlationId == x)
  }

  ghost predicate Correlated(c: Setup, w: World, id: nat) {
    var v := ViewIn(c, w, id);
    ViewCorrelated(v) && (v.saga.Some? ==> PaymentCorrelated(PaymentsOf(w), id, v.saga.value.correlationId.value))
  }

  lemma AddedCorrelated(p: Payments, s: PaymentStep, id: nat, x: string)
    requires id in p.workflows ==> p.workflows[id].input.correlationId == x
    requires s.StartCharge? && s.input.orderId == id ==> s.input.correlationId == x
    ensures forall r <- AddedReplies(p, s, id) :: r.correlationId == x
    ensures id in PaymentNext(p, s).workflows ==> PaymentNext(p, s).workflows[id].input.correlationId == x
  {
  }

  lemma StepKeepsPaymentCorrelated(p: Payments, s: PaymentStep, id: nat, x: string)
    requires PaymentCorrelated(p, id, x) && (s.StartCharge? && s.input.orderId == id ==> s.input.correlationId == x)
    ensures PaymentCorrelated(PaymentNext(p, s), id, x)
  {
    StepAddsReplies(p, s, id);
    AddedCorrelated(p, s, id, x);
    forall r | r in RepliesOf(p, id) + AddedReplies(p, s, id) ensures r.correlationId == x {
      assert r in RepliesOf(p, id) || r in AddedReplies(p, s, id);
    }
  }

  lemma RowIsCorrelated(c: Setup, w: World, n: nat)
    requires Sound(w) && n < |OrdersOf(c, w).db.outbox|
    requires ViewCorrelated(ViewIn(c, w, OrdersOf(c, w).db.outbox[n].orderId))
    ensures var v, row := ViewIn(c, w, OrdersOf(c, w).db.outbox[n].orderId), OrdersOf(c, w).db.outbox[n];
            v.saga.Some? && v.saga.value.correlationId == Some(row.correlationId)
  {
    RowFitsItsOrder(c, w, n);
  }

  // Without a saga nothing was charged.
  lemma NoSagaNoPayment(c: Setup, w: World, id: nat, x: string)
    requires Sound(w) && ViewIn(c, w, id).saga.None? && PaymentLinks(ViewIn(c, w, id), PaymentsOf(w), id)
    ensures PaymentCorrelated(PaymentsOf(w), id, x)
  {
    RunIsHealthy(c.maxAttempts, w.events, id);
  }

  lemma EventKeepsCorrelated(c: Setup, w: World, e: Event, id: nat, next: World)
    requires Sound(w) && WellFormed(e) && Correlated(c, w, id) && PaymentLinks(ViewIn(c, w, id), PaymentsOf(w), id)
    requires Echoes(ViewIn(c, w, id), e, id) && next == w.(events := w.events + [e])
    ensures Correlated(c, next, id)
  {
    var v := ViewIn(c, w, id);
    RunIsHealthy(c.maxAttempts, w.events, id);
    LastEvent(c.maxAttempts, w.events, e, id);
    EventKeepsCorrelation(c.maxAttempts, id, v, e, AfterEvent(c.maxAttempts, id, v, e));
    if v.saga.None? && ViewIn(c, next, id).saga.Some? {
      NoSagaNoPayment(c, w, id, ViewIn(c, next, id).saga.value.correlationId.value);
    }
  }

  lemma ChargeKeepsCorrelated(c: Setup, w: World, n: nat, recovers: bool, id: nat, next: World)
    requires Sound(w) && Correlated(c, w, id) && next == Onward(c, w, ChargeArrives(n, recovers))
    ensures Correlated(c, next, id)
  {
    var outbox := OrdersOf(c, w).db.outbox;
    if n < |outbox| && outbox[n].message.ChargePayment? {
      var s := StartCharge(ChargeInput(outbox[n].orderId, outbox[n].tenantId, outbox[n].message.amountCents, outbox[n].correlationId), recovers);
      if outbox[n].orderId == id { RowIsCorrelated(c, w, n); }
      PaymentMoveKeepsCorrelated(c, w, s, id, next);
    }
  }

  lemma PaymentMoveKeepsCorrelated(c: Setup, w: World, s: PaymentStep, id: nat, next: World)
    requires Correlated(c, w, id) && next == w.(steps := w.steps + [s])
    requires var v := ViewIn(c, w, id);
             s.StartCharge? && s.input.orderId == id ==> v.saga.Some? && v.saga.value.correlationId == Some(s.input.correlationId)
    ensures Correlated(c, next, id)
  {
    var v := ViewIn(c, w, id);
    RunSnoc(w.steps, s);
    if v.saga.Some? {
      StepKeepsPaymentCorrelated(PaymentsOf(w), s, id, v.saga.value.correlationId.value);
    }
  }

  lemma InventoryEchoes(c: Setup, w: World, n: nat, id: nat)
    requires Sound(w) && Correlated(c, w, id) && n < |w.replies.outbox|
    requires RepliesFit(OrdersOf(c, w).db.outbox, w.inFlight, w.replies.outbox)
    ensures Echoes(ViewIn(c, w, id), Deliver(Source.Inventory, InventoryEnvelope(n, w.replies.outbox[n])), id)
  {
    var r := w.replies.outbox[n];
    assert r in w.replies.outbox && ReplyFits(OrdersOf(c, w).db.outbox, r);
    if r.orderId == id { RowIsCorrelated(c, w, r.command); }
  }

  lemma PaymentEchoes(c: Setup, w: World, n: nat, id: nat)
    requires Correlated(c, w, id) && n < |PaymentsOf(w).outbox|
    ensures Echoes(ViewIn(c, w, id), Deliver(Source.Payment, PaymentEnvelope(n, PaymentsOf(w).outbox[n])), id)
  {
    var r := PaymentsOf(w).outbox[n];
    FilterMembers(PaymentsOf(w).outbox, ReplyOf(id));
    assert r in PaymentsOf(w).outbox;
    assert r.orderId == id ==> ReplyOf(id)(r) && r in RepliesOf(PaymentsOf(w), id);
  }

  lemma MoveKeepsCorrelated(c: Setup, w: World, m: Move, id: nat, next: World)
    requires Sound(w) && Allowed(m) && Correlated(c, w, id) && next == Onward(c, w, m)
    requires PaymentLinks(ViewIn(c, w, id), PaymentsOf(w), id) && RepliesFit(OrdersOf(c, w).db.outbox, w.inFlight, w.replies.outbox)
    ensures Correlated(c, next, id)
  {
    match m
    case OrdersDo(e) => EventKeepsCorrelated(c, w, e, id, next);
    case InventoryReplyArrives(n) =>
      if n < |w.replies.outbox| {
        InventoryEchoes(c, w, n, id);
        EventKeepsCorrelated(c, w, Deliver(Source.Inventory, InventoryEnvelope(n, w.replies.outbox[n])), id, next);
      }
    case PaymentReplyArrives(n) =>
      if n < |PaymentsOf(w).outbox| {
        PaymentEchoes(c, w, n, id);
        EventKeepsCorrelated(c, w, Deliver(Source.Payment, PaymentEnvelope(n, PaymentsOf(w).outbox[n])), id, next);
      }
    case ChargeArrives(n, recovers) => ChargeKeepsCorrelated(c, w, n, recovers, id, next);
    case PaymentWorks(s) => PaymentMoveKeepsCorrelated(c, w, s, id, next);
    case _ =>
  }

  lemma {:induction false} WorldIsCorrelated(c: Setup, moves: seq<Move>, id: nat, w: World)
    requires NonNegative(c.initial) && AllAllowed(moves) && w == WorldAfter(c, moves)
    ensures Correlated(c, w, id)
  {
    if moves != [] {
      var init, m := moves[..|moves| - 1], moves[|moves| - 1];
      var before := WorldAfter(c, init);
      WorldIsCorrelated(c, init, id, before);
      WorldIsSound(c, init);
      WorldIsLinked(c, init, id);
      RepliesAnswerTheirCommands(c, init, before);
      assert m in moves;
      MoveKeepsCorrelated(c, before, m, id, w);
    }
  }

  /** Everything said about an order, by whichever service, first time or again, carries the correlation id it was placed with, which
      its saga keeps. */
  lemma OneCorrelationPerOrder(c: Setup, moves: seq<Move>, id: nat, w: World, v: View)
    requires NonNegative(c.initial) && AllAllowed(moves) && w == WorldAfter(c, moves) && v == ViewIn(c, w, id) && v.saga.Some?
    ensures v.saga.value.correlationId.Some?
    ensures forall row <- v.rows :: row.correlationId == v.saga.value.correlationId.value
    ensures forall r <- w.replies.outbox :: r.orderId == id ==> r.correlationId == v.saga.value.correlationId.value
    ensures forall r <- RepliesOf(PaymentsOf(w), id) :: r.correlationId == v.saga.value.correlationId.value
  {
    WorldIsCorrelated(c, moves, id, w);
    WorldIsSound(c, moves);
    RepliesAnswerTheirCommands(c, moves, w);
    forall r | r in w.replies.outbox && r.orderId == id ensures r.correlationId == v.saga.value.correlationId.value {
      RowIsCorrelated(c, w, r.command);
    }
  }
}
