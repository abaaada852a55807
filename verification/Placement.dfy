/**
 Placing an order under an idempotency key: a lookup first, then one transaction that claims the key and writes order, saga
 and command together; a claim lost to a concurrent request is resolved by looking again.
 */
module Placement {
  import opened Results
  import opened Orders
  import opened Sagas
  import opened OrderService

  datatype ClaimKey = ClaimKey(tenantId: string, userId: string, key: string)

  datatype PlaceError = IdempotencyConflict

  /** The order service's tables and the claimed keys, each with its order. */
  datatype Desk = Desk(db: Tables, claims: map<ClaimKey, nat>)

  datatype Request = Request(key: ClaimKey, order: Order, correlationId: string)

  // Orders are placed under the key's tenant, pending and at version zero.
  predicate WellMade(r: Request) {
    r.order.tenantId == r.key.tenantId && r.order.status == Pending && r.order.version == 0
  }

  function LoadExisting(d: Desk, key: ClaimKey): Result<nat, PlaceError>
    requires key in d.claims
  {
    if OrderOf(AggregateOf(d.db, d.claims[key]), key.tenantId).Some? then Ok(d.claims[key]) else Err(IdempotencyConflict)
  }

  /** A request as if it were one step: the key's order if there is one, else this one. */
  function Placed(d: Desk, r: Request): (Desk, Result<nat, PlaceError>) {
    if r.key in d.claims then (d, LoadExisting(d, r.key))
    else
      var (db, outcome) := PlaceOrder(d.db, r.order, r.correlationId);
      if outcome.Ok? then (Desk(db, d.claims[r.key := r.order.id]), Ok(r.order.id)) else (d, Err(IdempotencyConflict))
  }

  function PlacedAll(d: Desk, rs: seq<Request>): Desk {
    if rs == [] then d else Placed(PlacedAll(d, rs[..|rs| - 1]), rs[|rs| - 1]).0
  }

  class PlaceOrderHandler {
    const service: OrderService
    var claims: map<ClaimKey, nat>

    constructor (service: OrderService)
      ensures this.service == service && claims == map[]
    {
      this.service := service;
      claims := map[];
    }

    function Current(): Desk
      reads this, service
    {
      Desk(service.Current(), claims)
    }

    method Load(key: ClaimKey) returns (result: Result<nat, PlaceError>)
      requires key in claims
      ensures result == LoadExisting(Current(), key)
    {
      var order := service.FindOrder(key.tenantId, claims[key]);
      result := if order.Some? then Ok(claims[key]) else Err(IdempotencyConflict);
    }

    // The transaction, and what follows a unique violation in it.
    method ClaimAndPlace(r: Request) returns (result: Result<nat, PlaceError>)
      modifies this`claims, service
      ensures (Current(), result) == Placed(old(Current()), r)
    {
      if r.key in claims {
        result := Load(r.key);
        return;
      }
      var placed := service.Place(r.order, r.correlationId);
      if placed.Err? {
        return Err(IdempotencyConflict);
      }
      claims := claims[r.key := r.order.id];
      return Ok(r.order.id);
    }

    // Other requests in the meantime.
    method Others(rs: seq<Request>)
      modifies this`claims, service
      ensures Current() == PlacedAll(old(Current()), rs)
    {
      for i := 0 to |rs|
        invariant Current() == PlacedAll(old(Current()), rs[..i])
      {
        assert rs[..i + 1][..i] == rs[..i];
        var other := ClaimAndPlace(rs[i]);
      }
      assert rs[..|rs|] == rs;
    }

    /** The handler with any other requests between its lookup and its transaction: it answers and leaves the tables as a
        request handled in one step after them. */
    method Execute(r: Request, between: seq<Request>) returns (result: Result<nat, PlaceError>)
      requires WellMade(r) && ClaimsHold(Current())
      modifies this`claims, service
      ensures (Current(), result) == Placed(PlacedAll(old(Current()), between), r)
    {
      if r.key in claims {
        ghost var before := Current();
        result := Load(r.key);
        Others(between);
        ClaimStays(before, between, r.key);
      } else {
        Others(between);
        result := ClaimAndPlace(r);
      }
    }
  }

  // ----- One order per key -----

  /** Every claimed key has its order. */
  ghost predicate ClaimsHold(d: Desk) {
    forall key <- d.claims :: OrderOf(AggregateOf(d.db, d.claims[key]), key.tenantId).Some?
  }

  /** No two keys share an order. */
  ghost predicate OneKeyEach(d: Desk) {
    && (forall k1, k2 | k1 in d.claims && k2 in d.claims && k1 != k2 :: d.claims[k1] != d.claims[k2])
    && (forall key <- d.claims :: d.claims[key] in d.db.orders)
  }

  lemma PlacedKeepsOrders(d: Desk, r: Request)
    ensures forall id <- d.db.orders :: id in Placed(d, r).0.db.orders && Placed(d, r).0.db.orders[id] == d.db.orders[id]
    ensures forall key <- d.claims :: key in Placed(d, r).0.claims && Placed(d, r).0.claims[key] == d.claims[key]
  {
  }

  // A claim, once made, keeps its order.
  lemma {:induction false} ClaimStays(d: Desk, rs: seq<Request>, key: ClaimKey)
    requires key in d.claims && OrderOf(AggregateOf(d.db, d.claims[key]), key.tenantId).Some?
    ensures key in PlacedAll(d, rs).claims && LoadExisting(PlacedAll(d, rs), key) == Ok(d.claims[key])
  {
    if rs != [] {
      ClaimStays(d, rs[..|rs| - 1], key);
      PlacedKeepsOrders(PlacedAll(d, rs[..|rs| - 1]), rs[|rs| - 1]);
    }
  }

  lemma PlacedKeepsClaims(d: Desk, r: Request)
    requires ClaimsHold(d) && OneKeyEach(d) && WellMade(r)
    ensures ClaimsHold(Placed(d, r).0) && OneKeyEach(Placed(d, r).0)
  {
    var next := Placed(d, r).0;
    PlacedKeepsOrders(d, r);
    forall key | key in next.claims ensures OrderOf(AggregateOf(next.db, next.claims[key]), key.tenantId).Some? {
      assert key in d.claims ==> OrderOf(AggregateOf(d.db, d.claims[key]), key.tenantId).Some?;
    }
  }

  const NO_ORDERS := Desk(Tables(map[], map[], {}, []), map[])

  lemma {:induction false} RunKeepsClaims(rs: seq<Request>)
    requires forall r <- rs :: WellMade(r)
    ensures ClaimsHold(PlacedAll(NO_ORDERS, rs)) && OneKeyEach(PlacedAll(NO_ORDERS, rs))
  {
    if rs != [] {
      var init, last := rs[..|rs| - 1], rs[|rs| - 1];
      RunKeepsClaims(init);
      assert last in rs;
      PlacedKeepsClaims(PlacedAll(NO_ORDERS, init), last);
    }
  }

  /** One order per key: whatever requests came before and in between, two requests with the same key that both succeed name
      the same order, and requests with different keys never do. */
  lemma OneOrderPerKey(before: seq<Request>, between: seq<Request>, r1: Request, r2: Request, d1: Desk, d2: Desk)
    requires (forall r <- before :: WellMade(r)) && (forall r <- between :: WellMade(r)) && WellMade(r1) && WellMade(r2)
    requires d1 == PlacedAll(NO_ORDERS, before) && d2 == PlacedAll(Placed(d1, r1).0, between)
    requires Placed(d1, r1).1.Ok? && Placed(d2, r2).1.Ok?
    ensures Placed(d1, r1).1 == Placed(d2, r2).1 <==> r1.key == r2.key
  {
    var mid := Placed(d1, r1).0;
    RunKeepsClaims(before);
    PlacedKeepsClaims(d1, r1);
    assert mid.claims[r1.key] == Placed(d1, r1).1.value;
    assert ClaimsHold(mid);
    ClaimStays(mid, between, r1.key);
    ContinuesClaims(mid, between);
    SecondOrder(d2, r1.key, r2);
  }

  lemma {:induction false} ContinuesClaims(d: Desk, rs: seq<Request>)
    requires ClaimsHold(d) && OneKeyEach(d) && forall r <- rs :: WellMade(r)
    ensures ClaimsHold(PlacedAll(d, rs)) && OneKeyEach(PlacedAll(d, rs))
  {
    if rs != [] {
      var init, last := rs[..|rs| - 1], rs[|rs| - 1];
      ContinuesClaims(d, init);
      assert last in rs;
      PlacedKeepsClaims(PlacedAll(d, init), last);
    }
  }

  lemma SecondOrder(d: Desk, key: ClaimKey, r: Request)
    requires ClaimsHold(d) && OneKeyEach(d) && key in d.claims && Placed(d, r).1.Ok?
    ensures Placed(d, r).1 == Ok(d.claims[key]) <==> r.key == key
  {
    assert d.claims[key] in d.db.orders;
  }

  /** A repeated request never fails and never places anything: whatever came in between, it gets the first one's order, and all
      tables stay as they are. */
  lemma RepeatedRequestGetsItsOrder(before: seq<Request>, between: seq<Request>, r1: Request, r2: Request, d1: Desk, d2: Desk)
    requires (forall r <- before :: WellMade(r)) && WellMade(r1) && r1.key == r2.key
    requires d1 == PlacedAll(NO_ORDERS, before) && d2 == PlacedAll(Placed(d1, r1).0, between) && Placed(d1, r1).1.Ok?
    ensures Placed(d2, r2) == (d2, Placed(d1, r1).1)
  {
    RunKeepsClaims(before);
    PlacedKeepsClaims(d1, r1);
    assert ClaimsHold(Placed(d1, r1).0);
    ClaimStays(Placed(d1, r1).0, between, r1.key);
  }

  /** A request with a new key succeeds exactly if its order's id is free, and then key, order, a started saga and the reserve command
      are all there; otherwise it is a conflict and nothing is. */
  lemma NewKeyPlacesExactlyWhen(d: Desk, r: Request, next: Desk, answer: Result<nat, PlaceError>)
    requires r.key !in d.claims && (next, answer) == Placed(d, r)
    ensures answer == if r.order.id in d.db.orders || r.order.id in d.db.sagas then Err(IdempotencyConflict) else Ok(r.order.id)
    ensures answer.Err? ==> next == d
    ensures answer.Ok? ==>
              && next.claims == d.claims[r.key := r.order.id]
              && next.db.orders == d.db.orders[r.order.id := r.order]
              && next.db.sagas == d.db.sagas[r.order.id := Saga(r.order.id, r.order.tenantId, Started, Some(r.correlationId), None, 0, 0)]
              && next.db.outbox == d.db.outbox + [Row(r.order.id, r.order.tenantId, ReserveStock(r.order.items), r.correlationId)]
              && next.db.processed == d.db.processed
  {
  }
}
