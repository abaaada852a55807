/**
 Driver assignment: the two Lua scripts of redis-assignment.store.ts on one flat string keyspace shared by all tenants,
 the in-memory store the tests use instead, and the book of assignments both of them keep.
 */
module Assignment {
  import opened Results

  // ----- The book: who delivers what -----

  /** A tenant's assignments, order to driver. */
  type Book = map<string, string>

  datatype Claim = Claim(driver: string, created: bool)

  datatype Op =
    | Assign(tenant: string, order: string, candidates: seq<string>)
    | Unassign(tenant: string, order: string)
    | Get(tenant: string, order: string)
    | OrdersForDriver(tenant: string, driver: string)

  datatype Answer = Claimed(claim: Option<Claim>) | Done | Found(driver: Option<string>) | Orders(orders: set<string>)

  function BookOf(books: map<string, Book>, tenant: string): Book {
    if tenant in books then books[tenant] else map[]
  }

  function OrdersOf(book: Book, driver: string): set<string> {
    set order <- book | book[order] == driver
  }

  /** The first candidate, in list order, that is not busy. */
  function FirstFree(busy: set<string>, candidates: seq<string>): Option<string> {
    if candidates == [] then None
    else if candidates[0] !in busy then Some(candidates[0])
    else FirstFree(busy, candidates[1..])
  }

  /** An order keeps the driver it has; otherwise it gets the first free candidate. */
  function ClaimIn(book: Book, order: string, candidates: seq<string>): Option<Claim> {
    if order in book then Some(Claim(book[order], false))
    else
      match FirstFree(book.Values, candidates)
      case None => None
      case Some(driver) => Some(Claim(driver, true))
  }

  /** The first free candidate has no name: the one claim the two stores treat differently. */
  predicate ClaimsNobody(book: Book, order: string, candidates: seq<string>) {
    order !in book && FirstFree(book.Values, candidates) == Some("")
  }

  function BookStep(books: map<string, Book>, op: Op): (map<string, Book>, Answer) {
    var book := BookOf(books, op.tenant);
    match op
    case Assign(tenant, order, candidates) =>
      var claim := ClaimIn(book, order, candidates);
      (if claim.Some? then books[tenant := book[order := claim.value.driver]] else books, Claimed(claim))
    case Unassign(tenant, order) => (books[tenant := book - {order}], Done)
    case Get(tenant, order) => (books, Found(if order in book then Some(book[order]) else None))
    case OrdersForDriver(tenant, driver) => (books, Orders(OrdersOf(book, driver)))
  }

  /** No driver delivers two orders, and every driver has a name. */
  ghost predicate OneOrderEach(book: Book) {
    && (forall o1, o2 | o1 in book && o2 in book && o1 != o2 :: book[o1] != book[o2])
    && "" !in book.Values
  }

  lemma {:induction false} FirstFreeIsFirst(busy: set<string>, candidates: seq<string>)
    ensures match FirstFree(busy, candidates)
            case None => forall d <- candidates :: d in busy
            case Some(driver) => exists i :: 0 <= i < |candidates| && candidates[i] == driver && driver !in busy
                                             && forall j :: 0 <= j < i ==> candidates[j] in busy
  {
    if candidates != [] && candidates[0] in busy {
      var rest := candidates[1..];
      FirstFreeIsFirst(busy, rest);
      match FirstFree(busy, rest)
      case None =>
        forall d <- candidates ensures d in busy {
          assert d == candidates[0] || d in rest;
        }
      case Some(driver) =>
        var i :| 0 <= i < |rest| && rest[i] == driver && driver !in busy && forall j :: 0 <= j < i ==> rest[j] in busy;
        assert candidates[i + 1] == driver;
        forall j | 0 <= j < i + 1 ensures candidates[j] in busy {
          assert j == 0 || candidates[j] == rest[j - 1];
        }
    }
  }

  lemma ClaimKeepsOneOrderEach(book: Book, order: string, candidates: seq<string>)
    requires OneOrderEach(book) && !ClaimsNobody(book, order, candidates)
    requires ClaimIn(book, order, candidates).Some?
    ensures var claim := ClaimIn(book, order, candidates).value;
            var next := book[order := claim.driver];
            && OneOrderEach(next)
            && (claim.created ==> order !in book && claim.driver in candidates && claim.driver !in book.Values)
            && (!claim.created ==> next == book)
  {
    FirstFreeIsFirst(book.Values, candidates);
    var claim := ClaimIn(book, order, candidates).value;
    var next := book[order := claim.driver];
    forall driver <- next.Values ensures driver in book.Values || driver == claim.driver {
      var o :| o in next && next[o] == driver;
      assert o == order || (o in book && book[o] == driver);
    }
    forall o <- book ensures book[o] in book.Values {
    }
  }

  lemma ReleaseKeepsOneOrderEach(book: Book, order: string)
    requires OneOrderEach(book)
    ensures OneOrderEach(book - {order})
  {
    forall driver <- (book - {order}).Values ensures driver in book.Values {
      var o :| o in book - {order} && (book - {order})[o] == driver;
      assert book[o] == driver;
    }
  }

  /** Releasing an order always empties its driver's set, so the test on its size always frees the driver. */
  lemma ReleaseFreesDriver(book: Book, order: string)
    requires OneOrderEach(book) && order in book
    ensures OrdersOf(book, book[order]) == {order}
    ensures OrdersOf(book - {order}, book[order]) == {}
    ensures (book - {order}).Values == book.Values - {book[order]}
  {
    var next := book - {order};
    forall driver <- book.Values - {book[order]} ensures driver in next.Values {
      var o :| o in book && book[o] == driver;
      assert next[o] == driver;
    }
    forall driver <- next.Values ensures driver in book.Values - {book[order]} {
      var o :| o in next && next[o] == driver;
      assert book[o] == driver;
    }
  }

  lemma ReleaseRemovesOrder(book: Book, order: string)
    requires OneOrderEach(book) && order in book
    ensures forall d :: OrdersOf(book - {order}, d) == if d == book[order] then {} else OrdersOf(book, d)
  {
    ReleaseFreesDriver(book, order);
    forall d ensures d != book[order] ==> OrdersOf(book - {order}, d) == OrdersOf(book, d) {
    }
  }

  lemma ClaimAddsDriver(book: Book, order: string, driver: string)
    requires order !in book && driver !in book.Values
    ensures book[order := driver].Values == book.Values + {driver}
    ensures forall d :: OrdersOf(book[order := driver], d) == if d == driver then {order} else OrdersOf(book, d)
    ensures OrdersOf(book, driver) == {}
  {
    var next := book[order := driver];
    forall d <- book.Values + {driver} ensures d in next.Values {
      if d == driver {
        assert next[order] == d;
      } else {
        var o :| o in book && book[o] == d;
        assert next[o] == d;
      }
    }
    forall d <- next.Values ensures d in book.Values + {driver} {
      var o :| o in next && next[o] == d;
      assert o == order || book[o] == d;
    }
    forall o <- book ensures book[o] != driver {
      assert book[o] in book.Values;
    }
    forall d ensures OrdersOf(next, d) == if d == driver then {order} else OrdersOf(book, d) {
      if d == driver {
        assert OrdersOf(next, d) == {order};
      } else {
        assert OrdersOf(next, d) == OrdersOf(book, d);
      }
    }
  }

  /** What is read is what was written: a claimed order is found with its driver, among that driver's orders, until it is released;
      and a claim that is not answered changes nothing. */
  lemma ReadsFollowWrites(books: map<string, Book>, tenant: string, order: string, candidates: seq<string>, next: map<string, Book>, answer: Answer)
    requires (next, answer) == BookStep(books, Assign(tenant, order, candidates))
    ensures answer == Claimed(None) ==> next == books && BookStep(next, Get(tenant, order)).1 == Found(None)
    ensures answer.Claimed? && answer.claim.Some? ==>
              var driver := answer.claim.value.driver;
              && BookStep(next, Get(tenant, order)) == (next, Found(Some(driver)))
              && (forall other :: BookStep(next, OrdersForDriver(tenant, other)).1 == Orders(set o | o in BookOf(next, tenant) && BookOf(next, tenant)[o] == other))
              && (forall o :: o != order ==> BookStep(next, Get(tenant, o)).1 == BookStep(books, Get(tenant, o)).1)
              && BookStep(BookStep(next, Unassign(tenant, order)).0, Get(tenant, order)).1 == Found(None)
              && (forall o :: o != order ==> BookStep(BookStep(next, Unassign(tenant, order)).0, Get(tenant, o)).1 == BookStep(next, Get(tenant, o)).1)
  {
  }

  // ----- The keyspace -----

  datatype Value = Hash(fields: map<string, string>) | Members(elements: set<string>)

  type Keyspace = map<string, Value>

  function HashKey(tenant: string): string {
    "assign:" + tenant
  }

  function BusyKey(tenant: string): string {
    "assign:" + tenant + ":busy"
  }

  function DriverOrdersPrefix(tenant: string): string {
    "assign:" + tenant + ":driver:"
  }

  function DriverKey(tenant: string, driver: string): string {
    DriverOrdersPrefix(tenant) + driver
  }

  predicate ColonFree(tenant: string) {
    ':' !in tenant
  }

  lemma FirstColon(t: string, x: string)
    requires ColonFree(t)
    ensures (t + ":" + x)[|t|] == ':' && (t + ":" + x)[..|t|] == t && (t + ":" + x)[|t| + 1..] == x
    ensures forall i :: 0 <= i < |t| ==> (t + ":" + x)[i] != ':'
  {
    forall i | 0 <= i < |t| ensures (t + ":" + x)[i] != ':' {
      assert t[i] in t;
    }
  }

  lemma CutAtColon(t1: string, x: string, t2: string, y: string)
    requires ColonFree(t1) && ColonFree(t2) && t1 + ":" + x == t2 + ":" + y
    ensures t1 == t2 && x == y
  {
    FirstColon(t1, x);
    FirstColon(t2, y);
    assert |t1| == |t2|;
  }

  function KeyTail(k: string): string
    requires |k| >= 7
  {
    k[7..]
  }

  lemma Tails(tenant: string, driver: string)
    ensures KeyTail(HashKey(tenant)) == tenant
    ensures KeyTail(BusyKey(tenant)) == tenant + ":" + "busy"
    ensures KeyTail(DriverKey(tenant, driver)) == tenant + ":" + ("driver:" + driver)
  {
    assert HashKey(tenant)[7..] == tenant;
    assert BusyKey(tenant) == "assign:" + (tenant + ":" + "busy");
    assert DriverKey(tenant, driver) == "assign:" + (tenant + ":" + ("driver:" + driver));
  }

  lemma NoColonInHash(t1: string, t2: string, x: string)
    requires ColonFree(t2)
    ensures t2 != t1 + ":" + x
  {
    assert (t1 + ":" + x)[|t1|] == ':';
  }

  /** The keys the builders make for colon-free tenants never collide: a key tells its kind, tenant and driver. */
  lemma KeysNeverCollide(t1: string, d1: string, t2: string, d2: string)
    requires ColonFree(t1) && ColonFree(t2)
    ensures HashKey(t1) == HashKey(t2) ==> t1 == t2
    ensures BusyKey(t1) == BusyKey(t2) ==> t1 == t2
    ensures DriverKey(t1, d1) == DriverKey(t2, d2) ==> t1 == t2 && d1 == d2
    ensures HashKey(t1) != BusyKey(t2) && HashKey(t1) != DriverKey(t2, d2) && BusyKey(t1) != DriverKey(t2, d2)
  {
    Tails(t1, d1);
    Tails(t2, d2);
    NoColonInHash(t2, t1, "busy");
    NoColonInHash(t2, t1, "driver:" + d2);
    if BusyKey(t1) == BusyKey(t2) {
      CutAtColon(t1, "busy", t2, "busy");
    }
    if DriverKey(t1, d1) == DriverKey(t2, d2) {
      CutAtColon(t1, "driver:" + d1, t2, "driver:" + d2);
      assert ("driver:" + d1)[7..] == d1 && ("driver:" + d2)[7..] == d2;
    }
    assert "busy"[0] != ("driver:" + d2)[0];
    if BusyKey(t1) == DriverKey(t2, d2) {
      CutAtColon(t1, "busy", t2, "driver:" + d2);
    }
  }

  // The keys of a tenant, for whatever driver.
  predicate IsKeyOf(tenant: string, key: string) {
    key == HashKey(tenant) || key == BusyKey(tenant) || DriverOrdersPrefix(tenant) <= key
  }

  predicate Extends(longer: string, tenant: string) {
    longer == tenant + ":busy" || longer == tenant + ":driver" || tenant + ":driver:" <= longer
  }

  // The same, behind what all keys begin with.
  predicate IsTailOf(tenant: string, tail: string) {
    tail == tenant || tail == tenant + ":busy" || tenant + ":driver:" <= tail
  }

  lemma KeysAndTails(tenant: string, tail: string)
    ensures IsKeyOf(tenant, "assign:" + tail) <==> IsTailOf(tenant, tail)
  {
    var key := "assign:" + tail;
    assert key[7..] == tail;
    assert HashKey(tenant)[7..] == tenant && BusyKey(tenant) == "assign:" + (tenant + ":busy");
    assert BusyKey(tenant)[7..] == tenant + ":busy";
    assert DriverOrdersPrefix(tenant) == "assign:" + (tenant + ":driver:");
    if DriverOrdersPrefix(tenant) <= key {
      assert tail[..|tenant| + 8] == key[7..][..|tenant| + 8] == DriverOrdersPrefix(tenant)[7..];
      assert DriverOrdersPrefix(tenant)[7..] == tenant + ":driver:";
    }
  }

  // What follows a tenant's id in one of its keys.
  lemma TailStarts(tenant: string, tail: string)
    requires IsTailOf(tenant, tail)
    ensures tenant <= tail && (tail != tenant ==> |tail| > |tenant| && tail[|tenant|] == ':')
  {
    assert (tenant + ":busy")[|tenant|] == ':' && (tenant + ":driver:")[|tenant|] == ':';
  }

  const DRIVER := ":driver:"

  lemma NoColonInside(tenant: string, tail: string, n: nat)
    requires tenant + DRIVER <= tail && |tenant| < n < |tenant| + 7
    ensures n < |tail| && tail[n] != ':'
  {
    var i := n - |tenant|;
    assert tail[n] == (tenant + DRIVER)[|tenant| + i] == DRIVER[i];
  }

  lemma SharedTail(longer: string, tenant: string, tail: string)
    requires |tenant| < |longer| && IsTailOf(longer, tail) && IsTailOf(tenant, tail)
    ensures Extends(longer, tenant)
  {
    TailStarts(longer, tail);
    if tail == tenant + ":busy" {
      assert tail == longer;
    } else {
      assert tenant + DRIVER <= tail;
      var i := |longer| - |tenant|;
      if i < 7 {
        NoColonInside(tenant, tail, |longer|);
        assert false;
      } else if i == 7 {
        assert longer == tail[..|longer|] == (tenant + DRIVER)[..|tenant| + 7] == tenant + DRIVER[..7];
        assert DRIVER[..7] == ":driver";
      } else {
        assert longer[..|tenant| + 8] == tail[..|tenant| + 8] == tenant + DRIVER;
      }
    }
  }

  lemma ExtendedShares(longer: string, tenant: string) returns (tail: string)
    requires Extends(longer, tenant)
    ensures IsTailOf(longer, tail) && IsTailOf(tenant, tail)
  {
    tail := longer;
    if longer == tenant + ":driver" {
      tail := longer + ":busy";
      assert tail == tenant + ":driver:" + "busy";
    }
  }

  ghost predicate ShareKey(t1: string, t2: string) {
    exists key :: IsKeyOf(t1, key) && IsKeyOf(t2, key)
  }

  /** When two tenants' keys collide: a key belongs to both exactly if one id is the other followed by ":busy" or ":driver", or
      begins with the other followed by ":driver:". The ids the service accepts are UUIDs, which are none of these. */
  lemma TenantsCollideExactlyWhen(t1: string, t2: string)
    requires t1 != t2
    ensures ShareKey(t1, t2) <==> Extends(t1, t2) || Extends(t2, t1)
  {
    if ShareKey(t1, t2) {
      var key :| IsKeyOf(t1, key) && IsKeyOf(t2, key);
      assert key[..7] == "assign:" && key == "assign:" + key[7..];
      SharedKey(t1, t2, key[7..]);
    }
    if Extends(t1, t2) {
      var tail := ExtendedShares(t1, t2);
      KeysAndTails(t1, tail);
      KeysAndTails(t2, tail);
    }
    if Extends(t2, t1) {
      var tail := ExtendedShares(t2, t1);
      KeysAndTails(t1, tail);
      KeysAndTails(t2, tail);
    }
  }

  lemma SharedKey(t1: string, t2: string, tail: string)
    requires t1 != t2 && IsKeyOf(t1, "assign:" + tail) && IsKeyOf(t2, "assign:" + tail)
    ensures Extends(t1, t2) || Extends(t2, t1)
  {
    KeysAndTails(t1, tail);
    KeysAndTails(t2, tail);
    TailStarts(t1, tail);
    TailStarts(t2, tail);
    if |t1| < |t2| {
      SharedTail(t2, t1, tail);
    } else if |t2| < |t1| {
      SharedTail(t1, t2, tail);
    }
  }

  // ----- The commands the scripts use -----

  function HashAt(ks: Keyspace, key: string): map<string, string> {
    if key in ks && ks[key].Hash? then ks[key].fields else map[]
  }

  function SetAt(ks: Keyspace, key: string): set<string> {
    if key in ks && ks[key].Members? then ks[key].elements else {}
  }

  // A key whose last field or member goes is removed.
  function PutHash(ks: Keyspace, key: string, fields: map<string, string>): Keyspace {
    if fields == map[] then ks - {key} else ks[key := Hash(fields)]
  }

  function PutSet(ks: Keyspace, key: string, elements: set<string>): Keyspace {
    if elements == {} then ks - {key} else ks[key := Members(elements)]
  }

  function HSet(ks: Keyspace, key: string, field: string, value: string): Keyspace {
    PutHash(ks, key, HashAt(ks, key)[field := value])
  }

  function HDel(ks: Keyspace, key: string, field: string): Keyspace {
    PutHash(ks, key, HashAt(ks, key) - {field})
  }

  function SAdd(ks: Keyspace, key: string, member: string): Keyspace {
    PutSet(ks, key, SetAt(ks, key) + {member})
  }

  function SRem(ks: Keyspace, key: string, member: string): Keyspace {
    PutSet(ks, key, SetAt(ks, key) - {member})
  }

  // ----- The scripts -----

  function ClaimKeys(ks: Keyspace, tenant: string, order: string, driver: string): Keyspace {
    SAdd(SAdd(HSet(ks, HashKey(tenant), order, driver), BusyKey(tenant), driver), DriverKey(tenant, driver), order)
  }

  function ClaimFirstFree(ks: Keyspace, tenant: string, order: string, candidates: seq<string>): (Keyspace, Option<Claim>) {
    var book := HashAt(ks, HashKey(tenant));
    if order in book then (ks, Some(Claim(book[order], false)))
    else
      match FirstFree(SetAt(ks, BusyKey(tenant)), candidates)
      case None => (ks, None)
      case Some(driver) => (ClaimKeys(ks, tenant, order, driver), Some(Claim(driver, true)))
  }

  function ReleaseOrder(ks: Keyspace, tenant: string, order: string): Keyspace {
    var book := HashAt(ks, HashKey(tenant));
    if order !in book then ks
    else
      var driver := book[order];
      var next := SRem(HDel(ks, HashKey(tenant), order), DriverKey(tenant, driver), order);
      if |SetAt(next, DriverKey(tenant, driver))| == 0 then SRem(next, BusyKey(tenant), driver) else next
  }

  function RedisStep(ks: Keyspace, op: Op): (Keyspace, Answer) {
    match op
    case Assign(tenant, order, candidates) =>
      var (next, claim) := ClaimFirstFree(ks, tenant, order, candidates);
      (next, Claimed(claim))
    case Unassign(tenant, order) => (ReleaseOrder(ks, tenant, order), Done)
    case Get(tenant, order) =>
      var book := HashAt(ks, HashKey(tenant));
      (ks, Found(if order in book && book[order] != "" then Some(book[order]) else None))
    case OrdersForDriver(tenant, driver) => (ks, Orders(SetAt(ks, DriverKey(tenant, driver))))
  }

  class RedisAssignmentStore {
    var keys: Keyspace

    constructor ()
      ensures keys == map[]
    {
      keys := map[];
    }

    method Assign(tenant: string, order: string, candidates: seq<string>) returns (claim: Option<Claim>)
      modifies this
      ensures (keys, claim) == ClaimFirstFree(old(keys), tenant, order, candidates)
    {
      var hash := HashAt(keys, HashKey(tenant));
      if order in hash {
        return Some(Claim(hash[order], false));
      }
      var i := 0;
      while i < |candidates|
        invariant i <= |candidates| && keys == old(keys)
        invariant FirstFree(SetAt(keys, BusyKey(tenant)), candidates) == FirstFree(SetAt(keys, BusyKey(tenant)), candidates[i..])
      {
        var driver := candidates[i];
        if driver !in SetAt(keys, BusyKey(tenant)) {
          keys := HSet(keys, HashKey(tenant), order, driver);
          keys := SAdd(keys, BusyKey(tenant), driver);
          keys := SAdd(keys, DriverKey(tenant, driver), order);
          return Some(Claim(driver, true));
        }
        i := i + 1;
      }
      return None;
    }

    method Unassign(tenant: string, order: string)
      modifies this
      ensures keys == ReleaseOrder(old(keys), tenant, order)
    {
      var hash := HashAt(keys, HashKey(tenant));
      if order !in hash {
        return;
      }
      var driver := hash[order];
      keys := HDel(keys, HashKey(tenant), order);
      keys := SRem(keys, DriverKey(tenant, driver), order);
      if |SetAt(keys, DriverKey(tenant, driver))| == 0 {
        keys := SRem(keys, BusyKey(tenant), driver);
      }
    }
  }

  // ----- The keyspace keeps every tenant's book -----

  predicate HoldsHash(ks: Keyspace, key: string, fields: map<string, string>) {
    if fields == map[] then key !in ks else key in ks && ks[key] == Hash(fields)
  }

  predicate HoldsSet(ks: Keyspace, key: string, elements: set<string>) {
    if elements == {} then key !in ks else key in ks && ks[key] == Members(elements)
  }

  predicate SameAt(ks: Keyspace, other: Keyspace, key: string) {
    (key in ks <==> key in other) && (key in ks ==> ks[key] == other[key])
  }

  /** The three structures of a tenant say the same: the hash is the book, the busy set its drivers, and each driver's set
      the orders the book gives that driver. */
  ghost predicate KeepsBook(ks: Keyspace, tenant: string, book: Book) {
    && OneOrderEach(book)
    && HoldsHash(ks, HashKey(tenant), book)
    && HoldsSet(ks, BusyKey(tenant), book.Values)
    && forall driver :: HoldsSet(ks, DriverKey(tenant, driver), OrdersOf(book, driver))
  }

  ghost predicate KeepsBooks(ks: Keyspace, books: map<string, Book>) {
    forall tenant | ColonFree(tenant) :: KeepsBook(ks, tenant, BookOf(books, tenant))
  }

  /** Only keys of this tenant differ. */
  ghost predicate OnlyTenantChanges(ks: Keyspace, next: Keyspace, tenant: string) {
    forall key :: SameAt(ks, next, key) || KeyOf(key, tenant)
  }

  lemma OtherTenantsKeepTheirBooks(ks: Keyspace, next: Keyspace, tenant: string, other: string, book: Book)
    requires ColonFree(tenant) && ColonFree(other) && tenant != other
    requires OnlyTenantChanges(ks, next, tenant) && KeepsBook(ks, other, book)
    ensures KeepsBook(next, other, book)
  {
    TenantsApart(tenant, other, "");
    assert SameAt(ks, next, HashKey(other)) && SameAt(ks, next, BusyKey(other));
    forall driver ensures HoldsSet(next, DriverKey(other, driver), OrdersOf(book, driver)) {
      TenantsApart(tenant, other, driver);
      assert HoldsSet(ks, DriverKey(other, driver), OrdersOf(book, driver));
      assert SameAt(ks, next, DriverKey(other, driver));
    }
  }

  ghost predicate KeyOf(key: string, tenant: string) {
    key == HashKey(tenant) || key == BusyKey(tenant) || exists driver :: key == DriverKey(tenant, driver)
  }

  lemma TenantsApart(tenant: string, other: string, driver: string)
    requires ColonFree(tenant) && ColonFree(other) && tenant != other
    ensures !KeyOf(HashKey(other), tenant) && !KeyOf(BusyKey(other), tenant) && !KeyOf(DriverKey(other, driver), tenant)
  {
    forall d
      ensures HashKey(other) != DriverKey(tenant, d)
      ensures BusyKey(other) != DriverKey(tenant, d)
      ensures DriverKey(other, driver) != DriverKey(tenant, d)
    {
      KeysNeverCollide(other, driver, tenant, d);
    }
    KeysNeverCollide(other, driver, tenant, "");
    KeysNeverCollide(tenant, "", other, driver);
  }

  /** Everything but the tenant's hash, its busy set and one driver's set is as before. */
  ghost predicate OnlyDriverChanges(ks: Keyspace, next: Keyspace, tenant: string, driver: string) {
    forall key :: key != HashKey(tenant) && key != BusyKey(tenant) && key != DriverKey(tenant, driver)
                  ==> SameAt(ks, next, key)
  }

  lemma OtherDriversStay(ks: Keyspace, next: Keyspace, tenant: string, driver: string, orders: set<string>, book: Book, after: Book)
    requires ColonFree(tenant) && OnlyDriverChanges(ks, next, tenant, driver) && HoldsSet(next, DriverKey(tenant, driver), orders)
    requires forall d :: HoldsSet(ks, DriverKey(tenant, d), OrdersOf(book, d))
    requires forall d :: OrdersOf(after, d) == if d == driver then orders else OrdersOf(book, d)
    ensures forall d :: HoldsSet(next, DriverKey(tenant, d), OrdersOf(after, d))
  {
    forall d ensures HoldsSet(next, DriverKey(tenant, d), OrdersOf(after, d)) {
      KeysNeverCollide(tenant, d, tenant, driver);
      KeysNeverCollide(tenant, driver, tenant, d);
      assert HoldsSet(ks, DriverKey(tenant, d), OrdersOf(book, d));
      assert d != driver ==> SameAt(ks, next, DriverKey(tenant, d)) && OrdersOf(after, d) == OrdersOf(book, d);
    }
  }

  /** What a claim writes. */
  lemma ClaimWrites(ks: Keyspace, tenant: string, order: string, driver: string, book: Book)
    requires ColonFree(tenant) && KeepsBook(ks, tenant, book)
    requires order !in book && driver !in book.Values && driver != ""
    ensures var next := ClaimKeys(ks, tenant, order, driver);
            && HoldsHash(next, HashKey(tenant), book[order := driver])
            && HoldsSet(next, BusyKey(tenant), book.Values + {driver})
            && HoldsSet(next, DriverKey(tenant, driver), {order})
            && OnlyDriverChanges(ks, next, tenant, driver)
  {
    KeysNeverCollide(tenant, driver, tenant, driver);
    ClaimAddsDriver(book, order, driver);
    assert HoldsSet(ks, DriverKey(tenant, driver), OrdersOf(book, driver));
    assert book[order := driver] != map[];
  }

  lemma ClaimKeepsBook(ks: Keyspace, tenant: string, order: string, candidates: seq<string>, book: Book)
    requires ColonFree(tenant) && KeepsBook(ks, tenant, book) && !ClaimsNobody(book, order, candidates)
    ensures var (next, claim) := ClaimFirstFree(ks, tenant, order, candidates);
            && claim == ClaimIn(book, order, candidates)
            && KeepsBook(next, tenant, if claim.Some? then book[order := claim.value.driver] else book)
            && OnlyTenantChanges(ks, next, tenant)
  {
    var claim := ClaimIn(book, order, candidates);
    if claim.Some? {
      ClaimKeepsOneOrderEach(book, order, candidates);
      if claim.value.created {
        var driver := claim.value.driver;
        assert driver != "";
        ClaimWrites(ks, tenant, order, driver, book);
        ClaimAddsDriver(book, order, driver);
        OtherDriversStay(ks, ClaimKeys(ks, tenant, order, driver), tenant, driver, {order}, book, book[order := driver]);
      }
    }
  }

  // The hash and the driver's set after a release, before the test that frees the driver.
  function Unbooked(ks: Keyspace, tenant: string, order: string, driver: string): Keyspace {
    SRem(HDel(ks, HashKey(tenant), order), DriverKey(tenant, driver), order)
  }

  /** The driver's set is empty by then, so the test always passes. */
  lemma ReleaseAlwaysFreesDriver(ks: Keyspace, tenant: string, order: string, book: Book)
    requires ColonFree(tenant) && KeepsBook(ks, tenant, book) && order in book
    ensures var mid, driver := Unbooked(ks, tenant, order, book[order]), book[order];
            && HoldsHash(mid, HashKey(tenant), book - {order})
            && HoldsSet(mid, BusyKey(tenant), book.Values)
            && HoldsSet(mid, DriverKey(tenant, driver), {})
            && OnlyDriverChanges(ks, mid, tenant, driver)
            && ReleaseOrder(ks, tenant, order) == SRem(mid, BusyKey(tenant), driver)
  {
    var driver := book[order];
    KeysNeverCollide(tenant, driver, tenant, driver);
    assert HoldsSet(ks, DriverKey(tenant, driver), OrdersOf(book, driver));
    assert OrdersOf(book, driver) == {order} by {
      ReleaseFreesDriver(book, order);
    }
    var mid := Unbooked(ks, tenant, order, driver);
    assert SetAt(mid, DriverKey(tenant, driver)) == {};
  }

  /** What a release writes. */
  lemma ReleaseWrites(ks: Keyspace, tenant: string, order: string, book: Book)
    requires ColonFree(tenant) && KeepsBook(ks, tenant, book) && order in book
    ensures var next, driver := ReleaseOrder(ks, tenant, order), book[order];
            && HoldsHash(next, HashKey(tenant), book - {order})
            && HoldsSet(next, BusyKey(tenant), book.Values - {driver})
            && HoldsSet(next, DriverKey(tenant, driver), {})
            && OnlyDriverChanges(ks, next, tenant, driver)
  {
    ReleaseAlwaysFreesDriver(ks, tenant, order, book);
    assert book[order] in book.Values;
    FreeDriver(ks, Unbooked(ks, tenant, order, book[order]), tenant, book[order], book - {order}, book.Values);
  }

  lemma FreeDriver(ks: Keyspace, mid: Keyspace, tenant: string, driver: string, fields: map<string, string>, busy: set<string>)
    requires ColonFree(tenant) && driver in busy
    requires HoldsHash(mid, HashKey(tenant), fields) && HoldsSet(mid, BusyKey(tenant), busy)
    requires HoldsSet(mid, DriverKey(tenant, driver), {}) && OnlyDriverChanges(ks, mid, tenant, driver)
    ensures var next := SRem(mid, BusyKey(tenant), driver);
            && HoldsHash(next, HashKey(tenant), fields)
            && HoldsSet(next, BusyKey(tenant), busy - {driver})
            && HoldsSet(next, DriverKey(tenant, driver), {})
            && OnlyDriverChanges(ks, next, tenant, driver)
  {
    KeysNeverCollide(tenant, driver, tenant, driver);
    var next := SRem(mid, BusyKey(tenant), driver);
    forall key | key != HashKey(tenant) && key != BusyKey(tenant) && key != DriverKey(tenant, driver)
      ensures SameAt(ks, next, key)
    {
      assert SameAt(ks, mid, key);
    }
  }

  lemma ReleaseKeepsBook(ks: Keyspace, tenant: string, order: string, book: Book)
    requires ColonFree(tenant) && KeepsBook(ks, tenant, book)
    ensures KeepsBook(ReleaseOrder(ks, tenant, order), tenant, book - {order})
    ensures OnlyTenantChanges(ks, ReleaseOrder(ks, tenant, order), tenant)
  {
    if order !in book {
      assert book - {order} == book;
    } else {
      var next, driver := ReleaseOrder(ks, tenant, order), book[order];
      ReleaseWrites(ks, tenant, order, book);
      ReleaseKeepsOneOrderEach(book, order);
      assert (book - {order}).Values == book.Values - {driver} by {
        ReleaseFreesDriver(book, order);
      }
      ReleaseRemovesOrder(book, order);
      OtherDriversStay(ks, next, tenant, driver, {}, book, book - {order});
    }
  }

  // An operation of a colon-free tenant that does not claim a driver without a name.
  predicate WellNamed(books: map<string, Book>, op: Op) {
    ColonFree(op.tenant) && (op.Assign? ==> !ClaimsNobody(BookOf(books, op.tenant), op.order, op.candidates))
  }

  lemma RedisStepOnOwnBook(ks: Keyspace, books: map<string, Book>, op: Op)
    requires KeepsBook(ks, op.tenant, BookOf(books, op.tenant)) && WellNamed(books, op)
    ensures RedisStep(ks, op).1 == BookStep(books, op).1
    ensures KeepsBook(RedisStep(ks, op).0, op.tenant, BookOf(BookStep(books, op).0, op.tenant))
    ensures OnlyTenantChanges(ks, RedisStep(ks, op).0, op.tenant)
  {
    var book := BookOf(books, op.tenant);
    match op {
      case Assign(tenant, order, candidates) =>
        ClaimKeepsBook(ks, tenant, order, candidates, book);
      case Unassign(tenant, order) =>
        ReleaseKeepsBook(ks, tenant, order, book);
      case Get(tenant, order) =>
        assert order in book ==> book[order] in book.Values;
      case OrdersForDriver(tenant, driver) =>
        assert HoldsSet(ks, DriverKey(tenant, driver), OrdersOf(book, driver));
    }
  }

  lemma OtherBooksStay(books: map<string, Book>, op: Op, other: string)
    requires other != op.tenant
    ensures BookOf(BookStep(books, op).0, other) == BookOf(books, other)
  {
  }

  /** One operation on the flat keyspace answers and changes what the same operation on the tenant's book does, and it
      touches no other tenant's keys. */
  lemma RedisStepFollowsBook(ks: Keyspace, books: map<string, Book>, op: Op)
    requires KeepsBooks(ks, books) && WellNamed(books, op)
    ensures RedisStep(ks, op).1 == BookStep(books, op).1
    ensures KeepsBooks(RedisStep(ks, op).0, BookStep(books, op).0)
    ensures OnlyTenantChanges(ks, RedisStep(ks, op).0, op.tenant)
  {
    assert KeepsBook(ks, op.tenant, BookOf(books, op.tenant));
    RedisStepOnOwnBook(ks, books, op);
    forall other | ColonFree(other)
      ensures KeepsBook(RedisStep(ks, op).0, other, BookOf(BookStep(books, op).0, other))
    {
      if other != op.tenant {
        assert KeepsBook(ks, other, BookOf(books, other));
        OtherTenantsKeepTheirBooks(ks, RedisStep(ks, op).0, op.tenant, other, BookOf(books, other));
        OtherBooksStay(books, op, other);
      }
    }
  }

  /** A claim that created an assignment, followed by its release, leaves the keyspace exactly as it was. */
  lemma ReleaseUndoesClaim(ks: Keyspace, tenant: string, order: string, candidates: seq<string>, book: Book)
    requires ColonFree(tenant) && KeepsBook(ks, tenant, book) && !ClaimsNobody(book, order, candidates)
    requires ClaimFirstFree(ks, tenant, order, candidates).1.Some? && ClaimFirstFree(ks, tenant, order, candidates).1.value.created
    ensures ReleaseOrder(ClaimFirstFree(ks, tenant, order, candidates).0, tenant, order) == ks
  {
    var (claimed, claim) := ClaimFirstFree(ks, tenant, order, candidates);
    ClaimKeepsBook(ks, tenant, order, candidates, book);
    ClaimKeepsOneOrderEach(book, order, candidates);
    assert claim.value.driver != "";
    ReleaseUndoesClaimOf(ks, tenant, order, claim.value.driver, book);
  }

  lemma ReleaseUndoesClaimOf(ks: Keyspace, tenant: string, order: string, driver: string, book: Book)
    requires ColonFree(tenant) && KeepsBook(ks, tenant, book)
    requires order !in book && driver !in book.Values && driver != ""
    requires KeepsBook(ClaimKeys(ks, tenant, order, driver), tenant, book[order := driver])
    ensures ReleaseOrder(ClaimKeys(ks, tenant, order, driver), tenant, order) == ks
  {
    var claimed, full := ClaimKeys(ks, tenant, order, driver), book[order := driver];
    ClaimWrites(ks, tenant, order, driver, book);
    ReleaseWrites(claimed, tenant, order, full);
    assert full - {order} == book;
    ClaimAddsDriver(book, order, driver);
    assert full.Values - {driver} == book.Values;
    assert HoldsSet(ks, DriverKey(tenant, driver), OrdersOf(book, driver));
    SameHolding(ks, claimed, ReleaseOrder(claimed, tenant, order), tenant, driver, book);
  }

  lemma SameHolding(ks: Keyspace, mid: Keyspace, after: Keyspace, tenant: string, driver: string, book: Book)
    requires HoldsHash(ks, HashKey(tenant), book) && HoldsHash(after, HashKey(tenant), book)
    requires HoldsSet(ks, BusyKey(tenant), book.Values) && HoldsSet(after, BusyKey(tenant), book.Values)
    requires HoldsSet(ks, DriverKey(tenant, driver), {}) && HoldsSet(after, DriverKey(tenant, driver), {})
    requires OnlyDriverChanges(ks, mid, tenant, driver) && OnlyDriverChanges(mid, after, tenant, driver)
    ensures after == ks
  {
    forall key ensures SameAt(ks, after, key) {
      assert (SameAt(ks, mid, key) && SameAt(mid, after, key))
          || key == HashKey(tenant) || key == BusyKey(tenant) || key == DriverKey(tenant, driver);
    }
    forall key ensures key in after.Keys <==> key in ks.Keys {
      assert SameAt(ks, after, key);
    }
    forall key <- ks ensures after[key] == ks[key] {
      assert SameAt(ks, after, key);
    }
  }

  // ----- The in-memory store -----

  datatype Fake = Fake(byOrder: map<string, string>, busy: map<string, set<string>>, driverOrders: map<string, set<string>>)

  /** How the in-memory store joins a tenant and an id into one map key, and how a key would be taken apart again. */
  datatype KeyScheme = KeyScheme(join: (string, string) -> string, tenantOf: string -> string, idOf: string -> string)

  function BeforeColon(s: string): string {
    if s == "" || s[0] == ':' then "" else [s[0]] + BeforeColon(s[1..])
  }

  function AfterColon(s: string): string {
    if s == "" then "" else if s[0] == ':' then s[1..] else AfterColon(s[1..])
  }

  const JOINED_BY_COLON: KeyScheme := KeyScheme((tenant, id) => tenant + ":" + id, BeforeColon, AfterColon)

  ghost predicate TellsApart(keys: KeyScheme) {
    forall tenant, id | ColonFree(tenant) ::
      keys.tenantOf(keys.join(tenant, id)) == tenant && keys.idOf(keys.join(tenant, id)) == id
  }

  lemma {:induction false} SplitAtColon(tenant: string, id: string)
    requires ColonFree(tenant)
    ensures BeforeColon(tenant + ":" + id) == tenant && AfterColon(tenant + ":" + id) == id
  {
    var s := tenant + ":" + id;
    if tenant != "" {
      SplitAtColon(tenant[1..], id);
      assert s[1..] == tenant[1..] + ":" + id;
    }
  }

  /** Joining by a colon loses nothing, as long as tenant ids have no colon. */
  lemma ColonTellsApart()
    ensures TellsApart(JOINED_BY_COLON)
  {
    forall tenant, id | ColonFree(tenant)
      ensures JOINED_BY_COLON.tenantOf(JOINED_BY_COLON.join(tenant, id)) == tenant
      ensures JOINED_BY_COLON.idOf(JOINED_BY_COLON.join(tenant, id)) == id
    {
      SplitAtColon(tenant, id);
    }
  }

  function SetIn(sets: map<string, set<string>>, key: string): set<string> {
    if key in sets then sets[key] else {}
  }

  function FakeClaim(keys: KeyScheme, f: Fake, tenant: string, order: string, driver: string): Fake {
    Fake(f.byOrder[keys.join(tenant, order) := driver],
         f.busy[tenant := SetIn(f.busy, tenant) + {driver}],
         f.driverOrders[keys.join(tenant, driver) := SetIn(f.driverOrders, keys.join(tenant, driver)) + {order}])
  }

  function FakeAssign(keys: KeyScheme, f: Fake, tenant: string, order: string, candidates: seq<string>): (Fake, Option<Claim>) {
    var slot := keys.join(tenant, order);
    if slot in f.byOrder && f.byOrder[slot] != "" then (f, Some(Claim(f.byOrder[slot], false)))
    else
      match FirstFree(SetIn(f.busy, tenant), candidates)
      case None => (f, None)
      case Some(driver) =>
        if driver == "" then (f, None)
        else
          (FakeClaim(keys, f, tenant, order, driver), Some(Claim(driver, true)))
  }

  function FakeRelease(keys: KeyScheme, f: Fake, tenant: string, order: string, driver: string): Fake {
    var mine := keys.join(tenant, driver);
    var orders := SetIn(f.driverOrders, mine) - {order};
    Fake(f.byOrder - {keys.join(tenant, order)},
         if orders == {} && tenant in f.busy then f.busy[tenant := f.busy[tenant] - {driver}] else f.busy,
         if mine in f.driverOrders then f.driverOrders[mine := orders] else f.driverOrders)
  }

  function FakeUnassign(keys: KeyScheme, f: Fake, tenant: string, order: string): Fake {
    var slot := keys.join(tenant, order);
    if slot !in f.byOrder || f.byOrder[slot] == "" then f else FakeRelease(keys, f, tenant, order, f.byOrder[slot])
  }

  function FakeStep(keys: KeyScheme, f: Fake, op: Op): (Fake, Answer) {
    match op
    case Assign(tenant, order, candidates) =>
      var (next, claim) := FakeAssign(keys, f, tenant, order, candidates);
      (next, Claimed(claim))
    case Unassign(tenant, order) => (FakeUnassign(keys, f, tenant, order), Done)
    case Get(tenant, order) =>
      var slot := keys.join(tenant, order);
      (f, Found(if slot in f.byOrder && f.byOrder[slot] != "" then Some(f.byOrder[slot]) else None))
    case OrdersForDriver(tenant, driver) => (f, Orders(SetIn(f.driverOrders, keys.join(tenant, driver))))
  }

  class FakeAssignmentStore {
    const keys: KeyScheme := JOINED_BY_COLON
    var byOrder: map<string, string>
    var busy: map<string, set<string>>
    var driverOrders: map<string, set<string>>

    function Current(): Fake
      reads this
    {
      Fake(byOrder, busy, driverOrders)
    }

    constructor ()
      ensures Current() == Fake(map[], map[], map[])
    {
      byOrder, busy, driverOrders := map[], map[], map[];
    }

    method Assign(tenant: string, order: string, candidates: seq<string>) returns (claim: Option<Claim>)
      modifies this
      ensures (Current(), claim) == FakeAssign(keys, old(Current()), tenant, order, candidates)
    {
      var slot := keys.join(tenant, order);
      if slot in byOrder && byOrder[slot] != "" {
        return Some(Claim(byOrder[slot], false));
      }
      var taken := SetIn(busy, tenant);
      var i := 0;
      while i < |candidates| && candidates[i] in taken
        invariant i <= |candidates|
        invariant FirstFree(taken, candidates) == FirstFree(taken, candidates[i..])
      {
        i := i + 1;
      }
      if i == |candidates| || candidates[i] == "" {
        return None;
      }
      var driver := candidates[i];
      byOrder := byOrder[slot := driver];
      busy := busy[tenant := taken + {driver}];
      driverOrders := driverOrders[keys.join(tenant, driver) := SetIn(driverOrders, keys.join(tenant, driver)) + {order}];
      return Some(Claim(driver, true));
    }

    method Unassign(tenant: string, order: string)
      modifies this
      ensures Current() == FakeUnassign(keys, old(Current()), tenant, order)
    {
      var slot := keys.join(tenant, order);
      if slot !in byOrder || byOrder[slot] == "" {
        return;
      }
      var driver := byOrder[slot];
      byOrder := byOrder - {slot};
      var mine := keys.join(tenant, driver);
      var orders := SetIn(driverOrders, mine) - {order};
      if mine in driverOrders {
        driverOrders := driverOrders[mine := orders];
      }
      if orders == {} && tenant in busy {
        busy := busy[tenant := busy[tenant] - {driver}];
      }
    }
  }

  ghost predicate OrdersKept(keys: KeyScheme, byOrder: map<string, string>, tenant: string, book: Book) {
    forall order :: (keys.join(tenant, order) in byOrder <==> order in book)
                    && (order in book ==> byOrder[keys.join(tenant, order)] == book[order])
  }

  ghost predicate DriversKept(keys: KeyScheme, driverOrders: map<string, set<string>>, tenant: string, book: Book) {
    forall driver :: SetIn(driverOrders, keys.join(tenant, driver)) == OrdersOf(book, driver)
  }

  /** The maps of the in-memory store say what the tenant's book says. */
  ghost predicate FakeKeepsBook(keys: KeyScheme, f: Fake, tenant: string, book: Book) {
    && OneOrderEach(book)
    && OrdersKept(keys, f.byOrder, tenant, book)
    && SetIn(f.busy, tenant) == book.Values
    && DriversKept(keys, f.driverOrders, tenant, book)
  }

  ghost predicate FakeKeepsBooks(keys: KeyScheme, f: Fake, books: map<string, Book>) {
    forall tenant | ColonFree(tenant) :: FakeKeepsBook(keys, f, tenant, BookOf(books, tenant))
  }

  lemma DriversWritten(keys: KeyScheme, before: map<string, set<string>>, tenant: string, driver: string, orders: set<string>,
                       book: Book, next: Book)
    requires TellsApart(keys) && ColonFree(tenant) && DriversKept(keys, before, tenant, book)
    requires forall d :: OrdersOf(next, d) == if d == driver then orders else OrdersOf(book, d)
    ensures DriversKept(keys, before[keys.join(tenant, driver) := orders], tenant, next)
    ensures keys.join(tenant, driver) !in before && orders == {} ==> DriversKept(keys, before, tenant, next)
  {
    forall d ensures SetIn(before, keys.join(tenant, d)) == OrdersOf(book, d) {
    }
  }

  lemma DriverClaimed(keys: KeyScheme, driverOrders: map<string, set<string>>, tenant: string, order: string, driver: string, book: Book)
    requires TellsApart(keys) && ColonFree(tenant) && DriversKept(keys, driverOrders, tenant, book)
    requires order !in book && driver !in book.Values
    ensures DriversKept(keys, driverOrders[keys.join(tenant, driver) := SetIn(driverOrders, keys.join(tenant, driver)) + {order}],
                        tenant, book[order := driver])
  {
    ClaimAddsDriver(book, order, driver);
    assert SetIn(driverOrders, keys.join(tenant, driver)) + {order} == {order};
    DriversWritten(keys, driverOrders, tenant, driver, {order}, book, book[order := driver]);
  }

  lemma FakeClaimWrites(keys: KeyScheme, f: Fake, tenant: string, order: string, driver: string, book: Book)
    requires TellsApart(keys) && ColonFree(tenant) && FakeKeepsBook(keys, f, tenant, book)
    requires order !in book && driver !in book.Values && OneOrderEach(book[order := driver])
    ensures FakeKeepsBook(keys, FakeClaim(keys, f, tenant, order, driver), tenant, book[order := driver])
  {
    OrderWritten(keys, f.byOrder, tenant, order, driver, book);
    DriverClaimed(keys, f.driverOrders, tenant, order, driver, book);
    assert book[order := driver].Values == book.Values + {driver} by {
      ClaimAddsDriver(book, order, driver);
    }
  }

  lemma OrderWritten(keys: KeyScheme, byOrder: map<string, string>, tenant: string, order: string, driver: string, book: Book)
    requires TellsApart(keys) && ColonFree(tenant) && OrdersKept(keys, byOrder, tenant, book)
    ensures OrdersKept(keys, byOrder[keys.join(tenant, order) := driver], tenant, book[order := driver])
    ensures OrdersKept(keys, byOrder - {keys.join(tenant, order)}, tenant, book - {order})
  {
  }

  lemma FakeClaimKeepsBook(keys: KeyScheme, f: Fake, tenant: string, order: string, candidates: seq<string>, book: Book)
    requires TellsApart(keys) && ColonFree(tenant) && FakeKeepsBook(keys, f, tenant, book) && !ClaimsNobody(book, order, candidates)
    ensures var (next, claim) := FakeAssign(keys, f, tenant, order, candidates);
            && claim == ClaimIn(book, order, candidates)
            && FakeKeepsBook(keys, next, tenant, if claim.Some? then book[order := claim.value.driver] else book)
  {
    FirstFreeIsFirst(book.Values, candidates);
    assert keys.join(tenant, order) in f.byOrder <==> order in book;
    if order in book {
      assert book[order] in book.Values;
      assert book[order := book[order]] == book;
    } else if FirstFree(book.Values, candidates).Some? {
      var driver := FirstFree(book.Values, candidates).value;
      ClaimKeepsOneOrderEach(book, order, candidates);
      FakeClaimWrites(keys, f, tenant, order, driver, book);
      assert driver != "";
    }
  }

  lemma FakeReleaseKeepsBook(keys: KeyScheme, f: Fake, tenant: string, order: string, book: Book)
    requires TellsApart(keys) && ColonFree(tenant) && FakeKeepsBook(keys, f, tenant, book)
    ensures FakeKeepsBook(keys, FakeUnassign(keys, f, tenant, order), tenant, book - {order})
  {
    assert keys.join(tenant, order) in f.byOrder <==> order in book;
    if order !in book {
      assert book - {order} == book;
    } else {
      var driver, next := book[order], FakeUnassign(keys, f, tenant, order);
      assert driver in book.Values;
      ReleaseKeepsOneOrderEach(book, order);
      assert SetIn(f.driverOrders, keys.join(tenant, driver)) - {order} == {} by {
        ReleaseFreesDriver(book, order);
      }
      assert OrdersKept(keys, next.byOrder, tenant, book - {order}) by {
        OrderWritten(keys, f.byOrder, tenant, order, driver, book);
      }
      assert SetIn(next.busy, tenant) == (book - {order}).Values by {
        ReleaseFreesDriver(book, order);
      }
      assert DriversKept(keys, next.driverOrders, tenant, book - {order}) by {
        ReleaseRemovesOrder(book, order);
        DriversWritten(keys, f.driverOrders, tenant, driver, {}, book, book - {order});
      }
    }
  }

  /** Writing under one tenant's keys leaves the other tenants' entries alone. */
  lemma OthersKept(keys: KeyScheme, byOrder: map<string, string>, driverOrders: map<string, set<string>>,
                   tenant: string, order: string, driver: string, orders: set<string>, other: string, book: Book)
    requires TellsApart(keys) && ColonFree(tenant) && ColonFree(other) && other != tenant
    requires OrdersKept(keys, byOrder, other, book) && DriversKept(keys, driverOrders, other, book)
    ensures OrdersKept(keys, byOrder[keys.join(tenant, order) := driver], other, book)
    ensures OrdersKept(keys, byOrder - {keys.join(tenant, order)}, other, book)
    ensures DriversKept(keys, driverOrders[keys.join(tenant, driver) := orders], other, book)
  {
    forall d ensures SetIn(driverOrders[keys.join(tenant, driver) := orders], keys.join(other, d)) == OrdersOf(book, d) {
      assert SetIn(driverOrders, keys.join(other, d)) == OrdersOf(book, d);
    }
  }

  lemma FakeClaimLeavesOthers(keys: KeyScheme, f: Fake, tenant: string, order: string, driver: string, other: string, book: Book)
    requires TellsApart(keys) && ColonFree(tenant) && ColonFree(other) && other != tenant && FakeKeepsBook(keys, f, other, book)
    ensures FakeKeepsBook(keys, FakeClaim(keys, f, tenant, order, driver), other, book)
  {
    var orders := SetIn(f.driverOrders, keys.join(tenant, driver)) + {order};
    OthersKept(keys, f.byOrder, f.driverOrders, tenant, order, driver, orders, other, book);
  }

  lemma FakeReleaseLeavesOthers(keys: KeyScheme, f: Fake, tenant: string, order: string, driver: string, other: string, book: Book)
    requires TellsApart(keys) && ColonFree(tenant) && ColonFree(other) && other != tenant && FakeKeepsBook(keys, f, other, book)
    ensures FakeKeepsBook(keys, FakeRelease(keys, f, tenant, order, driver), other, book)
  {
    var orders := SetIn(f.driverOrders, keys.join(tenant, driver)) - {order};
    OthersKept(keys, f.byOrder, f.driverOrders, tenant, order, driver, orders, other, book);
  }

  lemma FakeOtherTenants(keys: KeyScheme, f: Fake, op: Op, other: string, book: Book)
    requires TellsApart(keys) && ColonFree(op.tenant) && ColonFree(other) && other != op.tenant && FakeKeepsBook(keys, f, other, book)
    ensures FakeKeepsBook(keys, FakeStep(keys, f, op).0, other, book)
  {
    forall order, driver
      ensures FakeKeepsBook(keys, FakeClaim(keys, f, op.tenant, order, driver), other, book)
      ensures FakeKeepsBook(keys, FakeRelease(keys, f, op.tenant, order, driver), other, book)
    {
      FakeClaimLeavesOthers(keys, f, op.tenant, order, driver, other, book);
      FakeReleaseLeavesOthers(keys, f, op.tenant, order, driver, other, book);
    }
    OneWrite(keys, f, op);
  }

  /** A step leaves the maps alone, or writes one claim or one release. */
  lemma OneWrite(keys: KeyScheme, f: Fake, op: Op)
    ensures var next := FakeStep(keys, f, op).0;
            || next == f
            || (exists order, driver :: next == FakeClaim(keys, f, op.tenant, order, driver))
            || (exists order, driver :: next == FakeRelease(keys, f, op.tenant, order, driver))
  {
    if op.Assign? {
      assert FirstFree(SetIn(f.busy, op.tenant), op.candidates).Some? ==>
          FakeStep(keys, f, op).0
          in {f, FakeClaim(keys, f, op.tenant, op.order, FirstFree(SetIn(f.busy, op.tenant), op.candidates).value)};
    }
  }

  lemma FakeStepOnOwnBook(keys: KeyScheme, f: Fake, books: map<string, Book>, op: Op)
    requires TellsApart(keys) && FakeKeepsBook(keys, f, op.tenant, BookOf(books, op.tenant)) && WellNamed(books, op)
    ensures FakeStep(keys, f, op).1 == BookStep(books, op).1
    ensures FakeKeepsBook(keys, FakeStep(keys, f, op).0, op.tenant, BookOf(BookStep(books, op).0, op.tenant))
  {
    var book := BookOf(books, op.tenant);
    match op
    case Assign(tenant, order, candidates) =>
      FakeClaimKeepsBook(keys, f, tenant, order, candidates, book);
    case Unassign(tenant, order) =>
      FakeReleaseKeepsBook(keys, f, tenant, order, book);
    case Get(tenant, order) =>
      assert keys.join(tenant, order) in f.byOrder <==> order in book;
      assert order in book ==> book[order] in book.Values;
    case OrdersForDriver(tenant, driver) =>
      assert SetIn(f.driverOrders, keys.join(tenant, driver)) == OrdersOf(book, driver);
  }

  /** One operation on the in-memory store answers and changes what the same operation on the tenant's book does. */
  lemma FakeStepFollowsBook(keys: KeyScheme, f: Fake, books: map<string, Book>, op: Op)
    requires TellsApart(keys) && FakeKeepsBooks(keys, f, books) && WellNamed(books, op)
    ensures FakeStep(keys, f, op).1 == BookStep(books, op).1
    ensures FakeKeepsBooks(keys, FakeStep(keys, f, op).0, BookStep(books, op).0)
  {
    assert FakeKeepsBook(keys, f, op.tenant, BookOf(books, op.tenant));
    FakeStepOnOwnBook(keys, f, books, op);
    forall other | ColonFree(other)
      ensures FakeKeepsBook(keys, FakeStep(keys, f, op).0, other, BookOf(BookStep(books, op).0, other))
    {
      if other != op.tenant {
        assert FakeKeepsBook(keys, f, other, BookOf(books, other));
        FakeOtherTenants(keys, f, op, other, BookOf(books, other));
        OtherBooksStay(books, op, other);
      }
    }
  }

  // ----- Runs -----

  function RunBook(ops: seq<Op>): (map<string, Book>, seq<Answer>) {
    if ops == [] then (map[], [])
    else
      var (books, answers) := RunBook(ops[..|ops| - 1]);
      var (next, answer) := BookStep(books, ops[|ops| - 1]);
      (next, answers + [answer])
  }

  function RunRedis(ops: seq<Op>): (Keyspace, seq<Answer>) {
    if ops == [] then (map[], [])
    else
      var (ks, answers) := RunRedis(ops[..|ops| - 1]);
      var (next, answer) := RedisStep(ks, ops[|ops| - 1]);
      (next, answers + [answer])
  }

  function RunFake(keys: KeyScheme, ops: seq<Op>): (Fake, seq<Answer>) {
    if ops == [] then (Fake(map[], map[], map[]), [])
    else
      var (f, answers) := RunFake(keys, ops[..|ops| - 1]);
      var (next, answer) := FakeStep(keys, f, ops[|ops| - 1]);
      (next, answers + [answer])
  }

  ghost predicate ColonFreeTenants(ops: seq<Op>) {
    forall op <- ops :: ColonFree(op.tenant)
  }

  // Operation k would assign the driver without a name.
  ghost predicate ClaimsNobodyAt(ops: seq<Op>, k: nat)
    requires k < |ops|
  {
    ops[k].Assign? && ClaimsNobody(BookOf(RunBook(ops[..k]).0, ops[k].tenant), ops[k].order, ops[k].candidates)
  }

  ghost predicate NeverClaimsNobody(ops: seq<Op>) {
    forall k :: 0 <= k < |ops| ==> !ClaimsNobodyAt(ops, k)
  }

  lemma NeverBefore(ops: seq<Op>, n: nat)
    requires n <= |ops| && forall k :: 0 <= k < n ==> !ClaimsNobodyAt(ops, k)
    ensures NeverClaimsNobody(ops[..n])
  {
    forall k | 0 <= k < n ensures ClaimsNobodyAt(ops[..n], k) <==> ClaimsNobodyAt(ops, k) {
      assert ops[..n][..k] == ops[..k];
    }
  }

  lemma LastWellNamed(ops: seq<Op>)
    requires ops != [] && ColonFreeTenants(ops) && NeverClaimsNobody(ops)
    ensures ColonFreeTenants(ops[..|ops| - 1]) && NeverClaimsNobody(ops[..|ops| - 1])
    ensures WellNamed(RunBook(ops[..|ops| - 1]).0, ops[|ops| - 1])
  {
    assert ops[|ops| - 1] in ops;
    assert !ClaimsNobodyAt(ops, |ops| - 1);
    NeverBefore(ops, |ops| - 1);
  }

  lemma {:induction false} RedisFollowsBooks(ops: seq<Op>)
    requires ColonFreeTenants(ops) && NeverClaimsNobody(ops)
    ensures RunRedis(ops).1 == RunBook(ops).1 && KeepsBooks(RunRedis(ops).0, RunBook(ops).0)
  {
    if ops != [] {
      var init, last := ops[..|ops| - 1], ops[|ops| - 1];
      LastWellNamed(ops);
      RedisFollowsBooks(init);
      RedisStepFollowsBook(RunRedis(init).0, RunBook(init).0, last);
    }
  }

  lemma {:induction false} FakeFollowsBooks(keys: KeyScheme, ops: seq<Op>)
    requires TellsApart(keys) && ColonFreeTenants(ops) && NeverClaimsNobody(ops)
    ensures RunFake(keys, ops).1 == RunBook(ops).1 && FakeKeepsBooks(keys, RunFake(keys, ops).0, RunBook(ops).0)
  {
    if ops != [] {
      var init, last := ops[..|ops| - 1], ops[|ops| - 1];
      LastWellNamed(ops);
      FakeFollowsBooks(keys, init);
      FakeStepFollowsBook(keys, RunFake(keys, init).0, RunBook(init).0, last);
    }
  }

  /** Any operations of any colon-free tenants, none of which assigns a driver without a name: the scripts and the in-memory
      store give the same answers, those of the books, and the three Redis structures of every tenant always agree with its
      book. */
  lemma StoresFollowTheBooks(ops: seq<Op>)
    requires ColonFreeTenants(ops) && NeverClaimsNobody(ops)
    ensures RunRedis(ops).1 == RunFake(JOINED_BY_COLON, ops).1 == RunBook(ops).1
    ensures KeepsBooks(RunRedis(ops).0, RunBook(ops).0)
    ensures FakeKeepsBooks(JOINED_BY_COLON, RunFake(JOINED_BY_COLON, ops).0, RunBook(ops).0)
  {
    RedisFollowsBooks(ops);
    ColonTellsApart();
    FakeFollowsBooks(JOINED_BY_COLON, ops);
  }

  lemma {:induction false} AnswerAt(ops: seq<Op>, k: nat)
    requires k < |ops|
    ensures |RunRedis(ops).1| == |RunFake(JOINED_BY_COLON, ops).1| == |ops|
    ensures RunRedis(ops).1[k] == RedisStep(RunRedis(ops[..k]).0, ops[k]).1
    ensures RunFake(JOINED_BY_COLON, ops).1[k] == FakeStep(JOINED_BY_COLON, RunFake(JOINED_BY_COLON, ops[..k]).0, ops[k]).1
  {
    var init := ops[..|ops| - 1];
    if k < |ops| - 1 {
      AnswerAt(init, k);
      assert init[..k] == ops[..k];
    } else if k > 0 {
      AnswerAt(init, 0);
    }
  }

  // The claim of a driver without a name: the script assigns it, the in-memory store finds nobody.
  lemma NobodyTellsThemApart(ks: Keyspace, f: Fake, tenant: string, order: string, candidates: seq<string>, book: Book)
    requires HoldsHash(ks, HashKey(tenant), book) && HoldsSet(ks, BusyKey(tenant), book.Values)
    requires JOINED_BY_COLON.join(tenant, order) in f.byOrder <==> order in book
    requires SetIn(f.busy, tenant) == book.Values && ClaimsNobody(book, order, candidates)
    ensures ClaimFirstFree(ks, tenant, order, candidates).1 == Some(Claim("", true))
    ensures FakeAssign(JOINED_BY_COLON, f, tenant, order, candidates).1 == None
  {
  }

  lemma StepsTellThemApart(ks: Keyspace, f: Fake, books: map<string, Book>, op: Op)
    requires KeepsBooks(ks, books) && FakeKeepsBooks(JOINED_BY_COLON, f, books)
    requires ColonFree(op.tenant) && op.Assign? && ClaimsNobody(BookOf(books, op.tenant), op.order, op.candidates)
    ensures RedisStep(ks, op).1 != FakeStep(JOINED_BY_COLON, f, op).1
  {
    var book := BookOf(books, op.tenant);
    assert HoldsHash(ks, HashKey(op.tenant), book) && HoldsSet(ks, BusyKey(op.tenant), book.Values) by {
      assert KeepsBook(ks, op.tenant, book);
    }
    assert (JOINED_BY_COLON.join(op.tenant, op.order) in f.byOrder <==> op.order in book) && SetIn(f.busy, op.tenant) == book.Values by {
      assert FakeKeepsBook(JOINED_BY_COLON, f, op.tenant, book);
    }
    NobodyTellsThemApart(ks, f, op.tenant, op.order, op.candidates, book);
  }

  /** The stores are interchangeable exactly when no claim in the run reaches a driver without a name. */
  lemma StoresAgreeExactlyWhen(ops: seq<Op>)
    requires ColonFreeTenants(ops)
    ensures RunRedis(ops).1 == RunFake(JOINED_BY_COLON, ops).1 <==> NeverClaimsNobody(ops)
  {
    if NeverClaimsNobody(ops) {
      StoresFollowTheBooks(ops);
    } else {
      var k := FirstNobody(ops, 0);
      NeverBefore(ops, k);
      assert ColonFreeTenants(ops[..k]) && ColonFree(ops[k].tenant);
      StoresFollowTheBooks(ops[..k]);
      StepsTellThemApart(RunRedis(ops[..k]).0, RunFake(JOINED_BY_COLON, ops[..k]).0, RunBook(ops[..k]).0, ops[k]);
      AnswerAt(ops, k);
    }
  }

  lemma {:induction false} FirstNobody(ops: seq<Op>, from: nat) returns (k: nat)
    requires from <= |ops| && !NeverClaimsNobody(ops) && forall i :: 0 <= i < from ==> !ClaimsNobodyAt(ops, i)
    ensures k < |ops| && ClaimsNobodyAt(ops, k) && forall i :: 0 <= i < k ==> !ClaimsNobodyAt(ops, i)
    decreases |ops| - from
  {
    if ClaimsNobodyAt(ops, from) {
      k := from;
    } else {
      k := FirstNobody(ops, from + 1);
    }
  }
}
