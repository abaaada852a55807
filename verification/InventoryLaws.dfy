/** What the reserve and release handlers keep: no unit is lost, invented or promised twice. */
module InventoryLaws {
  import opened Results
  import opened Sequences
  import opened Orders
  import opened Inventory

  /** Units of an item, wherever they are. */
  function Units(shelf: Shelf, key: StockKey): int
    requires key in shelf.stock
  {
    shelf.stock[key] + Held(shelf.reservations, key)
  }

  function Share(tenantId: string, lines: seq<Line>, key: StockKey): int {
    if key.tenantId == tenantId then QtyOf(lines, key.itemId) else 0
  }

  // ----- What one handler moves -----

  lemma {:induction false} TakenQty(stock: map<StockKey, int>, tenantId: string, lines: seq<Line>, key: StockKey)
    ensures key in Taken(stock, tenantId, lines) <==> key in stock
    ensures key in stock ==> Taken(stock, tenantId, lines)[key] == stock[key] - Share(tenantId, lines, key)
  {
    if lines != [] {
      TakenQty(stock, tenantId, lines[..|lines| - 1], key);
      TakenQty(stock, tenantId, lines[..|lines| - 1], StockKey(tenantId, lines[|lines| - 1].itemId));
    }
  }

  function RowOf(tenantId: string, orderId: nat, line: Line): Reservation {
    Reservation(tenantId, orderId, line.itemId, line.qty, true)
  }

  lemma RowsForSnoc(reservations: seq<Reservation>, tenantId: string, orderId: nat, lines: seq<Line>)
    requires lines != []
    ensures reservations + RowsFor(tenantId, orderId, lines)
            == reservations + RowsFor(tenantId, orderId, lines[..|lines| - 1]) + [RowOf(tenantId, orderId, lines[|lines| - 1])]
  {
  }

  lemma HeldSnoc(reservations: seq<Reservation>, row: Reservation, key: StockKey)
    ensures Held(reservations + [row], key)
            == Held(reservations, key) + if row.active && row.tenantId == key.tenantId && row.itemId == key.itemId then row.qty else 0
  {
    assert (reservations + [row])[..|reservations|] == reservations;
  }

  lemma {:induction false} HeldRows(reservations: seq<Reservation>, tenantId: string, orderId: nat, lines: seq<Line>, key: StockKey)
    ensures Held(reservations + RowsFor(tenantId, orderId, lines), key) == Held(reservations, key) + Share(tenantId, lines, key)
  {
    if lines == [] {
      assert reservations + [] == reservations;
    } else {
      var init, last := lines[..|lines| - 1], lines[|lines| - 1];
      HeldRows(reservations, tenantId, orderId, init, key);
      RowsForSnoc(reservations, tenantId, orderId, lines);
      HeldSnoc(reservations + RowsFor(tenantId, orderId, init), RowOf(tenantId, orderId, last), key);
    }
  }

  lemma ActiveSnoc(reservations: seq<Reservation>, row: Reservation, t: string, o: nat)
    ensures ActiveLines(reservations + [row], t, o)
            == SnocIf(ActiveLines(reservations, t, o), Belongs(row, t, o), Line(row.itemId, row.qty))
  {
    assert (reservations + [row])[..|reservations|] == reservations;
  }

  function OwnLines(mine: bool, lines: seq<Line>): seq<Line> {
    if mine then lines else []
  }

  lemma OwnLinesSnoc(held: seq<Line>, mine: bool, lines: seq<Line>)
    requires lines != []
    ensures held + OwnLines(mine, lines)
            == (held + OwnLines(mine, lines[..|lines| - 1])) + OwnLines(mine, [lines[|lines| - 1]])
  {
  }

  lemma {:induction false} ActiveRows(reservations: seq<Reservation>, tenantId: string, orderId: nat, lines: seq<Line>, t: string, o: nat)
    ensures ActiveLines(reservations + RowsFor(tenantId, orderId, lines), t, o)
            == ActiveLines(reservations, t, o) + OwnLines(t == tenantId && o == orderId, lines)
  {
    if lines == [] {
      assert reservations + [] == reservations;
    } else {
      var init, last := lines[..|lines| - 1], lines[|lines| - 1];
      ActiveRows(reservations, tenantId, orderId, init, t, o);
      RowsForSnoc(reservations, tenantId, orderId, lines);
      ActiveSnoc(reservations + RowsFor(tenantId, orderId, init), RowOf(tenantId, orderId, last), t, o);
      OwnLinesSnoc(ActiveLines(reservations, t, o), t == tenantId && o == orderId, lines);
    }
  }

  lemma {:induction false} ReturnedQty(stock: map<StockKey, int>, reservations: seq<Reservation>, tenantId: string, orderId: nat, key: StockKey)
    ensures key in Returned(stock, reservations, tenantId, orderId) <==> key in stock
    ensures key in stock ==>
              Returned(stock, reservations, tenantId, orderId)[key]
              == stock[key] + Share(tenantId, ActiveLines(reservations, tenantId, orderId), key)
  {
    if reservations != [] {
      var init, last := reservations[..|reservations| - 1], reservations[|reservations| - 1];
      ReturnedQty(stock, init, tenantId, orderId, key);
      ReturnedQty(stock, init, tenantId, orderId, StockKey(tenantId, last.itemId));
      LastLine(ActiveLines(init, tenantId, orderId), Line(last.itemId, last.qty), key.itemId);
    }
  }

  lemma LastLine(lines: seq<Line>, line: Line, itemId: nat)
    ensures QtyOf(lines + [line], itemId) == QtyOf(lines, itemId) + if line.itemId == itemId then line.qty else 0
  {
    assert (lines + [line])[..|lines|] == lines;
  }

  lemma {:induction false} ClosedHeld(reservations: seq<Reservation>, tenantId: string, orderId: nat, key: StockKey)
    ensures Held(Closed(reservations, tenantId, orderId), key)
            == Held(reservations, key) - Share(tenantId, ActiveLines(reservations, tenantId, orderId), key)
  {
    if reservations != [] {
      var init, last := reservations[..|reservations| - 1], reservations[|reservations| - 1];
      ClosedHeld(init, tenantId, orderId, key);
      LastLine(ActiveLines(init, tenantId, orderId), Line(last.itemId, last.qty), key.itemId);
      HeldSnoc(Closed(init, tenantId, orderId), ClosedRow(last, tenantId, orderId), key);
    }
  }

  lemma {:induction false} ClosedActive(reservations: seq<Reservation>, tenantId: string, orderId: nat, t: string, o: nat)
    ensures ActiveLines(Closed(reservations, tenantId, orderId), t, o)
            == if t == tenantId && o == orderId then [] else ActiveLines(reservations, t, o)
  {
    if reservations != [] {
      var init, last := reservations[..|reservations| - 1], reservations[|reservations| - 1];
      ClosedActive(init, tenantId, orderId, t, o);
      ActiveSnoc(Closed(init, tenantId, orderId), ClosedRow(last, tenantId, orderId), t, o);
    }
  }

  // ----- What the tables always satisfy -----

  ghost predicate NonNegative(stock: map<StockKey, int>) {
    forall key <- stock :: stock[key] >= 0
  }

  ghost predicate Stocked(shelf: Shelf) {
    forall r <- shelf.reservations :: r.active ==> StockKey(r.tenantId, r.itemId) in shelf.stock && r.qty > 0
  }

  /** An order's active reservations name each item once: the table's unique index. */
  ghost predicate OncePerItem(reservations: seq<Reservation>) {
    forall t: string, o: nat :: Increasing(ActiveLines(reservations, t, o))
  }

  ghost predicate WellKept(shelf: Shelf) {
    NonNegative(shelf.stock) && Stocked(shelf) && OncePerItem(shelf.reservations)
  }

  lemma {:induction false} SoleLine(lines: seq<Line>, i: nat)
    requires Increasing(lines) && i < |lines|
    ensures QtyOf(lines, lines[i].itemId) == lines[i].qty
  {
    var init := lines[..|lines| - 1];
    if i == |lines| - 1 {
      AbsentLine(init, lines[i].itemId);
    } else {
      SoleLine(init, i);
    }
  }

  lemma {:induction false} AbsentLine(lines: seq<Line>, itemId: nat)
    requires forall i :: 0 <= i < |lines| ==> lines[i].itemId != itemId
    ensures QtyOf(lines, itemId) == 0
  {
    if lines != [] {
      AbsentLine(lines[..|lines| - 1], itemId);
    }
  }

  lemma TakenStaysNonNegative(stock: map<StockKey, int>, tenantId: string, lines: seq<Line>)
    requires NonNegative(stock) && Increasing(lines) && AllAvailable(stock, tenantId, lines)
    ensures NonNegative(Taken(stock, tenantId, lines))
  {
    forall key | key in Taken(stock, tenantId, lines) ensures Taken(stock, tenantId, lines)[key] >= 0 {
      TakenQty(stock, tenantId, lines, key);
      if i :| 0 <= i < |lines| && lines[i].itemId == key.itemId && key.tenantId == tenantId {
        assert Available(stock, tenantId, lines[i]);
        SoleLine(lines, i);
      } else if key.tenantId == tenantId {
        AbsentLine(lines, key.itemId);
      }
    }
  }

  lemma {:induction false} RowsAreStocked(stock: map<StockKey, int>, tenantId: string, orderId: nat, lines: seq<Line>)
    requires AllAvailable(stock, tenantId, lines) && Positive(lines)
    ensures forall r <- RowsFor(tenantId, orderId, lines) :: StockKey(r.tenantId, r.itemId) in stock && r.qty > 0
  {
    if lines != [] {
      var last := lines[|lines| - 1];
      RowsAreStocked(stock, tenantId, orderId, lines[..|lines| - 1]);
      assert Available(stock, tenantId, last);
    }
  }

  lemma SortedReplay(existing: seq<Line>, requested: seq<Line>)
    requires Increasing(existing) && Increasing(requested)
    ensures ReplayMatches(existing, requested) <==> existing == requested
  {
    if existing == requested {
      forall i | 0 <= i < |requested| ensures ExistingQty(existing, requested[i].itemId) == Some(requested[i].qty) {
        FoundLine(existing, i);
      }
    }
    if ReplayMatches(existing, requested) {
      forall line | line in requested ensures line in existing {
        var k := LineAt(existing, line.itemId);
      }
      Embedded(requested, existing);
    }
  }

  lemma {:induction false} Embedded(few: seq<Line>, many: seq<Line>)
    requires Increasing(few) && Increasing(many)
    requires forall line <- few :: line in many
    ensures |few| <= |many| && (|few| == |many| ==> few == many)
  {
    if few != [] {
      var init, last := few[..|few| - 1], few[|few| - 1];
      assert last in many;
      var j :| 0 <= j < |many| && many[j] == last;
      forall i | 0 <= i < |init| ensures init[i] in many[..j] {
        FoundBefore(few, many, i, j);
      }
      Embedded(init, many[..j]);
      if |few| == |many| {
        assert few == init + [last] && many == many[..j] + [many[j]];
      }
    }
  }

  lemma FoundBefore(few: seq<Line>, many: seq<Line>, i: nat, j: nat)
    requires Increasing(few) && Increasing(many) && i < |few| - 1 && j < |many| && many[j] == few[|few| - 1] && few[i] in many
    ensures few[i] in many[..j]
  {
    var k :| 0 <= k < |many| && many[k] == few[i];
    assert k < j;
    assert many[..j][k] == few[i];
  }

  lemma {:induction false} FoundLine(lines: seq<Line>, i: nat)
    requires Increasing(lines) && i < |lines|
    ensures ExistingQty(lines, lines[i].itemId) == Some(lines[i].qty)
  {
    if i < |lines| - 1 {
      FoundLine(lines[..|lines| - 1], i);
    }
  }

  lemma {:induction false} LineAt(lines: seq<Line>, itemId: nat) returns (i: nat)
    requires ExistingQty(lines, itemId).Some?
    ensures i < |lines| && lines[i].itemId == itemId && ExistingQty(lines, itemId) == Some(lines[i].qty)
  {
    if lines[|lines| - 1].itemId == itemId {
      i := |lines| - 1;
    } else {
      i := LineAt(lines[..|lines| - 1], itemId);
    }
  }

  // ----- The handlers keep it -----

  lemma ReserveKeepsTables(shelf: Shelf, tenantId: string, orderId: nat, items: seq<Line>)
    requires WellKept(shelf)
    ensures WellKept(Reserve(shelf, tenantId, orderId, items).0)
  {
    var lines, existing := Merged(items), ActiveLines(shelf.reservations, tenantId, orderId);
    if Valid(items) && existing == [] && AllAvailable(shelf.stock, tenantId, lines) {
      NormalizedIsSorted(items);
      var next := Shelf(Taken(shelf.stock, tenantId, lines), shelf.reservations + RowsFor(tenantId, orderId, lines));
      TakenStaysNonNegative(shelf.stock, tenantId, lines);
      StillStocked(shelf, tenantId, orderId, lines, next);
      StillOncePerItem(shelf.reservations, tenantId, orderId, lines);
    }
  }

  lemma StillOncePerItem(reservations: seq<Reservation>, tenantId: string, orderId: nat, lines: seq<Line>)
    requires OncePerItem(reservations) && Increasing(lines) && ActiveLines(reservations, tenantId, orderId) == []
    ensures OncePerItem(reservations + RowsFor(tenantId, orderId, lines))
  {
    forall t: string, o: nat ensures Increasing(ActiveLines(reservations + RowsFor(tenantId, orderId, lines), t, o)) {
      ActiveAfter(reservations, tenantId, orderId, lines, t, o);
    }
  }

  lemma ActiveAfter(reservations: seq<Reservation>, tenantId: string, orderId: nat, lines: seq<Line>, t: string, o: nat)
    requires ActiveLines(reservations, tenantId, orderId) == []
    ensures ActiveLines(reservations + RowsFor(tenantId, orderId, lines), t, o)
            == if t == tenantId && o == orderId then lines else ActiveLines(reservations, t, o)
  {
    ActiveRows(reservations, tenantId, orderId, lines, t, o);
    var before := ActiveLines(reservations, t, o);
    assert before + [] == before && [] + lines == lines;
  }

  lemma StillStocked(shelf: Shelf, tenantId: string, orderId: nat, lines: seq<Line>, next: Shelf)
    requires Stocked(shelf) && AllAvailable(shelf.stock, tenantId, lines) && Positive(lines)
    requires next == Shelf(Taken(shelf.stock, tenantId, lines), shelf.reservations + RowsFor(tenantId, orderId, lines))
    ensures Stocked(next)
  {
    RowsAreStocked(shelf.stock, tenantId, orderId, lines);
    forall r | r in next.reservations && r.active ensures StockKey(r.tenantId, r.itemId) in next.stock && r.qty > 0 {
      TakenQty(shelf.stock, tenantId, lines, StockKey(r.tenantId, r.itemId));
      assert r in shelf.reservations || r in RowsFor(tenantId, orderId, lines);
    }
  }

  lemma {:induction false} ClosedRows(reservations: seq<Reservation>, tenantId: string, orderId: nat)
    ensures |Closed(reservations, tenantId, orderId)| == |reservations|
    ensures forall i :: 0 <= i < |reservations| ==>
              Closed(reservations, tenantId, orderId)[i]
              == if Belongs(reservations[i], tenantId, orderId) then reservations[i].(active := false) else reservations[i]
  {
    if reservations != [] {
      ClosedRows(reservations[..|reservations| - 1], tenantId, orderId);
    }
  }

  // Active lines are positive.
  lemma {:induction false} ActivePositive(reservations: seq<Reservation>, tenantId: string, orderId: nat)
    requires forall r <- reservations :: r.active ==> r.qty > 0
    ensures Positive(ActiveLines(reservations, tenantId, orderId))
  {
    if reservations != [] {
      ActivePositive(reservations[..|reservations| - 1], tenantId, orderId);
    }
  }

  lemma {:induction false} QtyNonNegative(lines: seq<Line>, itemId: nat)
    requires Positive(lines)
    ensures QtyOf(lines, itemId) >= 0
  {
    if lines != [] {
      QtyNonNegative(lines[..|lines| - 1], itemId);
    }
  }

  lemma ReleaseKeepsTables(shelf: Shelf, tenantId: string, orderId: nat)
    requires WellKept(shelf)
    ensures WellKept(Release(shelf, tenantId, orderId))
  {
    var next, lines := Release(shelf, tenantId, orderId), ActiveLines(shelf.reservations, tenantId, orderId);
    ActivePositive(shelf.reservations, tenantId, orderId);
    forall key | key in next.stock ensures next.stock[key] >= 0 {
      ReturnedQty(shelf.stock, shelf.reservations, tenantId, orderId, key);
      QtyNonNegative(lines, key.itemId);
    }
    ReleasedStocked(shelf, tenantId, orderId, next);
    forall t: string, o: nat ensures Increasing(ActiveLines(next.reservations, t, o)) {
      ClosedActive(shelf.reservations, tenantId, orderId, t, o);
    }
  }

  lemma ReleasedStocked(shelf: Shelf, tenantId: string, orderId: nat, next: Shelf)
    requires Stocked(shelf) && next == Release(shelf, tenantId, orderId)
    ensures Stocked(next)
  {
    ClosedRows(shelf.reservations, tenantId, orderId);
    forall r | r in next.reservations && r.active ensures StockKey(r.tenantId, r.itemId) in next.stock && r.qty > 0 {
      var i :| 0 <= i < |next.reservations| && next.reservations[i] == r;
      assert shelf.reservations[i] in shelf.reservations && shelf.reservations[i] == r;
      ReturnedQty(shelf.stock, shelf.reservations, tenantId, orderId, StockKey(r.tenantId, r.itemId));
    }
  }

  // ----- The main laws -----

  /** Reserving moves units from stock to reservations and loses none; it never touches what it does not reserve. */
  lemma ReserveConserves(shelf: Shelf, tenantId: string, orderId: nat, items: seq<Line>, key: StockKey)
    requires key in shelf.stock
    ensures var next := Reserve(shelf, tenantId, orderId, items).0;
            key in next.stock && Units(next, key) == Units(shelf, key)
  {
    TakenQty(shelf.stock, tenantId, Merged(items), key);
    HeldRows(shelf.reservations, tenantId, orderId, Merged(items), key);
  }

  lemma ReleaseConserves(shelf: Shelf, tenantId: string, orderId: nat, key: StockKey)
    requires key in shelf.stock
    ensures var next := Release(shelf, tenantId, orderId);
            key in next.stock && Units(next, key) == Units(shelf, key)
  {
    ReturnedQty(shelf.stock, shelf.reservations, tenantId, orderId, key);
    ClosedHeld(shelf.reservations, tenantId, orderId, key);
  }

  /** When a reservation is granted, refused or rejected; a granted one leaves the order holding exactly its normalised
      request, whether it was made now or before. */
  lemma ReserveOutcome(shelf: Shelf, tenantId: string, orderId: nat, items: seq<Line>)
    requires WellKept(shelf) && Valid(items)
    ensures
      var (next, r) := Reserve(shelf, tenantId, orderId, items);
      var existing := ActiveLines(shelf.reservations, tenantId, orderId);
      && (r == Ok(true) <==> existing == Merged(items) || (existing == [] && AllAvailable(shelf.stock, tenantId, Merged(items))))
      && (r == Ok(true) <==> ActiveLines(next.reservations, tenantId, orderId) == Merged(items))
      && (r == Err(IdempotencyConflict) <==> existing != [] && existing != Merged(items))
      && (r != Ok(true) || existing != [] ==> next == shelf)
  {
    var existing := ActiveLines(shelf.reservations, tenantId, orderId);
    NormalizedIsSorted(items);
    SortedReplay(existing, Merged(items));
    ActiveRows(shelf.reservations, tenantId, orderId, Merged(items), tenantId, orderId);
    assert [] + Merged(items) == Merged(items);
  }

  // One item through a reservation of nothing held, and its release.
  lemma ThereAndBack(shelf: Shelf, tenantId: string, orderId: nat, items: seq<Line>, mid: Shelf, next: Shelf, key: StockKey)
    requires ActiveLines(shelf.reservations, tenantId, orderId) == []
    requires mid == Reserve(shelf, tenantId, orderId, items).0 && next == Release(mid, tenantId, orderId)
    ensures key in next.stock <==> key in shelf.stock
    ensures key in shelf.stock ==> next.stock[key] == shelf.stock[key]
    ensures Held(next.reservations, key) == Held(shelf.reservations, key)
  {
    var lines := Merged(items);
    ReturnedQty(mid.stock, mid.reservations, tenantId, orderId, key);
    ClosedHeld(mid.reservations, tenantId, orderId, key);
    if Valid(items) && AllAvailable(shelf.stock, tenantId, lines) {
      TakenQty(shelf.stock, tenantId, lines, key);
      HeldRows(shelf.reservations, tenantId, orderId, lines, key);
      ActiveAfter(shelf.reservations, tenantId, orderId, lines, tenantId, orderId);
    }
  }

  /** Releasing undoes reserving: the stock is what it was, and no reservation of the order is left. */
  lemma ReleaseUndoesReserve(shelf: Shelf, tenantId: string, orderId: nat, items: seq<Line>)
    requires ActiveLines(shelf.reservations, tenantId, orderId) == []
    ensures
      var next := Release(Reserve(shelf, tenantId, orderId, items).0, tenantId, orderId);
      && next.stock == shelf.stock
      && ActiveLines(next.reservations, tenantId, orderId) == []
      && (forall key: StockKey :: Held(next.reservations, key) == Held(shelf.reservations, key))
  {
    var mid := Reserve(shelf, tenantId, orderId, items).0;
    var next := Release(mid, tenantId, orderId);
    forall key: StockKey
      ensures (key in next.stock <==> key in shelf.stock) && (key in shelf.stock ==> next.stock[key] == shelf.stock[key])
      ensures Held(next.reservations, key) == Held(shelf.reservations, key)
    {
      ThereAndBack(shelf, tenantId, orderId, items, mid, next, key);
    }
    ClosedActive(mid.reservations, tenantId, orderId, tenantId, orderId);
  }

  lemma {:induction false} MergeKeepsItems(lines: seq<Line>, line: Line, itemId: nat)
    ensures Names(Merge(lines, line), itemId) <==> Names(lines, itemId) || line.itemId == itemId
  {
    NamesOne(line, itemId);
    if lines != [] {
      NamesOne(lines[0], itemId);
      NamesOne(Line(line.itemId, lines[0].qty + line.qty), itemId);
      assert lines == [lines[0]] + lines[1..];
      NamesConcat([lines[0]], lines[1..], itemId);
      NamesConcat([line], lines, itemId);
      NamesConcat([Line(line.itemId, lines[0].qty + line.qty)], lines[1..], itemId);
      NamesConcat([lines[0]], Merge(lines[1..], line), itemId);
      if line.itemId > lines[0].itemId {
        MergeKeepsItems(lines[1..], line, itemId);
      }
    }
  }

  predicate Names(lines: seq<Line>, itemId: nat) {
    exists i :: 0 <= i < |lines| && lines[i].itemId == itemId
  }

  lemma NamesOne(line: Line, itemId: nat)
    ensures Names([line], itemId) <==> line.itemId == itemId
  {
    assert [line][0] == line;
  }

  lemma NamesConcat(lines: seq<Line>, more: seq<Line>, itemId: nat)
    ensures Names(lines + more, itemId) <==> Names(lines, itemId) || Names(more, itemId)
  {
    var all := lines + more;
    assert forall i :: 0 <= i < |lines| ==> all[i] == lines[i];
    if i :| 0 <= i < |more| && more[i].itemId == itemId {
      assert all[|lines| + i].itemId == itemId;
    }
    if i :| 0 <= i < |all| && all[i].itemId == itemId && i >= |lines| {
      assert more[i - |lines|].itemId == itemId;
    }
  }

  lemma {:induction false} MergedKeepsItems(items: seq<Line>, itemId: nat)
    ensures Names(Merged(items), itemId) <==> Names(items, itemId)
  {
    if items != [] {
      var init, last := items[..|items| - 1], items[|items| - 1];
      MergedKeepsItems(init, itemId);
      MergeKeepsItems(Merged(init), last, itemId);
      NamesConcat(init, [last], itemId);
      assert items == init + [last];
      NamesOne(last, itemId);
    }
  }

  predicate Suffices(stock: map<StockKey, int>, tenantId: string, itemId: nat, qty: int) {
    StockKey(tenantId, itemId) in stock && stock[StockKey(tenantId, itemId)] >= qty
  }

  /** What "available" means for the request as it was made: for every item named, the stock covers all its lines together. */
  lemma AvailableMeansEveryTotal(stock: map<StockKey, int>, tenantId: string, items: seq<Line>)
    requires Valid(items)
    ensures AllAvailable(stock, tenantId, Merged(items))
            <==> forall itemId | Names(items, itemId) :: Suffices(stock, tenantId, itemId, QtyOf(items, itemId))
  {
    var lines := Merged(items);
    NormalizedIsSorted(items);
    forall i | 0 <= i < |lines|
      ensures Names(items, lines[i].itemId)
      ensures Available(stock, tenantId, lines[i]) <==> Suffices(stock, tenantId, lines[i].itemId, QtyOf(items, lines[i].itemId))
    {
      SoleLine(lines, i);
      NormalizedAsksTheSame(items, lines[i].itemId);
      MergedKeepsItems(items, lines[i].itemId);
    }
    if AllAvailable(stock, tenantId, lines) {
      forall itemId | Names(items, itemId) ensures Suffices(stock, tenantId, itemId, QtyOf(items, itemId)) {
        MergedKeepsItems(items, itemId);
        var i :| 0 <= i < |lines| && lines[i].itemId == itemId;
        assert Available(stock, tenantId, lines[i]);
      }
    }
  }

  /** A reserve command that arrives again after the release takes the same units again: effects are not deduplicated. */
  lemma ReservedAgainAfterRelease(shelf: Shelf, tenantId: string, orderId: nat, items: seq<Line>)
    requires WellKept(shelf) && ActiveLines(shelf.reservations, tenantId, orderId) == []
    requires Reserve(shelf, tenantId, orderId, items).1 == Ok(true)
    ensures
      var released := Release(Reserve(shelf, tenantId, orderId, items).0, tenantId, orderId);
      var (again, r) := Reserve(released, tenantId, orderId, items);
      r == Ok(true) && ActiveLines(again.reservations, tenantId, orderId) == Merged(items) && Merged(items) != []
  {
    var mid := Reserve(shelf, tenantId, orderId, items).0;
    var released := Release(mid, tenantId, orderId);
    ReleaseUndoesReserve(shelf, tenantId, orderId, items);
    ReserveOutcome(shelf, tenantId, orderId, items);
    NormalizedIsSorted(items);
    ReserveKeepsTables(shelf, tenantId, orderId, items);
    ReleaseKeepsTables(mid, tenantId, orderId);
    ReserveOutcome(released, tenantId, orderId, items);
  }

  // ----- Every run -----

  datatype Command = ReserveCommand(tenantId: string, orderId: nat, items: seq<Line>) | ReleaseCommand(tenantId: string, orderId: nat)

  function Apply(shelf: Shelf, c: Command): Shelf {
    match c
    case ReserveCommand(tenantId, orderId, items) => Reserve(shelf, tenantId, orderId, items).0
    case ReleaseCommand(tenantId, orderId) => Release(shelf, tenantId, orderId)
  }

  function ApplyAll(initial: map<StockKey, int>, commands: seq<Command>): Shelf {
    if commands == [] then Shelf(initial, [])
    else Apply(ApplyAll(initial, commands[..|commands| - 1]), commands[|commands| - 1])
  }

  lemma {:induction false} RunKeepsTables(initial: map<StockKey, int>, commands: seq<Command>)
    requires NonNegative(initial)
    ensures WellKept(ApplyAll(initial, commands))
  {
    if commands != [] {
      var shelf := ApplyAll(initial, commands[..|commands| - 1]);
      RunKeepsTables(initial, commands[..|commands| - 1]);
      match commands[|commands| - 1]
      case ReserveCommand(tenantId, orderId, items) => ReserveKeepsTables(shelf, tenantId, orderId, items);
      case ReleaseCommand(tenantId, orderId) => ReleaseKeepsTables(shelf, tenantId, orderId);
    }
  }

  /** Whatever commands arrive, from whatever orders and however often: stock never goes negative, and stock and reservations
      of an item together are always its initial stock. */
  lemma {:induction false} UnitsAreConserved(initial: map<StockKey, int>, commands: seq<Command>, key: StockKey)
    requires NonNegative(initial) && key in initial
    ensures var shelf := ApplyAll(initial, commands);
            key in shelf.stock && shelf.stock[key] >= 0 && Units(shelf, key) == initial[key]
  {
    RunKeepsTables(initial, commands);
    if commands != [] {
      var shelf := ApplyAll(initial, commands[..|commands| - 1]);
      UnitsAreConserved(initial, commands[..|commands| - 1], key);
      match commands[|commands| - 1]
      case ReserveCommand(tenantId, orderId, items) => ReserveConserves(shelf, tenantId, orderId, items, key);
      case ReleaseCommand(tenantId, orderId) => ReleaseConserves(shelf, tenantId, orderId, key);
    }
  }

  // ----- When an order holds stock -----

  predicate IsReserveOf(c: Command, tenantId: string, orderId: nat) {
    c.ReserveCommand? && c.tenantId == tenantId && c.orderId == orderId
  }

  predicate IsReleaseOf(c: Command, tenantId: string, orderId: nat) {
    c.ReleaseCommand? && c.tenantId == tenantId && c.orderId == orderId
  }

  /** Command k reserved for the order, or found its reservation in place. */
  ghost predicate GrantedAt(initial: map<StockKey, int>, commands: seq<Command>, k: nat, tenantId: string, orderId: nat)
    requires k < |commands|
  {
    && IsReserveOf(commands[k], tenantId, orderId)
    && Reserve(ApplyAll(initial, commands[..k]), tenantId, orderId, commands[k].items).1 == Ok(true)
  }

  /** Some reserve command of the order was granted, and no release of it came after. */
  ghost predicate GrantedSinceRelease(initial: map<StockKey, int>, commands: seq<Command>, tenantId: string, orderId: nat) {
    exists k: nat ::
      k < |commands| && GrantedAt(initial, commands, k, tenantId, orderId) && NotReleasedAfter(commands, k, tenantId, orderId)
  }

  // No release of the order after command k.
  predicate NotReleasedAfter(commands: seq<Command>, k: nat, tenantId: string, orderId: nat) {
    forall j :: k < j < |commands| ==> !IsReleaseOf(commands[j], tenantId, orderId)
  }

  lemma GrantedAtSnoc(initial: map<StockKey, int>, commands: seq<Command>, c: Command, k: nat, tenantId: string, orderId: nat)
    requires k <= |commands|
    ensures GrantedAt(initial, commands + [c], k, tenantId, orderId)
            <==> if k < |commands| then GrantedAt(initial, commands, k, tenantId, orderId)
                 else IsReserveOf(c, tenantId, orderId) && Reserve(ApplyAll(initial, commands), tenantId, orderId, c.items).1 == Ok(true)
    ensures NotReleasedAfter(commands + [c], k, tenantId, orderId)
            <==> NotReleasedAfter(commands, k, tenantId, orderId) && (k < |commands| ==> !IsReleaseOf(c, tenantId, orderId))
  {
    var all, n := commands + [c], |commands|;
    assert all[..k] == commands[..k] && all[n] == c;
    assert forall j :: 0 <= j < n ==> all[j] == commands[j];
  }

  lemma GrantedSinceSnoc(initial: map<StockKey, int>, commands: seq<Command>, c: Command, tenantId: string, orderId: nat)
    ensures
      GrantedSinceRelease(initial, commands + [c], tenantId, orderId)
      <==> if IsReleaseOf(c, tenantId, orderId) then false
           else GrantedSinceRelease(initial, commands, tenantId, orderId)
                || (IsReserveOf(c, tenantId, orderId) && Reserve(ApplyAll(initial, commands), tenantId, orderId, c.items).1 == Ok(true))
  {
    var all, n := commands + [c], |commands|;
    if GrantedSinceRelease(initial, all, tenantId, orderId) {
      var k: nat :| k < |all| && GrantedAt(initial, all, k, tenantId, orderId) && NotReleasedAfter(all, k, tenantId, orderId);
      GrantedAtSnoc(initial, commands, c, k, tenantId, orderId);
    }
    if GrantedSinceRelease(initial, commands, tenantId, orderId) {
      var k: nat :| k < n && GrantedAt(initial, commands, k, tenantId, orderId) && NotReleasedAfter(commands, k, tenantId, orderId);
      GrantedAtSnoc(initial, commands, c, k, tenantId, orderId);
    }
    GrantedAtSnoc(initial, commands, c, n, tenantId, orderId);
  }

  lemma HoldsAfterReserve(shelf: Shelf, tenantId: string, orderId: nat, items: seq<Line>)
    requires WellKept(shelf)
    ensures var (next, r) := Reserve(shelf, tenantId, orderId, items);
            ActiveLines(next.reservations, tenantId, orderId) != []
            <==> ActiveLines(shelf.reservations, tenantId, orderId) != [] || r == Ok(true)
  {
    if Valid(items) {
      ReserveOutcome(shelf, tenantId, orderId, items);
      NormalizedIsSorted(items);
    }
  }

  lemma OthersHoldTheSame(shelf: Shelf, c: Command, tenantId: string, orderId: nat)
    requires c.tenantId != tenantId || c.orderId != orderId
    ensures ActiveLines(Apply(shelf, c).reservations, tenantId, orderId) == ActiveLines(shelf.reservations, tenantId, orderId)
  {
    match c
    case ReserveCommand(t, o, items) => ActiveRows(shelf.reservations, t, o, Merged(items), tenantId, orderId);
    case ReleaseCommand(t, o) => ClosedActive(shelf.reservations, t, o, tenantId, orderId);
  }

  /** In every run an order holds stock if and only if some reserve command of it was granted and no release came after. */
  lemma {:induction false} HoldsExactlyWhenGrantedSinceRelease(initial: map<StockKey, int>, commands: seq<Command>, tenantId: string, orderId: nat)
    requires NonNegative(initial)
    ensures ActiveLines(ApplyAll(initial, commands).reservations, tenantId, orderId) != []
            <==> GrantedSinceRelease(initial, commands, tenantId, orderId)
  {
    if commands != [] {
      var init, c := commands[..|commands| - 1], commands[|commands| - 1];
      var shelf := ApplyAll(initial, init);
      HoldsExactlyWhenGrantedSinceRelease(initial, init, tenantId, orderId);
      assert commands == init + [c];
      GrantedSinceSnoc(initial, init, c, tenantId, orderId);
      RunKeepsTables(initial, init);
      HoldsAfterCommand(shelf, c, tenantId, orderId);
    }
  }

  lemma HoldsAfterCommand(shelf: Shelf, c: Command, tenantId: string, orderId: nat)
    requires WellKept(shelf)
    ensures
      ActiveLines(Apply(shelf, c).reservations, tenantId, orderId) != []
      <==> if IsReleaseOf(c, tenantId, orderId) then false
           else ActiveLines(shelf.reservations, tenantId, orderId) != []
                || (IsReserveOf(c, tenantId, orderId) && Reserve(shelf, tenantId, orderId, c.items).1 == Ok(true))
  {
    if c.tenantId != tenantId || c.orderId != orderId {
      OthersHoldTheSame(shelf, c, tenantId, orderId);
    } else if c.ReserveCommand? {
      HoldsAfterReserve(shelf, tenantId, orderId, c.items);
    } else {
      ClosedActive(shelf.reservations, tenantId, orderId, tenantId, orderId);
    }
  }

  // ----- Promises -----

  datatype OrderKey = OrderKey(tenantId: string, orderId: nat)

  /** What these orders hold of an item. */
  function Promised(reservations: seq<Reservation>, orders: seq<OrderKey>, key: StockKey): int {
    if orders == [] then 0
    else
      var last := orders[|orders| - 1];
      Promised(reservations, orders[..|orders| - 1], key)
      + Share(last.tenantId, ActiveLines(reservations, last.tenantId, last.orderId), key)
  }

  lemma {:induction false} PromisedSnoc(init: seq<Reservation>, last: Reservation, orders: seq<OrderKey>, key: StockKey)
    requires Distinct(orders)
    ensures Promised(init + [last], orders, key)
            == Promised(init, orders, key)
               + if last.active && OrderKey(last.tenantId, last.orderId) in orders && last.tenantId == key.tenantId && last.itemId == key.itemId
                 then last.qty else 0
  {
    if orders != [] {
      var o := orders[|orders| - 1];
      PromisedSnoc(init, last, orders[..|orders| - 1], key);
      assert (init + [last])[..|init|] == init;
      LastLine(ActiveLines(init, o.tenantId, o.orderId), Line(last.itemId, last.qty), key.itemId);
      assert orders == orders[..|orders| - 1] + [o];
      assert o !in orders[..|orders| - 1];
    }
  }

  lemma {:induction false} PromisedNothing(orders: seq<OrderKey>, key: StockKey)
    ensures Promised([], orders, key) == 0
  {
    if orders != [] {
      PromisedNothing(orders[..|orders| - 1], key);
    }
  }

  lemma {:induction false} PromisesAreHeld(reservations: seq<Reservation>, orders: seq<OrderKey>, key: StockKey)
    requires Distinct(orders) && forall r <- reservations :: r.active ==> r.qty > 0
    ensures Promised(reservations, orders, key) <= Held(reservations, key)
  {
    if reservations == [] {
      PromisedNothing(orders, key);
    } else {
      var init, last := reservations[..|reservations| - 1], reservations[|reservations| - 1];
      PromisesAreHeld(init, orders, key);
      PromisedSnoc(init, last, orders, key);
      assert reservations == init + [last];
    }
  }

  /** No overselling: any distinct orders together never hold more of an item than there was. */
  lemma NothingIsPromisedTwice(initial: map<StockKey, int>, commands: seq<Command>, orders: seq<OrderKey>, key: StockKey)
    requires NonNegative(initial) && key in initial && Distinct(orders)
    ensures Promised(ApplyAll(initial, commands).reservations, orders, key) <= initial[key]
  {
    UnitsAreConserved(initial, commands, key);
    RunKeepsTables(initial, commands);
    PromisesAreHeld(ApplyAll(initial, commands).reservations, orders, key);
  }
}
