/**
 The inventory service: stock per tenant and item, reservations per order, and the handlers that reserve and release.
 Each handler is one transaction; the lock around it is in WithLocks.
 */
module Inventory {
  import opened Results
  import opened Sequences
  import opened Orders

  datatype StockKey = StockKey(tenantId: string, itemId: nat)

  datatype Reservation = Reservation(tenantId: string, orderId: nat, itemId: nat, qty: int, active: bool)

  /** Both tables. A reservation's id is its place in the sequence. */
  datatype Shelf = Shelf(stock: map<StockKey, int>, reservations: seq<Reservation>)

  datatype ReserveError = InvalidReserveRequest | IdempotencyConflict

  // ----- Requests -----

  function QtyOf(lines: seq<Line>, itemId: nat): int {
    if lines == [] then 0
    else
      var last := lines[|lines| - 1];
      QtyOf(lines[..|lines| - 1], itemId) + if last.itemId == itemId then last.qty else 0
  }

  // One more request line: quantities of the same item add up, and the lines stay in item order.
  function Merge(lines: seq<Line>, line: Line): seq<Line> {
    if lines == [] then [line]
    else if line.itemId < lines[0].itemId then [line] + lines
    else if line.itemId == lines[0].itemId then [Line(line.itemId, lines[0].qty + line.qty)] + lines[1..]
    else [lines[0]] + Merge(lines[1..], line)
  }

  function Merged(items: seq<Line>): seq<Line> {
    if items == [] then [] else Merge(Merged(items[..|items| - 1]), items[|items| - 1])
  }

  predicate Valid(items: seq<Line>) {
    items != [] && forall i :: 0 <= i < |items| ==> items[i].qty > 0
  }

  predicate Increasing(lines: seq<Line>) {
    forall i, j :: 0 <= i < j < |lines| ==> lines[i].itemId < lines[j].itemId
  }

  predicate Positive(lines: seq<Line>) {
    forall i :: 0 <= i < |lines| ==> lines[i].qty > 0
  }

  method NormalizeItems(items: seq<Line>) returns (r: Result<seq<Line>, ReserveError>)
    ensures r == if Valid(items) then Ok(Merged(items)) else Err(InvalidReserveRequest)
  {
    if items == [] {
      return Err(InvalidReserveRequest);
    }
    var lines: seq<Line> := [];
    for i := 0 to |items|
      invariant forall k :: 0 <= k < i ==> items[k].qty > 0
      invariant lines == Merged(items[..i])
    {
      if items[i].qty <= 0 {
        return Err(InvalidReserveRequest);
      }
      assert items[..i + 1][..i] == items[..i];
      lines := Merge(lines, items[i]);
    }
    assert items[..|items|] == items;
    return Ok(lines);
  }

  lemma QtyOfConcat(lines: seq<Line>, more: seq<Line>, itemId: nat)
    ensures QtyOf(lines + more, itemId) == QtyOf(lines, itemId) + QtyOf(more, itemId)
  {
    if more == [] {
      assert lines + more == lines;
    } else {
      assert (lines + more)[..|lines + more| - 1] == lines + more[..|more| - 1];
      QtyOfConcat(lines, more[..|more| - 1], itemId);
    }
  }

  lemma {:induction false} MergeIsSorted(lines: seq<Line>, line: Line)
    requires Increasing(lines) && Positive(lines) && line.qty > 0
    ensures var r := Merge(lines, line);
            && Increasing(r) && Positive(r) && r != []
            && (forall i :: 0 <= i < |r| ==> r[i].itemId == line.itemId || exists j :: 0 <= j < |lines| && lines[j].itemId == r[i].itemId)
  {
    if lines != [] && line.itemId > lines[0].itemId {
      MergeIsSorted(lines[1..], line);
      var r := Merge(lines[1..], line);
      forall i | 0 <= i < |r| ensures lines[0].itemId < r[i].itemId {
      }
    }
  }

  lemma {:induction false} MergeAddsUp(lines: seq<Line>, line: Line, itemId: nat)
    ensures QtyOf(Merge(lines, line), itemId) == QtyOf(lines, itemId) + if line.itemId == itemId then line.qty else 0
  {
    if lines == [] {
      assert [line][..0] == [];
    } else {
      assert lines == [lines[0]] + lines[1..];
      QtyOfConcat([lines[0]], lines[1..], itemId);
      QtyOfConcat([line], lines, itemId);
      QtyOfConcat([Line(line.itemId, lines[0].qty + line.qty)], lines[1..], itemId);
      QtyOfConcat([lines[0]], Merge(lines[1..], line), itemId);
      if line.itemId > lines[0].itemId {
        MergeAddsUp(lines[1..], line, itemId);
      }
    }
  }

  /** A normalised request asks for exactly what the request asked for. */
  lemma {:induction false} NormalizedAsksTheSame(items: seq<Line>, itemId: nat)
    ensures QtyOf(Merged(items), itemId) == QtyOf(items, itemId)
  {
    if items != [] {
      NormalizedAsksTheSame(items[..|items| - 1], itemId);
      MergeAddsUp(Merged(items[..|items| - 1]), items[|items| - 1], itemId);
    }
  }

  /** A normalised request is sorted and names every item once. */
  lemma {:induction false} NormalizedIsSorted(items: seq<Line>)
    requires forall i :: 0 <= i < |items| ==> items[i].qty > 0
    ensures Increasing(Merged(items)) && Positive(Merged(items)) && (items != [] ==> Merged(items) != [])
  {
    if items != [] {
      NormalizedIsSorted(items[..|items| - 1]);
      MergeIsSorted(Merged(items[..|items| - 1]), items[|items| - 1]);
    }
  }

  // ----- The tables -----

  predicate Belongs(r: Reservation, tenantId: string, orderId: nat) {
    r.active && r.tenantId == tenantId && r.orderId == orderId
  }

  function ActiveLines(reservations: seq<Reservation>, tenantId: string, orderId: nat): seq<Line> {
    if reservations == [] then []
    else
      var last := reservations[|reservations| - 1];
      SnocIf(ActiveLines(reservations[..|reservations| - 1], tenantId, orderId), Belongs(last, tenantId, orderId), Line(last.itemId, last.qty))
  }

  /** The units of an item that active reservations hold. */
  function Held(reservations: seq<Reservation>, key: StockKey): int {
    if reservations == [] then 0
    else
      var last := reservations[|reservations| - 1];
      Held(reservations[..|reservations| - 1], key)
      + if last.active && last.tenantId == key.tenantId && last.itemId == key.itemId then last.qty else 0
  }

  // The Map of existing lines by item: a later line replaces an earlier one.
  function ExistingQty(existing: seq<Line>, itemId: nat): Option<int> {
    if existing == [] then None
    else if existing[|existing| - 1].itemId == itemId then Some(existing[|existing| - 1].qty)
    else ExistingQty(existing[..|existing| - 1], itemId)
  }

  predicate ReplayMatches(existing: seq<Line>, requested: seq<Line>) {
    |existing| == |requested| && forall i :: 0 <= i < |requested| ==> ExistingQty(existing, requested[i].itemId) == Some(requested[i].qty)
  }

  predicate Available(stock: map<StockKey, int>, tenantId: string, line: Line) {
    StockKey(tenantId, line.itemId) in stock && stock[StockKey(tenantId, line.itemId)] >= line.qty
  }

  predicate AllAvailable(stock: map<StockKey, int>, tenantId: string, lines: seq<Line>) {
    forall i :: 0 <= i < |lines| ==> Available(stock, tenantId, lines[i])
  }

  function Added(stock: map<StockKey, int>, key: StockKey, units: int): map<StockKey, int> {
    if key in stock then stock[key := stock[key] + units] else stock
  }

  function Taken(stock: map<StockKey, int>, tenantId: string, lines: seq<Line>): map<StockKey, int> {
    if lines == [] then stock
    else
      var last := lines[|lines| - 1];
      Added(Taken(stock, tenantId, lines[..|lines| - 1]), StockKey(tenantId, last.itemId), -last.qty)
  }

  function RowsFor(tenantId: string, orderId: nat, lines: seq<Line>): seq<Reservation> {
    if lines == [] then []
    else
      var last := lines[|lines| - 1];
      RowsFor(tenantId, orderId, lines[..|lines| - 1]) + [Reservation(tenantId, orderId, last.itemId, last.qty, true)]
  }

  /** The reserve handler: a replay is accepted if it asks for what the order holds, otherwise all lines or none. */
  function Reserve(shelf: Shelf, tenantId: string, orderId: nat, items: seq<Line>): (Shelf, Result<bool, ReserveError>) {
    if !Valid(items) then (shelf, Err(InvalidReserveRequest))
    else
      var lines, existing := Merged(items), ActiveLines(shelf.reservations, tenantId, orderId);
      if existing != [] then (shelf, if ReplayMatches(existing, lines) then Ok(true) else Err(IdempotencyConflict))
      else if !AllAvailable(shelf.stock, tenantId, lines) then (shelf, Ok(false))
      else (Shelf(Taken(shelf.stock, tenantId, lines), shelf.reservations + RowsFor(tenantId, orderId, lines)), Ok(true))
  }

  function Closed(reservations: seq<Reservation>, tenantId: string, orderId: nat): seq<Reservation> {
    if reservations == [] then []
    else
      var last := reservations[|reservations| - 1];
      Closed(reservations[..|reservations| - 1], tenantId, orderId)
      + [ClosedRow(last, tenantId, orderId)]
  }

  function Returned(stock: map<StockKey, int>, reservations: seq<Reservation>, tenantId: string, orderId: nat): map<StockKey, int> {
    if reservations == [] then stock
    else
      var last := reservations[|reservations| - 1];
      var before := Returned(stock, reservations[..|reservations| - 1], tenantId, orderId);
      if Belongs(last, tenantId, orderId) then Added(before, StockKey(tenantId, last.itemId), last.qty) else before
  }

  /** The release handler: every active reservation of the order is closed and its units go back. */
  function Release(shelf: Shelf, tenantId: string, orderId: nat): Shelf {
    Shelf(Returned(shelf.stock, shelf.reservations, tenantId, orderId), Closed(shelf.reservations, tenantId, orderId))
  }

  // ----- The handlers -----

  class InventoryTables {
    var stock: map<StockKey, int>
    var reservations: seq<Reservation>

    function Current(): Shelf
      reads this
    {
      Shelf(stock, reservations)
    }

    constructor (initial: map<StockKey, int>)
      ensures Current() == Shelf(initial, [])
    {
      stock, reservations := initial, [];
    }

    method FindActiveByOrder(tenantId: string, orderId: nat) returns (lines: seq<Line>)
      ensures lines == ActiveLines(reservations, tenantId, orderId)
    {
      lines := [];
      for i := 0 to |reservations|
        invariant lines == ActiveLines(reservations[..i], tenantId, orderId)
      {
        assert reservations[..i + 1][..i] == reservations[..i];
        var row := reservations[i];
        if Belongs(row, tenantId, orderId) {
          lines := lines + [Line(row.itemId, row.qty)];
        }
      }
      assert reservations[..|reservations|] == reservations;
    }

    method DecrementIfAvailable(tenantId: string, line: Line) returns (ok: bool)
      modifies this`stock
      ensures ok <==> Available(old(stock), tenantId, line)
      ensures stock == if ok then Added(old(stock), StockKey(tenantId, line.itemId), -line.qty) else old(stock)
    {
      var key := StockKey(tenantId, line.itemId);
      if key !in stock || stock[key] < line.qty {
        return false;
      }
      stock := stock[key := stock[key] - line.qty];
      return true;
    }

    method ReserveStock(tenantId: string, orderId: nat, items: seq<Line>) returns (r: Result<bool, ReserveError>)
      modifies this
      ensures (Current(), r) == Reserve(old(Current()), tenantId, orderId, items)
    {
      var normalized := NormalizeItems(items);
      if normalized.Err? {
        return Err(normalized.error);
      }
      var lines := normalized.value;
      var existing := FindActiveByOrder(tenantId, orderId);
      if existing != [] {
        if ReplayMatches(existing, lines) {
          return Ok(true);
        }
        return Err(IdempotencyConflict);
      }
      NormalizedIsSorted(items);
      var granted := TakeAll(tenantId, orderId, lines);
      return Ok(granted);
    }

    // All lines, or none: a line that is short rolls everything back.
    method TakeAll(tenantId: string, orderId: nat, lines: seq<Line>) returns (granted: bool)
      requires Increasing(lines)
      modifies this
      ensures granted <==> AllAvailable(old(stock), tenantId, lines)
      ensures Current() == if granted then Shelf(Taken(old(stock), tenantId, lines), old(reservations) + RowsFor(tenantId, orderId, lines))
                           else old(Current())
    {
      var before := (stock, reservations);
      for i := 0 to |lines|
        invariant stock == Taken(before.0, tenantId, lines[..i])
        invariant reservations == before.1 + RowsFor(tenantId, orderId, lines[..i])
        invariant AllAvailable(before.0, tenantId, lines[..i])
      {
        assert lines[..i + 1][..i] == lines[..i];
        OthersUntouched(before.0, tenantId, lines[..i], lines[i]);
        var ok := DecrementIfAvailable(tenantId, lines[i]);
        if !ok {
          stock, reservations := before.0, before.1;
          assert !Available(before.0, tenantId, lines[i]);
          return false;
        }
        reservations := reservations + [Reservation(tenantId, orderId, lines[i].itemId, lines[i].qty, true)];
      }
      assert lines[..|lines|] == lines;
      return true;
    }

    method ReleaseStock(tenantId: string, orderId: nat)
      modifies this
      ensures Current() == Release(old(Current()), tenantId, orderId)
    {
      var before := reservations;
      for i := 0 to |before|
        invariant reservations == Closed(before[..i], tenantId, orderId) + before[i..]
        invariant stock == Returned(old(stock), before[..i], tenantId, orderId)
      {
        ClosedSnoc(before, i, tenantId, orderId);
        var row := reservations[i];
        if Belongs(row, tenantId, orderId) {
          reservations := reservations[i := row.(active := false)];
          var key := StockKey(tenantId, row.itemId);
          if key in stock {
            stock := stock[key := stock[key] + row.qty];
          }
        }
      }
      assert before[..|before|] == before;
    }
  }

  function ClosedRow(row: Reservation, tenantId: string, orderId: nat): Reservation {
    if Belongs(row, tenantId, orderId) then row.(active := false) else row
  }

  // One row further through the table.
  lemma ClosedSnoc(rows: seq<Reservation>, i: nat, tenantId: string, orderId: nat)
    requires i < |rows|
    ensures |Closed(rows[..i], tenantId, orderId)| == i
    ensures rows[..i + 1][..i] == rows[..i] && (Closed(rows[..i], tenantId, orderId) + rows[i..])[i] == rows[i]
    ensures (Closed(rows[..i], tenantId, orderId) + rows[i..])[i := ClosedRow(rows[i], tenantId, orderId)]
            == Closed(rows[..i + 1], tenantId, orderId) + rows[i + 1..]
  {
    ClosedLength(rows[..i], tenantId, orderId);
    assert rows[..i + 1][..i] == rows[..i];
    assert rows[i..] == [rows[i]] + rows[i + 1..];
  }

  lemma {:induction false} ClosedLength(rows: seq<Reservation>, tenantId: string, orderId: nat)
    ensures |Closed(rows, tenantId, orderId)| == |rows|
  {
    if rows != [] {
      ClosedLength(rows[..|rows| - 1], tenantId, orderId);
    }
  }

  // Taking other items does not change what is available of this one.
  lemma {:induction false} OthersUntouched(stock: map<StockKey, int>, tenantId: string, lines: seq<Line>, line: Line)
    requires forall i :: 0 <= i < |lines| ==> lines[i].itemId != line.itemId
    ensures Available(Taken(stock, tenantId, lines), tenantId, line) <==> Available(stock, tenantId, line)
  {
    if lines != [] {
      OthersUntouched(stock, tenantId, lines[..|lines| - 1], line);
    }
  }
}
