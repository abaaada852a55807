/**
 Order pricing: the line totals of order-item.ts and the subtotal, VAT and total of `Order.create`.

 The program computes with ECMAScript numbers, so every arithmetic operation is written as an exact
 operation followed by a rounding `rnd`. Beside it stands the price in whole cents, the reference the
 computed price is compared with.
 */
module Pricing {
  import opened Results

  const MAX_MONEY_CENTS: int := 2_147_483_647

  // 2^53: up to it every integer is a double.
  const SAFE: int := 0x20_0000_0000_0000

  datatype PricingError =
    | NotAPositiveInteger
    | NotANonNegativeInteger
    | LineTotalTooLarge
    | NoItems
    | RestaurantMissing
    | InputTooLarge
    | SubtotalTooLarge
    | VatTooLarge
    | TotalTooLarge

  datatype ItemRequest = ItemRequest(itemId: string, qty: real, unitPriceCents: real)
  datatype OrderItem = OrderItem(itemId: string, qty: int, unitPriceCents: int, lineTotalCents: real)

  // The settings as read, and as integers once checked.
  datatype PricingInput = PricingInput(deliveryFeeCents: real, vatRateBps: real, discountCents: real)
  datatype Rates = Rates(fee: int, vatRate: int, discount: int)

  datatype Price<T> = Price(subtotalCents: T, vatCents: T, totalCents: T)

  function Num(n: int): real {
    n as real
  }

  /** What pricing needs of section 6.1.6.1 of ECMA-262: rounding to a double is monotone, leaves safe
      integers alone and is off by at most one part in 2^53. */
  ghost predicate IsDoubleRounding(rnd: real -> real) {
    && (forall x, y :: x <= y ==> rnd(x) <= rnd(y))
    && (forall n :: -SAFE <= n <= SAFE ==> rnd(Num(n)) == Num(n))
    && (forall x :: 0.0 <= x ==> rnd(x) <= x + x / 9007199254740992.0)
  }

  predicate IsInteger(x: real) {
    Num(x.Floor) == x
  }

  // OrderItem.create
  function CreateItem(rnd: real -> real, request: ItemRequest): Result<OrderItem, PricingError> {
    if !IsInteger(request.qty) || request.qty <= 0.0 then Err(NotAPositiveInteger)
    else if !IsInteger(request.unitPriceCents) || request.unitPriceCents < 0.0 then Err(NotANonNegativeInteger)
    else
      var qty, unitPrice := request.qty.Floor, request.unitPriceCents.Floor;
      var lineTotal := rnd(Num(qty * unitPrice));
      if lineTotal > Num(MAX_MONEY_CENTS) then Err(LineTotalTooLarge)
      else Ok(OrderItem(request.itemId, qty, unitPrice, lineTotal))
  }

  function CheckInput(value: real): Result<int, PricingError> {
    if !IsInteger(value) || value < 0.0 then Err(NotANonNegativeInteger)
    else if value > Num(MAX_MONEY_CENTS) then Err(InputTooLarge)
    else Ok(value.Floor)
  }

  predicate Payable(rates: Rates) {
    && 0 <= rates.fee <= MAX_MONEY_CENTS
    && 0 <= rates.vatRate <= MAX_MONEY_CENTS
    && 0 <= rates.discount <= MAX_MONEY_CENTS
  }

  function CheckInputs(pricing: PricingInput): (r: Result<Rates, PricingError>)
    ensures r.Ok? ==> Payable(r.value)
  {
    match CheckInput(pricing.deliveryFeeCents)
    case Err(e) => Err(e)
    case Ok(fee) =>
      match CheckInput(pricing.vatRateBps)
      case Err(e) => Err(e)
      case Ok(vatRate) =>
        match CheckInput(pricing.discountCents)
        case Err(e) => Err(e)
        case Ok(discount) => Ok(Rates(fee, vatRate, discount))
  }

  // The reduce over the items, left to right from zero.
  function Subtotal(rnd: real -> real, items: seq<OrderItem>): real {
    if |items| == 0 then 0.0
    else rnd(Subtotal(rnd, items[..|items| - 1]) + items[|items| - 1].lineTotalCents)
  }

  function Vat(rnd: real -> real, subtotal: real, vatRate: int): real {
    Num(rnd(rnd(subtotal * Num(vatRate)) / 10000.0).Floor)
  }

  function Total(rnd: real -> real, subtotal: real, vat: real, rates: Rates): real {
    var sum := rnd(rnd(rnd(subtotal + Num(rates.fee)) + vat) - Num(rates.discount));
    if sum < 0.0 then 0.0 else sum
  }

  // The pricing part of Order.create.
  function PriceOrder(rnd: real -> real, restaurantId: string, items: seq<OrderItem>, pricing: PricingInput)
    : Result<Price<real>, PricingError>
  {
    if |items| == 0 then Err(NoItems)
    else if restaurantId == "" then Err(RestaurantMissing)
    else
      match CheckInputs(pricing)
      case Err(e) => Err(e)
      case Ok(rates) =>
        var subtotal := Subtotal(rnd, items);
        var vat := Vat(rnd, subtotal, rates.vatRate);
        var total := Total(rnd, subtotal, vat, rates);
        CheckAmounts(subtotal, vat, total)
  }

  function CheckAmounts(subtotal: real, vat: real, total: real): Result<Price<real>, PricingError> {
    if subtotal > Num(MAX_MONEY_CENTS) then Err(SubtotalTooLarge)
    else if vat > Num(MAX_MONEY_CENTS) then Err(VatTooLarge)
    else if total > Num(MAX_MONEY_CENTS) then Err(TotalTooLarge)
    else Ok(Price(subtotal, vat, total))
  }

  // ----- The reference: whole cents -----

  function SubtotalInCents(items: seq<OrderItem>): int {
    if |items| == 0 then 0
    else SubtotalInCents(items[..|items| - 1]) + items[|items| - 1].qty * items[|items| - 1].unitPriceCents
  }

  /** The price of a subtotal in whole cents: VAT rounded down, a total never below zero, nothing above the limit. */
  function PriceInCents(subtotal: int, rates: Rates): Result<Price<int>, PricingError> {
    PriceWithVat(subtotal, subtotal * rates.vatRate / 10000, rates)
  }

  function PriceWithVat(subtotal: int, vat: int, rates: Rates): Result<Price<int>, PricingError> {
    var sum := subtotal + rates.fee + vat - rates.discount;
    if subtotal > MAX_MONEY_CENTS then Err(SubtotalTooLarge)
    else if vat > MAX_MONEY_CENTS then Err(VatTooLarge)
    else if sum > MAX_MONEY_CENTS then Err(TotalTooLarge)
    else Ok(Price(subtotal, vat, if sum < 0 then 0 else sum))
  }

  function Numbers(r: Result<Price<int>, PricingError>): Result<Price<real>, PricingError> {
    match r
    case Err(e) => Err(e)
    case Ok(p) => Ok(Price(Num(p.subtotalCents), Num(p.vatCents), Num(p.totalCents)))
  }

  /** Every item was accepted by `CreateItem`. */
  ghost predicate MadeBy(rnd: real -> real, items: seq<OrderItem>) {
    forall i :: 0 <= i < |items| ==>
      CreateItem(rnd, ItemRequest(items[i].itemId, Num(items[i].qty), Num(items[i].unitPriceCents))) == Ok(items[i])
  }

  /** A computed number is the integer `n`, or both are beyond the safe integers. */
  ghost predicate Computes(x: real, n: int) {
    x == Num(n) || (x >= Num(SAFE) && n >= SAFE)
  }

  lemma RoundInteger(rnd: real -> real, n: int)
    requires IsDoubleRounding(rnd) && -SAFE <= n
    ensures Computes(rnd(Num(n)), n)
  {
    if n > SAFE {
      assert rnd(Num(SAFE)) <= rnd(Num(n));
    }
  }

  /** `OrderItem.create` accepts a request exactly when quantity and price are whole, in range and their true
      product is payable, and it then stores the true product. */
  lemma LineTotalIsExact(rnd: real -> real, request: ItemRequest)
    requires IsDoubleRounding(rnd)
    ensures var qty, price := request.qty.Floor, request.unitPriceCents.Floor;
            var accepted := IsInteger(request.qty) && qty > 0 && IsInteger(request.unitPriceCents) && price >= 0
                            && qty * price <= MAX_MONEY_CENTS;
            && (CreateItem(rnd, request).Ok? <==> accepted)
            && (accepted ==> CreateItem(rnd, request).value
                             == OrderItem(request.itemId, qty, price, Num(qty * price)))
  {
    var qty, price := request.qty.Floor, request.unitPriceCents.Floor;
    if qty > 0 && price >= 0 {
      assert 0 <= qty * price;
      RoundInteger(rnd, qty * price);
    }
  }

  lemma ItemIsExact(rnd: real -> real, items: seq<OrderItem>, i: nat)
    requires IsDoubleRounding(rnd) && MadeBy(rnd, items) && i < |items|
    ensures 0 <= items[i].qty * items[i].unitPriceCents
    ensures items[i].lineTotalCents == Num(items[i].qty * items[i].unitPriceCents)
  {
    var item := items[i];
    LineTotalIsExact(rnd, ItemRequest(item.itemId, Num(item.qty), Num(item.unitPriceCents)));
    assert item.qty > 0 && item.unitPriceCents >= 0;
  }

  /** Folding doubles gives the true sum unless both leave the safe integers: the partial sums never come back. */
  lemma {:induction false} SubtotalIsExact(rnd: real -> real, items: seq<OrderItem>)
    requires IsDoubleRounding(rnd) && MadeBy(rnd, items)
    ensures 0 <= SubtotalInCents(items) && Computes(Subtotal(rnd, items), SubtotalInCents(items))
  {
    if |items| > 0 {
      var init, last := items[..|items| - 1], items[|items| - 1];
      SubtotalIsExact(rnd, init);
      ItemIsExact(rnd, items, |items| - 1);
      var d, e, line := Subtotal(rnd, init), SubtotalInCents(init), last.qty * last.unitPriceCents;
      if d == Num(e) {
        assert d + last.lineTotalCents == Num(e + line);
        RoundInteger(rnd, e + line);
      } else {
        assert rnd(Num(SAFE)) <= rnd(d + last.lineTotalCents);
      }
    }
  }

  lemma FloorOfQuotient(p: int)
    requires 0 <= p
    ensures (Num(p) / 10000.0).Floor == p / 10000
  {
    var n := p / 10000;
    assert 10000 * n <= p < 10000 * (n + 1);
    assert Num(10000 * n) == 10000.0 * Num(n);
  }

  // Far above any quotient of payable amounts, and far below where rounding reaches the next ten-thousandth.
  const MODEST: int := 100_000_000_000_000

  /** Rounding a quotient of modest size by 10000 does not reach the next integer. */
  lemma RoundedQuotient(rnd: real -> real, p: int)
    requires IsDoubleRounding(rnd) && 0 <= p < MODEST
    ensures rnd(Num(p) / 10000.0).Floor == p / 10000
  {
    var q, n := Num(p) / 10000.0, p / 10000;
    FloorOfQuotient(p);
    assert Num(n) <= q;
    assert rnd(Num(n)) <= rnd(q);
    assert p <= 10000 * (n + 1) - 1;
    assert Num(p) <= Num(10000 * (n + 1) - 1) == 10000.0 * Num(n + 1) - 1.0;
    assert q <= Num(n + 1) - 0.0001;
    assert rnd(q) <= q + q / 9007199254740992.0;
    assert q < 10000000000.0;
  }

  lemma QuotientIsExact(rnd: real -> real, p: int)
    requires IsDoubleRounding(rnd) && 0 <= p
    ensures var computed := rnd(rnd(Num(p)) / 10000.0).Floor;
            computed == p / 10000 || (computed > MAX_MONEY_CENTS && p / 10000 > MAX_MONEY_CENTS)
  {
    RoundInteger(rnd, p);
    var limit := MAX_MONEY_CENTS + 1;
    if p < 10000 * limit {
      RoundedQuotient(rnd, p);
    } else {
      assert rnd(Num(10000 * limit)) <= rnd(Num(p));
      assert Num(limit) <= rnd(Num(p)) / 10000.0;
      assert rnd(Num(limit)) <= rnd(rnd(Num(p)) / 10000.0);
    }
  }

  lemma NumProduct(x: int, y: int)
    ensures Num(x) * Num(y) == Num(x * y)
    ensures 0 <= x && 0 <= y ==> 0 <= x * y
  {
  }

  /** The VAT of a payable subtotal is the true one, or it is refused as the true one would be. */
  lemma VatIsExact(rnd: real -> real, subtotal: int, vatRate: int)
    requires IsDoubleRounding(rnd)
    requires 0 <= subtotal && 0 <= vatRate
    ensures var computed, exact := Vat(rnd, Num(subtotal), vatRate), subtotal * vatRate / 10000;
            computed == Num(exact) || (computed > Num(MAX_MONEY_CENTS) && exact > MAX_MONEY_CENTS)
  {
    NumProduct(subtotal, vatRate);
    QuotientIsExact(rnd, subtotal * vatRate);
  }

  lemma TotalIsExact(rnd: real -> real, subtotal: int, vat: int, rates: Rates)
    requires IsDoubleRounding(rnd)
    requires 0 <= subtotal <= MAX_MONEY_CENTS && 0 <= vat <= MAX_MONEY_CENTS && Payable(rates)
    ensures var sum := subtotal + rates.fee + vat - rates.discount;
            Total(rnd, Num(subtotal), Num(vat), rates) == Num(if sum < 0 then 0 else sum)
  {
    var a := subtotal + rates.fee;
    assert Num(subtotal) + Num(rates.fee) == Num(a) == rnd(Num(a));
    assert Num(a) + Num(vat) == Num(a + vat) == rnd(Num(a + vat));
    assert Num(a + vat) - Num(rates.discount) == Num(a + vat - rates.discount) == rnd(Num(a + vat - rates.discount));
  }

  /** Pricing with doubles accepts the same orders as pricing in whole cents, refuses the others with the same
      error, and computes the same amounts. */
  lemma PricingIsExact(rnd: real -> real, restaurantId: string, items: seq<OrderItem>, pricing: PricingInput)
    requires IsDoubleRounding(rnd) && MadeBy(rnd, items)
    requires items != [] && restaurantId != "" && CheckInputs(pricing).Ok?
    ensures PriceOrder(rnd, restaurantId, items, pricing)
            == Numbers(PriceInCents(SubtotalInCents(items), CheckInputs(pricing).value))
  {
    SubtotalIsExact(rnd, items);
    PriceOfSubtotal(rnd, restaurantId, items, pricing, SubtotalInCents(items));
  }

  lemma PriceOfSubtotal(rnd: real -> real, restaurantId: string, items: seq<OrderItem>, pricing: PricingInput, subtotal: int)
    requires IsDoubleRounding(rnd)
    requires 0 <= subtotal && Computes(Subtotal(rnd, items), subtotal)
    requires items != [] && restaurantId != "" && CheckInputs(pricing).Ok?
    ensures PriceOrder(rnd, restaurantId, items, pricing) == Numbers(PriceInCents(subtotal, CheckInputs(pricing).value))
  {
    var rates := CheckInputs(pricing).value;
    var computed := Subtotal(rnd, items);
    if computed == Num(subtotal) {
      VatIsExact(rnd, subtotal, rates.vatRate);
      NumProduct(subtotal, rates.vatRate);
      AmountsMatch(rnd, subtotal, Vat(rnd, computed, rates.vatRate), subtotal * rates.vatRate / 10000, rates);
    }
  }

  lemma AmountsMatch(rnd: real -> real, subtotal: int, computedVat: real, vat: int, rates: Rates)
    requires IsDoubleRounding(rnd) && 0 <= subtotal && 0 <= vat && Payable(rates)
    requires computedVat == Num(vat) || (computedVat > Num(MAX_MONEY_CENTS) && vat > MAX_MONEY_CENTS)
    ensures CheckAmounts(Num(subtotal), computedVat, Total(rnd, Num(subtotal), computedVat, rates))
            == Numbers(PriceWithVat(subtotal, vat, rates))
  {
    if subtotal <= MAX_MONEY_CENTS && vat <= MAX_MONEY_CENTS {
      TotalIsExact(rnd, subtotal, vat, rates);
    }
  }

  /** Every amount of an accepted order lies in the money range, and the total is zero exactly when the discount
      covers everything else. */
  lemma AcceptedAmounts(subtotal: int, rates: Rates)
    requires 0 <= subtotal && Payable(rates)
    requires PriceInCents(subtotal, rates).Ok?
    ensures var p := PriceInCents(subtotal, rates).value;
            && 0 <= p.subtotalCents <= MAX_MONEY_CENTS
            && 0 <= p.vatCents <= MAX_MONEY_CENTS
            && 0 <= p.totalCents <= MAX_MONEY_CENTS
            && (p.totalCents == 0 <==> p.subtotalCents + rates.fee + p.vatCents <= rates.discount)
            && 10000 * p.vatCents <= p.subtotalCents * rates.vatRate < 10000 * (p.vatCents + 1)
  {
    assert 0 <= subtotal * rates.vatRate;
  }

  // ----- The order's price from its parts -----

  /** The reference subtotal is the sum it should be: of one item its quantity times its price, of two lists the sum of theirs. */
  lemma {:induction false} CentsAddUp(items: seq<OrderItem>, more: seq<OrderItem>)
    ensures SubtotalInCents(items + more) == SubtotalInCents(items) + SubtotalInCents(more)
    ensures |more| == 1 ==> SubtotalInCents(more) == more[0].qty * more[0].unitPriceCents
  {
    if more == [] {
      assert items + more == items;
    } else {
      var init, last := more[..|more| - 1], more[|more| - 1];
      CentsAddUp(items, init);
      assert (items + more)[..|items + more| - 1] == items + init;
    }
  }

  // An integer setting: as it is, or refused.
  predicate InMoneyRange(n: int) {
    0 <= n <= 2_147_483_647
  }

  lemma IntegerInput(n: int)
    ensures CheckInput(Num(n)) == if n < 0 then Err(NotANonNegativeInteger)
                                  else if n > 2_147_483_647 then Err(InputTooLarge) else Ok(n)
  {
  }

  lemma InputsRead(fee: int, rate: int, discount: int)
    ensures CheckInputs(PricingInput(Num(fee), Num(rate), Num(discount)))
            == if InMoneyRange(fee) && InMoneyRange(rate) && InMoneyRange(discount) then Ok(Rates(fee, rate, discount))
               else if fee < 0 || (InMoneyRange(fee) && rate < 0) || (InMoneyRange(fee) && InMoneyRange(rate) && discount < 0)
               then Err(NotANonNegativeInteger) else Err(InputTooLarge)
  {
    IntegerInput(fee);
    IntegerInput(rate);
    IntegerInput(discount);
  }

  // With everything in place, the price is decided by the three amounts.
  lemma PricedFrom(rnd: real -> real, restaurantId: string, items: seq<OrderItem>, rates: Rates, pricing: PricingInput, subtotal: int, vat: int)
    requires IsDoubleRounding(rnd) && MadeBy(rnd, items) && items != [] && restaurantId != "" && CheckInputs(pricing) == Ok(rates)
    requires subtotal == SubtotalInCents(items) && vat == subtotal * rates.vatRate / 10000
    ensures PriceOrder(rnd, restaurantId, items, pricing) == Numbers(PriceWithVat(subtotal, vat, rates))
  {
    PricingIsExact(rnd, restaurantId, items, pricing);
  }

  // The outcome in whole cents, when everything is in place.
  lemma OrderOutcome(rnd: real -> real, restaurantId: string, items: seq<OrderItem>, fee: int, rate: int, discount: int, subtotal: int, vat: int,
                     r: Result<Price<real>, PricingError>)
    requires IsDoubleRounding(rnd) && MadeBy(rnd, items)
    requires subtotal == SubtotalInCents(items) && vat == subtotal * rate / 10000
    requires r == PriceOrder(rnd, restaurantId, items, PricingInput(Num(fee), Num(rate), Num(discount)))
    ensures items == [] ==> r == Err(NoItems)
    ensures items != [] && restaurantId == "" ==> r == Err(RestaurantMissing)
    ensures items != [] && restaurantId != "" ==>
              r == match CheckInputs(PricingInput(Num(fee), Num(rate), Num(discount)))
                   case Err(e) => Err(e)
                   case Ok(_) => Numbers(PriceWithVat(subtotal, vat, Rates(fee, rate, discount)))
  {
    InputsRead(fee, rate, discount);
    if items != [] && restaurantId != "" && InMoneyRange(fee) && InMoneyRange(rate) && InMoneyRange(discount) {
      PricedFrom(rnd, restaurantId, items, Rates(fee, rate, discount), PricingInput(Num(fee), Num(rate), Num(discount)), subtotal, vat);
    }
  }

  // The same, said of every amount.
  predicate CostsExactly(hasItems: bool, hasRestaurant: bool, fee: int, rate: int, discount: int, subtotal: int, vat: int,
                         r: Result<Price<real>, PricingError>)
  {
    var total := subtotal + fee + vat - discount;
    && (r.Ok? <==>
          && hasItems && hasRestaurant
          && InMoneyRange(fee) && InMoneyRange(rate) && InMoneyRange(discount)
          && subtotal <= 2_147_483_647 && vat <= 2_147_483_647 && total <= 2_147_483_647)
    && (r.Ok? ==> r.value == Price(Num(subtotal), Num(vat), if total < 0 then Num(0) else Num(total)))
    && (r.Err? ==>
          r.error == if !hasItems then NoItems
                     else if !hasRestaurant then RestaurantMissing
                     else if fee < 0 || (InMoneyRange(fee) && rate < 0) || (InMoneyRange(fee) && InMoneyRange(rate) && discount < 0)
                     then NotANonNegativeInteger
                     else if !InMoneyRange(fee) || !InMoneyRange(rate) || !InMoneyRange(discount) then InputTooLarge
                     else if subtotal > 2_147_483_647 then SubtotalTooLarge
                     else if vat > 2_147_483_647 then VatTooLarge
                     else TotalTooLarge)
  }

  lemma CheckedOrderCosts(fee: int, rate: int, discount: int, subtotal: int, vat: int, r: Result<Price<real>, PricingError>)
    requires r == match CheckInputs(PricingInput(Num(fee), Num(rate), Num(discount)))
                  case Err(e) => Err(e)
                  case Ok(_) => Numbers(PriceWithVat(subtotal, vat, Rates(fee, rate, discount)))
    ensures CostsExactly(true, true, fee, rate, discount, subtotal, vat, r)
  {
    InputsRead(fee, rate, discount);
  }

  /** An order is accepted exactly if it has an item and a restaurant, fee, rate and discount are in the money range, and so are
      the subtotal, the VAT rounded down and the total; it then costs subtotal, fee and VAT less the discount, or nothing. What is
      reported otherwise is the first thing wrong: items, restaurant, fee, rate, discount, subtotal, VAT, total. */
  lemma OrderCosts(rnd: real -> real, restaurantId: string, items: seq<OrderItem>, fee: int, rate: int, discount: int, subtotal: int, vat: int,
                   r: Result<Price<real>, PricingError>)
    requires IsDoubleRounding(rnd) && MadeBy(rnd, items)
    requires subtotal == SubtotalInCents(items) && vat == subtotal * rate / 10000
    requires r == PriceOrder(rnd, restaurantId, items, PricingInput(Num(fee), Num(rate), Num(discount)))
    ensures CostsExactly(items != [], restaurantId != "", fee, rate, discount, subtotal, vat, r)
  {
    OrderOutcome(rnd, restaurantId, items, fee, rate, discount, subtotal, vat, r);
    if items != [] && restaurantId != "" {
      CheckedOrderCosts(fee, rate, discount, subtotal, vat, r);
    }
  }

  /** A setting that is not a whole number is refused, whichever of the three it is. */
  lemma FractionsAreRefused(rnd: real -> real, restaurantId: string, items: seq<OrderItem>, pricing: PricingInput)
    ensures PriceOrder(rnd, restaurantId, items, pricing).Ok? ==>
              && pricing.deliveryFeeCents == Num(pricing.deliveryFeeCents.Floor)
              && pricing.vatRateBps == Num(pricing.vatRateBps.Floor)
              && pricing.discountCents == Num(pricing.discountCents.Floor)
  {
  }
}
