/** The seed's search for a subtotal whose order costs a given total, in exact arithmetic and in doubles. */
module PriceSolver {
  import opened Results
  import opened Pricing

  const SEARCH_RADIUS: int := 5

  // The total of a subtotal before it is clamped at zero.
  function TotalOf(candidate: int, fee: int, vatRate: nat, discount: int): int {
    candidate + fee + candidate * vatRate / 10000 - discount
  }

  ghost predicate Solves(candidate: int, target: int, fee: int, vatRate: nat, discount: int) {
    candidate > 0 && TotalOf(candidate, fee, vatRate, discount) == target
  }

  // Math.round: halves go up.
  function RoundedQuotient(n: int, d: int): int
    requires d > 0
  {
    (2 * n + d) / (2 * d)
  }

  function Estimate(target: int, fee: int, vatRate: nat, discount: int): int {
    RoundedQuotient((target - fee + discount) * 10000, 10000 + vatRate)
  }

  lemma VatMonotone(x: int, y: int, vatRate: nat)
    requires x <= y
    ensures x * vatRate / 10000 <= y * vatRate / 10000
  {
    assert x * vatRate <= y * vatRate;
    DivideMonotone(x * vatRate, y * vatRate);
  }

  lemma DivideMonotone(a: int, b: int)
    requires a <= b
    ensures a / 10000 <= b / 10000
  {
  }

  /** At most one subtotal gives a total. */
  lemma SolutionIsUnique(x: int, y: int, target: int, fee: int, vatRate: nat, discount: int)
    requires Solves(x, target, fee, vatRate, discount) && Solves(y, target, fee, vatRate, discount)
    ensures x == y
  {
    if x < y {
      VatMonotone(x, y, vatRate);
    } else {
      VatMonotone(y, x, vatRate);
    }
  }

  lemma RoundingBounds(n: int, d: int)
    requires d > 0
    ensures var r := RoundedQuotient(n, d); 2 * d * r <= 2 * n + d < 2 * d * r + 2 * d
  {
    var m, e := 2 * n + d, 2 * d;
    assert m == e * (m / e) + m % e;
  }

  /** The solution is the rounded estimate or a neighbour of it, so the search window is wide enough. */
  lemma SolutionIsNearEstimate(c: int, target: int, fee: int, vatRate: nat, discount: int)
    requires Solves(c, target, fee, vatRate, discount)
    ensures var approx := Estimate(target, fee, vatRate, discount); approx - 1 <= c <= approx + 1
  {
    var base, d := target - fee + discount, 10000 + vatRate;
    var vat := c * vatRate / 10000;
    assert base == c + vat;
    var n, approx := base * 10000, Estimate(target, fee, vatRate, discount);
    RoundingBounds(n, d);
    // n <= c * d < n + 10000 and 2 * d * approx - d <= 2 * n < 2 * d * approx + d
    assert c * d == c * 10000 + c * vatRate;
    assert 10000 * vat <= c * vatRate < 10000 * vat + 10000;
    assert n <= c * d < n + 10000;
    if c > approx + 1 {
      Scale(approx, 2, c, d);
    } else if c < approx - 1 {
      Scale(c, 2, approx, d);
    }
  }

  lemma Scale(x: int, k: nat, y: int, d: int)
    requires x + k <= y && d > 0
    ensures d * x + d * k <= d * y
  {
    assert d * (x + k) <= d * y;
  }

  /** In exact arithmetic the search finds the one positive subtotal that gives the target, whatever the amounts, and gives up
      exactly when there is none. */
  method SolveExactly(target: int, fee: int, vatRate: nat, discount: int) returns (r: Option<int>)
    ensures r.Some? ==> Solves(r.value, target, fee, vatRate, discount)
    ensures r.None? ==> forall c :: !Solves(c, target, fee, vatRate, discount)
  {
    var approx := Estimate(target, fee, vatRate, discount);
    var candidate := approx - SEARCH_RADIUS;
    while candidate <= approx + SEARCH_RADIUS
      invariant candidate <= approx + SEARCH_RADIUS + 1
      invariant forall c :: approx - SEARCH_RADIUS <= c < candidate ==> !Solves(c, target, fee, vatRate, discount)
    {
      if candidate > 0 && TotalOf(candidate, fee, vatRate, discount) == target {
        return Some(candidate);
      }
      candidate := candidate + 1;
    }
    r := None;
    forall c ensures !Solves(c, target, fee, vatRate, discount) {
      if Solves(c, target, fee, vatRate, discount) {
        SolutionIsNearEstimate(c, target, fee, vatRate, discount);
      }
    }
  }

  // ----- The search as computed -----

  // Math.round of a double: the nearest integer, halves going up.
  function MathRound(x: real): int {
    (x + 0.5).Floor
  }

  function Base(target: int, rates: Rates): int {
    target - rates.fee + rates.discount
  }

  function ComputedEstimate(rnd: real -> real, target: int, rates: Rates): int
    requires rnd(10000.0 + Num(rates.vatRate)) != 0.0
  {
    ComputedRatio(rnd, rnd(rnd(Num(target) - Num(rates.fee)) + Num(rates.discount)), rates.vatRate)
  }

  function ComputedRatio(rnd: real -> real, base: real, vatRate: int): int
    requires rnd(10000.0 + Num(vatRate)) != 0.0
  {
    MathRound(rnd(rnd(base * 10000.0) / rnd(10000.0 + Num(vatRate))))
  }

  function ComputedTotal(rnd: real -> real, candidate: int, rates: Rates): real {
    rnd(rnd(rnd(Num(candidate) + Num(rates.fee)) + Vat(rnd, Num(candidate), rates.vatRate)) - Num(rates.discount))
  }

  predicate InRange(target: int) {
    -MAX_MONEY_CENTS <= target <= MAX_MONEY_CENTS
  }

  // The two operands of the quotient are exact.
  lemma OperandsAreExact(rnd: real -> real, target: int, rates: Rates)
    requires IsDoubleRounding(rnd) && Payable(rates) && InRange(target)
    ensures rnd(rnd(Num(target) - Num(rates.fee)) + Num(rates.discount)) == Num(Base(target, rates))
    ensures rnd(Num(Base(target, rates)) * 10000.0) == Num(Base(target, rates) * 10000)
    ensures rnd(10000.0 + Num(rates.vatRate)) == Num(10000 + rates.vatRate)
  {
    assert Num(target) - Num(rates.fee) == Num(target - rates.fee);
    assert Num(target - rates.fee) + Num(rates.discount) == Num(Base(target, rates));
    assert Num(Base(target, rates)) * 10000.0 == Num(Base(target, rates) * 10000);
    assert 10000.0 + Num(rates.vatRate) == Num(10000 + rates.vatRate);
  }

  lemma FloorDivision(n: int, d: int)
    requires d > 0
    ensures Num(n / d) <= Num(n) / Num(d) < Num(n / d) + 1.0
  {
    var f := n / d;
    assert n == d * f + n % d;
    assert Num(d * f) == Num(d) * Num(f);
    assert Num(n) == Num(d) * Num(f) + Num(n % d);
    QuotientBetween(Num(n), Num(d), Num(f), Num(n % d));
  }

  lemma QuotientBetween(n: real, d: real, f: real, r: real)
    requires d > 0.0 && n == d * f + r && 0.0 <= r < d
    ensures f <= n / d < f + 1.0
  {
    var q := n / d;
    assert q * d == n;
    if q < f {
      ProductBelow(q, f, d);
    } else if q >= f + 1.0 {
      ProductBelow(f + 1.0, q, d);
    }
  }

  lemma ProductBelow(x: real, y: real, d: real)
    requires x <= y && d > 0.0
    ensures x * d <= y * d
    ensures x < y ==> x * d < y * d
  {
  }

  lemma EstimateValue(rnd: real -> real, target: int, rates: Rates, n: int, d: int)
    requires IsDoubleRounding(rnd) && Payable(rates) && InRange(target)
    requires n == Base(target, rates) * 10000 && d == 10000 + rates.vatRate
    ensures rnd(10000.0 + Num(rates.vatRate)) == Num(d) != 0.0
    ensures ComputedEstimate(rnd, target, rates) == MathRound(rnd(Num(n) / Num(d)))
  {
    OperandsAreExact(rnd, target, rates);
    EstimateOfOperands(rnd, target, rates, Num(Base(target, rates)), Num(n), Num(d));
  }

  lemma EstimateOfOperands(rnd: real -> real, target: int, rates: Rates, base: real, n: real, d: real)
    requires rnd(rnd(Num(target) - Num(rates.fee)) + Num(rates.discount)) == base
    requires rnd(base * 10000.0) == n && rnd(10000.0 + Num(rates.vatRate)) == d != 0.0
    ensures ComputedEstimate(rnd, target, rates) == MathRound(rnd(n / d))
  {
    RatioValue(rnd, base, rates.vatRate, n, d);
  }

  lemma RatioValue(rnd: real -> real, base: real, vatRate: int, n: real, d: real)
    requires rnd(base * 10000.0) == n && rnd(10000.0 + Num(vatRate)) == d != 0.0
    ensures ComputedRatio(rnd, base, vatRate) == MathRound(rnd(n / d))
  {
  }

  /** The computed estimate lies between the floor of the true quotient and two above it. */
  lemma ComputedEstimateIsNear(rnd: real -> real, target: int, rates: Rates, n: int, d: int, f: int)
    requires IsDoubleRounding(rnd) && Payable(rates) && InRange(target) && Base(target, rates) > 0
    requires n == Base(target, rates) * 10000 && d == 10000 + rates.vatRate && f == n / d
    ensures rnd(10000.0 + Num(rates.vatRate)) != 0.0
    ensures f <= ComputedEstimate(rnd, target, rates) <= f + 2
  {
    EstimateValue(rnd, target, rates, n, d);
    FloorDivision(n, d);
    QuotientIsSmall(n, d);
    RoundingIsNear(rnd, Num(n) / Num(d), f);
  }

  lemma QuotientIsSmall(n: int, d: int)
    requires 0 < n && 10000 <= d && n <= 10000 * (2 * MAX_MONEY_CENTS)
    ensures 0 <= n / d <= 2 * MAX_MONEY_CENTS
  {
    var f := n / d;
    assert d * f <= n && f >= 0;
    ProductGrows(10000, d, f);
  }

  lemma RoundingIsNear(rnd: real -> real, q: real, f: int)
    requires IsDoubleRounding(rnd) && 0 <= f <= 2 * MAX_MONEY_CENTS && Num(f) <= q < Num(f) + 1.0
    ensures f <= MathRound(rnd(q)) <= f + 2
  {
    assert rnd(Num(f)) == Num(f) && rnd(Num(f)) <= rnd(q);
    assert rnd(q) <= q + q / 9007199254740992.0;
    assert q < 4294967296.0;
    assert q / 9007199254740992.0 < 0.5;
    assert rnd(q) + 0.5 < Num(f) + 2.0;
  }

  lemma QuotientOfModest(rnd: real -> real, p: int)
    requires IsDoubleRounding(rnd) && 0 <= p < MODEST
    ensures TruncatesTo(rnd, Num(p), p / 10000)
  {
    assert rnd(Num(p)) == Num(p);
    Pricing.RoundedQuotient(rnd, p);
  }

  // The VAT as computed from the product of subtotal and rate.
  ghost predicate TruncatesTo(rnd: real -> real, product: real, vat: int) {
    rnd(rnd(product) / 10000.0).Floor == vat
  }

  lemma VatOfProduct(rnd: real -> real, candidate: int, vatRate: int, p: int, vat: int)
    requires p == candidate * vatRate && TruncatesTo(rnd, Num(p), vat)
    ensures Vat(rnd, Num(candidate), vatRate) == Num(vat)
  {
    NumProduct(candidate, vatRate);
  }

  lemma QuotientBelow(p: int)
    requires 0 <= p < MODEST
    ensures 0 <= p / 10000 <= 10000000000
  {
  }

  // A candidate the search can reach: its VAT and its total are computed exactly.
  lemma ComputedTotalIsExact(rnd: real -> real, candidate: int, rates: Rates, p: int)
    requires IsDoubleRounding(rnd) && Payable(rates)
    requires 0 < candidate <= 4 * MAX_MONEY_CENTS && p == candidate * rates.vatRate && 0 <= p < MODEST
    ensures ComputedTotal(rnd, candidate, rates) == Num(TotalOf(candidate, rates.fee, rates.vatRate, rates.discount))
  {
    QuotientOfModest(rnd, p);
    VatOfProduct(rnd, candidate, rates.vatRate, p, p / 10000);
    QuotientBelow(p);
    TotalWithVat(rnd, candidate, rates, p / 10000);
  }

  lemma TotalWithVat(rnd: real -> real, candidate: int, rates: Rates, vat: int)
    requires IsDoubleRounding(rnd) && Payable(rates)
    requires 0 <= candidate <= 4 * MAX_MONEY_CENTS && 0 <= vat <= 10000000000
    requires Vat(rnd, Num(candidate), rates.vatRate) == Num(vat)
    ensures ComputedTotal(rnd, candidate, rates) == Num(candidate + rates.fee + vat - rates.discount)
  {
    SumIsExact(rnd, candidate, rates.fee, vat, rates.discount);
  }

  lemma SumIsExact(rnd: real -> real, candidate: int, fee: int, vat: int, discount: int)
    requires IsDoubleRounding(rnd)
    requires 0 <= candidate <= 4 * MAX_MONEY_CENTS && 0 <= fee <= MAX_MONEY_CENTS && 0 <= discount <= MAX_MONEY_CENTS
    requires 0 <= vat <= 10000000000
    ensures rnd(rnd(rnd(Num(candidate) + Num(fee)) + Num(vat)) - Num(discount)) == Num(candidate + fee + vat - discount)
  {
    assert Num(candidate) + Num(fee) == Num(candidate + fee);
    assert Num(candidate + fee) + Num(vat) == Num(candidate + fee + vat);
    assert Num(candidate + fee + vat) - Num(discount) == Num(candidate + fee + vat - discount);
  }

  // The product with the rate stays modest all over the search window.
  lemma WindowIsModest(n: int, d: int, vatRate: int, f: int, candidate: int)
    requires 0 < n <= 10000 * (2 * MAX_MONEY_CENTS) && 0 <= vatRate <= MAX_MONEY_CENTS
    requires d == 10000 + vatRate && f == n / d && 0 < candidate <= f + 2 + SEARCH_RADIUS
    ensures candidate <= 4 * MAX_MONEY_CENTS && candidate * vatRate < MODEST
  {
    QuotientIsSmall(n, d);
    ProductOfFloor(n, d, vatRate, f);
    ProductGrows(candidate, f + 7, vatRate);
    assert (f + 7) * vatRate == f * vatRate + 7 * vatRate;
  }

  lemma ProductOfFloor(n: int, d: int, vatRate: int, f: int)
    requires 0 < n && 0 <= vatRate <= d && 0 < d && f == n / d
    ensures f * vatRate <= n
  {
    assert f * d <= n;
    assert f >= 0;
    ProductGrows(vatRate, d, f);
  }

  lemma ProductGrows(x: int, y: int, z: int)
    requires x <= y && 0 <= z
    ensures x * z <= y * z
  {
  }

  lemma SmallCandidateIsModest(vatRate: int, candidate: int)
    requires 0 <= vatRate <= MAX_MONEY_CENTS && 0 < candidate <= SEARCH_RADIUS
    ensures candidate * vatRate < MODEST
  {
    ProductGrows(candidate, SEARCH_RADIUS, vatRate);
  }

  // Without a positive base nothing solves, and the estimate is not positive.
  lemma NothingSolves(target: int, rates: Rates, c: int)
    requires Payable(rates) && Base(target, rates) <= 0
    ensures !Solves(c, target, rates.fee, rates.vatRate, rates.discount)
  {
    if c > 0 {
      ProductGrows(0, c, rates.vatRate);
    }
  }

  lemma EstimateNotPositive(rnd: real -> real, target: int, rates: Rates, n: int, d: int)
    requires IsDoubleRounding(rnd) && Payable(rates) && InRange(target) && Base(target, rates) <= 0
    requires n == Base(target, rates) * 10000 && d == 10000 + rates.vatRate
    ensures rnd(10000.0 + Num(rates.vatRate)) != 0.0
    ensures ComputedEstimate(rnd, target, rates) <= 0
  {
    EstimateValue(rnd, target, rates, n, d);
    QuotientNotPositive(Num(n), Num(d));
    var q := Num(n) / Num(d);
    assert rnd(q) <= rnd(Num(0)) == Num(0);
  }

  lemma QuotientNotPositive(n: real, d: real)
    requires n <= 0.0 < d
    ensures n / d <= 0.0
  {
    var q := n / d;
    assert q * d == n;
    if q > 0.0 {
      ProductBelow(0.0, q, d);
    }
  }

  // Every candidate of the window is judged exactly.
  lemma CandidateIsJudged(rnd: real -> real, target: int, rates: Rates, approx: int, candidate: int)
    requires IsDoubleRounding(rnd) && Payable(rates) && InRange(target)
    requires rnd(10000.0 + Num(rates.vatRate)) != 0.0 && approx == ComputedEstimate(rnd, target, rates)
    requires 0 < candidate <= approx + SEARCH_RADIUS
    ensures ComputedTotal(rnd, candidate, rates) == Num(target)
            <==> Solves(candidate, target, rates.fee, rates.vatRate, rates.discount)
  {
    CandidateIsModest(rnd, target, rates, approx, candidate);
    NumProduct(candidate, rates.vatRate);
    ComputedTotalIsExact(rnd, candidate, rates, candidate * rates.vatRate);
  }

  lemma CandidateIsModest(rnd: real -> real, target: int, rates: Rates, approx: int, candidate: int)
    requires IsDoubleRounding(rnd) && Payable(rates) && InRange(target)
    requires rnd(10000.0 + Num(rates.vatRate)) != 0.0 && approx == ComputedEstimate(rnd, target, rates)
    requires 0 < candidate <= approx + SEARCH_RADIUS
    ensures candidate <= 4 * MAX_MONEY_CENTS && candidate * rates.vatRate < MODEST
  {
    var n, d := Base(target, rates) * 10000, 10000 + rates.vatRate;
    if n > 0 {
      ComputedEstimateIsNear(rnd, target, rates, n, d, n / d);
      WindowIsModest(n, d, rates.vatRate, n / d, candidate);
    } else {
      EstimateNotPositive(rnd, target, rates, n, d);
      SmallCandidateIsModest(rates.vatRate, candidate);
    }
  }

  lemma SolutionIsInWindow(rnd: real -> real, c: int, target: int, rates: Rates)
    requires IsDoubleRounding(rnd) && Payable(rates) && InRange(target)
    requires Solves(c, target, rates.fee, rates.vatRate, rates.discount)
    ensures rnd(10000.0 + Num(rates.vatRate)) != 0.0
    ensures var approx := ComputedEstimate(rnd, target, rates); approx - SEARCH_RADIUS <= c <= approx + SEARCH_RADIUS
  {
    if Base(target, rates) <= 0 {
      NothingSolves(target, rates, c);
    } else {
      var n, d := Base(target, rates) * 10000, 10000 + rates.vatRate;
      var f := n / d;
      SolutionBesideFloor(c, target, rates, n, d, f);
      ComputedEstimateIsNear(rnd, target, rates, n, d, f);
    }
  }

  lemma SolutionBesideFloor(c: int, target: int, rates: Rates, n: int, d: int, f: int)
    requires Payable(rates) && Solves(c, target, rates.fee, rates.vatRate, rates.discount)
    requires n == Base(target, rates) * 10000 && d == 10000 + rates.vatRate && f == n / d
    ensures f - 1 <= c <= f + 2
  {
    SolutionIsNearEstimate(c, target, rates.fee, rates.vatRate, rates.discount);
    RoundedIsFloorOrNext(n, d);
  }

  lemma RoundedIsFloorOrNext(n: int, d: int)
    requires d > 0
    ensures n / d <= RoundedQuotient(n, d) <= n / d + 1
  {
    RoundingBounds(n, d);
    var r, f := RoundedQuotient(n, d), n / d;
    assert d * f <= n < d * f + d;
    if r < f {
      Scale(r, 1, f, d);
    } else if r > f + 1 {
      Scale(f, 2, r, d);
    }
  }

  // No candidate from the first up to the last solves.
  ghost predicate NoneSolves(first: int, last: int, target: int, rates: Rates)
    requires rates.vatRate >= 0
  {
    forall c :: first <= c < last ==> !Solves(c, target, rates.fee, rates.vatRate, rates.discount)
  }

  lemma NoneSolvesNext(first: int, last: int, target: int, rates: Rates)
    requires rates.vatRate >= 0 && NoneSolves(first, last, target, rates)
    requires !Solves(last, target, rates.fee, rates.vatRate, rates.discount)
    ensures NoneSolves(first, last + 1, target, rates)
  {
  }

  lemma NoneInWindow(rnd: real -> real, target: int, rates: Rates, approx: int, c: int)
    requires IsDoubleRounding(rnd) && Payable(rates) && InRange(target)
    requires rnd(10000.0 + Num(rates.vatRate)) != 0.0 && approx == ComputedEstimate(rnd, target, rates)
    requires NoneSolves(approx - SEARCH_RADIUS, approx + SEARCH_RADIUS + 1, target, rates)
    ensures !Solves(c, target, rates.fee, rates.vatRate, rates.discount)
  {
    if Solves(c, target, rates.fee, rates.vatRate, rates.discount) {
      SolutionIsInWindow(rnd, c, target, rates);
    }
  }

  // One candidate of the window, as the loop judges it.
  method Judge(rnd: real -> real, target: int, rates: Rates, ghost approx: int, candidate: int) returns (solves: bool)
    requires IsDoubleRounding(rnd) && Payable(rates) && InRange(target)
    requires rnd(10000.0 + Num(rates.vatRate)) != 0.0 && approx == ComputedEstimate(rnd, target, rates)
    requires candidate <= approx + SEARCH_RADIUS
    ensures solves <==> Solves(candidate, target, rates.fee, rates.vatRate, rates.discount)
  {
    if candidate <= 0 {
      return false;
    }
    CandidateIsJudged(rnd, target, rates, approx, candidate);
    return ComputedTotal(rnd, candidate, rates) == Num(target);
  }

  /** The search as the source computes it, in doubles, for amounts in the money range: it finds the one positive subtotal that
      truly gives the target, and fails exactly when there is none. */
  method SolveSubtotalForExactTotal(rnd: real -> real, target: int, rates: Rates) returns (r: Option<int>)
    requires IsDoubleRounding(rnd) && Payable(rates) && InRange(target)
    ensures r.Some? ==> Solves(r.value, target, rates.fee, rates.vatRate, rates.discount)
    ensures r.None? ==> forall c :: !Solves(c, target, rates.fee, rates.vatRate, rates.discount)
  {
    EstimateValue(rnd, target, rates, Base(target, rates) * 10000, 10000 + rates.vatRate);
    var approx := ComputedEstimate(rnd, target, rates);
    var candidate := approx - SEARCH_RADIUS;
    while candidate <= approx + SEARCH_RADIUS
      invariant candidate <= approx + SEARCH_RADIUS + 1
      invariant NoneSolves(approx - SEARCH_RADIUS, candidate, target, rates)
    {
      var solves := Judge(rnd, target, rates, approx, candidate);
      if solves {
        return Some(candidate);
      }
      NoneSolvesNext(approx - SEARCH_RADIUS, candidate, target, rates);
      candidate := candidate + 1;
    }
    r := None;
    forall c ensures !Solves(c, target, rates.fee, rates.vatRate, rates.discount) {
      NoneInWindow(rnd, target, rates, approx, c);
    }
  }

  /** An order for the solved subtotal costs the target, or nothing when the target is negative. It is accepted if
      and only if subtotal, VAT and target fit the money range. */
  lemma SolvedOrderCostsTarget(c: int, target: int, rates: Rates)
    requires Payable(rates)
    requires Solves(c, target, rates.fee, rates.vatRate, rates.discount)
    ensures var r := PriceInCents(c, rates);
            && (r.Ok? <==> c <= MAX_MONEY_CENTS && c * rates.vatRate / 10000 <= MAX_MONEY_CENTS && target <= MAX_MONEY_CENTS)
            && (r.Ok? ==> r.value.totalCents == if target < 0 then 0 else target)
  {
  }
}
