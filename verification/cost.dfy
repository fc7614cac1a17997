/** What a text call costs, and what is held for it beforehand; amounts are in units of 0.00000001 USD. */
module Cost {
  import L = Ledger
  import LedgerLaws

  /** USD per million tokens. */
  datatype Prices = Prices(input: real, cached: real, output: real)

  predicate Sane(p: Prices) { p.input >= 0.0 && p.cached >= 0.0 && p.output >= 0.0 }

  // ----- Rounding

  /** quantize: to the nearest unit, halves to the even one. */
  function HalfEven(x: real): (r: int)
    ensures -0.5 <= r as real - x <= 0.5
    ensures r as real - x == 0.5 || r as real - x == -0.5 ==> r % 2 == 0
  {
    var low := x.Floor;
    var rest := x - low as real;
    if rest < 0.5 || (rest == 0.5 && low % 2 == 0) then low else low + 1
  }

  /** Rounding keeps order and leaves whole amounts alone. */
  lemma HalfEvenKeepsOrder(x: real, y: real)
    requires x <= y
    ensures HalfEven(x) <= HalfEven(y)
  {
  }

  // ----- Cost

  function Min(a: int, b: int): int { if a < b then a else b }

  /** The tokens billed at the cached price: never more than the input, never negative. */
  function CachedPart(input: int, cached: int): (c: int)
    ensures 0 <= c <= L.Max(0, input)
    ensures 0 <= cached <= input ==> c == cached
  {
    L.Max(0, Min(cached, input))
  }

  /** The cost before rounding; one USD per million tokens is 100 units per token. */
  function Exact(p: Prices, input: int, cached: int, output: int): real {
    var c := CachedPart(input, cached);
    var uncached := L.Max(0, input - c);
    (uncached as real * p.input + c as real * p.cached + L.Max(0, output) as real * p.output) * 100.0
  }

  /** calculate_provider_cost. */
  function ProviderCost(p: Prices, input: int, cached: int, output: int): int {
    HalfEven(Exact(p, input, cached, output))
  }

  // ----- What a call costs

  /** `n` tokens at a price, in units. */
  function Bill(n: nat, price: real): real { n as real * price * 100.0 }

  /** A million tokens cost their price, which is in USD. */
  lemma MillionCostsPrice(price: real)
    ensures Bill(1000000, price) == price * 100000000.0
  {
  }

  lemma InputAlone(p: Prices, n: nat, none: int)
    requires none <= 0
    ensures Exact(p, n, none, none) == Bill(n, p.input)
  {
    assert CachedPart(n, none) == 0;
  }

  lemma CachedAlone(p: Prices, n: nat, none: int)
    requires none <= 0
    ensures Exact(p, n, n, none) == Bill(n, p.cached)
  {
    assert CachedPart(n, n) == n;
  }

  lemma OutputAlone(p: Prices, n: nat, none: int, cached: int)
    requires none <= 0
    ensures Exact(p, none, cached, n) == Bill(n, p.output)
  {
    assert CachedPart(none, cached) == 0;
  }

  /** Each price is charged for its own kind of token, and negative counts for none. */
  lemma EachKindHasItsPrice(p: Prices, n: nat, none: int, cached: int)
    requires none <= 0
    ensures ProviderCost(p, n, none, none) == HalfEven(Bill(n, p.input))
    ensures ProviderCost(p, n, n, none) == HalfEven(Bill(n, p.cached))
    ensures ProviderCost(p, none, cached, n) == HalfEven(Bill(n, p.output))
  {
    hide Exact, HalfEven, Bill;
    InputAlone(p, n, none);
    CachedAlone(p, n, none);
    OutputAlone(p, n, none, cached);
  }

  /** The parts add up before they are rounded: the cached tokens are taken from the input, the output comes on top. */
  lemma PartsAddUp(p: Prices, uncached: nat, cached: nat, output: nat)
    ensures Exact(p, uncached + cached, cached, output)
         == Bill(uncached, p.input) + Bill(cached, p.cached) + Bill(output, p.output)
  {
    assert CachedPart(uncached + cached, cached) == cached;
  }

  lemma NothingIsFree(price: real)
    ensures Bill(0, price) == 0.0
  {
  }

  /** Reports of more cached tokens than input, or of fewer than none, are cut to what is possible. */
  lemma OddReportsAreCut(p: Prices, input: int, cached: int, output: int)
    ensures cached > input ==> Exact(p, input, cached, output) == Exact(p, input, input, output)
    ensures cached < 0 ==> Exact(p, input, cached, output) == Exact(p, input, 0, output)
    ensures input < 0 ==> Exact(p, input, cached, output) == Exact(p, 0, 0, output)
    ensures output < 0 ==> Exact(p, input, cached, output) == Exact(p, input, cached, 0)
  {
  }

  lemma CostIsNotNegative(p: Prices, input: int, cached: int, output: int)
    requires Sane(p)
    ensures ProviderCost(p, input, cached, output) >= 0
  {
  }

  /** The input part alone costs no more than all of `more` tokens at the dearer of the two prices. */
  lemma InputIsBounded(u: int, c: int, more: int, price: real, cachedPrice: real, dear: real)
    requires 0 <= u && 0 <= c && u + c <= more && 0.0 <= price <= dear && cachedPrice <= dear
    ensures u as real * price + c as real * cachedPrice <= more as real * dear
  {
  }

  lemma UncachedIsWorst(p: Prices, input: int, cached: int, output: int, moreInput: int, moreOutput: int)
    requires Sane(p) && 0 <= moreInput && input <= moreInput && output <= moreOutput && p.cached <= p.input
    ensures Exact(p, input, cached, output) <= Exact(p, moreInput, 0, moreOutput)
  {
    var c := CachedPart(input, cached);
    InputIsBounded(L.Max(0, input - c), c, moreInput, p.input, p.cached, p.input);
  }

  lemma CachedIsWorst(p: Prices, input: int, cached: int, output: int, moreInput: int, moreOutput: int)
    requires Sane(p) && 0 <= moreInput && input <= moreInput && output <= moreOutput && p.input <= p.cached
    ensures Exact(p, input, cached, output) <= Exact(p, moreInput, moreInput, moreOutput)
  {
    var c := CachedPart(input, cached);
    InputIsBounded(L.Max(0, input - c), c, moreInput, p.input, p.cached, p.cached);
  }

  /** More tokens never cost less, as long as caching is no surcharge. */
  lemma CostRises(p: Prices, input: int, cached: int, output: int, moreInput: int, moreOutput: int)
    requires Sane(p) && p.cached <= p.input && 0 <= moreInput && input <= moreInput && output <= moreOutput
    ensures ProviderCost(p, input, cached, output) <= ProviderCost(p, moreInput, 0, moreOutput)
  {
    UncachedIsWorst(p, input, cached, output, moreInput, moreOutput);
    HalfEvenKeepsOrder(Exact(p, input, cached, output), Exact(p, moreInput, 0, moreOutput));
  }

  // ----- The hold

  /** One token for every four bytes begun, and at least one. */
  function EstimatedInput(bytes: nat): (n: nat)
    ensures n >= 1 && 4 * n >= bytes
    ensures n > 1 ==> 4 * (n - 1) < bytes
  {
    L.Max(1, (bytes + 3) / 4)
  }

  function EstimatedOutput(input: nat): (n: nat)
    ensures 2048 <= n <= 32768
    ensures input < 4096 ==> n == 2048
    ensures 4096 <= input < 65536 ==> 2 * n <= input <= 2 * n + 1
    ensures input >= 65536 ==> n == 32768
  {
    Min(32768, L.Max(2048, input / 2))
  }

  function Estimate(p: Prices, bytes: nat): int {
    ProviderCost(p, EstimatedInput(bytes), 0, EstimatedOutput(EstimatedInput(bytes)))
  }

  /** The amount reserved before a call: a fifth above the estimate, and at least 0.001 USD for anything not free. */
  function HoldFor(p: Prices, bytes: nat): int {
    var amount := HalfEven(Estimate(p, bytes) as real * 1.2);
    if Estimate(p, bytes) > 0 then L.Max(100000, amount) else amount
  }

  /** The estimate is the cost of the estimated tokens, none of them cached. */
  lemma EstimateIsExact(p: Prices, bytes: nat)
    ensures var n := EstimatedInput(bytes);
      Estimate(p, bytes) == HalfEven(Bill(n, p.input) + Bill(EstimatedOutput(n), p.output))
  {
    hide Exact, HalfEven, EstimatedInput, EstimatedOutput, Bill;
    var n := EstimatedInput(bytes);
    var o := EstimatedOutput(n);
    PartsAddUp(p, n, 0, o);
    NothingIsFree(p.cached);
  }

  /** Nothing is held for a free call; any other one holds 1.2 times its estimate to the nearest unit, or 0.001 USD if
      that is more. */
  lemma HoldIsExact(p: Prices, bytes: nat, hold: int)
    requires Sane(p) && hold == HoldFor(p, bytes)
    ensures Estimate(p, bytes) == 0 <==> hold == 0
    ensures Estimate(p, bytes) > 0 && Estimate(p, bytes) as real * 1.2 <= 100000.0 ==> hold == 100000
    ensures Estimate(p, bytes) as real * 1.2 > 100000.0 ==>
      -0.5 <= hold as real - Estimate(p, bytes) as real * 1.2 <= 0.5
  {
    CostIsNotNegative(p, EstimatedInput(bytes), 0, EstimatedOutput(EstimatedInput(bytes)));
    if Estimate(p, bytes) as real * 1.2 <= 100000.0 {
      HalfEvenKeepsOrder(Estimate(p, bytes) as real * 1.2, 100000.0);
    } else {
      HalfEvenKeepsOrder(100000.0, Estimate(p, bytes) as real * 1.2);
    }
  }

  lemma HoldIsAtLeastEstimate(p: Prices, bytes: nat)
    requires Sane(p)
    ensures HoldFor(p, bytes) >= Estimate(p, bytes) >= 0
  {
    CostIsNotNegative(p, EstimatedInput(bytes), 0, EstimatedOutput(EstimatedInput(bytes)));
    HalfEvenKeepsOrder(Estimate(p, bytes) as real, Estimate(p, bytes) as real * 1.2);
  }

  /** The call used no more tokens than were estimated, however many of them came from the provider's cache. */
  predicate AsEstimated(bytes: nat, input: int, output: int) {
    input <= EstimatedInput(bytes) && output <= EstimatedOutput(EstimatedInput(bytes))
  }

  /** The hold covers the charge, through both roundings, the fifth and the floor. */
  lemma HoldCoversCharge(p: Prices, bytes: nat, input: int, cached: int, output: int)
    requires Sane(p) && p.cached <= p.input && AsEstimated(bytes, input, output)
    ensures ProviderCost(p, input, cached, output) <= HoldFor(p, bytes)
  {
    CostRises(p, input, cached, output, EstimatedInput(bytes), EstimatedOutput(EstimatedInput(bytes)));
    HoldIsAtLeastEstimate(p, bytes);
  }

  /** What the fifth is for: an exact cost up to a fifth above the estimate is covered too, whatever the tokens were. */
  lemma FifthIsCovered(p: Prices, bytes: nat, input: int, cached: int, output: int)
    requires Exact(p, input, cached, output) <= Estimate(p, bytes) as real * 1.2
    ensures ProviderCost(p, input, cached, output) <= HoldFor(p, bytes)
  {
  }

  /** Every call within the estimated tokens is covered. */
  ghost predicate CoversAll(p: Prices, bytes: nat) {
    forall input, cached, output :: AsEstimated(bytes, input, output) ==>
      ProviderCost(p, input, cached, output) <= HoldFor(p, bytes)
  }

  /** Without the condition on prices: the hold covers every call as estimated exactly when it covers the one whose
      input is all cached, which a caller can compute beforehand. */
  lemma CoversAllIffFullyCached(p: Prices, bytes: nat)
    requires Sane(p)
    ensures CoversAll(p, bytes) <==>
      ProviderCost(p, EstimatedInput(bytes), EstimatedInput(bytes), EstimatedOutput(EstimatedInput(bytes)))
        <= HoldFor(p, bytes)
  {
    var i, o := EstimatedInput(bytes), EstimatedOutput(EstimatedInput(bytes));
    if ProviderCost(p, i, i, o) <= HoldFor(p, bytes) {
      forall input, cached, output | AsEstimated(bytes, input, output)
        ensures ProviderCost(p, input, cached, output) <= HoldFor(p, bytes)
      {
        if p.cached <= p.input {
          HoldCoversCharge(p, bytes, input, cached, output);
        } else {
          CachedIsWorst(p, input, cached, output, i, o);
          HalfEvenKeepsOrder(Exact(p, input, cached, output), Exact(p, i, i, o));
        }
      }
    }
    if CoversAll(p, bytes) {
      assert AsEstimated(bytes, i, o);
    }
  }

  /** A provider that bills cached tokens alone gets nothing held, and charges: caching must be no surcharge. */
  lemma DearCacheIsNotCovered()
    ensures var p := Prices(0.0, 10.0, 0.0);
      Sane(p) && AsEstimated(4000, 1000, 0) && HoldFor(p, 4000) == 0 && ProviderCost(p, 1000, 1000, 0) == 1000000
  {
  }

  // ----- Settlement

  /** Settling an active hold at no more than it holds. */
  lemma SettleWithin(b: L.Books, i: nat, actual: int)
    requires LedgerLaws.Inv(b) && i < |b.reservations| && b.reservations[i].status == L.Active
    requires 0 <= actual <= b.reservations[i].amount
    ensures var c := L.Settle(b, i, actual).0;
      |c.reservations| == |b.reservations| && c.reservations[i].status == L.Settled
        && c.reservations[i].settled == actual
    ensures var u := b.reservations[i].user;
      L.Available(L.AccountOf(L.Settle(b, i, actual).0, u))
        == L.Available(L.AccountOf(b, u)) + b.reservations[i].amount - actual
  {
    hide LedgerLaws.Inv, L.Charge, LedgerLaws.KeyOk, LedgerLaws.Appends, LedgerLaws.ReservationOk, L.HasKey;
    LedgerLaws.HoldIsReserved(b, i);
    LedgerLaws.ChargeWrites(b, i, actual);
  }

  /** The two sides together: a call that went as estimated is never an overrun, and gives back what it did not use. */
  lemma EstimatedCallIsNoOverrun(b: L.Books, i: nat, p: Prices, bytes: nat, input: int, cached: int, output: int)
    requires LedgerLaws.Inv(b) && i < |b.reservations| && b.reservations[i].status == L.Active
    requires b.reservations[i].amount == HoldFor(p, bytes)
    requires Sane(p) && p.cached <= p.input && AsEstimated(bytes, input, output)
    ensures var c := L.Settle(b, i, ProviderCost(p, input, cached, output)).0;
      && |c.reservations| == |b.reservations| && c.reservations[i].status == L.Settled
      && L.Available(L.AccountOf(c, b.reservations[i].user)) >= L.Available(L.AccountOf(b, b.reservations[i].user))
  {
    hide LedgerLaws.Inv, HoldFor, ProviderCost, L.Settle;
    HoldCoversCharge(p, bytes, input, cached, output);
    CostIsNotNegative(p, input, cached, output);
    SettleWithin(b, i, ProviderCost(p, input, cached, output));
  }
}
