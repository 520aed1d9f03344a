/** What a booking costs: the two stored amounts, rounded to cents one by one, and the total on the customer's panel.

    Amounts are exact.  A base price is in cents and a tier in hundredths, so a price is in hundredths of a cent. */
module Pricing {

  /** The server multiplies by 1.05; the panel adds a fee of 0.05. */
  const MULTIPLIER_PERCENT: nat := 105
  const FEE_PERCENT: nat := 5

  function Price(base: nat, tier: nat): nat {
    base * tier
  }

  /** The `reduce` over the seats' prices. */
  function Sum(base: nat, tiers: seq<nat>): nat {
    if tiers == [] then 0 else Sum(base, tiers[..|tiers| - 1]) + Price(base, tiers[|tiers| - 1])
  }

  /** `x / unit` to the nearest whole, halves up: what a column with two decimals keeps. */
  function Nearest(x: nat, unit: nat): (r: nat)
    requires unit > 0
    ensures -(unit as int) <= 2 * (x - r * unit) < unit
  {
    assert (2 * x + unit) / (2 * unit) * (2 * unit) + (2 * x + unit) % (2 * unit) == 2 * x + unit;
    (2 * x + unit) / (2 * unit)
  }

  /** `priceAtBooking`, in cents. */
  function StoredPrice(base: nat, tier: nat): nat {
    Nearest(Price(base, tier), 100)
  }

  /** The unrounded total, in millionths of the currency. */
  function Total(base: nat, tiers: seq<nat>): nat {
    Sum(base, tiers) * MULTIPLIER_PERCENT
  }

  /** `totalAmount`, in cents. */
  function StoredTotal(base: nat, tiers: seq<nat>): nat {
    Nearest(Total(base, tiers), 10000)
  }

  function StoredSum(base: nat, tiers: seq<nat>): nat {
    if tiers == [] then 0 else StoredSum(base, tiers[..|tiers| - 1]) + StoredPrice(base, tiers[|tiers| - 1])
  }

  /** The panel's total: the subtotal plus the fee on it. */
  function PanelTotal(base: nat, tiers: seq<nat>): nat {
    var subtotal := Sum(base, tiers);
    subtotal * 100 + subtotal * FEE_PERCENT
  }

  predicate Between(low: int, x: int, high: int) {
    low <= x <= high
  }

  lemma {:induction false} PricesRoundSeparately(base: nat, tiers: seq<nat>)
    ensures Between(-50 * |tiers|, 100 * StoredSum(base, tiers) - Sum(base, tiers), 50 * |tiers|)
  {
    if tiers != [] {
      PricesRoundSeparately(base, tiers[..|tiers| - 1]);
    }
  }

  /** For n seats, the stored total is within 0.5 + 0.525 n cents of 1.05 times the sum of the stored prices.  In
      units of a two-hundredth of a cent. */
  lemma {:induction false} StoredTotalNearStoredPrices(base: nat, tiers: seq<nat>)
    ensures Between(-100 - 105 * |tiers|, 200 * StoredTotal(base, tiers) - 210 * StoredSum(base, tiers),
      100 + 105 * |tiers|)
  {
    PricesRoundSeparately(base, tiers);
  }

  /** The share of that bound which grows with the number of seats is needed: when every price ends in half a cent, each
      stored price is half a cent too high, and the stored total does not follow. */
  lemma {:induction false} HalfCentsAddUp(base: nat, tiers: seq<nat>)
    requires forall t :: t in tiers ==> Price(base, t) % 100 == 50
    ensures 100 * StoredSum(base, tiers) == Sum(base, tiers) + 50 * |tiers|
    ensures Between(-100 - 105 * |tiers|, 200 * StoredTotal(base, tiers) - 210 * StoredSum(base, tiers),
      100 - 105 * |tiers|)
  {
    if tiers != [] {
      var n := |tiers| - 1;
      HalfCentsAddUp(base, tiers[..n]);
      assert tiers[n] in tiers;
      HalfRoundsUp(Price(base, tiers[n]));
    }
  }

  lemma HalfRoundsUp(p: nat)
    requires p % 100 == 50
    ensures 100 * Nearest(p, 100) == p + 50
  {
  }

  // ---- the amounts as numbers ------------------------------------------------------------

  /** The tiers added up. */
  function TierSum(tiers: seq<nat>): nat {
    if tiers == [] then 0 else TierSum(tiers[..|tiers| - 1]) + tiers[|tiers| - 1]
  }

  lemma {:induction false} SumIsProduct(base: nat, tiers: seq<nat>)
    ensures Sum(base, tiers) == base * TierSum(tiers)
  {
    if tiers != [] {
      var n := |tiers| - 1;
      SumIsProduct(base, tiers[..n]);
      assert base * (TierSum(tiers[..n]) + tiers[n]) == base * TierSum(tiers[..n]) + base * tiers[n];
    }
  }

  /** A seat's stored price is its base price times its tier to the nearest cent, half a cent up; a tier of 1.00 leaves
      the base price as it is. */
  lemma StoredPriceExactly(base: nat, tier: nat)
    ensures -50 < 100 * StoredPrice(base, tier) - base * tier <= 50
    ensures tier == 100 ==> StoredPrice(base, tier) == base
  {
    if tier == 100 {
      assert base * tier == 100 * base;
    }
  }

  /** Both totals are the base price times the sum of the tiers, and 5 percent, on the server rounded to the nearest
      cent, half a cent up. */
  lemma TotalsExactly(base: nat, tiers: seq<nat>)
    ensures Total(base, tiers) == PanelTotal(base, tiers) == 105 * (base * TierSum(tiers))
    ensures -5000 < 10000 * StoredTotal(base, tiers) - 105 * (base * TierSum(tiers)) <= 5000
  {
    SumIsProduct(base, tiers);
  }

  // ---- the panel and the server ----------------------------------------------------------

  lemma {:induction false} SumWithout(base: nat, tiers: seq<nat>, i: nat)
    requires i < |tiers|
    ensures Sum(base, tiers) == Sum(base, tiers[..i] + tiers[i + 1..]) + Price(base, tiers[i])
  {
    var n := |tiers| - 1;
    var rest := tiers[..i] + tiers[i + 1..];
    if i == n {
      assert rest == tiers[..n];
    } else {
      SumWithout(base, tiers[..n], i);
      assert rest[..n - 1] == tiers[..n][..i] + tiers[..n][i + 1..];
      assert rest[n - 1] == tiers[n];
    }
  }

  /** Where `b` has the last element of `a`; without it both have the same elements. */
  lemma SamePlace(a: seq<nat>, b: seq<nat>) returns (i: nat)
    requires multiset(a) == multiset(b) && a != []
    ensures i < |b| && b[i] == a[|a| - 1]
    ensures multiset(a[..|a| - 1]) == multiset(b[..i] + b[i + 1..])
  {
    var n := |a| - 1;
    assert a == a[..n] + [a[n]];
    assert a[n] in multiset(b);
    i :| 0 <= i < |b| && b[i] == a[n];
    assert b == b[..i] + [b[i]] + b[i + 1..];
    assert multiset(a[..n]) == multiset(a) - multiset{a[n]};
  }

  lemma {:induction false} SumAnyOrder(base: nat, a: seq<nat>, b: seq<nat>)
    requires multiset(a) == multiset(b)
    ensures Sum(base, a) == Sum(base, b)
  {
    if a == [] {
      assert |multiset(b)| == |multiset(a)|;
    } else {
      var n := |a| - 1;
      var i := SamePlace(a, b);
      SumAnyOrder(base, a[..n], b[..i] + b[i + 1..]);
      SumWithout(base, b, i);
    }
  }

  /** The panel shows the server's total before rounding, whatever the order in which either lists the seats. */
  lemma PanelShowsServerTotal(base: nat, selected: seq<nat>, booked: seq<nat>)
    requires multiset(selected) == multiset(booked)
    ensures PanelTotal(base, selected) == Total(base, booked)
  {
    SumAnyOrder(base, selected, booked);
  }
}
