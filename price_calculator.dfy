/** The selling price of a NETSEA cost price (src/utils/priceCalculator.ts):
    the first tier in list order that contains the cost fixes a multiplier and a
    correction, the product is rounded up, and a minimum profit is enforced. With
    no tier, the cost is marked up by 30% and no floor applies. Yen are integers
    and multipliers exact reals. */
module PriceCalculator {
  import opened Prelude
  import opened AppSettings

  /** `originalPrice >= range.minPrice`: `null` compares as 0, `Infinity` is above all. */
  predicate AboveMin(cost: int, b: Bound) {
    match b
    case Finite(n) => cost >= n
    case Infinite => false
    case Absent => cost >= 0
  }

  /** `originalPrice <= (range.maxPrice || Infinity)`: a falsy maximum (0 or null)
      is no bound at all. */
  predicate BelowMax(cost: int, b: Bound) {
    match b
    case Finite(n) => n == 0 || cost <= n
    case Infinite => true
    case Absent => true
  }

  predicate InRange(cost: int, r: PriceRange) {
    AboveMin(cost, r.minPrice) && BelowMax(cost, r.maxPrice)
  }

  /** `priceRanges.find(...)` as the index of the tier found. */
  function FindRange(ranges: seq<PriceRange>, cost: int): (r: Option<nat>)
    ensures r.Some? ==> r.value < |ranges| && InRange(cost, ranges[r.value])
    ensures r.Some? ==> forall k :: 0 <= k < r.value ==> !InRange(cost, ranges[k])
    ensures r.None? ==> forall k :: 0 <= k < |ranges| ==> !InRange(cost, ranges[k])
    decreases |ranges|
  {
    if |ranges| == 0 then None
    else if InRange(cost, ranges[0]) then Some(0)
    else
      var r := FindRange(ranges[1..], cost);
      if r.Some? then Some(r.value + 1) else None
  }

  /** The fallback when no tier contains the cost: `Math.ceil(cost * 1.3)`. */
  function FallbackPrice(cost: int): int {
    Ceil(cost as real * 1.3)
  }

  /** `Math.ceil(cost * multiplier + correctionPrice)` for one tier. */
  function TierPrice(cost: int, r: PriceRange): int {
    Ceil(cost as real * r.multiplier + r.correctionPrice as real)
  }

  function CalculatePrice(cost: int, s: Settings): (price: int)
    ensures FindRange(s.priceRanges, cost).None? ==> price == FallbackPrice(cost)
    ensures FindRange(s.priceRanges, cost).Some? ==>
      price == Max(TierPrice(cost, s.priceRanges[FindRange(s.priceRanges, cost).value]), cost + s.minProfitAmount)
    ensures FindRange(s.priceRanges, cost).Some? ==> price - cost >= s.minProfitAmount
  {
    var found := FindRange(s.priceRanges, cost);
    if found.None? then FallbackPrice(cost)
    else
      var calculated := TierPrice(cost, s.priceRanges[found.value]);
      if calculated - cost < s.minProfitAmount then cost + s.minProfitAmount else calculated
  }

  /** Only the first matching tier matters: tiers after it, overlapping or not,
      never change the price. */
  lemma {:induction false} FirstTierWins(before: seq<PriceRange>, tier: PriceRange, after: seq<PriceRange>, cost: int)
    requires forall k :: 0 <= k < |before| ==> !InRange(cost, before[k])
    requires InRange(cost, tier)
    ensures FindRange(before + [tier] + after, cost) == Some(|before|)
    decreases |before|
  {
    if |before| > 0 {
      assert (before + [tier] + after)[1..] == before[1..] + [tier] + after;
      FirstTierWins(before[1..], tier, after, cost);
    } else {
      assert (before + [tier] + after)[0] == tier;
    }
  }

  /** Under the default settings every non-negative cost falls in a tier, so
      the 30 % fallback without a floor never applies: each such cost is sold
      at least the minimum profit of 500 above it, and every cost of the first
      tier (up to 1000) exactly at cost + 500, since its 30 % markup stays
      below 500. */
  lemma DefaultsKeepFloor(cost: int)
    requires cost >= 0
    ensures FindRange(Defaults().priceRanges, cost).Some?
    ensures CalculatePrice(cost, Defaults()) >= cost + Defaults().minProfitAmount
    ensures cost <= 1000 ==> CalculatePrice(cost, Defaults()) == cost + 500
  {
    var t := Defaults().priceRanges;
    if cost <= 1000 {
      assert InRange(cost, t[0]);
      assert FindRange(t, cost) == Some(0);
      assert cost as real * 1.3 + 0 as real <= cost as real + 300.0;
      assert TierPrice(cost, t[0]) <= cost + 300;
    } else if cost <= 3000 {
      assert InRange(cost, t[1]);
    } else {
      assert InRange(cost, t[2]);
    }
  }

  /** Reloading settings from storage turns the top tier's `Infinity` maximum
      into `null`; the `|| Infinity` of the tier test absorbs that, so prices are
      unchanged as long as no minimum was `Infinity`. */
  lemma {:induction false} RoundTripKeepsTiers(ranges: seq<PriceRange>, cost: int)
    requires forall k :: 0 <= k < |ranges| ==> !ranges[k].minPrice.Infinite?
    ensures FindRange(JsonRanges(ranges), cost) == FindRange(ranges, cost)
    decreases |ranges|
  {
    var mapped := JsonRanges(ranges);
    if |ranges| > 0 {
      assert mapped[1..] == JsonRanges(ranges[1..]);
      RoundTripKeepsTiers(ranges[1..], cost);
      assert InRange(cost, mapped[0]) == InRange(cost, ranges[0]);
    }
  }

  /** The price depends on the settings only through the tier found, its
      multiplier and correction, and the minimum profit. */
  lemma SamePrice(cost: int, s: Settings, t: Settings)
    requires FindRange(s.priceRanges, cost) == FindRange(t.priceRanges, cost)
    requires s.minProfitAmount == t.minProfitAmount
    requires FindRange(s.priceRanges, cost).Some? ==>
      var k := FindRange(s.priceRanges, cost).value;
      s.priceRanges[k].multiplier == t.priceRanges[k].multiplier
      && s.priceRanges[k].correctionPrice == t.priceRanges[k].correctionPrice
    ensures CalculatePrice(cost, s) == CalculatePrice(cost, t)
  {
    var f := FindRange(s.priceRanges, cost);
    if f.Some? {
      assert TierPrice(cost, s.priceRanges[f.value]) == TierPrice(cost, t.priceRanges[f.value]);
    }
  }

  lemma RoundTripKeepsPrice(s: Settings, cost: int)
    requires forall k :: 0 <= k < |s.priceRanges| ==> !s.priceRanges[k].minPrice.Infinite?
    ensures CalculatePrice(cost, JsonRoundTrip(s)) == CalculatePrice(cost, s)
  {
    var t := JsonRoundTrip(s);
    RoundTripKeepsTiers(s.priceRanges, cost);
    var f := FindRange(s.priceRanges, cost);
    if f.Some? {
      assert t.priceRanges[f.value] == JsonRange(s.priceRanges[f.value]);
    }
    SamePrice(cost, t, s);
  }
}
