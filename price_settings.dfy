/** The price-tier editor (src/components/settings/PriceSettings.tsx). Each
    handler computes a new tier list and hands it to `updateSettings` as the only
    key of the update. */
module PriceSettings {
  import opened Prelude
  import opened AppSettings
  import PriceCalculator

  /** `b + k` in JavaScript: `Infinity + k` is Infinity and `null + k` is `k`. */
  function BoundPlus(b: Bound, k: int): Bound {
    match b
    case Finite(n) => Finite(n + k)
    case Infinite => Infinite
    case Absent => Finite(k)
  }

  /** The tier `addPriceRange` appends after the current last one (if any). */
  function NextRange(ranges: seq<PriceRange>): PriceRange {
    if |ranges| == 0 then PriceRange(Finite(0), Finite(5000), 1.2, 0)
    else
      var last := ranges[|ranges| - 1];
      PriceRange(BoundPlus(last.maxPrice, 1), BoundPlus(last.maxPrice, 5000), 1.2, 0)
  }

  /** `addPriceRange`: exactly one tier is appended. On an empty list it is
      [0, 5000] at 1.2; otherwise it starts just above the last maximum and spans
      5000 more, so a finite last tier stays contiguous with the new one. */
  function AddPriceRange(ranges: seq<PriceRange>): (r: seq<PriceRange>)
    ensures |r| == |ranges| + 1 && r[..|ranges|] == ranges
    ensures |ranges| == 0 ==> r[0] == PriceRange(Finite(0), Finite(5000), 1.2, 0)
    ensures |ranges| > 0 && ranges[|ranges| - 1].maxPrice.Finite? ==>
      var m := ranges[|ranges| - 1].maxPrice.n;
      r[|ranges|] == PriceRange(Finite(m + 1), Finite(m + 5000), 1.2, 0)
    ensures |ranges| > 0 && ranges[|ranges| - 1].maxPrice.Infinite? ==>
      r[|ranges|] == PriceRange(Infinite, Infinite, 1.2, 0)
    ensures |ranges| > 0 && ranges[|ranges| - 1].maxPrice.Absent? ==>
      r[|ranges|] == PriceRange(Finite(1), Finite(5000), 1.2, 0)
  {
    ranges + [NextRange(ranges)]
  }

  /** Appending keeps a contiguous list contiguous when its last tier is finite. */
  lemma AddKeepsContiguous(ranges: seq<PriceRange>)
    requires Contiguous(ranges) && |ranges| > 0 && ranges[|ranges| - 1].maxPrice.Finite?
    ensures Contiguous(AddPriceRange(ranges))
  {
    var r := AddPriceRange(ranges);
    forall k | 0 <= k < |r| - 1
      ensures r[k].maxPrice.Finite? && r[k + 1].minPrice == Finite(r[k].maxPrice.n + 1)
    {
      if k < |ranges| - 1 {
        assert r[k] == ranges[k] && r[k + 1] == ranges[k + 1];
      }
    }
  }

  /** A tier no cost falls into can be appended without changing any lookup. */
  lemma {:induction false} UnmatchedTierIgnored(ranges: seq<PriceRange>, t: PriceRange, cost: int)
    requires !PriceCalculator.InRange(cost, t)
    ensures PriceCalculator.FindRange(ranges + [t], cost) == PriceCalculator.FindRange(ranges, cost)
    decreases |ranges|
  {
    if |ranges| > 0 {
      assert (ranges + [t])[1..] == ranges[1..] + [t];
      UnmatchedTierIgnored(ranges[1..], t, cost);
    }
  }

  /** Adding a tier on the page as it opens, after the unbounded default top tier,
      appends [Infinity, Infinity], which no cost reaches: every price stays as it was. */
  lemma AddAfterDefaultsInert(cost: int)
    ensures AddPriceRange(DefaultTiers())[3] == PriceRange(Infinite, Infinite, 1.2, 0)
    ensures var s := Defaults();
      PriceCalculator.CalculatePrice(cost, s.(priceRanges := AddPriceRange(s.priceRanges)))
      == PriceCalculator.CalculatePrice(cost, s)
  {
    var t := PriceRange(Infinite, Infinite, 1.2, 0);
    assert AddPriceRange(DefaultTiers()) == DefaultTiers() + [t];
    UnmatchedTierIgnored(DefaultTiers(), t, cost);
  }

  /** The field an input of the tier table edits, with `Number(e.target.value)`. */
  datatype RangeEdit = SetMinPrice(min: int) | SetMaxPrice(max: int) | SetMultiplier(m: real) | SetCorrection(c: int)

  function ApplyEdit(r: PriceRange, e: RangeEdit): PriceRange {
    match e
    case SetMinPrice(v) => r.(minPrice := Finite(v))
    case SetMaxPrice(v) => r.(maxPrice := Finite(v))
    case SetMultiplier(v) => r.(multiplier := v)
    case SetCorrection(v) => r.(correctionPrice := v)
  }

  /** `updatePriceRange(index, field, value)`: one field of one tier changes. */
  function UpdatePriceRange(ranges: seq<PriceRange>, index: int, e: RangeEdit): (r: seq<PriceRange>)
    ensures |r| == |ranges|
    ensures forall k :: 0 <= k < |r| && k != index ==> r[k] == ranges[k]
    ensures 0 <= index < |r| ==> r[index] == ApplyEdit(ranges[index], e)
  {
    UpdateIndex(ranges, index, (x: PriceRange) => ApplyEdit(x, e))
  }

  /** An edit changes exactly the field it names. */
  lemma EditTouchesOneField(r: PriceRange, e: RangeEdit)
    ensures e.SetMinPrice? ==> ApplyEdit(r, e) == r.(minPrice := Finite(e.min))
    ensures !e.SetMinPrice? ==> ApplyEdit(r, e).minPrice == r.minPrice
    ensures !e.SetMaxPrice? ==> ApplyEdit(r, e).maxPrice == r.maxPrice
    ensures !e.SetMultiplier? ==> ApplyEdit(r, e).multiplier == r.multiplier
    ensures !e.SetCorrection? ==> ApplyEdit(r, e).correctionPrice == r.correctionPrice
  {
  }

  /** The example line under the table: `Math.ceil(1000 * multiplier + correctionPrice)`
      for each tier, with no tier lookup and no profit floor. */
  function ExamplePrice(r: PriceRange): (p: int)
    ensures p == PriceCalculator.TierPrice(1000, r)
  {
    Ceil(1000 as real * r.multiplier + r.correctionPrice as real)
  }

  /** The example therefore differs from the price actually charged: under the
      default tiers it shows 1300 for a cost of 1000, which is sold at 1500. */
  lemma ExampleIgnoresProfitFloor()
    ensures ExamplePrice(Defaults().priceRanges[0]) == 1300
    ensures PriceCalculator.CalculatePrice(1000, Defaults()) == 1500
  {
    assert 1000 as real * 1.3 + 0 as real == 1300.0;
    PriceCalculator.DefaultsKeepFloor(1000);
  }
}
