/** The pricing page (src/pages/Pricing.tsx): a searchable, sortable list of
    BASE products with per-product price overrides, a bulk percentage
    adjustment of the selected products, and a save that only clears the
    overrides. `localeCompare` and the date parser are parameters. */
module Pricing {
  import opened Prelude
  import opened Text
  import Catalog
  import OrderedSet
  import Sorting
  import AppSettings
  import NetseaApi
  import opened Effects
  import opened Errors

  datatype SortField = Title | Price | Stock | UpdatedAt
  datatype SortOrder = Asc | Desc

  const Saved: string := "価格を更新しました"
  const LoadFailed: string := "商品の取得に失敗しました"

  // ---------------------------------------------------------------- loading

  /** The message `loadProducts` shows for an error thrown by the read. */
  function LoadError(e: Error): (m: string)
    ensures e.IsError() ==> m == e.Message()
    ensures !e.IsError() ==> m == LoadFailed
  {
    MessageOr(e, LoadFailed)
  }

  /** As written, `loadProducts` calls `fetchBaseProducts()` with no settings:
      reading `baseApiKey` of `undefined` throws a TypeError before any request,
      whatever the BASE API would answer, and the page shows its text. */
  lemma LoadAsWritten(outcome: Fetched<seq<Catalog.BaseProduct>>)
    ensures var o := NetseaApi.FetchBaseProducts(None, outcome);
      o.result.Err? && o.trace == [] && Calls(o.trace) == 0
      && LoadError(o.result.error) == "Cannot read properties of undefined (reading 'baseApiKey')"
  {
  }

  /** Called with the stored settings, as evidently intended, a 2xx reply that
      holds a list loads exactly that list, after one request; a missing key
      shows the key message without any request. */
  lemma LoadWithSettings(s: AppSettings.Settings, reply: Reply<seq<Catalog.BaseProduct>>)
    ensures reply.Ok() && reply.content.Payload? && s.baseApiKey != "" ==>
      var o := NetseaApi.FetchBaseProducts(Some(s), Replied(reply));
      o.result == Ok(Payload(reply.content.value)) && Calls(o.trace) == 1
    ensures s.baseApiKey == "" ==>
      var o := NetseaApi.FetchBaseProducts(Some(s), Replied(reply));
      o.trace == [] && o.result.Err? && LoadError(o.result.error) == NetseaApi.BaseKeyMissingMessage
  {
    if reply.Ok() && reply.content.Payload? && s.baseApiKey != "" {
      NetseaApi.BaseListReturned(s, reply);
    }
  }

  /** The search: the term in the title or in the product id, ignoring case. */
  predicate Matches(p: Catalog.BaseProduct, term: string) {
    ContainsCI(p.title, term) || ContainsCI(p.productId, term)
  }

  function Filtered(products: seq<Catalog.BaseProduct>, term: string): (r: seq<Catalog.BaseProduct>)
    ensures forall k :: 0 <= k < |r| ==> Matches(r[k], term) && r[k] in products
    ensures forall k :: 0 <= k < |products| && Matches(products[k], term) ==> products[k] in r
  {
    Filter(products, (p: Catalog.BaseProduct) => Matches(p, term))
  }

  /** `priceAdjustments[id] || price`: an override of 0 counts as none. */
  function CurrentPrice(adjustments: map<string, int>, p: Catalog.BaseProduct): (r: int)
    ensures p.productId in adjustments && adjustments[p.productId] != 0 ==> r == adjustments[p.productId]
    ensures !(p.productId in adjustments && adjustments[p.productId] != 0) ==> r == p.price
  {
    if p.productId in adjustments && adjustments[p.productId] != 0 then adjustments[p.productId] else p.price
  }

  function Sign(order: SortOrder): int {
    if order == Asc then 1 else -1
  }

  /** The key of a numeric sort field. */
  function Key(field: SortField, adjustments: map<string, int>, time: string -> int, p: Catalog.BaseProduct): int {
    match field
    case Price => CurrentPrice(adjustments, p)
    case Stock => p.stock
    case UpdatedAt => time(p.updatedAt)
    case Title => 0
  }

  /** The key a numeric field sorts by, negated for a descending order. */
  function SignedKey(field: SortField, order: SortOrder, adjustments: map<string, int>, time: string -> int)
    : Catalog.BaseProduct -> int
  {
    (p: Catalog.BaseProduct) => Sign(order) * Key(field, adjustments, time, p)
  }

  /** The comparator: `order * (key(a) - key(b))` for a numeric field, written
      as the difference of the signed keys; `order * localeCompare` for the
      title. */
  function Compare(field: SortField, order: SortOrder, adjustments: map<string, int>,
                   locale: (string, string) -> int, time: string -> int): (Catalog.BaseProduct, Catalog.BaseProduct) -> int {
    if field == Title then
      (a: Catalog.BaseProduct, b: Catalog.BaseProduct) => Sign(order) * locale(a.title, b.title)
    else
      Sorting.ByKey(SignedKey(field, order, adjustments, time))
  }

  /** `sortedAndFilteredProducts`. */
  function Shown(products: seq<Catalog.BaseProduct>, term: string, field: SortField, order: SortOrder,
                 adjustments: map<string, int>, locale: (string, string) -> int, time: string -> int)
    : seq<Catalog.BaseProduct>
  {
    Sorting.SortWith(Filtered(products, term), Compare(field, order, adjustments, locale, time))
  }

  /** The list shown holds exactly the matching products, each as often as in
      the input; on a numeric field it runs by that key, ascending or
      descending as the order says. */
  lemma ShownSortedMatches(products: seq<Catalog.BaseProduct>, term: string, field: SortField, order: SortOrder,
                           adjustments: map<string, int>, locale: (string, string) -> int, time: string -> int)
    ensures var r := Shown(products, term, field, order, adjustments, locale, time);
      multiset(r) == multiset(Filtered(products, term))
      && (forall k :: 0 <= k < |r| ==> Matches(r[k], term))
      && (field != Title ==> forall i, j :: 0 <= i <= j < |r| ==>
            Sign(order) * Key(field, adjustments, time, r[i]) <= Sign(order) * Key(field, adjustments, time, r[j]))
  {
    var f := Filtered(products, term);
    var r := Shown(products, term, field, order, adjustments, locale, time);
    forall k | 0 <= k < |r| ensures Matches(r[k], term) {
      assert r[k] in multiset(f);
    }
    if field != Title {
      var key := SignedKey(field, order, adjustments, time);
      assert r == Sorting.SortWith(f, Sorting.ByKey(key));
      Sorting.SortByKey(f, key);
      forall i, j | 0 <= i <= j < |r|
        ensures Sign(order) * Key(field, adjustments, time, r[i]) <= Sign(order) * Key(field, adjustments, time, r[j])
      {
        assert key(r[i]) <= key(r[j]);
      }
    }
  }

  /** By title the order follows `localeCompare`, given that swapping its
      arguments negates it. */
  lemma ShownByTitle(products: seq<Catalog.BaseProduct>, term: string, order: SortOrder,
                     adjustments: map<string, int>, locale: (string, string) -> int, time: string -> int)
    requires forall a: string, b: string :: locale(b, a) == -locale(a, b)
    ensures var r := Shown(products, term, Title, order, adjustments, locale, time);
      forall i :: 0 <= i < |r| - 1 ==> Sign(order) * locale(r[i].title, r[i + 1].title) <= 0
  {
    var compare := Compare(Title, order, adjustments, locale, time);
    assert Sorting.Total(compare) by {
      forall a: Catalog.BaseProduct, b: Catalog.BaseProduct ensures compare(a, b) <= 0 || compare(b, a) <= 0 {
        assert locale(b.title, a.title) == -locale(a.title, b.title);
      }
    }
    Sorting.SortOrdered(Filtered(products, term), compare);
  }

  function Flip(order: SortOrder): SortOrder {
    if order == Asc then Desc else Asc
  }

  /** `handleSort(field)`: the same field flips the order, a new one starts
      ascending. */
  function NextSort(current: (SortField, SortOrder), field: SortField): (r: (SortField, SortOrder))
    ensures r.0 == field
    ensures field == current.0 ==> r.1 != current.1
    ensures field != current.0 ==> r.1 == Asc
  {
    if current.0 == field then (field, Flip(current.1)) else (field, Asc)
  }

  /** Clicking the same header twice restores the sort; a new header clicked
      twice sorts it descending. */
  lemma HandleSortTwice(current: (SortField, SortOrder), field: SortField)
    ensures field == current.0 ==> NextSort(NextSort(current, field), field) == current
    ensures field != current.0 ==> NextSort(NextSort(current, field), field) == (field, Desc)
  {
  }

  /** `handlePriceChange(id, price)`. */
  function PriceChange(adjustments: map<string, int>, id: string, price: int): (r: map<string, int>)
    ensures r.Keys == adjustments.Keys + {id} && r[id] == price
    ensures forall k :: k in adjustments && k != id ==> r[k] == adjustments[k]
  {
    adjustments[id := price]
  }

  // ---------------------------------------------------------------- bulk adjustment

  /** `products.find(p => p.product_id === id)`. */
  function FindBase(products: seq<Catalog.BaseProduct>, id: string): (r: Option<Catalog.BaseProduct>)
    ensures r.Some? <==> exists k :: 0 <= k < |products| && products[k].productId == id
    ensures r.Some? ==> r.value.productId == id && r.value in products
    ensures r.Some? ==> exists k :: 0 <= k < |products| && products[k] == r.value
                          && forall j :: 0 <= j < k ==> products[j].productId != id
    decreases |products|
  {
    if |products| == 0 then None
    else if products[0].productId == id then Some(products[0])
    else
      var r := FindBase(products[1..], id);
      assert forall k :: 1 <= k < |products| ==> products[k] == products[1..][k - 1];
      if r.Some? then
        var k :| 0 <= k < |products[1..]| && products[1..][k].productId == id;
        assert products[k + 1].productId == id;
        r
      else r
  }

  /** `Math.round(current * (1 + pct / 100))`, on exact reals. */
  function Rounded(current: int, percent: real): int {
    Round(current as real * (1.0 + percent / 100.0))
  }

  /** The ids among `selected` that name a loaded product. */
  function Targets(selected: seq<string>, products: seq<Catalog.BaseProduct>): set<string> {
    set k | 0 <= k < |selected| && FindBase(products, selected[k]).Some? :: selected[k]
  }

  /** The overrides after a bulk adjustment: each target gets its current price
      (read from the overrides before the adjustment) scaled and rounded; every
      other override is kept. */
  function Adjusted(adjustments: map<string, int>, selected: seq<string>, products: seq<Catalog.BaseProduct>,
                    percent: real): map<string, int>
  {
    var targets := Targets(selected, products);
    map id | id in adjustments.Keys + targets ::
      if id in targets then Rounded(CurrentPrice(adjustments, FindBase(products, id).value), percent)
      else adjustments[id]
  }

  lemma TargetsStep(selected: seq<string>, products: seq<Catalog.BaseProduct>, i: nat)
    requires i < |selected|
    ensures Targets(selected[..i + 1], products) ==
      Targets(selected[..i], products) + (if FindBase(products, selected[i]).Some? then {selected[i]} else {})
  {
    var a := Targets(selected[..i + 1], products);
    var b := Targets(selected[..i], products) + (if FindBase(products, selected[i]).Some? then {selected[i]} else {});
    forall id | id in a ensures id in b {
      var k :| 0 <= k < i + 1 && FindBase(products, selected[..i + 1][k]).Some? && selected[..i + 1][k] == id;
      if k < i {
        assert selected[..i][k] == id;
      }
    }
    forall id | id in b ensures id in a {
      if id in Targets(selected[..i], products) {
        var k :| 0 <= k < i && FindBase(products, selected[..i][k]).Some? && selected[..i][k] == id;
        assert selected[..i + 1][k] == id;
      } else {
        assert selected[..i + 1][i] == id;
      }
    }
  }

  /** One more selected id: the overrides so far, with that id set when it
      names a loaded product. */
  lemma AdjustedStep(adjustments: map<string, int>, selected: seq<string>, products: seq<Catalog.BaseProduct>,
                     percent: real, i: nat)
    requires i < |selected|
    ensures var before := Adjusted(adjustments, selected[..i], products, percent);
      var found := FindBase(products, selected[i]);
      Adjusted(adjustments, selected[..i + 1], products, percent) ==
        if found.Some? then before[selected[i] := Rounded(CurrentPrice(adjustments, found.value), percent)] else before
  {
    TargetsStep(selected, products, i);
  }

  /** `handleBulkPriceAdjustment`: a copy of the overrides, updated in the
      order of the selection. */
  method BulkPriceAdjustment(adjustments: map<string, int>, selected: seq<string>, products: seq<Catalog.BaseProduct>,
                             percent: real) returns (r: map<string, int>)
    ensures r == Adjusted(adjustments, selected, products, percent)
  {
    r := adjustments;
    assert Targets(selected[..0], products) == {};
    assert r == Adjusted(adjustments, selected[..0], products, percent);
    for i := 0 to |selected|
      invariant r == Adjusted(adjustments, selected[..i], products, percent)
    {
      var id := selected[i];
      var product := FindBase(products, id);
      AdjustedStep(adjustments, selected, products, percent, i);
      if product.Some? {
        var current := CurrentPrice(adjustments, product.value);
        r := r[id := Rounded(current, percent)];
      }
    }
    assert selected[..|selected|] == selected;
  }

  /** The adjustment touches exactly the selected ids that name a loaded
      product, from their price before it, and keeps every other override. */
  lemma AdjustedSpec(adjustments: map<string, int>, selected: seq<string>, products: seq<Catalog.BaseProduct>,
                     percent: real)
    ensures var r := Adjusted(adjustments, selected, products, percent);
      (forall id :: id in r <==> id in adjustments || (id in selected && FindBase(products, id).Some?))
      && (forall id :: id in selected && FindBase(products, id).Some? ==>
            r[id] == Rounded(CurrentPrice(adjustments, FindBase(products, id).value), percent))
      && (forall id :: id in adjustments && !(id in selected && FindBase(products, id).Some?) ==> r[id] == adjustments[id])
  {
    var targets := Targets(selected, products);
    forall id ensures id in targets <==> id in selected && FindBase(products, id).Some? {
      if id in selected {
        var k :| 0 <= k < |selected| && selected[k] == id;
      }
    }
  }

  /** A positive percentage never lowers a positive price, and 0 % keeps it. */
  lemma RoundedMonotone(current: int, percent: real)
    requires current >= 0
    ensures percent >= 0.0 ==> Rounded(current, percent) >= current
    ensures percent == 0.0 ==> Rounded(current, percent) == current
  {
    if percent >= 0.0 {
      assert current as real * (1.0 + percent / 100.0) >= current as real * 1.0;
    }
  }

  // ---------------------------------------------------------------- selection

  function Ids(products: seq<Catalog.BaseProduct>): (r: seq<string>)
    ensures |r| == |products|
    ensures forall k :: 0 <= k < |r| ==> r[k] == products[k].productId
  {
    seq(|products|, k requires 0 <= k < |products| => products[k].productId)
  }

  /** `handleSelectAll` over the shown list: a selection as large as the list
      is cleared (only sizes are compared), any other becomes the shown ids. */
  function SelectAll(selected: seq<string>, shown: seq<Catalog.BaseProduct>): (r: seq<string>)
    ensures |selected| == |shown| ==> r == []
    ensures |selected| != |shown| ==>
      OrderedSet.NoDup(r) && forall id :: id in r <==> exists k :: 0 <= k < |shown| && shown[k].productId == id
  {
    if |selected| == |shown| then []
    else
      var r := OrderedSet.FromSeq(Ids(shown));
      assert forall id :: id in Ids(shown) <==> exists k :: 0 <= k < |shown| && shown[k].productId == id by {
        forall id | id in Ids(shown) ensures exists k :: 0 <= k < |shown| && shown[k].productId == id {
          var k :| 0 <= k < |Ids(shown)| && Ids(shown)[k] == id;
          assert shown[k].productId == id;
        }
      }
      r
  }

  /** The page state. */
  class PricingPage {
    var products: seq<Catalog.BaseProduct>
    var searchTerm: string
    var sortField: SortField
    var sortOrder: SortOrder
    var priceAdjustments: map<string, int>
    var bulkAdjustmentPercent: real
    var selectedProducts: seq<string>
    var showBulkEdit: bool
    var error: Option<string>
    var isLoading: bool

    constructor()
      ensures products == [] && searchTerm == "" && sortField == UpdatedAt && sortOrder == Desc
      ensures priceAdjustments == map[] && bulkAdjustmentPercent == 0.0 && selectedProducts == []
      ensures !showBulkEdit && error.None? && !isLoading
    {
      products := [];
      searchTerm := "";
      sortField := UpdatedAt;
      sortOrder := Desc;
      priceAdjustments := map[];
      bulkAdjustmentPercent := 0.0;
      selectedProducts := [];
      showBulkEdit := false;
      error := None;
      isLoading := false;
    }

    /** `loadProducts()`, given what the call passes as settings (as written,
        `undefined`): a list read replaces the products, an error shows its
        message, and loading ends either way. A JSON reply that is not a list
        is not represented and leaves the list as it was. */
    method LoadProducts(settings: Option<AppSettings.Settings>, outcome: Fetched<seq<Catalog.BaseProduct>>)
      returns (trace: seq<Event>)
      modifies this
      ensures var o := NetseaApi.FetchBaseProducts(settings, outcome);
        && trace == o.trace
        && (o.result.Ok? && o.result.value.Payload? ==> products == o.result.value.value && error == old(error))
        && (o.result.Ok? && !o.result.value.Payload? ==> products == old(products) && error == old(error))
        && (o.result.Err? ==> products == old(products) && error == Some(LoadError(o.result.error)))
      ensures !isLoading
      ensures unchanged(this`searchTerm, this`sortField, this`sortOrder, this`priceAdjustments,
                        this`bulkAdjustmentPercent, this`selectedProducts, this`showBulkEdit)
    {
      isLoading := true;
      var o := NetseaApi.FetchBaseProducts(settings, outcome);
      if o.result.Ok? {
        if o.result.value.Payload? {
          products := o.result.value.value;
        }
      } else {
        error := Some(LoadError(o.result.error));
      }
      isLoading := false;
      trace := o.trace;
    }

    method HandleSort(field: SortField)
      modifies this
      ensures (sortField, sortOrder) == NextSort(old((sortField, sortOrder)), field)
      ensures unchanged(this`products, this`searchTerm, this`priceAdjustments, this`bulkAdjustmentPercent,
                        this`selectedProducts, this`showBulkEdit, this`error, this`isLoading)
    {
      var next := NextSort((sortField, sortOrder), field);
      sortField, sortOrder := next.0, next.1;
    }

    method HandlePriceChange(id: string, price: int)
      modifies this
      ensures priceAdjustments == PriceChange(old(priceAdjustments), id, price)
      ensures unchanged(this`products, this`searchTerm, this`sortField, this`sortOrder, this`bulkAdjustmentPercent,
                        this`selectedProducts, this`showBulkEdit, this`error, this`isLoading)
    {
      priceAdjustments := PriceChange(priceAdjustments, id, price);
    }

    method HandleBulkPriceAdjustment()
      modifies this
      ensures priceAdjustments == Adjusted(old(priceAdjustments), old(selectedProducts), old(products), old(bulkAdjustmentPercent))
      ensures selectedProducts == [] && !showBulkEdit
      ensures unchanged(this`products, this`searchTerm, this`sortField, this`sortOrder, this`bulkAdjustmentPercent,
                        this`error, this`isLoading)
    {
      priceAdjustments := BulkPriceAdjustment(priceAdjustments, selectedProducts, products, bulkAdjustmentPercent);
      showBulkEdit := false;
      selectedProducts := [];
    }

    method HandleSelectAll(locale: (string, string) -> int, time: string -> int)
      modifies this
      ensures selectedProducts == SelectAll(old(selectedProducts),
        Shown(old(products), old(searchTerm), old(sortField), old(sortOrder), old(priceAdjustments), locale, time))
      ensures unchanged(this`products, this`searchTerm, this`sortField, this`sortOrder, this`priceAdjustments,
                        this`bulkAdjustmentPercent, this`showBulkEdit, this`error, this`isLoading)
    {
      selectedProducts := SelectAll(selectedProducts, Shown(products, searchTerm, sortField, sortOrder, priceAdjustments, locale, time));
    }

    /** `handleSaveChanges`: no request is made; the overrides and the
        selection are cleared and the confirmation is shown in the error slot. */
    method HandleSaveChanges()
      modifies this
      ensures priceAdjustments == map[] && selectedProducts == [] && error == Some(Saved) && !isLoading
      ensures unchanged(this`products, this`searchTerm, this`sortField, this`sortOrder, this`bulkAdjustmentPercent,
                        this`showBulkEdit)
    {
      isLoading := true;
      error := Some(Saved);
      priceAdjustments := map[];
      selectedProducts := [];
      isLoading := false;
    }
  }
}
