/** The NETSEA product list (src/components/ProductList.tsx): the exclusion and
    highlighting of each product under the content settings, the search and stock
    filter, the selection and monitoring sets, bulk publishing and the margin price. */
module ProductList {
  import opened Prelude
  import opened Text
  import opened Catalog
  import opened AppSettings
  import ContentRules
  import OrderedSet

  // ---------------------------------------------------------------- highlighting

  /** The replacement `highlightReplacedWords` puts in place of each match. */
  function Markup(from: string, to: string): string {
    "<span" + (" class=\"replaced-word\" data-tooltip=\"元の表記: " + from + "\">" + to + "</span>")
  }

  /** The rules `highlightReplacedWords` effectively applies: same patterns, in the
      same order, each replaced by its markup. */
  function MarkupRules(rules: seq<ReplaceRule>): (r: seq<ReplaceRule>)
    ensures |r| == |rules|
    ensures forall k :: 0 <= k < |r| ==> r[k] == ReplaceRule(rules[k].from, Markup(rules[k].from, rules[k].to))
  {
    seq(|rules|, k requires 0 <= k < |rules| => ReplaceRule(rules[k].from, Markup(rules[k].from, rules[k].to)))
  }

  /** The highlighted name: the ordered rewrite with markup replacements. */
  function Highlighted(text: string, rules: seq<ReplaceRule>): string {
    ContentRules.Rewrite(text, MarkupRules(rules))
  }

  /** `highlightReplacedWords(text, replaceWords)`: the `forEach` that reassigns `result`. */
  method HighlightReplacedWords(text: string, rules: seq<ReplaceRule>) returns (result: string)
    ensures result == Highlighted(text, rules)
  {
    var marked := MarkupRules(rules);
    result := text;
    var i := 0;
    while i < |rules|
      invariant 0 <= i <= |rules|
      invariant ContentRules.Rewrite(result, marked[i..]) == Highlighted(text, rules)
    {
      assert marked[i..][0] == marked[i] && marked[i..][1..] == marked[i + 1..];
      result := ReplaceAllCI(result, rules[i].from, Markup(rules[i].from, rules[i].to));
      i := i + 1;
    }
  }

  /** Every piece of markup contains the word "span". */
  lemma MarkupHasSpan(from: string, to: string)
    ensures ContainsCI(Markup(from, to), "span")
  {
    var m := Markup(from, to);
    assert "<span"[1..5] == "span";
    assert m[1..5] == "span";
    LowerSlice(m, 1, 5);
    assert Lower("span") == "span";
    assert OccursAt(Lower(m), Lower("span"), 1);
    ContainsAt(Lower(m), Lower("span"));
  }

  /** Later rules also see the markup that earlier rules inserted: after a first
      rule has matched the whole name, a second rule for "span" rewrites inside the
      first rule's markup. */
  lemma LaterRulesSeeMarkup(text: string, r1: ReplaceRule, r2: ReplaceRule)
    requires r1.from != "" && Lower(text) == Lower(r1.from) && r2.from == "span"
    ensures Highlighted(text, [r1, r2]) == ReplaceAllCI(Markup(r1.from, r1.to), "span", Markup("span", r2.to))
    ensures ContainsCI(Markup(r1.from, r1.to), r2.from)
  {
    var m1 := Markup(r1.from, r1.to);
    var m2 := Markup("span", r2.to);
    ReplaceWhole(text, r1.from, m1);
    MarkupHasSpan(r1.from, r1.to);
    var marked := MarkupRules([r1, r2]);
    assert marked[0] == ReplaceRule(r1.from, m1) && marked[1] == ReplaceRule("span", m2);
    assert ContentRules.Rewrite(text, marked) == ContentRules.Rewrite(ReplaceAllCI(text, r1.from, m1), marked[1..]);
    assert marked[1..][0] == marked[1] && marked[1..][1..] == [];
    assert ContentRules.Rewrite(m1, marked[1..]) == ContentRules.Rewrite(ReplaceAllCI(m1, "span", m2), []);
  }

  // ---------------------------------------------------------------- processed products

  /** A product with the fields `processedProducts` adds. */
  datatype Processed = Processed(product: Product, isExcluded: bool, matchedWords: seq<string>, processedName: string)

  /** One element of `processedProducts`. Exclusion and matching look at the
      product name only. */
  function Process(p: Product, s: Settings): (r: Processed)
    ensures r.product == p
    ensures r.isExcluded <==> ContentRules.Excluded(p.productName, s.excludeWords)
    ensures r.isExcluded <==> |r.matchedWords| > 0
    ensures r.matchedWords == ContentRules.MatchedWords(p.productName, s.excludeWords)
    ensures r.processedName == Highlighted(p.productName, s.replaceWords)
  {
    ContentRules.ExcludedIffMatched(p.productName, s.excludeWords);
    var matched := ContentRules.MatchedWords(p.productName, s.excludeWords);
    Processed(p, |matched| > 0, matched, Highlighted(p.productName, s.replaceWords))
  }

  function ProcessAll(products: seq<Product>, s: Settings): (r: seq<Processed>)
    ensures |r| == |products|
    ensures forall k :: 0 <= k < |r| ==> r[k] == Process(products[k], s)
  {
    seq(|products|, k requires 0 <= k < |products| => Process(products[k], s))
  }

  /** The predicate of `filteredProducts`. */
  predicate Shown(p: Processed, term: string, hasStock: bool) {
    ContainsCI(p.product.productName, term) && (!hasStock || HasStock(p.product))
  }

  /** `filteredProducts`: order kept, a product kept exactly when `Shown`. */
  function FilterProducts(products: seq<Processed>, term: string, hasStock: bool): (r: seq<Processed>)
    ensures |r| <= |products|
    ensures forall k :: 0 <= k < |r| ==> Shown(r[k], term, hasStock) && r[k] in products
    ensures forall k :: 0 <= k < |products| && Shown(products[k], term, hasStock) ==> products[k] in r
  {
    Filter(products, (p: Processed) => Shown(p, term, hasStock))
  }

  /** An empty search term without the stock filter shows every product. */
  lemma {:induction false} EmptyFilterShowsAll(products: seq<Processed>)
    ensures FilterProducts(products, "", false) == products
    decreases |products|
  {
    if |products| > 0 {
      ContainsEmpty(Lower(products[0].product.productName));
      assert Lower("") == "";
      assert Shown(products[0], "", false);
      EmptyFilterShowsAll(products[1..]);
      assert products == [products[0]] + products[1..];
    }
  }

  // ---------------------------------------------------------------- selection

  /** The products `handleSelectAll` may select: shown, not excluded, not published. */
  function Available(filtered: seq<Processed>, published: string -> bool): (r: seq<Processed>)
    ensures forall k :: 0 <= k < |r| ==> !r[k].isExcluded && !published(r[k].product.productId) && r[k] in filtered
    ensures forall k :: 0 <= k < |filtered| && !filtered[k].isExcluded && !published(filtered[k].product.productId) ==> filtered[k] in r
  {
    Filter(filtered, (p: Processed) => !p.isExcluded && !published(p.product.productId))
  }

  function Ids(products: seq<Processed>): (r: seq<string>)
    ensures |r| == |products|
    ensures forall k :: 0 <= k < |r| ==> r[k] == products[k].product.productId
  {
    seq(|products|, k requires 0 <= k < |products| => products[k].product.productId)
  }

  /** The new selection of `handleSelectAll`. The test compares sizes only. */
  function SelectAllResult(selected: seq<string>, filtered: seq<Processed>, published: string -> bool): (r: seq<string>)
    ensures |selected| == |Available(filtered, published)| ==> r == []
    ensures |selected| != |Available(filtered, published)| ==>
      OrderedSet.NoDup(r) && forall id :: id in r <==> exists k :: 0 <= k < |Available(filtered, published)| && Available(filtered, published)[k].product.productId == id
  {
    var avail := Available(filtered, published);
    if |selected| == |avail| then []
    else
      var r := OrderedSet.FromSeq(Ids(avail));
      assert forall id :: id in Ids(avail) <==> exists k :: 0 <= k < |avail| && avail[k].product.productId == id by {
        forall id | id in Ids(avail) ensures exists k :: 0 <= k < |avail| && avail[k].product.productId == id {
          var k :| 0 <= k < |Ids(avail)| && Ids(avail)[k] == id;
          assert avail[k].product.productId == id;
        }
      }
      r
  }

  /** Because only sizes are compared, a selection of the right size but of other
      products is cleared instead of completed. */
  lemma SelectAllComparesSizesOnly()
    ensures var p := Processed(Product("a", "A", None, "", "", None, None, None, None, "", []), false, [], "A");
      SelectAllResult(["z"], [p], (_: string) => false) == []
  {
    var p := Processed(Product("a", "A", None, "", "", None, None, None, None, "", []), false, [], "A");
    var f := (_: string) => false;
    assert Available([p], f) == [p] by {
      assert Filter([p], (q: Processed) => !q.isExcluded && !f(q.product.productId)) == [p] + Filter([p][1..], (q: Processed) => !q.isExcluded && !f(q.product.productId));
    }
  }

  /** `products.find(p => p.product_id === id)`. */
  function FindProduct(products: seq<Product>, id: string): (r: Option<Product>)
    ensures r.Some? <==> exists k :: 0 <= k < |products| && products[k].productId == id
    ensures r.Some? ==> r.value in products && r.value.productId == id
    ensures r.Some? ==> exists k :: 0 <= k < |products| && products[k] == r.value
                          && forall j :: 0 <= j < k ==> products[j].productId != id
    decreases |products|
  {
    if |products| == 0 then None
    else if products[0].productId == id then Some(products[0])
    else
      var r := FindProduct(products[1..], id);
      assert forall k :: 1 <= k < |products| ==> products[k] == products[1..][k - 1];
      r
  }

  /** The products `handleBulkPublish` hands to `onTogglePublish`, as written: the
      guard `!product.isExcluded` reads a field that the raw `products` do not have,
      so every selected id that is found is toggled. */
  function BulkTargetsAsWritten(selected: seq<string>, products: seq<Product>): (r: seq<Product>)
    ensures |r| <= |selected|
    ensures forall k :: 0 <= k < |r| ==> r[k] in products && r[k].productId in selected
    decreases |selected|
  {
    if |selected| == 0 then []
    else
      var found := FindProduct(products, selected[0]);
      (if found.Some? then [found.value] else []) + BulkTargetsAsWritten(selected[1..], products)
  }

  /** The guarded targets: found and not excluded by the current exclude words,
      which is what the `!product.isExcluded` guard would keep if the looked-up
      records carried the flag. */
  function BulkTargets(selected: seq<string>, products: seq<Product>, words: seq<string>): (r: seq<Product>)
    ensures |r| <= |selected|
    ensures forall k :: 0 <= k < |r| ==>
      r[k] in products && r[k].productId in selected && !ContentRules.Excluded(r[k].productName, words)
    decreases |selected|
  {
    if |selected| == 0 then []
    else
      var found := FindProduct(products, selected[0]);
      (if found.Some? && !ContentRules.Excluded(found.value.productName, words) then [found.value] else [])
        + BulkTargets(selected[1..], products, words)
  }

  /** The guard never fires: a product selected before an exclude word that
      matches it was added is still toggled by the code as written. Here "Bag"
      is selected, then "bag" becomes an exclude word; the guarded targets leave
      it out. */
  lemma BulkPublishToggleExcluded()
    ensures var p := Product("1", "Bag", None, "", "", None, None, None, None, "", []);
      BulkTargetsAsWritten(["1"], [p]) == [p]
      && ContentRules.Excluded(p.productName, ["bag"])
      && BulkTargets(["1"], [p], ["bag"]) == []
  {
    var p := Product("1", "Bag", None, "", "", None, None, None, None, "", []);
    assert Lower("Bag") == "bag" && Lower("bag") == "bag";
    assert OccursAt(Lower("Bag"), Lower("bag"), 0);
    ContainsAt(Lower("Bag"), Lower("bag"));
    assert ContentRules.MatchesWord("Bag", ["bag"][0]);
    assert FindProduct([p], "1") == Some(p);
  }

  /** No selected id names an excluded product: what the page's own controls
      keep, since select-all and the per-row button only add ids of products
      that are not excluded. */
  predicate SelectionClean(selected: seq<string>, products: seq<Product>, words: seq<string>) {
    forall k :: 0 <= k < |selected| && FindProduct(products, selected[k]).Some? ==>
      !ContentRules.Excluded(FindProduct(products, selected[k]).value.productName, words)
  }

  /** On a clean selection the code as written toggles exactly the guarded
      targets, so the inert guard changes nothing there. */
  lemma {:induction false} BulkTargetsAgree(selected: seq<string>, products: seq<Product>, words: seq<string>)
    requires SelectionClean(selected, products, words)
    ensures BulkTargetsAsWritten(selected, products) == BulkTargets(selected, products, words)
    decreases |selected|
  {
    if |selected| > 0 {
      assert SelectionClean(selected[1..], products, words) by {
        forall k | 0 <= k < |selected[1..]| && FindProduct(products, selected[1..][k]).Some?
          ensures !ContentRules.Excluded(FindProduct(products, selected[1..][k]).value.productName, words)
        {
          assert selected[1..][k] == selected[k + 1];
        }
      }
      BulkTargetsAgree(selected[1..], products, words);
    }
  }

  /** With no exclude words the two agree. */
  lemma {:induction false} BulkTargetsNoWords(selected: seq<string>, products: seq<Product>)
    ensures BulkTargets(selected, products, []) == BulkTargetsAsWritten(selected, products)
    decreases |selected|
  {
    if |selected| > 0 {
      BulkTargetsNoWords(selected[1..], products);
    }
  }

  /** The loop invariant of `BulkPublish`: the products toggled so far followed
      by the targets of the rest of the selection are the targets of the whole
      selection. */
  predicate BulkAccounted(sel: seq<string>, products: seq<Product>, i: nat, toggled: seq<Product>) {
    i <= |sel| && toggled + BulkTargetsAsWritten(sel[i..], products) == BulkTargetsAsWritten(sel, products)
  }

  lemma BulkStart(sel: seq<string>, products: seq<Product>)
    ensures BulkAccounted(sel, products, 0, [])
  {
    assert sel[0..] == sel;
  }

  /** One unfolding of `BulkTargetsAsWritten`. */
  lemma BulkUnfold(rest: seq<string>, products: seq<Product>, found: Option<Product>, step: seq<Product>)
    requires |rest| > 0 && found == FindProduct(products, rest[0])
    requires step == if found.Some? then [found.value] else []
    ensures BulkTargetsAsWritten(rest, products) == step + BulkTargetsAsWritten(rest[1..], products)
  {
  }

  lemma BulkStep(sel: seq<string>, products: seq<Product>, i: nat, toggled: seq<Product>,
                 found: Option<Product>, step: seq<Product>)
    requires i < |sel| && BulkAccounted(sel, products, i, toggled)
    requires found == FindProduct(products, sel[i])
    requires step == if found.Some? then [found.value] else []
    ensures BulkAccounted(sel, products, i + 1, toggled + step)
  {
    var rest := sel[i..];
    assert rest[0] == sel[i] && rest[1..] == sel[i + 1..];
    BulkUnfold(rest, products, found, step);
    AppendAssoc(toggled, step, BulkTargetsAsWritten(sel[i + 1..], products));
  }

  lemma BulkEnd(sel: seq<string>, products: seq<Product>, i: nat, toggled: seq<Product>)
    requires i == |sel| && BulkAccounted(sel, products, i, toggled)
    ensures toggled == BulkTargetsAsWritten(sel, products)
  {
    assert sel[i..] == [];
    assert toggled + [] == toggled;
  }

  // ---------------------------------------------------------------- margin price

  const DefaultMarginRate: int := 20

  /** `calculateMarginPrice(price)` = `Math.ceil(price * (100 + marginRate) / 100)`:
      the least integer whose hundredfold reaches `price * (100 + margin)`. */
  function MarginPrice(price: int, margin: int): (r: int)
    ensures r * 100 >= price * (100 + margin) && (r - 1) * 100 < price * (100 + margin)
    ensures price >= 0 && margin >= 0 ==> r >= price
  {
    var x := price * (100 + margin);
    var r := Ceil(x as real / 100.0);
    assert r as real * 100.0 >= x as real;
    assert (r - 1) as real * 100.0 < x as real;
    assert x >= price * 100 <== price >= 0 && margin >= 0;
    r
  }

  /** When the marked-up amount is a whole number of yen no rounding happens:
      the price is raised by exactly `margin` percent (at the default 20 %, so
      for every price divisible by 5). */
  lemma MarginExact(price: int, margin: int)
    requires (price * (100 + margin)) % 100 == 0
    ensures MarginPrice(price, margin) * 100 == price * (100 + margin)
    ensures margin == DefaultMarginRate && price % 5 == 0 ==> MarginPrice(price, margin) == price + price / 5
  {
    var x := price * (100 + margin);
    var r := MarginPrice(price, margin);
    assert x == (x / 100) * 100;
    assert r == x / 100;
  }

  // ---------------------------------------------------------------- component state

  /** The two `Set`s of the component: selected and monitored product ids, in
      insertion order. */
  class ProductListView {
    var selected: seq<string>
    var monitored: seq<string>

    predicate Valid()
      reads this
    {
      OrderedSet.NoDup(selected) && OrderedSet.NoDup(monitored)
    }

    constructor ()
      ensures selected == [] && monitored == [] && Valid()
    {
      selected := [];
      monitored := [];
    }

    /** `handleSelectAll`. */
    method SelectAll(filtered: seq<Processed>, published: string -> bool)
      requires Valid()
      modifies this
      ensures selected == SelectAllResult(old(selected), filtered, published)
      ensures monitored == old(monitored) && Valid()
    {
      selected := SelectAllResult(selected, filtered, published);
    }

    /** The selection toggle on a product's publish button, after `onTogglePublish`. */
    method ToggleSelected(id: string)
      requires Valid()
      modifies this
      ensures selected == OrderedSet.Toggle(old(selected), id)
      ensures monitored == old(monitored) && Valid()
    {
      selected := OrderedSet.Toggle(selected, id);
    }

    /** `handleBulkPublish()`: returns the products passed to `onTogglePublish`,
        in selection order, and clears the selection. The lookup is in the raw
        `products`, which carry no `isExcluded` field, so every selected id that
        is found is toggled (on a clean selection these are the guarded targets,
        `BulkTargetsAgree`). */
    method BulkPublish(products: seq<Product>) returns (toggled: seq<Product>)
      requires Valid()
      modifies this
      ensures toggled == BulkTargetsAsWritten(old(selected), products)
      ensures selected == [] && monitored == old(monitored) && Valid()
    {
      var sel := selected;
      toggled := [];
      var i: nat := 0;
      BulkStart(sel, products);
      while i < |sel|
        invariant i <= |sel|
        invariant BulkAccounted(sel, products, i, toggled)
        invariant monitored == old(monitored)
      {
        var found := FindProduct(products, sel[i]);
        var step: seq<Product> := if found.Some? then [found.value] else [];
        BulkStep(sel, products, i, toggled, found, step);
        toggled := toggled + step;
        i := i + 1;
      }
      BulkEnd(sel, products, i, toggled);
      selected := [];
    }

    /** `toggleMonitoring(id)`. */
    method ToggleMonitoring(id: string)
      requires Valid()
      modifies this
      ensures monitored == OrderedSet.Toggle(old(monitored), id)
      ensures selected == old(selected) && Valid()
    {
      monitored := OrderedSet.Toggle(monitored, id);
    }
  }
}
