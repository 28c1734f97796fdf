/** The JSON bodies sent to the WooCommerce REST API
    (src/services/api/woocommerce/types.ts:1-28) and the parts of them that both
    publishers build the same way: variations priced in proportion to the first
    variant, the image list and the 300-character short description
    (src/services/woocommerceApi.ts:158-198, src/services/api/woocommerce/products.ts:120-160).
    Both publishers build `images` as slot 1 plus the truthy slots 2-5 and then
    drop empty sources, which is `Catalog.ImageList`. */
module WooPayload {
  import opened Prelude
  import opened Catalog
  import Text

  datatype VariationAttribute = VariationAttribute(name: string, option: string)

  datatype VariationData = VariationData(
    regularPrice: string,
    description: string,
    attributes: seq<VariationAttribute>,
    stockQuantity: int,
    manageStock: bool,
    sku: string)

  datatype ProductAttribute = ProductAttribute(name: string, visible: bool, variation: bool, options: seq<string>)

  /** `type` is always 'variable' and `status` always 'publish'. */
  datatype ProductData = ProductData(
    name: string,
    kind: string,
    status: string,
    description: string,
    shortDescription: string,
    categories: seq<int>,
    images: seq<string>,
    attributes: seq<ProductAttribute>,
    variations: seq<VariationData>,
    sku: string,
    metaData: seq<MetaEntry>)

  /** A category to create; `parent` is sent only when present. */
  datatype CategoryData = CategoryData(name: string, slug: string, parent: Option<int>)

  /** The stock update of src/services/inventorySync.ts:58-61. */
  datatype StockUpdate = StockUpdate(stockQuantity: int, manageStock: bool)

  /** The attribute name both publishers use ("種類", kind). */
  const KindAttribute: string := "種類"

  /** `Math.ceil(v * (price / anchor)).toString()` with JavaScript's division by
      zero: `price / 0` is Infinity, -Infinity or NaN, and so is the product unless
      it is NaN already. */
  function VariantPriceText(v: int, price: int, anchor: int): (r: string)
    ensures anchor != 0 ==> r == Text.IntStr(Ceil(v as real * (price as real / anchor as real)))
    ensures anchor == 0 ==> r in {"Infinity", "-Infinity", "NaN"}
  {
    if anchor != 0 then Text.IntStr(Ceil(v as real * (price as real / anchor as real)))
    else if price == 0 || v == 0 then "NaN"
    else if (price > 0) == (v > 0) then "Infinity"
    else "-Infinity"
  }

  /** The payload of one variation; `anchor` is `product.set[0].price`. */
  function BuildVariation(productId: string, v: ProductVariant, price: int, anchor: int): VariationData {
    VariationData(
      VariantPriceText(v.price, price, anchor),
      v.labelText,
      [VariationAttribute(KindAttribute, v.labelText)],
      if InStock(v) then v.setNum else 0,
      true,
      productId + "-" + v.directItemId)
  }

  /** `product.set.map(...)`: one payload per variant, in order. */
  function Variations(p: Product, price: int): (r: seq<VariationData>)
    ensures |r| == |p.variants|
    ensures forall k :: 0 <= k < |r| ==>
      && r[k].sku == p.productId + "-" + p.variants[k].directItemId
      && r[k].stockQuantity == (if InStock(p.variants[k]) then p.variants[k].setNum else 0)
      && r[k].manageStock
      && r[k].description == p.variants[k].labelText
      && r[k].regularPrice == VariantPriceText(p.variants[k].price, price, p.variants[0].price)
  {
    seq(|p.variants|, k requires 0 <= k < |p.variants| => BuildVariation(p.productId, p.variants[k], price, p.variants[0].price))
  }

  /** With a non-zero anchor the first variant is listed at the listing price itself. */
  lemma FirstVariationAtListingPrice(p: Product, price: int)
    requires |p.variants| > 0 && p.variants[0].price != 0
    ensures Variations(p, price)[0].regularPrice == Text.IntStr(price)
  {
    var a := p.variants[0].price as real;
    assert a * (price as real / a) == price as real;
    assert Ceil(price as real) == price;
  }

  /** Prices scale with the anchor: a variant priced at `t` times the anchor is
      listed at `t` times the listing price. */
  lemma VariantsScaleListingPrice(t: int, price: int, anchor: int)
    requires anchor != 0
    ensures VariantPriceText(t * anchor, price, anchor) == Text.IntStr(t * price)
  {
    ScaledRatio(t, price, anchor);
  }

  lemma ScaledRatio(t: int, price: int, anchor: int)
    requires anchor != 0
    ensures (t * anchor) as real * (price as real / anchor as real) == (t * price) as real
  {
    var a := anchor as real;
    var q := price as real / a;
    assert q * a == price as real;
    calc {
      (t * anchor) as real * q;
      (t as real * a) * q;
      t as real * (q * a);
      (t * price) as real;
    }
  }

  /** `d.slice(0, 300) + (d.length > 300 ? '...' : '')`. */
  function ShortDescription(d: string): (r: string)
    ensures |d| <= 300 ==> r == d
    ensures |d| > 300 ==> r == d[..300] + "..."
  {
    Text.Slice(d, 0, 300) + (if |d| > 300 then "..." else "")
  }

  /** The single "種類" attribute listing every variant label in order. */
  function KindAttributes(p: Product): (r: seq<ProductAttribute>)
    ensures |r| == 1 && r[0].name == KindAttribute && r[0].visible && r[0].variation
    ensures |r[0].options| == |p.variants| && forall k :: 0 <= k < |p.variants| ==> r[0].options[k] == p.variants[k].labelText
  {
    [ProductAttribute(KindAttribute, true, true, seq(|p.variants|, k requires 0 <= k < |p.variants| => p.variants[k].labelText))]
  }

  /** The productData object both publishers send, given the rewritten name, the
      description and the category ids. */
  function BuildProductData(p: Product, name: string, description: string, categories: seq<int>, price: int): (r: ProductData)
    ensures r.name == name && r.kind == "variable" && r.status == "publish"
    ensures r.description == description && r.shortDescription == ShortDescription(description)
    ensures r.categories == categories && r.images == ImageList(p)
    ensures r.variations == Variations(p, price) && r.sku == p.productId
    ensures r.metaData == [MetaEntry(NetseaIdKey, p.productId)]
  {
    ProductData(name, "variable", "publish", description, ShortDescription(description), categories,
      ImageList(p), KindAttributes(p), Variations(p, price), p.productId, [MetaEntry(NetseaIdKey, p.productId)])
  }
}
