/** The records the application exchanges with NETSEA, BASE and WooCommerce
    (src/services/netseaApi.ts:4-45, src/types/index.ts:3-21), as values.
    Optional JavaScript properties are `Option`s. */
module Catalog {
  import opened Prelude

  // ---------------------------------------------------------------- NETSEA

  datatype Supplier = Supplier(id: int, corpName: string, status: string)

  /** One purchasable variant of a NETSEA product (an element of `set`; the field
      `label` is `labelText` here); `soldOutFlag` is "Y" or "N". */
  datatype ProductVariant = ProductVariant(directItemId: string, labelText: string, price: int, setNum: int, soldOutFlag: string)

  datatype Product = Product(
    productId: string,
    productName: string,
    description: Option<string>,
    categoryId: string,
    imageUrl1: string,
    imageUrl2: Option<string>,
    imageUrl3: Option<string>,
    imageUrl4: Option<string>,
    imageUrl5: Option<string>,
    updateDate: string,
    variants: seq<ProductVariant>)

  datatype Category = Category(id: int, name: string)

  /** A BASE shop item, as the pricing page lists it. */
  datatype BaseProduct = BaseProduct(productId: string, title: string, price: int, stock: int, imgUrl: string, url: string, updatedAt: string)

  /** A variant is in stock when its sold-out flag is 'N'. */
  predicate InStock(v: ProductVariant) {
    v.soldOutFlag == "N"
  }

  /** `product.set.some(v => v.sold_out_flag === 'N')`. */
  predicate HasStock(p: Product) {
    exists k :: 0 <= k < |p.variants| && InStock(p.variants[k])
  }

  /** The five image slots of a product in order; a missing slot reads as "". */
  function ImageSlots(p: Product): (r: seq<string>)
    ensures |r| == 5 && r[0] == p.imageUrl1
  {
    [p.imageUrl1, p.imageUrl2.GetOr(""), p.imageUrl3.GetOr(""), p.imageUrl4.GetOr(""), p.imageUrl5.GetOr("")]
  }

  predicate NonEmpty(s: string) { s != "" }

  /** `[url_1, ..., url_5].filter(Boolean)`: the non-empty image URLs in slot order. */
  function ImageList(p: Product): (r: seq<string>)
    ensures |r| <= 5
    ensures forall k :: 0 <= k < |r| ==> r[k] != "" && r[k] in ImageSlots(p)
    ensures forall k :: 0 <= k < 5 && ImageSlots(p)[k] != "" ==> ImageSlots(p)[k] in r
  {
    Filter(ImageSlots(p), NonEmpty)
  }

  // ---------------------------------------------------------------- WooCommerce

  datatype CategoryRef = CategoryRef(id: int, name: string)
  datatype VariationSummary = VariationSummary(id: int, sku: string, stockQuantity: int)

  /** The application's view of a store product (src/types/index.ts:3-21). */
  datatype WooCommerceProduct = WooCommerceProduct(
    id: string,
    originalProductId: string,
    name: string,
    price: real,
    stockQuantity: int,
    images: seq<string>,
    permalink: string,
    dateCreated: string,
    dateModified: string,
    status: string,
    categories: seq<CategoryRef>,
    sku: string,
    variations: Option<seq<VariationSummary>>)

  datatype MetaEntry = MetaEntry(key: string, value: string)

  /** A product as the WooCommerce REST API returns it, before mapping; `variations`
      lists variation ids. */
  datatype RawWooProduct = RawWooProduct(
    id: int,
    sku: Option<string>,
    metaData: Option<seq<MetaEntry>>,
    name: string,
    price: Option<string>,
    stockQuantity: Option<int>,
    images: Option<seq<string>>,
    permalink: string,
    dateCreated: string,
    dateModified: string,
    status: string,
    categories: Option<seq<CategoryRef>>,
    variations: Option<seq<int>>)

  /** A variation as the variations endpoint returns it. */
  datatype RawVariation = RawVariation(id: int, sku: Option<string>, stockQuantity: Option<int>)

  /** `meta_data?.find(meta => meta.key === key)?.value`. */
  function FindMeta(meta: seq<MetaEntry>, key: string): (r: Option<string>)
    ensures r.Some? <==> exists k :: 0 <= k < |meta| && meta[k].key == key
    ensures r.Some? ==> exists k :: 0 <= k < |meta| && meta[k].key == key && meta[k].value == r.value
                          && forall j :: 0 <= j < k ==> meta[j].key != key
    decreases |meta|
  {
    if |meta| == 0 then None
    else if meta[0].key == key then Some(meta[0].value)
    else
      var r := FindMeta(meta[1..], key);
      assert forall k :: 1 <= k < |meta| ==> meta[k] == meta[1..][k - 1];
      if r.Some? then
        var k :| 0 <= k < |meta[1..]| && meta[1..][k].key == key && meta[1..][k].value == r.value
                 && forall j :: 0 <= j < k ==> meta[1..][j].key != key;
        assert meta[k + 1].key == key && meta[k + 1].value == r.value;
        r
      else r
  }

  /** The meta key under which a published product records its NETSEA product id. */
  const NetseaIdKey: string := "_netsea_product_id"
}
