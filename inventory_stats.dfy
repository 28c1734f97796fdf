/** The three tiles above the inventory table
    (src/components/inventory/InventoryStats.tsx): the number of store
    products, how many are out of stock and how many are running low. */
module InventoryStats {
  import opened Prelude
  import Catalog
  import Inventory

  type Product = Catalog.WooCommerceProduct

  datatype Stats = Stats(totalProducts: nat, outOfStock: nat, lowStock: nat)

  predicate IsOutOfStock(p: Product) { p.stockQuantity <= 0 }

  predicate IsLowStock(p: Product) { p.stockQuantity > 0 && p.stockQuantity <= 5 }

  function StatsOf(products: seq<Product>): Stats {
    Stats(|products|, Count(products, IsOutOfStock), Count(products, IsLowStock))
  }

  /** Two tests that agree on every element count the same elements. */
  lemma {:induction false} CountAgrees<T>(s: seq<T>, p: T -> bool, q: T -> bool)
    requires forall k :: 0 <= k < |s| ==> p(s[k]) == q(s[k])
    ensures Count(s, p) == Count(s, q)
    decreases |s|
  {
    if |s| > 0 {
      CountAgrees(s[1..], p, q);
    }
  }

  /** Two tests that never both hold count at most the whole list together. */
  lemma {:induction false} CountDisjoint<T>(s: seq<T>, p: T -> bool, q: T -> bool)
    requires forall k :: 0 <= k < |s| ==> !(p(s[k]) && q(s[k]))
    ensures Count(s, p) + Count(s, q) <= |s|
    decreases |s|
  {
    if |s| > 0 {
      CountDisjoint(s[1..], p, q);
    }
  }

  /** The total is the length of the list; the out-of-stock and low-stock
      groups are disjoint, so together they never exceed it; and each count
      is the length of the inventory page's list under the matching stock
      filter with an empty search term. */
  lemma StatsSpec(products: seq<Product>)
    ensures var st := StatsOf(products);
      st.totalProducts == |products|
      && st.outOfStock + st.lowStock <= st.totalProducts
      && st.outOfStock == |Inventory.Kept(products, "", Inventory.Out)|
      && st.lowStock == |Inventory.Kept(products, "", Inventory.Low)|
  {
    CountDisjoint(products, IsOutOfStock, IsLowStock);
    CountAgrees(products, IsOutOfStock, (p: Product) => Inventory.Keeps(p, "", Inventory.Out));
    CountAgrees(products, IsLowStock, (p: Product) => Inventory.Keeps(p, "", Inventory.Low));
  }
}
