/**
  The figures the pages and the categories route compute from a product listing (the
  JSON array `GET /api/products` returns): the low-stock test, the stock total and the
  products listed under one category.
*/
module Listings {
  import opened Wrappers
  import opened Lists
  import opened Database

  function ProductViewId(p: ProductView): string { p.id }

  /** `p.stock <= p.minStock`, the test every page uses for "low stock". */
  predicate IsLowStock(p: ProductView) {
    p.stock <= p.minStock
  }

  /** `products.filter(p => p.stock <= p.minStock)` */
  function LowStockItems(ps: seq<ProductView>): (r: seq<ProductView>)
    ensures |r| <= |ps| && IsSubsequence(r, ps)
    ensures forall p :: p in r <==> p in ps && IsLowStock(p)
  {
    Filter(ps, IsLowStock)
  }

  /** `products.filter(p => p.stock <= p.minStock).length` */
  function LowStockCount(ps: seq<ProductView>): (n: nat)
    ensures n <= |ps|
    ensures n == 0 <==> forall i :: 0 <= i < |ps| ==> !IsLowStock(ps[i])
    ensures n == |ps| <==> forall i :: 0 <= i < |ps| ==> IsLowStock(ps[i])
  {
    FilterKeepsLength(ps, IsLowStock);
    var low := LowStockItems(ps);
    assert low != [] ==> low[0] in low;
    |low|
  }

  /** The number of low-stock products, counted one product at a time. */
  function LowCount(ps: seq<ProductView>): nat {
    if ps == [] then 0 else (if IsLowStock(ps[0]) then 1 else 0) + LowCount(ps[1..])
  }

  /** The length of the filtered list is the number of products with `stock <= minStock`. */
  lemma {:induction false} LowStockCountIsLowCount(ps: seq<ProductView>)
    ensures LowStockCount(ps) == LowCount(ps)
  {
    if ps != [] {
      assert ps == [ps[0]] + ps[1..];
      FilterAppend([ps[0]], ps[1..], IsLowStock);
      LowStockCountIsLowCount(ps[1..]);
    }
  }

  /** `products.reduce((acc, p) => acc + p.stock, 0)` */
  function TotalStock(ps: seq<ProductView>): (t: int)
    ensures (forall i :: 0 <= i < |ps| ==> ps[i].stock >= 0) ==> t >= 0
  {
    if ps == [] then 0 else ps[0].stock + TotalStock(ps[1..])
  }

  /** The stock of two listings together is the sum of their stocks. */
  lemma {:induction false} TotalStockAppend(a: seq<ProductView>, b: seq<ProductView>)
    ensures TotalStock(a + b) == TotalStock(a) + TotalStock(b)
  {
    if a == [] {
      assert a + b == b;
    } else {
      assert (a + b)[1..] == a[1..] + b;
      TotalStockAppend(a[1..], b);
    }
  }

  /** `p => p.categoryId === id` */
  function HasCategory(id: string): ProductView -> bool {
    (p: ProductView) => p.categoryId == Some(id)
  }

  /** `products.filter(p => p.categoryId === id)` */
  function InCategory(ps: seq<ProductView>, id: string): (r: seq<ProductView>)
    ensures |r| <= |ps| && IsSubsequence(r, ps)
    ensures forall p :: p in r <==> p in ps && p.categoryId == Some(id)
  {
    Filter(ps, HasCategory(id))
  }

  /** `products.filter(p => p.categoryId === id).length` */
  function ProductCount(ps: seq<ProductView>, id: string): (n: nat)
    ensures n <= |ps|
    ensures n == 0 <==> forall i :: 0 <= i < |ps| ==> ps[i].categoryId != Some(id)
  {
    var r := InCategory(ps, id);
    assert r != [] ==> r[0] in r;
    |r|
  }
}
