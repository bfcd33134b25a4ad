/** The low-stock report of app/reports/page.tsx (the mock sales tables are constants and not modelled). */
module Reports {
  import opened Lists
  import opened Database
  import opened Listings

  /** One row of `weeklyRestockNeeds`. */
  datatype RestockNeed = RestockNeed(name: string, sku: string, currentStock: int, minStock: int, needed: int)

  /** One report row: the product's name, SKU and levels, and what it lacks of its minimum. */
  function RestockNeedOf(p: ProductView): (r: RestockNeed)
    ensures r.name == p.name && r.sku == p.sku && r.currentStock == p.stock && r.minStock == p.minStock
    ensures r.currentStock + r.needed == r.minStock
    ensures r.needed >= 0 <==> IsLowStock(p)
  {
    RestockNeed(p.name, p.sku, p.stock, p.minStock, p.minStock - p.stock)
  }

  /** `lowStockItems.map(product => ({ ..., needed: product.minStock - product.stock }))` */
  function WeeklyRestockNeeds(ps: seq<ProductView>): (r: seq<RestockNeed>)
    ensures |r| == LowStockCount(ps)
    ensures forall i :: 0 <= i < |r| ==> r[i] == RestockNeedOf(LowStockItems(ps)[i])
  {
    var low := LowStockItems(ps);
    seq(|low|, i requires 0 <= i < |low| => RestockNeedOf(low[i]))
  }

  /**
    Each row copies a low-stock product's name, SKU and levels, in listing order, and asks
    for exactly the missing quantity: never negative, and enough to reach the minimum.
  */
  lemma RestockNeedsReachMinimum(ps: seq<ProductView>, i: nat)
    requires i < |WeeklyRestockNeeds(ps)|
    ensures var r := WeeklyRestockNeeds(ps)[i];
            var p := LowStockItems(ps)[i];
            && p in ps && IsLowStock(p)
            && r.name == p.name && r.sku == p.sku && r.currentStock == p.stock && r.minStock == p.minStock
            && r.needed >= 0 && r.currentStock + r.needed == r.minStock
  {
    assert LowStockItems(ps)[i] in LowStockItems(ps);
  }

  /** The report is empty exactly when no product is at or below its minimum; an empty listing gives an empty report. */
  lemma NoRestockNeedsIff(ps: seq<ProductView>)
    ensures WeeklyRestockNeeds(ps) == [] <==> forall i :: 0 <= i < |ps| ==> !IsLowStock(ps[i])
    ensures ps == [] ==> LowStockItems(ps) == [] && WeeklyRestockNeeds(ps) == []
  {
  }
}
