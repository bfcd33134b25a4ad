/**
  The figures of app/dashboard/page.tsx: the stat cards, the refill recommendations and
  the low-stock alert list with its "+N more" note. Money figures are not modelled.
*/
module Dashboard {
  import opened Wrappers
  import opened Lists
  import opened Database
  import opened Listings
  import opened SummaryCards

  datatype Stats = Stats(totalProducts: nat, totalStock: int, lowStockCount: nat, totalCategories: nat)

  /** `totalProducts`, `totalStock`, `lowStockCount` and `totalCategories`. */
  function DashboardStats(ps: seq<ProductView>, cats: seq<CategoryView>): (s: Stats)
    ensures s.totalProducts == |ps| && s.totalCategories == |cats|
    ensures s.totalStock == TotalStock(ps) && s.lowStockCount == LowStockCount(ps)
    ensures s.lowStockCount <= s.totalProducts
  {
    Stats(|ps|, TotalStock(ps), LowStockCount(ps), |cats|)
  }

  /** The dashboard's cards show the same product figures as the summary cards. */
  lemma StatsAgreeWithSummary(ps: seq<ProductView>, cats: seq<CategoryView>)
    ensures var s := DashboardStats(ps, cats);
            Summarize(ps) == Summary(s.totalProducts, s.totalStock, s.lowStockCount)
  {
  }

  // ---------------------------------------------------------------- refills

  /** `p.stock <= p.minStock * 1.5`, stated without fractions. */
  predicate NeedsRefill(p: ProductView)
    ensures NeedsRefill(p) <==> p.stock as real <= p.minStock as real * 1.5
  {
    2 * p.stock <= 3 * p.minStock
  }

  /** `Math.max(p.minStock * 2, 10)` */
  function RecommendedStock(minStock: int): (r: int)
    ensures r >= 10 && r >= 2 * minStock
    ensures r == 10 || r == 2 * minStock
  {
    if 2 * minStock > 10 then 2 * minStock else 10
  }

  datatype Refill = Refill(name: string, sku: string, currentStock: int, recommended: int)

  /** One recommendation: the product's name, SKU and stock, and the level to refill to. */
  function RefillOf(p: ProductView): (r: Refill)
    ensures r.name == p.name && r.sku == p.sku && r.currentStock == p.stock
    ensures r.recommended >= 10 && r.recommended >= 2 * p.minStock
  {
    Refill(p.name, p.sku, p.stock, RecommendedStock(p.minStock))
  }

  function RefillCandidates(ps: seq<ProductView>): (r: seq<ProductView>)
    ensures IsSubsequence(r, ps)
    ensures forall p :: p in r <==> p in ps && NeedsRefill(p)
  {
    Filter(ps, NeedsRefill)
  }

  /** `refillRecommendations`: the first five products that need a refill, in listing order. */
  function RefillRecommendations(ps: seq<ProductView>): (r: seq<Refill>)
    ensures |r| <= 5
    ensures |r| == if |RefillCandidates(ps)| < 5 then |RefillCandidates(ps)| else 5
    ensures forall i :: 0 <= i < |r| ==> r[i] == RefillOf(RefillCandidates(ps)[i])
  {
    var first := Take(RefillCandidates(ps), 5);
    seq(|first|, i requires 0 <= i < |first| => RefillOf(first[i]))
  }

  /** Each recommendation raises the stock to at least the larger of twice the minimum and 10. */
  lemma RecommendationsAreRefills(ps: seq<ProductView>, i: nat)
    requires i < |RefillRecommendations(ps)|
    ensures var r := RefillRecommendations(ps)[i];
            var p := RefillCandidates(ps)[i];
            && p in ps && 2 * p.stock <= 3 * p.minStock
            && r.name == p.name && r.sku == p.sku && r.currentStock == p.stock
            && r.recommended >= 10 && r.recommended >= 2 * p.minStock
  {
    assert RefillCandidates(ps)[i] in RefillCandidates(ps);
  }

  /** With a non-negative minimum, a product at or below its minimum is also at or below 1.5 times it. */
  lemma LowStockNeedsRefill(p: ProductView)
    requires p.minStock >= 0 && IsLowStock(p)
    ensures NeedsRefill(p)
  {
  }

  /** Hence there are at least as many refill candidates as low-stock products. */
  lemma LowStockAmongRefillCandidates(ps: seq<ProductView>)
    requires forall i :: 0 <= i < |ps| ==> ps[i].minStock >= 0
    ensures forall p :: p in LowStockItems(ps) ==> p in RefillCandidates(ps)
    ensures LowStockCount(ps) <= |RefillCandidates(ps)|
  {
    FilterWeaker(ps, IsLowStock, NeedsRefill);
  }

  // ---------------------------------------------------------------- alerts

  /** `products.filter(p => p.stock <= p.minStock).slice(0, 3)`: the alerts shown. */
  function LowStockAlerts(ps: seq<ProductView>): (r: seq<ProductView>)
    ensures |r| == if LowStockCount(ps) < 3 then LowStockCount(ps) else 3
    ensures r == LowStockItems(ps)[..|r|]
  {
    Take(LowStockItems(ps), 3)
  }

  /** The "+N more items need attention" note: shown only when `lowStockCount > 3`. */
  function MoreAlerts(lowStockCount: nat): (n: Option<nat>)
    ensures n.Some? <==> lowStockCount > 3
  {
    if lowStockCount > 3 then Some(lowStockCount - 3) else None
  }

  /** The alerts shown and the number in the note account for every low-stock product exactly once. */
  lemma AlertsAccountForAll(ps: seq<ProductView>)
    ensures |LowStockAlerts(ps)| + MoreAlerts(LowStockCount(ps)).GetOr(0) == LowStockCount(ps)
    ensures LowStockCount(ps) == 0 <==> LowStockAlerts(ps) == []
  {
  }
}
