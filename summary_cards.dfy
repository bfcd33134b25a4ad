/** The figures of components/product-summary-cards.tsx (the money total is not modelled). */
module SummaryCards {
  import opened Lists
  import opened Database
  import opened Listings

  datatype Summary = Summary(totalProducts: nat, totalStock: int, lowStockCount: nat)

  /** `totalProducts`, `totalStock` and `lowStockCount` of `ProductSummaryCards`. */
  function Summarize(ps: seq<ProductView>): (s: Summary)
    ensures s.totalProducts == |ps|
    ensures s.totalStock == TotalStock(ps) && s.lowStockCount == LowStockCount(ps)
    ensures s.lowStockCount <= s.totalProducts
    ensures ps == [] ==> s == Summary(0, 0, 0)
    ensures (forall i :: 0 <= i < |ps| ==> ps[i].stock >= 0) ==> s.totalStock >= 0
  {
    Summary(|ps|, TotalStock(ps), LowStockCount(ps))
  }

  /** The cards of two listings shown together add up. */
  lemma SummarizeAppend(a: seq<ProductView>, b: seq<ProductView>)
    ensures Summarize(a + b) == Summary(Summarize(a).totalProducts + Summarize(b).totalProducts,
                                        Summarize(a).totalStock + Summarize(b).totalStock,
                                        Summarize(a).lowStockCount + Summarize(b).lowStockCount)
  {
    TotalStockAppend(a, b);
    FilterAppend(a, b, IsLowStock);
  }
}
