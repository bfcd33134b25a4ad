/**
  The chart data of components/dashboard-charts.tsx: stock figures per category, and the
  six products holding the most stock value. Value is `price * stock` on integer prices.
*/
module DashboardCharts {
  import opened Wrappers
  import opened Lists
  import opened Database
  import opened Listings

  // ---------------------------------------------------------------- per category

  /** One bar of the category chart. */
  datatype CategoryFigure = CategoryFigure(name: string, value: int, stock: int, products: nat)

  /** `categoryProducts.reduce((sum, p) => sum + p.price * p.stock, 0)` */
  function StockValue(ps: seq<ProductView>): int {
    if ps == [] then 0 else ps[0].price * ps[0].stock + StockValue(ps[1..])
  }

  function FigureOf(c: CategoryView, ps: seq<ProductView>): (f: CategoryFigure)
    ensures f.name == c.name && f.products == ProductCount(ps, c.id)
    ensures f.stock == TotalStock(InCategory(ps, c.id)) && f.value == StockValue(InCategory(ps, c.id))
  {
    var mine := InCategory(ps, c.id);
    CategoryFigure(c.name, StockValue(mine), TotalStock(mine), |mine|)
  }

  /** `categories.map(category => ...)`, before the filter. */
  function Figures(cats: seq<CategoryView>, ps: seq<ProductView>): (r: seq<CategoryFigure>)
    ensures |r| == |cats|
    ensures forall i :: 0 <= i < |cats| ==> r[i] == FigureOf(cats[i], ps)
  {
    if cats == [] then [] else [FigureOf(cats[0], ps)] + Figures(cats[1..], ps)
  }

  predicate HasProducts(f: CategoryFigure) {
    f.products > 0
  }

  /** `categoryData`: the figures of the categories that have at least one product, in category order. */
  function CategoryData(cats: seq<CategoryView>, ps: seq<ProductView>): (r: seq<CategoryFigure>)
    ensures IsSubsequence(r, Figures(cats, ps))
    ensures forall f :: f in r <==> f in Figures(cats, ps) && f.products > 0
  {
    Filter(Figures(cats, ps), HasProducts)
  }

  function SumProducts(fs: seq<CategoryFigure>): nat {
    if fs == [] then 0 else fs[0].products + SumProducts(fs[1..])
  }

  predicate DistinctIds(cats: seq<CategoryView>) {
    forall i, j :: 0 <= i < j < |cats| ==> cats[i].id != cats[j].id
  }

  /** How many categories carry the id `id`. */
  function Occurrences(cats: seq<CategoryView>, id: Option<string>): nat {
    if cats == [] then 0 else (if id == Some(cats[0].id) then 1 else 0) + Occurrences(cats[1..], id)
  }

  lemma {:induction false} OccursAtMostOnce(cats: seq<CategoryView>, id: Option<string>)
    requires DistinctIds(cats)
    ensures Occurrences(cats, id) <= 1
  {
    if cats != [] {
      OccursAtMostOnce(cats[1..], id);
      if id == Some(cats[0].id) {
        OccursNowhere(cats[1..], id);
      }
    }
  }

  lemma {:induction false} OccursNowhere(cats: seq<CategoryView>, id: Option<string>)
    requires forall i :: 0 <= i < |cats| ==> id != Some(cats[i].id)
    ensures Occurrences(cats, id) == 0
  {
    if cats != [] {
      OccursNowhere(cats[1..], id);
    }
  }

  /** A product adds one to the count of each category carrying its `categoryId`. */
  lemma {:induction false} SumProductsCons(cats: seq<CategoryView>, p: ProductView, ps: seq<ProductView>)
    ensures SumProducts(Figures(cats, [p] + ps)) == Occurrences(cats, p.categoryId) + SumProducts(Figures(cats, ps))
  {
    if cats != [] {
      assert ([p] + ps)[1..] == ps;
      assert Figures(cats, [p] + ps)[1..] == Figures(cats[1..], [p] + ps);
      assert Figures(cats, ps)[1..] == Figures(cats[1..], ps);
      SumProductsCons(cats[1..], p, ps);
    }
  }

  /** With distinct category ids, no product is counted twice. */
  lemma {:induction false} FiguresCountEachProductOnce(cats: seq<CategoryView>, ps: seq<ProductView>)
    requires DistinctIds(cats)
    ensures SumProducts(Figures(cats, ps)) <= |ps|
  {
    if ps == [] {
      NoProductsNoCounts(cats);
    } else {
      assert ps == [ps[0]] + ps[1..];
      SumProductsCons(cats, ps[0], ps[1..]);
      OccursAtMostOnce(cats, ps[0].categoryId);
      FiguresCountEachProductOnce(cats, ps[1..]);
    }
  }

  lemma {:induction false} NoProductsNoCounts(cats: seq<CategoryView>)
    ensures SumProducts(Figures(cats, [])) == 0
  {
    if cats != [] {
      assert Figures(cats, [])[1..] == Figures(cats[1..], []);
      NoProductsNoCounts(cats[1..]);
    }
  }

  /** Dropping the categories without products does not change the total count. */
  lemma {:induction false} FilterKeepsSum(fs: seq<CategoryFigure>)
    ensures SumProducts(Filter(fs, HasProducts)) == SumProducts(fs)
  {
    if fs != [] {
      FilterKeepsSum(fs[1..]);
    }
  }

  /** The bars of the category chart count at most all products, when category ids are distinct. */
  lemma CategoryDataCountsAtMostAll(cats: seq<CategoryView>, ps: seq<ProductView>)
    requires DistinctIds(cats)
    ensures SumProducts(CategoryData(cats, ps)) <= |ps|
  {
    FilterKeepsSum(Figures(cats, ps));
    FiguresCountEachProductOnce(cats, ps);
  }

  // ---------------------------------------------------------------- top products

  /** One slice of the top-products pie. */
  datatype Slice = Slice(name: string, value: int)

  /** `name.length > 20 ? name.substring(0, 20) + '...' : name` */
  function Truncate(name: string): (r: string)
    ensures |name| <= 20 ==> r == name
    ensures |name| > 20 ==> |r| == 23 && r[..20] == name[..20] && r[20..] == "..."
    ensures |r| <= 23 || r == name
  {
    if |name| > 20 then name[..20] + "..." else name
  }

  function SliceOf(p: ProductView): Slice {
    Slice(Truncate(p.name), p.price * p.stock)
  }

  function Slices(ps: seq<ProductView>): (r: seq<Slice>)
    ensures |r| == |ps|
    ensures forall i :: 0 <= i < |ps| ==> r[i] == SliceOf(ps[i])
  {
    seq(|ps|, i requires 0 <= i < |ps| => SliceOf(ps[i]))
  }

  predicate SortedByValue(s: seq<Slice>) {
    forall i, j :: 0 <= i < j < |s| ==> s[i].value >= s[j].value
  }

  /** A slice worth at least the head of a sorted run can go in front of it. */
  lemma {:induction false} SortedCons(a: Slice, s: seq<Slice>)
    requires SortedByValue(s) && (s != [] ==> a.value >= s[0].value)
    ensures SortedByValue([a] + s)
  {
    var r := [a] + s;
    forall i, j | 0 <= i < j < |r| ensures r[i].value >= r[j].value {
      if i == 0 && j > 1 {
        assert r[1] == s[0] && r[j] == s[j - 1];
      }
    }
  }

  /** Places `x` before the first element whose value is not larger, so equal values keep their order. */
  function InsertByValue(x: Slice, s: seq<Slice>): (r: seq<Slice>)
    requires SortedByValue(s)
    ensures |r| == |s| + 1
    ensures r[0] == x || (s != [] && r[0] == s[0])
    ensures SortedByValue(r) && multiset(r) == multiset(s) + multiset{x}
  {
    if s == [] || s[0].value <= x.value then
      SortedCons(x, s);
      [x] + s
    else
      assert s == [s[0]] + s[1..];
      var rest := InsertByValue(x, s[1..]);
      SortedCons(s[0], rest);
      [s[0]] + rest
  }

  /** `.sort((a, b) => b.value - a.value)`: a stable sort, largest value first. */
  function SortByValue(s: seq<Slice>): (r: seq<Slice>)
    ensures SortedByValue(r) && multiset(r) == multiset(s)
  {
    if s == [] then []
    else
      assert s == [s[0]] + s[1..];
      InsertByValue(s[0], SortByValue(s[1..]))
  }

  /** `topProductsData`: the slices sorted by value, largest first, cut to six. */
  function TopProducts(ps: seq<ProductView>): (r: seq<Slice>)
    ensures |r| == if |ps| < 6 then |ps| else 6
    ensures SortedByValue(r)
    ensures multiset(r) <= multiset(Slices(ps))
  {
    var sorted := SortByValue(Slices(ps));
    assert |sorted| == |ps| by {
      assert |multiset(sorted)| == |multiset(Slices(ps))|;
    }
    var r := Take(sorted, 6);
    assert sorted == r + sorted[|r|..];
    r
  }

  /** A product whose slice is worth more than the smallest of the six shown is among them. */
  lemma TopProductsAreTop(ps: seq<ProductView>, i: nat)
    requires i < |ps| && TopProducts(ps) != []
    requires SliceOf(ps[i]).value > TopProducts(ps)[|TopProducts(ps)| - 1].value
    ensures SliceOf(ps[i]) in TopProducts(ps)
  {
    var sorted := SortByValue(Slices(ps));
    var r := TopProducts(ps);
    assert Slices(ps)[i] in multiset(Slices(ps));
    assert SliceOf(ps[i]) in multiset(sorted);
    var k :| 0 <= k < |sorted| && sorted[k] == SliceOf(ps[i]);
    assert r == sorted[..|r|];
    assert k < |r|;
    assert r[k] == sorted[k];
  }
}
