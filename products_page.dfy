/**
  The product list of app/page.tsx: the search filter, the low-stock label, and the list
  updates after the server answered an add, an edit or a delete. The server's answer is a
  parameter: `None` stands for a failed request (an alert, and the list is left alone).
*/
module ProductsPage {
  import opened Wrappers
  import opened Text
  import opened Lists
  import opened Database
  import opened Listings

  /** The add/edit form: the text of each input. */
  datatype ProductForm = ProductForm(name: string, description: string, sku: string, price: string,
                                     cost: string, stock: string, minStock: string, categoryId: string)

  /** The guard of `handleAdd`: none of name, sku, price, cost and categoryId is empty. */
  predicate FormComplete(f: ProductForm)
    ensures FormComplete(f) <==> [] !in [f.name, f.sku, f.price, f.cost, f.categoryId]
  {
    f.name != [] && f.sku != [] && f.price != [] && f.cost != [] && f.categoryId != []
  }

  /** The search test: name, SKU or category name contains the term, ignoring case. */
  function MatchesProduct(term: string): ProductView -> bool {
    (p: ProductView) =>
      || MatchesTerm(p.name, term) || MatchesTerm(p.sku, term)
      || (p.category.Some? && MatchesTerm(p.category.value.name, term))
  }

  /** `filteredProducts` */
  function FilteredProducts(ps: seq<ProductView>, term: string): (r: seq<ProductView>)
    ensures |r| <= |ps| && IsSubsequence(r, ps)
    ensures forall p :: p in r <==> p in ps && MatchesProduct(term)(p)
  {
    Filter(ps, MatchesProduct(term))
  }

  /** An empty search shows every product. */
  lemma EmptySearchShowsAll(ps: seq<ProductView>)
    ensures FilteredProducts(ps, "") == ps
  {
    forall p | p in ps ensures MatchesProduct("")(p) {
      EmptyTermMatches(p.name);
    }
    FilterKeepsAll(ps, MatchesProduct(""));
  }

  /** The search ignores the case of the term. */
  lemma SearchIgnoresTermCase(ps: seq<ProductView>, term: string)
    ensures FilteredProducts(ps, Upper(term)) == FilteredProducts(ps, term)
  {
    LowerOfUpper(term);
    FilterAgree(ps, MatchesProduct(Upper(term)), MatchesProduct(term));
  }

  /** The "Low Stock" note under a product's stock figure. */
  function StockNote(p: ProductView): (r: Option<string>)
    ensures r.Some? <==> IsLowStock(p)
    ensures r.Some? ==> r.value == "Low Stock"
  {
    if p.stock <= p.minStock then Some("Low Stock") else None
  }

  /** With unique ids, deleting a listed product removes that entry and no other. */
  lemma DeleteRemovesOne(ps: seq<ProductView>, i: nat)
    requires i < |ps| && DistinctKeys(ps, ProductViewId)
    ensures RemoveKey(ps, ProductViewId, ps[i].id) == ps[..i] + ps[i + 1..]
  {
    RemoveKeyAt(ps, ProductViewId, i);
  }

  class ProductList {
    var products: seq<ProductView>

    constructor()
      ensures products == []
    {
      products := [];
    }

    /** `handleAdd`: nothing is sent for an incomplete form; a created product goes to the front. */
    method HandleAdd(form: ProductForm, created: Option<ProductView>) returns (sent: bool)
      modifies this
      ensures sent <==> FormComplete(form)
      ensures sent && created.Some? ==> products == [created.value] + old(products)
      ensures !sent || created.None? ==> products == old(products)
    {
      if !FormComplete(form) {
        return false;
      }
      sent := true;
      if created.Some? {
        products := [created.value] + products;
      }
    }

    /** `handleEdit`: the entries with the selected id are replaced by the updated product. */
    method HandleEdit(selected: Option<string>, updated: Option<ProductView>) returns (sent: bool)
      modifies this
      ensures sent <==> selected.Some?
      ensures sent && updated.Some? ==> products == ReplaceKey(old(products), ProductViewId, selected.value, updated.value)
      ensures !sent || updated.None? ==> products == old(products)
    {
      if selected.None? {
        return false;
      }
      sent := true;
      if updated.Some? {
        products := ReplaceKey(products, ProductViewId, selected.value, updated.value);
      }
    }

    /** `handleDelete`: after a confirmed, successful delete the entries with that id are gone. */
    method HandleDelete(id: string, confirmed: bool, deleted: bool)
      modifies this
      ensures confirmed && deleted ==> products == RemoveKey(old(products), ProductViewId, id)
      ensures !(confirmed && deleted) ==> products == old(products)
    {
      if confirmed && deleted {
        products := RemoveKey(products, ProductViewId, id);
      }
    }
  }
}
