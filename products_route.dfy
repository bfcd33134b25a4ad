/**
  The collection handlers of app/api/products/route.ts: `GET` seeds the store and lists
  every product; `POST` runs its checks in a fixed order (required fields, then the
  category, then the SKU) and only then asks the store to add the product.
*/
module ProductsRoute {
  import opened Wrappers
  import opened Text
  import opened Lists
  import opened ObjectIds
  import opened Schema
  import opened Database
  import opened Http
  import opened Listings

  /** `GET /api/products`: `initializeData()`, then every product; any failure is a 500. */
  method ProductsGet(store: Inventory) returns (reply: Reply<seq<ProductView>>, ghost n1: nat, ghost n2: nat)
    requires store.Valid()
    modifies store
    ensures store.Valid() && store.online == old(store.online)
    ensures !old(store.online) ==>
              && reply == Reply(500, Problem("Failed to fetch products", None))
              && store.categories == old(store.categories) && store.products == old(store.products)
              && store.users == old(store.users) && store.nextOid == old(store.nextOid)
    ensures old(store.online) ==>
              && SeededFrom(old(store.categories), old(store.products), old(store.users), old(store.nextOid),
                            n1, n2, store.categories, store.products, store.users, store.nextOid)
              && reply == Reply(200, Json(ViewProducts(store.categories, store.products)))
  {
    var seeded;
    seeded, n1, n2 := store.InitializeData();
    if seeded.Failure? {
      return Reply(500, Problem("Failed to fetch products", None)), n1, n2;
    }
    var products := store.GetProducts();
    reply := Reply(200, Json(products.value));
  }

  // ---------------------------------------------------------------- POST checks

  /** `!value` on a text field: absent or empty. */
  predicate TextMissing(s: Option<string>) {
    s.None? || s.value == []
  }

  /** `!value` on a number: absent or 0. */
  predicate NumberMissing(n: Option<int>) {
    n.None? || n.value == 0
  }

  /** `!name || !sku || !price || !cost || !categoryId` */
  predicate RequiredMissing(b: ProductInput)
    ensures b.price == Some(0) || b.cost == Some(0) ==> RequiredMissing(b)
    ensures !RequiredMissing(b) ==> && b.name.Some? && b.sku.Some? && b.price.Some? && b.cost.Some?
                                    && b.categoryId.Some?
  {
    TextMissing(b.name) || TextMissing(b.sku) || NumberMissing(b.price) || NumberMissing(b.cost)
    || TextMissing(b.categoryId)
  }

  /** `categories.some(c => c.id === id)` */
  predicate CategoryListed(views: seq<CategoryView>, id: string) {
    exists i :: 0 <= i < |views| && views[i].id == id
  }

  /** `existingProducts.find(p => p.sku === sku)` finds one: an exact, case-sensitive comparison. */
  predicate SkuListed(views: seq<ProductView>, sku: string) {
    exists i :: 0 <= i < |views| && views[i].sku == sku
  }

  /** `products.find(p => p.id === id)` */
  function FindById(views: seq<ProductView>, id: string): (r: Option<ProductView>)
    ensures r.Some? ==> r.value in views && r.value.id == id
    ensures r.None? <==> forall i :: 0 <= i < |views| ==> views[i].id != id
  {
    match IndexOfKey(views, ProductViewId, id)
    case None => None
    case Some(i) => Some(views[i])
  }

  /** Finding a listed product by its `id` returns that product, since identifiers are unique. */
  lemma FindListed(cs: seq<Category>, ps: seq<Product>, i: nat)
    requires i < |ps| && DistinctKeys(ps, ProductOid)
    ensures FindById(ViewProducts(cs, ps), ViewProducts(cs, ps)[i].id) == Some(ViewProducts(cs, ps)[i])
  {
    var views := ViewProducts(cs, ps);
    var k := IndexOfKey(views, ProductViewId, views[i].id);
    assert ProductViewId(views[i]) == views[i].id;
    IdStringInjective(ps[k.value].oid, ps[i].oid);
  }

  /** The `id` of a listed category is well formed and names a stored category. */
  lemma ListedCategoryId(cs: seq<Category>, id: string)
    requires CategoryListed(ViewCategories(cs), id)
    ensures ParseId(id).Some? && !KeyFree(cs, CategoryOid, ParseId(id).value)
  {
    var i :| 0 <= i < |cs| && ViewCategories(cs)[i].id == id;
    ParseIdString(cs[i].oid);
    assert CategoryOid(cs[i]) == ParseId(id).value;
  }

  /**
    When the posted SKU is already in the form the schema stores (trimmed, no lower-case
    letters), the handler's exact check and the unique index agree.
  */
  lemma StoredFormSkuCheckAgrees(cs: seq<Category>, ps: seq<Product>, sku: string)
    requires IsTrimmed(sku) && NoLowerLetters(sku)
    ensures SkuListed(ViewProducts(cs, ps), sku) <==> !KeyFree(ps, ProductSku, StoredSku(sku))
  {
    UpperOfNoLower(sku);
    var views := ViewProducts(cs, ps);
    if SkuListed(views, sku) {
      var i :| 0 <= i < |views| && views[i].sku == sku;
      assert ProductSku(ps[i]) == sku;
    }
    if !KeyFree(ps, ProductSku, sku) {
      var i :| 0 <= i < |ps| && ProductSku(ps[i]) == sku;
      assert views[i].sku == sku;
    }
  }

  const PenStored := Product(0, "Pen", "", "PEN", 100, 50, 1, 0, 0)
  const PenPosted := ProductInput(Some("Pen"), None, Some("pen"), Some(100), Some(50), None, None, Some("0"))

  /**
    The two SKU rules differ: with a product "PEN" stored, the handler's exact check lets
    "pen" through, and the unique index then rejects it, because the schema upper-cases it
    to "PEN"; the handler answers that rejection with a 500 rather than its 400.
  */
  lemma CaseVariantSkuPassesHandler()
    ensures !SkuListed(ViewProducts([], [PenStored]), "pen")
    ensures InsertProduct([PenStored], 1, PenPosted) == Failure(DuplicateKey("sku"))
  {
    var views := ViewProducts([], [PenStored]);
    assert views[0].sku == "PEN";
    assert Canonical("0");
    assert ParseId("0") == Some(0);
    assert IsTrimmed("pen");
    assert Upper("pen") == "PEN" by {
      assert Upper("pen")[0] == 'P';
    }
    assert ProductSku([PenStored][0]) == StoredSku("pen");
  }

  /**
    The last step of `POST`, once every check has passed: `addProduct`, then the stored
    product looked up by its `id` in a fresh listing.
  */
  method AddCheckedProduct(store: Inventory, b: ProductInput) returns (reply: Reply<Option<ProductView>>)
    requires store.Valid() && store.online && b.categoryId.Some?
    requires CategoryListed(ViewCategories(store.categories), b.categoryId.value)
    modifies store
    ensures store.Valid() && store.online
    ensures store.categories == old(store.categories) && store.users == old(store.users)
    ensures var d := InsertProduct(old(store.products), old(store.nextOid), b);
            && (d.Failure? ==> && reply == Reply(500, Problem("Failed to create product", None))
                               && (d.error.Invalid? || d.error == DuplicateKey("sku"))
                               && store.products == old(store.products) && store.nextOid == old(store.nextOid))
            && (d.Success? ==> && reply == Reply(201, Json(Some(ViewProduct(store.categories, d.value))))
                               && store.products == old(store.products) + [d.value]
                               && store.nextOid == old(store.nextOid) + 1
                               && IdString(d.value.categoryRef) == b.categoryId.value)
  {
    ListedCategoryId(store.categories, b.categoryId.value);
    ghost var d := InsertProduct(store.products, store.nextOid, b);
    if d.Success? {
      ParseIdIff(b.categoryId.value, d.value.categoryRef);
    }
    var added := store.AddProduct(b);
    if added.Failure? {
      return Reply(500, Problem("Failed to create product", None));
    }
    var products := store.GetProducts();
    FindListed(store.categories, store.products, |store.products| - 1);
    reply := Reply(201, Json(FindById(products.value, added.value.id)));
  }

  /**
    `POST /api/products`: an unreadable body or a store failure is a 500; a missing field,
    an unknown category and an exactly matching SKU are 400s, checked in that order;
    otherwise the product is added, and the reply is the stored product as `GET` lists it.
  */
  method ProductsPost(store: Inventory, body: Option<ProductInput>) returns (reply: Reply<Option<ProductView>>)
    requires store.Valid()
    modifies store
    ensures store.Valid() && store.online == old(store.online)
    ensures store.categories == old(store.categories) && store.users == old(store.users)
    ensures reply.status != 201 ==> store.products == old(store.products) && store.nextOid == old(store.nextOid)
    ensures body.None? ==> reply == Reply(500, Problem("Failed to create product", None))
    ensures body.Some? && RequiredMissing(body.value) ==>
              reply == Reply(400, Problem("Missing required fields: name, sku, price, cost, categoryId", None))
    ensures body.Some? && !RequiredMissing(body.value) && !old(store.online) ==>
              reply == Reply(500, Problem("Failed to create product", None))
    ensures body.Some? && !RequiredMissing(body.value) && old(store.online)
            && !CategoryListed(ViewCategories(store.categories), body.value.categoryId.value) ==>
              reply == Reply(400, Problem("Category does not exist", None))
    ensures body.Some? && !RequiredMissing(body.value) && old(store.online)
            && CategoryListed(ViewCategories(store.categories), body.value.categoryId.value)
            && SkuListed(ViewProducts(store.categories, old(store.products)), body.value.sku.value) ==>
              reply == Reply(400, Problem("Product with this SKU already exists", None))
    ensures body.Some? && !RequiredMissing(body.value) && old(store.online)
            && CategoryListed(ViewCategories(store.categories), body.value.categoryId.value)
            && !SkuListed(ViewProducts(store.categories, old(store.products)), body.value.sku.value) ==>
              var d := InsertProduct(old(store.products), old(store.nextOid), body.value);
              && (d.Failure? ==> reply == Reply(500, Problem("Failed to create product", None))
                                 && (d.error.Invalid? || d.error == DuplicateKey("sku")))
              && (d.Success? ==> && reply == Reply(201, Json(Some(ViewProduct(store.categories, d.value))))
                                 && store.products == old(store.products) + [d.value]
                                 && store.nextOid == old(store.nextOid) + 1
                                 && IdString(d.value.categoryRef) == body.value.categoryId.value)
  {
    if body.None? {
      return Reply(500, Problem("Failed to create product", None));
    }
    var b := body.value;
    if RequiredMissing(b) {
      return Reply(400, Problem("Missing required fields: name, sku, price, cost, categoryId", None));
    }
    var categories := store.GetCategories();
    if categories.Failure? {
      return Reply(500, Problem("Failed to create product", None));
    }
    if !CategoryListed(categories.value, b.categoryId.value) {
      return Reply(400, Problem("Category does not exist", None));
    }
    var existing := store.GetProducts();
    if SkuListed(existing.value, b.sku.value) {
      return Reply(400, Problem("Product with this SKU already exists", None));
    }
    reply := AddCheckedProduct(store, b);
  }
}
