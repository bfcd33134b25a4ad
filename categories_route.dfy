/**
  The collection handlers of app/api/categories/route.ts: `GET` seeds the store and lists
  every category with the number of products that point at it; `POST` validates a name,
  refuses one that is already taken ignoring case, and stores the trimmed category.
*/
module CategoriesRoute {
  import opened Wrappers
  import opened Text
  import opened ObjectIds
  import opened Schema
  import opened Database
  import opened Http
  import opened Lists
  import opened Listings

  /** A category with its `_count: { products }` field, as both handlers return it. */
  datatype CategoryWithCount = CategoryWithCount(category: CategoryView, products: nat)

  /** The number of stored products whose reference is `oid`. */
  function ReferenceCount(ps: seq<Product>, oid: nat): (n: nat)
    ensures n <= |ps|
  {
    if ps == [] then 0
    else (if ps[0].categoryRef == oid then 1 else 0) + ReferenceCount(ps[1..], oid)
  }

  /** `categories.map(category => ({ ...category, _count: { products: productCount } }))` */
  function WithCounts(cats: seq<CategoryView>, prods: seq<ProductView>): (r: seq<CategoryWithCount>)
    ensures |r| == |cats|
    ensures forall i :: 0 <= i < |cats| ==> r[i].category == cats[i]
    ensures forall i :: 0 <= i < |cats| ==> r[i].products == ProductCount(prods, cats[i].id)
  {
    seq(|cats|, i requires 0 <= i < |cats| => CategoryWithCount(cats[i], ProductCount(prods, cats[i].id)))
  }

  /** A listed product shows a stored category's `id` exactly when it references that category. */
  lemma ViewedInCategory(cs: seq<Category>, p: Product, c: Category)
    requires c in cs
    ensures ViewProduct(cs, p).categoryId == Some(IdString(c.oid)) <==> p.categoryRef == c.oid
  {
    var v := ViewProduct(cs, p);
    ParseIdString(c.oid);
    if p.categoryRef == c.oid {
      var i :| 0 <= i < |cs| && cs[i] == c;
      assert CategoryOid(cs[i]) == p.categoryRef;
      ParseIdIff(v.categoryId.value, c.oid);
    }
  }

  /** Counting listed products by the category's `id` counts the stored references to it. */
  lemma {:induction false} CountByIdIsReferenceCount(cs: seq<Category>, ps: seq<Product>, c: Category)
    requires c in cs
    ensures ProductCount(ViewProducts(cs, ps), IdString(c.oid)) == ReferenceCount(ps, c.oid)
  {
    if ps != [] {
      assert ViewProducts(cs, ps)[1..] == ViewProducts(cs, ps[1..]);
      ViewedInCategory(cs, ps[0], c);
      CountByIdIsReferenceCount(cs, ps[1..], c);
    }
  }

  /**
    What `GET` lists: every stored category once, in collection order, with the number of
    stored products that reference it.
  */
  lemma ListedCounts(cs: seq<Category>, ps: seq<Product>)
    ensures |WithCounts(ViewCategories(cs), ViewProducts(cs, ps))| == |cs|
    ensures forall i :: 0 <= i < |cs| ==>
              WithCounts(ViewCategories(cs), ViewProducts(cs, ps))[i]
                == CategoryWithCount(ViewCategory(cs[i]), ReferenceCount(ps, cs[i].oid))
  {
    forall i | 0 <= i < |cs|
      ensures WithCounts(ViewCategories(cs), ViewProducts(cs, ps))[i]
                == CategoryWithCount(ViewCategory(cs[i]), ReferenceCount(ps, cs[i].oid))
    {
      CountByIdIsReferenceCount(cs, ps, cs[i]);
    }
  }

  /**
    `GET /api/categories`: `initializeData()`, then the categories with their counts. A
    failure becomes a 500 whose `message` is the error's own only in development.
  */
  method CategoriesGet(store: Inventory, development: bool)
    returns (reply: Reply<seq<CategoryWithCount>>, ghost n1: nat, ghost n2: nat)
    requires store.Valid()
    modifies store
    ensures store.Valid() && store.online == old(store.online)
    ensures !old(store.online) ==>
              && reply == Reply(500, Problem("Failed to fetch categories",
                                             if development then Some(ErrorMessage(Unavailable)) else None))
              && store.categories == old(store.categories) && store.products == old(store.products)
              && store.users == old(store.users) && store.nextOid == old(store.nextOid)
    ensures old(store.online) ==>
              && SeededFrom(old(store.categories), old(store.products), old(store.users), old(store.nextOid),
                            n1, n2, store.categories, store.products, store.users, store.nextOid)
              && reply == Reply(200, Json(WithCounts(ViewCategories(store.categories),
                                                     ViewProducts(store.categories, store.products))))
  {
    var seeded;
    seeded, n1, n2 := store.InitializeData();
    if seeded.Failure? {
      var message := if development then Some(ErrorMessage(seeded.error)) else None;
      return Reply(500, Problem("Failed to fetch categories", message)), n1, n2;
    }
    var categories := store.GetCategories();
    var products := store.GetProducts();
    reply := Reply(200, Json(WithCounts(categories.value, products.value)));
  }

  // ---------------------------------------------------------------- POST

  /** The JSON body of a `POST`; `None` fields are absent. */
  datatype CategoryBody = CategoryBody(name: Option<string>, description: Option<string>)

  /** `!name || name.trim() === ''` */
  predicate NameMissing(name: Option<string>) {
    name.None? || Trim(name.value) == []
  }

  /** `existingCategories.find(c => c.name.toLowerCase() === name.trim().toLowerCase())` finds one. */
  predicate NameTaken(views: seq<CategoryView>, name: string)
    ensures !NameTaken(views, name) ==> forall i :: 0 <= i < |views| ==> views[i].name != Trim(name)
  {
    exists i :: 0 <= i < |views| && EqualIgnoringCase(views[i].name, Trim(name))
  }

  /** No two categories have names that are equal ignoring case. */
  predicate NamesUniqueIgnoringCase(cs: seq<Category>) {
    forall i, j :: 0 <= i < j < |cs| ==> !EqualIgnoringCase(cs[i].name, cs[j].name)
  }

  /** The category `addCategory({ name: name.trim(), description: description?.trim() || '' })` stores. */
  function NewCategory(oid: nat, name: string, description: Option<string>): (c: Category)
    requires Trim(name) != []
    ensures ValidCategory(c) && c.oid == oid
    ensures c.name == Trim(name) && c.description == TrimOrEmpty(description)
  {
    Category(oid, Trim(name), TrimOrEmpty(description))
  }

  /**
    A name that passes the handler's checks also passes the schema: the exact unique index
    can never reject what the case-insensitive check let through.
  */
  lemma UntakenNameInserts(cs: seq<Category>, next: nat, name: string, description: Option<string>)
    requires !NameMissing(Some(name)) && !NameTaken(ViewCategories(cs), name)
    ensures InsertCategory(cs, next, Some(Trim(name)), Some(TrimOrEmpty(description)))
              == Success(NewCategory(next, name, description))
  {
    var views := ViewCategories(cs);
    forall i | 0 <= i < |cs| ensures CategoryName(cs[i]) != Trim(name) {
      assert views[i].name == cs[i].name;
      assert !EqualIgnoringCase(views[i].name, Trim(name));
    }
  }

  /** Adding a name that is not taken ignoring case keeps names unique ignoring case. */
  lemma UntakenNameKeepsUnique(cs: seq<Category>, name: string, c: Category)
    requires NamesUniqueIgnoringCase(cs) && !NameTaken(ViewCategories(cs), name) && c.name == Trim(name)
    ensures NamesUniqueIgnoringCase(cs + [c])
  {
    var views := ViewCategories(cs);
    forall i | 0 <= i < |cs| ensures !EqualIgnoringCase(cs[i].name, c.name) {
      assert views[i].name == cs[i].name;
    }
  }

  /**
    The two uniqueness rules differ: with a category "Tools" stored, the handler refuses
    "tools", which the exact unique index of the schema would accept.
  */
  lemma CaseVariantRefusedOnlyByHandler()
    ensures NameTaken(ViewCategories([Category(0, "Tools", "")]), "tools")
    ensures InsertCategory([Category(0, "Tools", "")], 1, Some("tools"), None).Success?
  {
    var cs := [Category(0, "Tools", "")];
    assert IsTrimmed("tools");
    assert Lower("Tools") == "tools" by {
      assert Lower("Tools")[0] == 't';
    }
    assert ViewCategories(cs)[0].name == "Tools";
    assert CategoryName(cs[0]) != "tools";
  }

  /**
    `POST /api/categories`: an unreadable body or a store failure is a 500; a missing name
    and a name taken ignoring case are 400s; otherwise exactly one category is added and
    returned with a count of 0.
  */
  method CategoriesPost(store: Inventory, body: Option<CategoryBody>) returns (reply: Reply<CategoryWithCount>)
    requires store.Valid()
    modifies store
    ensures store.Valid() && store.online == old(store.online)
    ensures store.products == old(store.products) && store.users == old(store.users)
    ensures reply.status != 201 ==> store.categories == old(store.categories) && store.nextOid == old(store.nextOid)
    ensures body.None? ==> reply == Reply(500, Problem("Failed to create category", None))
    ensures body.Some? && NameMissing(body.value.name) ==>
              reply == Reply(400, Problem("Category name is required", None))
    ensures body.Some? && !NameMissing(body.value.name) && !old(store.online) ==>
              reply == Reply(500, Problem("Failed to create category", None))
    ensures body.Some? && !NameMissing(body.value.name) && old(store.online)
            && NameTaken(ViewCategories(old(store.categories)), body.value.name.value) ==>
              reply == Reply(400, Problem("Category with this name already exists", None))
    ensures reply.status == 201 <==> && body.Some? && !NameMissing(body.value.name) && old(store.online)
                                     && !NameTaken(ViewCategories(old(store.categories)), body.value.name.value)
    ensures reply.status == 201 ==>
              var c := NewCategory(old(store.nextOid), body.value.name.value, body.value.description);
              && store.categories == old(store.categories) + [c] && store.nextOid == old(store.nextOid) + 1
              && reply.body == Json(CategoryWithCount(ViewCategory(c), 0))
    ensures NamesUniqueIgnoringCase(old(store.categories)) ==> NamesUniqueIgnoringCase(store.categories)
  {
    if body.None? {
      return Reply(500, Problem("Failed to create category", None));
    }
    var name, description := body.value.name, body.value.description;
    if name.None? || Trim(name.value) == [] {
      return Reply(400, Problem("Category name is required", None));
    }
    var existing := store.GetCategories();
    if existing.Failure? {
      return Reply(500, Problem("Failed to create category", None));
    }
    if NameTaken(existing.value, name.value) {
      return Reply(400, Problem("Category with this name already exists", None));
    }
    UntakenNameInserts(store.categories, store.nextOid, name.value, description);
    ghost var c := NewCategory(store.nextOid, name.value, description);
    ghost var before := store.categories;
    var added := store.AddCategory(Some(Trim(name.value)), Some(TrimOrEmpty(description)));
    if NamesUniqueIgnoringCase(before) {
      UntakenNameKeepsUnique(before, name.value, c);
    }
    reply := Reply(201, Json(CategoryWithCount(added.value, 0)));
  }
}
