/**
  The data-access layer (lib/database.ts): the three collections behind the Mongoose
  models, the reads that turn documents into the JSON-ready views the pages use, the
  writes with their validation and unique indexes, and the sample-data seeding.

  The store is a class whose fields are the collections. ObjectIds are drawn from a
  counter `nextOid`; the text form of an identifier is `IdString`. The database
  connection is the flag `online`: when it is down every operation fails with
  `Unavailable` and changes nothing.
*/
module Database {
  import opened Wrappers
  import opened Text
  import opened Lists
  import opened ObjectIds
  import opened Schema

  function CategoryOid(c: Category): nat { c.oid }
  function CategoryName(c: Category): string { c.name }
  function ProductOid(p: Product): nat { p.oid }
  function ProductSku(p: Product): string { p.sku }
  function UserOid(u: User): nat { u.oid }
  function UserEmail(u: User): string { u.email }

  /** Every category passed its schema, has an identifier below `next`, and `_id` and `name` are unique. */
  predicate CategoriesOk(cs: seq<Category>, next: nat) {
    && (forall c :: c in cs ==> ValidCategory(c) && c.oid < next)
    && DistinctKeys(cs, CategoryOid) && DistinctKeys(cs, CategoryName)
  }

  /** Every product passed its schema, has an identifier below `next`, and `_id` and `sku` are unique. */
  predicate ProductsOk(ps: seq<Product>, next: nat) {
    && (forall p :: p in ps ==> ValidProduct(p) && p.oid < next)
    && DistinctKeys(ps, ProductOid) && DistinctKeys(ps, ProductSku)
  }

  /** Every user passed its schema, has an identifier below `next`, and `_id` and `email` are unique. */
  predicate UsersOk(us: seq<User>, next: nat) {
    && (forall u :: u in us ==> ValidUser(u) && u.oid < next)
    && DistinctKeys(us, UserOid) && DistinctKeys(us, UserEmail)
  }

  // ---------------------------------------------------------------- views

  /** A category as the API returns it: `_id` replaced by its text form `id`. */
  datatype CategoryView = CategoryView(id: string, name: string, description: string)

  /** A product as the API returns it, with its category populated (`None` stands for null). */
  datatype ProductView = ProductView(id: string, name: string, description: string, sku: string,
                                     price: int, cost: int, stock: int, minStock: int,
                                     categoryId: Option<string>, category: Option<CategoryView>)

  datatype UserView = UserView(id: string, name: string, email: string, role: Role)

  function CategoryViewName(v: CategoryView): string { v.name }

  function ViewCategory(c: Category): CategoryView {
    CategoryView(IdString(c.oid), c.name, c.description)
  }

  /** `getCategories()`: every category, in collection order. */
  function ViewCategories(cs: seq<Category>): (r: seq<CategoryView>)
    ensures |r| == |cs|
    ensures forall i :: 0 <= i < |cs| ==> r[i] == ViewCategory(cs[i])
  {
    seq(|cs|, i requires 0 <= i < |cs| => ViewCategory(cs[i]))
  }

  /** `populate('categoryId')`: the category the reference points to, or null when there is none. */
  function Populate(cs: seq<Category>, ref: nat): (r: Option<Category>)
    ensures r.Some? ==> r.value in cs && r.value.oid == ref
    ensures r.None? <==> KeyFree(cs, CategoryOid, ref)
  {
    match IndexOfKey(cs, CategoryOid, ref)
    case None => None
    case Some(i) => Some(cs[i])
  }

  /**
    A product as `getProducts()` and `getProductById()` render it: a reference to a missing
    category makes both `categoryId` and `category` null.
  */
  function ViewProduct(cs: seq<Category>, p: Product): (v: ProductView)
    ensures v.id == IdString(p.oid) && v.sku == p.sku && v.stock == p.stock && v.minStock == p.minStock
    ensures v.name == p.name && v.description == p.description && v.price == p.price && v.cost == p.cost
    ensures v.category.Some? <==> !KeyFree(cs, CategoryOid, p.categoryRef)
    ensures v.categoryId.Some? <==> v.category.Some?
    ensures v.category.Some? ==> ParseId(v.categoryId.value) == Some(p.categoryRef)
                                 && v.category.value.id == v.categoryId.value
                                 && v.category.value in ViewCategories(cs)
  {
    match Populate(cs, p.categoryRef)
    case None =>
      ProductView(IdString(p.oid), p.name, p.description, p.sku, p.price, p.cost, p.stock, p.minStock, None, None)
    case Some(c) =>
      ParseIdString(c.oid);
      ProductView(IdString(p.oid), p.name, p.description, p.sku, p.price, p.cost, p.stock, p.minStock,
                  Some(IdString(c.oid)), Some(ViewCategory(c)))
  }

  /** `getProducts()`: every product, in collection order. */
  function ViewProducts(cs: seq<Category>, ps: seq<Product>): (r: seq<ProductView>)
    ensures |r| == |ps|
    ensures forall i :: 0 <= i < |ps| ==> r[i] == ViewProduct(cs, ps[i])
  {
    seq(|ps|, i requires 0 <= i < |ps| => ViewProduct(cs, ps[i]))
  }

  function ViewUser(u: User): UserView {
    UserView(IdString(u.oid), u.name, u.email, u.role)
  }

  /** `getUsers()`: every user, in collection order. */
  function ViewUsers(us: seq<User>): (r: seq<UserView>)
    ensures |r| == |us|
    ensures forall i :: 0 <= i < |us| ==> r[i] == ViewUser(us[i])
  {
    seq(|us|, i requires 0 <= i < |us| => ViewUser(us[i]))
  }

  /** `Product.findById(id)`: a malformed id is a CastError, an unknown one gives null. */
  function ProductById(cs: seq<Category>, ps: seq<Product>, id: string): (r: Result<Option<ProductView>, StoreError>)
    ensures r.Failure? <==> ParseId(id).None?
    ensures r.Failure? ==> r.error == BadObjectId(id)
    ensures r == Success(None) <==> ParseId(id).Some? && KeyFree(ps, ProductOid, ParseId(id).value)
    ensures r.Success? && r.value.Some? ==> r.value.value in ViewProducts(cs, ps) && r.value.value.id == id
  {
    match ParseId(id)
    case None => Failure(BadObjectId(id))
    case Some(oid) =>
      match IndexOfKey(ps, ProductOid, oid)
      case None => Success(None)
      case Some(k) =>
        ParseIdIff(id, oid);
        assert ViewProducts(cs, ps)[k] == ViewProduct(cs, ps[k]);
        Success(Some(ViewProduct(cs, ps[k])))
  }

  /** Looking a product up by the `id` a listing shows for it finds that product. */
  lemma ProductByIdOfListed(cs: seq<Category>, ps: seq<Product>, i: nat)
    requires i < |ps| && DistinctKeys(ps, ProductOid)
    ensures ProductById(cs, ps, ViewProducts(cs, ps)[i].id) == Success(Some(ViewProducts(cs, ps)[i]))
  {
    var oid := ps[i].oid;
    ParseIdString(oid);
    var k := IndexOfKey(ps, ProductOid, oid);
    assert !KeyFree(ps, ProductOid, oid);
    assert k.value == i;
  }

  // ---------------------------------------------------------------- errors

  /** Why a store operation threw. */
  datatype StoreError =
    | Unavailable                 // the connection could not be opened
    | BadObjectId(text: string)   // a CastError / BSONError on an identifier
    | Invalid(violation: Violation)  // a ValidationError
    | DuplicateKey(index: string) // E11000 on a unique index
    | MissingCategory             // a TypeError reading `_id` of a null populated category

  /**
    The `message` of the error thrown. A failed connection carries the driver's own text,
    which is not modelled; the model uses the fallback `connectDB` puts there when the
    driver gives none.
  */
  function ErrorMessage(e: StoreError): (m: string)
    ensures m != []
    ensures e == Unavailable ==> IsPrefix("MongoDB connection failed: ", m)
  {
    match e
    case Unavailable => "MongoDB connection failed: " + "Unknown error"
    case BadObjectId(_) => "Cast to ObjectId failed"
    case Invalid(v) => "Validation failed: " + v.path
    case DuplicateKey(index) => "E11000 duplicate key error: " + index
    case MissingCategory => "Cannot read properties of null (reading '_id')"
  }

  // ---------------------------------------------------------------- writes, as decisions

  /** `Category.create(input)`: the document, or the validation or unique-index error. */
  function InsertCategory(cs: seq<Category>, next: nat, name: Option<string>, description: Option<string>): (r: Result<Category, StoreError>)
    ensures r.Success? <==> CastCategory(next, name, description).Success?
                            && KeyFree(cs, CategoryName, CastCategory(next, name, description).value.name)
    ensures r.Success? ==> r.value == CastCategory(next, name, description).value
  {
    match CastCategory(next, name, description)
    case Failure(v) => Failure(Invalid(v))
    case Success(c) =>
      if KeyFree(cs, CategoryName, c.name) then Success(c)
      else Failure(DuplicateKey("name"))
  }

  /** A category that `Category.create` accepts keeps the collection's schema and unique indexes. */
  lemma InsertCategoryKeepsStore(cs: seq<Category>, next: nat, name: Option<string>, description: Option<string>)
    requires CategoriesOk(cs, next) && InsertCategory(cs, next, name, description).Success?
    ensures CategoriesOk(cs + [InsertCategory(cs, next, name, description).value], next + 1)
  {
    var c := InsertCategory(cs, next, name, description).value;
    DistinctAppend(cs, CategoryOid, c);
    DistinctAppend(cs, CategoryName, c);
  }

  /** A product document as the pages send it; `categoryId` is the category's id text. */
  datatype ProductInput = ProductInput(name: Option<string>, description: Option<string>, sku: Option<string>,
                                       price: Option<int>, cost: Option<int>,
                                       stock: Option<int>, minStock: Option<int>, categoryId: Option<string>)

  /** The identifier `addProduct` gives a new product: `new ObjectId(undefined)` draws one first. */
  function NewProductOid(next: nat, input: ProductInput): nat {
    if input.categoryId.None? then next + 1 else next
  }

  /** The reference `addProduct` stores: a fresh identifier that no category has when `categoryId` is absent. */
  function NewProductRef(next: nat, ref: nat, input: ProductInput): nat {
    if input.categoryId.None? then next else ref
  }

  /** `Product.create(productData)` after the coercions of `addProduct`: stock and minStock default to 0. */
  function InsertProduct(ps: seq<Product>, next: nat, input: ProductInput): (r: Result<Product, StoreError>)
    ensures input.categoryId.Some? && ParseId(input.categoryId.value).None? ==> r == Failure(BadObjectId(input.categoryId.value))
    ensures r.Success? <==> && (input.categoryId.None? || ParseId(input.categoryId.value).Some?)
                            && input.name.Some? && Trim(input.name.value) != []
                            && input.sku.Some? && Trim(input.sku.value) != []
                            && input.price.Some? && input.price.value >= 0
                            && input.cost.Some? && input.cost.value >= 0
                            && input.stock.GetOr(0) >= 0 && input.minStock.GetOr(0) >= 0
                            && KeyFree(ps, ProductSku, StoredSku(input.sku.value))
    ensures r.Success? ==> && ValidProduct(r.value) && r.value.oid == NewProductOid(next, input)
                           && KeyFree(ps, ProductSku, r.value.sku)
                           && r.value.name == Trim(input.name.value)
                           && r.value.description == TrimOrEmpty(input.description)
                           && r.value.sku == StoredSku(input.sku.value)
                           && r.value.price == input.price.value && r.value.cost == input.cost.value
                           && r.value.stock == input.stock.GetOr(0) && r.value.minStock == input.minStock.GetOr(0)
    ensures r.Success? && input.categoryId.Some? ==> IdString(r.value.categoryRef) == input.categoryId.value
    ensures r.Success? && input.categoryId.None? ==> r.value.categoryRef == next
    ensures r.Failure? && (input.categoryId.None? || ParseId(input.categoryId.value).Some?) ==>
              r.error.Invalid? || r.error == DuplicateKey("sku")
  {
    var ref := if input.categoryId.None? then Some(next) else ParseId(input.categoryId.value);
    if ref.None? then Failure(BadObjectId(input.categoryId.value))
    else
      var oid := NewProductOid(next, input);
      var fields := ProductFields(input.name, input.description, input.sku, input.price, input.cost,
                                  Some(input.stock.GetOr(0)), Some(input.minStock.GetOr(0)), ref);
      match CastProduct(oid, fields)
      case Failure(v) => Failure(Invalid(v))
      case Success(p) =>
        if !KeyFree(ps, ProductSku, p.sku) then Failure(DuplicateKey("sku"))
        else if input.categoryId.Some? then
          ParseIdIff(input.categoryId.value, ref.value);
          Success(p)
        else Success(p)
  }

  /** A product that `Product.create` accepts keeps the collection's schema and unique indexes. */
  lemma InsertProductKeepsStore(ps: seq<Product>, next: nat, input: ProductInput)
    requires ProductsOk(ps, next) && InsertProduct(ps, next, input).Success?
    ensures ProductsOk(ps + [InsertProduct(ps, next, input).value], NewProductOid(next, input) + 1)
  {
    var p := InsertProduct(ps, next, input).value;
    DistinctAppend(ps, ProductOid, p);
    DistinctAppend(ps, ProductSku, p);
  }

  /** `User.create(input)`: the document, or the validation or unique-index error. */
  function InsertUser(us: seq<User>, next: nat, name: Option<string>, email: Option<string>, role: Option<string>): (r: Result<User, StoreError>)
    ensures r.Success? <==> CastUser(next, name, email, role).Success?
                            && KeyFree(us, UserEmail, CastUser(next, name, email, role).value.email)
    ensures r.Success? ==> r.value == CastUser(next, name, email, role).value
  {
    match CastUser(next, name, email, role)
    case Failure(v) => Failure(Invalid(v))
    case Success(u) =>
      if KeyFree(us, UserEmail, u.email) then Success(u)
      else Failure(DuplicateKey("email"))
  }

  /** A user that `User.create` accepts keeps the collection's schema and unique indexes. */
  lemma InsertUserKeepsStore(us: seq<User>, next: nat, name: Option<string>, email: Option<string>, role: Option<string>)
    requires UsersOk(us, next) && InsertUser(us, next, name, email, role).Success?
    ensures UsersOk(us + [InsertUser(us, next, name, email, role).value], next + 1)
  {
    var u := InsertUser(us, next, name, email, role).value;
    DistinctAppend(us, UserOid, u);
    DistinctAppend(us, UserEmail, u);
  }

  // ---------------------------------------------------------------- sample data

  /** The five sample categories: name and description. */
  const SampleCategories: seq<(string, string)> := [
    ("Electronics", "Electronic devices and gadgets"),
    ("Furniture", "Office and home furniture"),
    ("Clothing", "Apparel and fashion accessories"),
    ("Books", "Educational and reference materials"),
    ("Office Supplies", "Stationery and office equipment")]

  /** A sample product; prices in cents, and the category by name. */
  datatype SampleProduct = SampleProduct(name: string, description: string, sku: string,
                                         price: int, cost: int, stock: int, minStock: int, categoryName: string)

  const SampleLaptop := SampleProduct("Business Laptop", "15.6\" laptop perfect for business use", "LAPTOP-001",
                                      89999, 65000, 12, 3, "Electronics")
  const SampleMouse := SampleProduct("Wireless Mouse", "Ergonomic wireless mouse " + "with long battery life", "MOUSE-001",
                                     2999, 1500, 45, 10, "Electronics")
  const SampleDesk := SampleProduct("Standing Desk", "Adjustable height standing desk", "DESK-001",
                                    34999, 22000, 8, 2, "Furniture")

  /** The three sample products, in the order they are added. */
  const SampleProducts: seq<SampleProduct> := [SampleLaptop, SampleMouse, SampleDesk]

  const SampleAdmin := ("System Administrator", "admin@invmanage.com", "admin")
  const SampleManager := ("Inventory Manager", "manager@invmanage.com", "manager")

  /** The two sample users: name, e-mail and role. */
  const SampleUsers: seq<(string, string, string)> := [SampleAdmin, SampleManager]

  /** A sample category the schema accepts and stores as written. */
  predicate CategorySampleAccepted(c: (string, string)) {
    IsRequiredText(c.0) && IsTrimmed(c.1)
  }

  /** Sample categories the schema accepts, with distinct names. */
  predicate CategorySamplesOk(ss: seq<(string, string)>) {
    && (forall i :: 0 <= i < |ss| ==> CategorySampleAccepted(ss[i]))
    && (forall i, j :: 0 <= i < j < |ss| ==> ss[i].0 != ss[j].0)
  }

  /** A sample product the schema accepts and stores as written (trimmed text, an upper-case SKU). */
  predicate ProductSampleAccepted(p: SampleProduct) {
    && IsRequiredText(p.name) && IsTrimmed(p.description) && IsRequiredText(p.sku) && NoLowerLetters(p.sku)
    && p.price >= 0 && p.cost >= 0 && p.stock >= 0 && p.minStock >= 0
  }

  /** Sample products the schema accepts, with distinct SKUs. */
  predicate ProductSamplesOk(ss: seq<SampleProduct>) {
    && (forall i :: 0 <= i < |ss| ==> ProductSampleAccepted(ss[i]))
    && (forall i, j :: 0 <= i < j < |ss| ==> ss[i].sku != ss[j].sku)
  }

  /** A sample user the schema accepts and stores as written (a trimmed, lower-case e-mail). */
  predicate UserSampleAccepted(u: (string, string, string)) {
    && IsRequiredText(u.0) && IsTrimmed(u.1) && NoUpperLetters(u.1) && MatchesEmailPattern(u.1)
    && u.2 in {"admin", "manager", "user"}
  }

  /** Sample users the schema accepts, with distinct e-mails. */
  predicate UserSamplesOk(ss: seq<(string, string, string)>) {
    && (forall i :: 0 <= i < |ss| ==> UserSampleAccepted(ss[i]))
    && (forall i, j :: 0 <= i < j < |ss| ==> ss[i].1 != ss[j].1)
  }

  lemma SampleCategoriesOk()
    ensures CategorySamplesOk(SampleCategories)
  {
  }

  lemma SampleLaptopOk()
    ensures ProductSampleAccepted(SampleLaptop)
  {
    assert NoLowerFrom("LAPTOP-001", 0);
    NoLowerFromAll("LAPTOP-001", 0);
  }

  lemma SampleMouseOk()
    ensures ProductSampleAccepted(SampleMouse)
  {
    assert NoLowerFrom("MOUSE-001", 0);
    NoLowerFromAll("MOUSE-001", 0);
  }

  lemma SampleDeskOk()
    ensures ProductSampleAccepted(SampleDesk)
  {
    assert NoLowerFrom("DESK-001", 0);
    NoLowerFromAll("DESK-001", 0);
  }

  lemma SampleProductsOk()
    ensures ProductSamplesOk(SampleProducts)
  {
    SampleLaptopOk();
    SampleMouseOk();
    SampleDeskOk();
  }

  lemma SampleAdminOk()
    ensures UserSampleAccepted(SampleAdmin)
  {
    var a := SampleAdmin.1;
    assert a[5] == '@' && a[15] == '.';
    assert NoUpperFrom("admin@invmanage.com", 15);
    assert NoUpperFrom("admin@invmanage.com", 10);
    assert NoUpperFrom("admin@invmanage.com", 5);
    assert NoUpperFrom("admin@invmanage.com", 0);
    assert NoSpaceFrom("admin@invmanage.com", 15);
    assert NoSpaceFrom("admin@invmanage.com", 10);
    assert NoSpaceFrom("admin@invmanage.com", 5);
    assert NoSpaceFrom("admin@invmanage.com", 0);
    NoUpperFromAll("admin@invmanage.com", 0);
    NoSpaceFromAll("admin@invmanage.com", 0);
  }

  lemma SampleManagerOk()
    ensures UserSampleAccepted(SampleManager)
  {
    var m := SampleManager.1;
    assert m[7] == '@' && m[17] == '.';
    assert NoUpperFrom("manager@invmanage.com", 15);
    assert NoUpperFrom("manager@invmanage.com", 10);
    assert NoUpperFrom("manager@invmanage.com", 5);
    assert NoUpperFrom("manager@invmanage.com", 0);
    assert NoSpaceFrom("manager@invmanage.com", 15);
    assert NoSpaceFrom("manager@invmanage.com", 10);
    assert NoSpaceFrom("manager@invmanage.com", 5);
    assert NoSpaceFrom("manager@invmanage.com", 0);
    NoUpperFromAll("manager@invmanage.com", 0);
    NoSpaceFromAll("manager@invmanage.com", 0);
  }

  lemma SampleUsersOk()
    ensures UserSamplesOk(SampleUsers)
  {
    SampleAdminOk();
    SampleManagerOk();
  }

  /** The categories seeding adds to an empty collection for the samples `ss`, numbered from `next`. */
  function SeedCategories(ss: seq<(string, string)>, next: nat): (r: seq<Category>)
    ensures |r| == |ss|
  {
    seq(|ss|, i requires 0 <= i < |ss| => Category(next + i, ss[i].0, ss[i].1))
  }

  /** The stored form of a sample product that refers to category `ref`. */
  function SeedProduct(s: SampleProduct, oid: nat, ref: nat): Product {
    Product(oid, s.name, s.description, s.sku, s.price, s.cost, s.stock, s.minStock, ref)
  }

  /**
    The products seeding adds to an empty collection for the samples `ss`, given the
    categories `cs` and numbered from `next`: a sample whose category name is not among
    `cs` is skipped.
  */
  function SeedProducts(ss: seq<SampleProduct>, cs: seq<Category>, next: nat): (r: seq<Product>)
    ensures |r| <= |ss|
    decreases |ss|
  {
    if ss == [] then []
    else
      var prev := SeedProducts(ss[..|ss| - 1], cs, next);
      var k := IndexOfKey(cs, CategoryName, ss[|ss| - 1].categoryName);
      if k.None? then prev else prev + [SeedProduct(ss[|ss| - 1], next + |prev|, cs[k.value].oid)]
  }

  /** The users seeding adds to an empty collection for the samples `ss`, numbered from `next`. */
  function SeedUsers(ss: seq<(string, string, string)>, next: nat): (r: seq<User>)
    ensures |r| == |ss|
  {
    seq(|ss|, i requires 0 <= i < |ss| =>
      User(next + i, ss[i].0, ss[i].1, CastRole(Some(ss[i].2)).GetOr(Member)))
  }

  predicate HasCategoryNamed(cs: seq<Category>, name: string) {
    !KeyFree(cs, CategoryName, name)
  }

  /** No sample of `ss` names a category of `cs`. */
  predicate NoSampleCategory(ss: seq<SampleProduct>, cs: seq<Category>) {
    forall k :: 0 <= k < |ss| ==> !HasCategoryNamed(cs, ss[k].categoryName)
  }

  /**
    The state seeding leaves: there are categories and users, and there are products
    unless no sample product's category exists.
  */
  predicate SeededWith(ss: seq<SampleProduct>, cs: seq<Category>, ps: seq<Product>, us: seq<User>) {
    cs != [] && us != [] && (ps != [] || NoSampleCategory(ss, cs))
  }

  /**
    The state `initializeData()` leaves, when the database is reachable, starting from the
    collections `c0`, `p0`, `u0` and the counter `n0`: each collection that was empty
    receives its samples, numbered on from the counter (the products from `n1`, the users
    from `n2`), and the others are kept.
  */
  predicate SeededFrom(c0: seq<Category>, p0: seq<Product>, u0: seq<User>, n0: nat, n1: nat, n2: nat,
                       c: seq<Category>, p: seq<Product>, u: seq<User>, n: nat)
  {
    && n1 == n0 + (if c0 == [] then |SampleCategories| else 0)
    && n2 == n1 + (if p0 == [] then |p| else 0)
    && (c0 == [] ==> c == SeedCategories(SampleCategories, n0))
    && (c0 != [] ==> c == c0)
    && (p0 == [] ==> p == SeedProducts(SampleProducts, c, n1))
    && (p0 != [] ==> p == p0)
    && (u0 == [] ==> u == SeedUsers(SampleUsers, n2))
    && (u0 != [] ==> u == u0)
    && n == n2 + (if u0 == [] then |SampleUsers| else 0)
  }

  /** After seeding there are categories and users, and products unless no sample's category exists. */
  lemma SeededFromIsSeeded(c0: seq<Category>, p0: seq<Product>, u0: seq<User>, n0: nat, n1: nat, n2: nat,
                           c: seq<Category>, p: seq<Product>, u: seq<User>, n: nat)
    requires SeededFrom(c0, p0, u0, n0, n1, n2, c, p, u, n)
    ensures SeededWith(SampleProducts, c, p, u)
  {
    SeedProductsEmpty(SampleProducts, c, n1);
  }

  /** Seeding is idempotent: a second run over a seeded store changes nothing. */
  lemma SeedingIdempotent(c0: seq<Category>, p0: seq<Product>, u0: seq<User>, n0: nat, n1: nat, n2: nat,
                          c: seq<Category>, p: seq<Product>, u: seq<User>, n: nat)
    requires SeededWith(SampleProducts, c0, p0, u0)
    requires SeededFrom(c0, p0, u0, n0, n1, n2, c, p, u, n)
    ensures c == c0 && p == p0 && u == u0 && n == n0
  {
    SeedProductsEmpty(SampleProducts, c, n1);
  }

  /** Seeding an empty store gives the five categories, all three products and the two users. */
  lemma SeedingEmptyStore(n0: nat, n1: nat, n2: nat, c: seq<Category>, p: seq<Product>, u: seq<User>, n: nat)
    requires SeededFrom([], [], [], n0, n1, n2, c, p, u, n)
    ensures |c| == 5 && |p| == 3 && |u| == 2
    ensures n == n0 + 10
  {
    SeedProductsOnSampleCategories(n0, n0 + |SampleCategories|);
  }

  /** Every product seeding adds carries the stored SKU of one of the samples considered. */
  lemma {:induction false} SeedProductSkus(ss: seq<SampleProduct>, cs: seq<Category>, next: nat)
    ensures forall p :: p in SeedProducts(ss, cs, next) ==> exists i :: 0 <= i < |ss| && p.sku == ss[i].sku
    decreases |ss|
  {
    if ss != [] {
      var prefix := ss[..|ss| - 1];
      SeedProductSkus(prefix, cs, next);
      forall p | p in SeedProducts(prefix, cs, next)
        ensures exists i :: 0 <= i < |ss| && p.sku == ss[i].sku
      {
        var i :| 0 <= i < |prefix| && p.sku == prefix[i].sku;
        assert prefix[i] == ss[i];
      }
    }
  }

  /** Seeding products adds nothing exactly when no sample's category exists. */
  lemma {:induction false} SeedProductsEmpty(ss: seq<SampleProduct>, cs: seq<Category>, next: nat)
    ensures SeedProducts(ss, cs, next) == [] <==> NoSampleCategory(ss, cs)
    decreases |ss|
  {
    if ss != [] {
      var prefix := ss[..|ss| - 1];
      SeedProductsEmpty(prefix, cs, next);
      assert forall k :: 0 <= k < |prefix| ==> prefix[k] == ss[k];
    }
  }

  /** Seeded into an empty store, the sample categories give all three sample products. */
  lemma SeedProductsOnSampleCategories(n: nat, m: nat)
    ensures |SeedProducts(SampleProducts, SeedCategories(SampleCategories, n), m)| == |SampleProducts|
  {
    var cs := SeedCategories(SampleCategories, n);
    SampleCategoriesOk();
    assert CategoryName(cs[0]) == "Electronics" && CategoryName(cs[1]) == "Furniture";
    assert HasCategoryNamed(cs, "Electronics") && HasCategoryNamed(cs, "Furniture");
    var ss := SampleProducts;
    assert ss[..2][..1] == ss[..1] && ss[..1][..0] == [];
    assert ss[..3] == ss;
    assert |SeedProducts(ss[..1], cs, m)| == 1;
    assert |SeedProducts(ss[..2], cs, m)| == 2;
  }

  /** The input `initializeData()` hands to `addProduct` for a sample whose category has id `categoryId`. */
  function SampleProductInput(s: SampleProduct, categoryId: string): ProductInput {
    ProductInput(Some(s.name), Some(s.description), Some(s.sku), Some(s.price), Some(s.cost),
                 Some(s.stock), Some(s.minStock), Some(categoryId))
  }

  /** Seeding the samples up to and including `i` skips sample `i` when its category does not exist... */
  lemma SeedProductsSkip(ss: seq<SampleProduct>, cs: seq<Category>, next: nat, i: nat)
    requires i < |ss| && IndexOfKey(cs, CategoryName, ss[i].categoryName).None?
    ensures SeedProducts(ss[..i + 1], cs, next) == SeedProducts(ss[..i], cs, next)
  {
    var t := ss[..i + 1];
    assert t[..|t| - 1] == ss[..i] && t[|t| - 1] == ss[i];
  }

  /** ... and adds it, referring to the first category of that name, when it does. */
  lemma SeedProductsAdd(ss: seq<SampleProduct>, cs: seq<Category>, ps: seq<Product>, next: nat, i: nat, k: nat)
    requires i < |ss| && IndexOfKey(cs, CategoryName, ss[i].categoryName) == Some(k)
    requires ps == SeedProducts(ss[..i], cs, next)
    ensures SeedProducts(ss[..i + 1], cs, next) == ps + [SeedProduct(ss[i], next + |ps|, cs[k].oid)]
  {
    var t := ss[..i + 1];
    assert t[..|t| - 1] == ss[..i] && t[|t| - 1] == ss[i];
    var prev := SeedProducts(t[..|t| - 1], cs, next);
    assert SeedProducts(t, cs, next) == prev + [SeedProduct(t[|t| - 1], next + |prev|, cs[k].oid)];
  }

  /** `Product.create` accepts a sample document with a well-formed category id whose SKU is new. */
  lemma InsertProductAccepts(ps: seq<Product>, next: nat, s: SampleProduct, id: string, ref: nat)
    requires ProductSampleAccepted(s) && KeyFree(ps, ProductSku, s.sku) && ParseId(id) == Some(ref)
    ensures InsertProduct(ps, next, SampleProductInput(s, id)) == Success(SeedProduct(s, next, ref))
  {
    UpperOfNoLower(s.sku);
    assert StoredSku(s.sku) == s.sku;
  }

  /** A sample's stored SKU is not among those of the products seeded from the samples before it. */
  lemma SeedProductSkuFree(ss: seq<SampleProduct>, cs: seq<Category>, next: nat, i: nat)
    requires ProductSamplesOk(ss) && i < |ss|
    ensures KeyFree(SeedProducts(ss[..i], cs, next), ProductSku, ss[i].sku)
  {
    var ps := SeedProducts(ss[..i], cs, next);
    SeedProductSkus(ss[..i], cs, next);
    forall q | q in ps ensures q.sku != ss[i].sku {
      var j :| 0 <= j < i && q.sku == ss[..i][j].sku;
      assert ss[..i][j] == ss[j];
    }
  }

  /** Each sample product inserted during seeding is accepted: it is valid and its SKU is new. */
  lemma SeedProductInsert(ss: seq<SampleProduct>, cs: seq<Category>, ps: seq<Product>, next: nat, oid: nat,
                          i: nat, k: nat, id: string)
    requires ProductSamplesOk(ss) && i < |ss| && k < |cs|
    requires ps == SeedProducts(ss[..i], cs, next) && oid == next + |ps| && id == IdString(cs[k].oid)
    ensures InsertProduct(ps, oid, SampleProductInput(ss[i], id)) == Success(SeedProduct(ss[i], oid, cs[k].oid))
    ensures Populate(cs, cs[k].oid).Some?
  {
    SeedProductSkuFree(ss, cs, next, i);
    assert ProductSampleAccepted(ss[i]);
    ParseIdString(cs[k].oid);
    InsertProductAccepts(ps, oid, ss[i], id, cs[k].oid);
    assert CategoryOid(cs[k]) == cs[k].oid;
  }

  /** `User.create` accepts a sample document whose e-mail is new. */
  lemma InsertUserAccepts(us: seq<User>, next: nat, u: (string, string, string))
    requires UserSampleAccepted(u) && KeyFree(us, UserEmail, u.1)
    ensures InsertUser(us, next, Some(u.0), Some(u.1), Some(u.2))
            == Success(User(next, u.0, u.1, CastRole(Some(u.2)).value))
  {
    LowerOfNoUpper(u.1);
    assert StoredEmail(u.1) == u.1;
  }

  /** A sample's stored e-mail is not among those of the users seeded from the samples before it. */
  lemma SeedUserEmailFree(ss: seq<(string, string, string)>, next: nat, i: nat)
    requires UserSamplesOk(ss) && i < |ss|
    ensures KeyFree(SeedUsers(ss, next)[..i], UserEmail, ss[i].1)
  {
    var us := SeedUsers(ss, next)[..i];
    forall j | 0 <= j < |us| ensures UserEmail(us[j]) != ss[i].1 {
      assert UserEmail(us[j]) == ss[j].1;
    }
  }

  /** Each sample user inserted during seeding is accepted: it is valid and its e-mail is new. */
  lemma SeedUserInsert(ss: seq<(string, string, string)>, us: seq<User>, next: nat, oid: nat, i: nat)
    requires UserSamplesOk(ss) && i < |ss| && us == SeedUsers(ss, next)[..i] && oid == next + i
    ensures InsertUser(us, oid, Some(ss[i].0), Some(ss[i].1), Some(ss[i].2)) == Success(SeedUsers(ss, next)[i])
  {
    SeedUserEmailFree(ss, next, i);
    assert UserSampleAccepted(ss[i]);
    InsertUserAccepts(us, oid, ss[i]);
  }

  /** Each sample category inserted during seeding is accepted: it is valid and its name is new. */
  lemma SeedCategoryInsert(ss: seq<(string, string)>, next: nat, i: nat)
    requires CategorySamplesOk(ss) && i < |ss|
    ensures InsertCategory(SeedCategories(ss, next)[..i], next + i, Some(ss[i].0), Some(ss[i].1))
            == Success(SeedCategories(ss, next)[i])
  {
    assert Trim(ss[i].0) == ss[i].0;
    var cs := SeedCategories(ss, next)[..i];
    forall j | 0 <= j < |cs| ensures CategoryName(cs[j]) != ss[i].0 {
      assert CategoryName(cs[j]) == ss[j].0;
    }
  }

  // ---------------------------------------------------------------- the store

  class Inventory {
    var categories: seq<Category>
    var products: seq<Product>
    var users: seq<User>
    /** The next ObjectId to hand out; every stored identifier is below it. */
    var nextOid: nat
    /** Whether `connectDB()` succeeds. */
    var online: bool

    ghost predicate Valid()
      reads this
    {
      CategoriesOk(categories, nextOid) && ProductsOk(products, nextOid) && UsersOk(users, nextOid)
    }

    constructor(online: bool)
      ensures Valid()
      ensures categories == [] && products == [] && users == []
      ensures this.online == online
    {
      categories := [];
      products := [];
      users := [];
      nextOid := 0;
      this.online := online;
    }

    /** `getCategories()` */
    method GetCategories() returns (r: Result<seq<CategoryView>, StoreError>)
      ensures r.Failure? <==> !online
      ensures r.Failure? ==> r.error == Unavailable
      ensures r.Success? ==> r.value == ViewCategories(categories)
    {
      if !online {
        return Failure(Unavailable);
      }
      r := Success(ViewCategories(categories));
    }

    /** `getProducts()` */
    method GetProducts() returns (r: Result<seq<ProductView>, StoreError>)
      ensures r.Failure? <==> !online
      ensures r.Failure? ==> r.error == Unavailable
      ensures r.Success? ==> r.value == ViewProducts(categories, products)
    {
      if !online {
        return Failure(Unavailable);
      }
      r := Success(ViewProducts(categories, products));
    }

    /** `getUsers()` */
    method GetUsers() returns (r: Result<seq<UserView>, StoreError>)
      ensures r.Failure? <==> !online
      ensures r.Failure? ==> r.error == Unavailable
      ensures r.Success? ==> r.value == ViewUsers(users)
    {
      if !online {
        return Failure(Unavailable);
      }
      r := Success(ViewUsers(users));
    }

    /** `getProductById(id)` */
    method GetProductById(id: string) returns (r: Result<Option<ProductView>, StoreError>)
      ensures !online ==> r == Failure(Unavailable)
      ensures online ==> r == ProductById(categories, products, id)
    {
      if !online {
        return Failure(Unavailable);
      }
      r := ProductById(categories, products, id);
    }

    /** `addCategory(category)`: the stored category, appended to the collection. */
    method AddCategory(name: Option<string>, description: Option<string>) returns (r: Result<CategoryView, StoreError>)
      requires Valid()
      modifies this
      ensures Valid() && online == old(online) && products == old(products) && users == old(users)
      ensures !old(online) ==> r == Failure(Unavailable) && unchanged(this)
      ensures old(online) ==>
        var d := InsertCategory(old(categories), old(nextOid), name, description);
        && (d.Success? ==> r == Success(ViewCategory(d.value)) && categories == old(categories) + [d.value]
                           && nextOid == old(nextOid) + 1)
        && (d.Failure? ==> r == Failure(d.error) && unchanged(this))
    {
      if !online {
        return Failure(Unavailable);
      }
      var d := InsertCategory(categories, nextOid, name, description);
      if d.Failure? {
        return Failure(d.error);
      }
      InsertCategoryKeepsStore(categories, nextOid, name, description);
      categories := categories + [d.value];
      nextOid := nextOid + 1;
      r := Success(ViewCategory(d.value));
    }

    /**
      `updateCategory(id, updates)`: `findByIdAndUpdate` with `runValidators` — the id is
      cast, the patch validated, the category looked up (null when absent) and the name
      index checked against the other categories.
    */
    method UpdateCategory(id: string, name: Option<string>, description: Option<string>)
      returns (r: Result<Option<CategoryView>, StoreError>)
      requires Valid()
      modifies this
      ensures Valid() && online == old(online) && nextOid == old(nextOid)
      ensures products == old(products) && users == old(users)
      ensures r.Failure? || r == Success(None) ==> categories == old(categories)
      ensures !old(online) ==> r == Failure(Unavailable)
      ensures old(online) && ParseId(id).None? ==> r == Failure(BadObjectId(id))
      ensures old(online) && ParseId(id).Some? && CategoryPatchViolation(name).Some? ==>
                r == Failure(Invalid(CategoryPatchViolation(name).value))
      ensures old(online) && ParseId(id).Some? && CategoryPatchViolation(name).None? ==>
        var k := IndexOfKey(old(categories), CategoryOid, ParseId(id).value);
        && (k.None? ==> r == Success(None))
        && (k.Some? ==>
              var c := PatchCategory(old(categories)[k.value], name, description);
              if KeyFreeExcept(old(categories), CategoryName, k.value, c.name)
              then r == Success(Some(ViewCategory(c))) && categories == old(categories)[k.value := c]
              else r == Failure(DuplicateKey("name")))
    {
      if !online {
        return Failure(Unavailable);
      }
      var oid := ParseId(id);
      if oid.None? {
        return Failure(BadObjectId(id));
      }
      var v := CategoryPatchViolation(name);
      if v.Some? {
        return Failure(Invalid(v.value));
      }
      var k := IndexOfKey(categories, CategoryOid, oid.value);
      if k.None? {
        return Success(None);
      }
      var c := PatchCategory(categories[k.value], name, description);
      if !KeyFreeExcept(categories, CategoryName, k.value, c.name) {
        return Failure(DuplicateKey("name"));
      }
      DistinctUpdate(categories, CategoryOid, k.value, c);
      DistinctUpdate(categories, CategoryName, k.value, c);
      categories := categories[k.value := c];
      r := Success(Some(ViewCategory(c)));
    }

    /** `deleteCategory(id)`: whether a category had that id; its products keep their reference. */
    method DeleteCategory(id: string) returns (r: Result<bool, StoreError>)
      requires Valid()
      modifies this
      ensures Valid() && online == old(online) && nextOid == old(nextOid)
      ensures products == old(products) && users == old(users)
      ensures !old(online) ==> r == Failure(Unavailable)
      ensures old(online) && ParseId(id).None? ==> r == Failure(BadObjectId(id))
      ensures old(online) && ParseId(id).Some? ==> r.Success?
      ensures r.Failure? ==> categories == old(categories)
      ensures r.Success? ==> ParseId(id).Some? && categories == RemoveKey(old(categories), CategoryOid, ParseId(id).value)
      ensures r.Success? ==> (r.value <==> !KeyFree(old(categories), CategoryOid, ParseId(id).value))
      ensures r.Success? ==> |categories| == |old(categories)| - (if r.value then 1 else 0)
    {
      if !online {
        return Failure(Unavailable);
      }
      var oid := ParseId(id);
      if oid.None? {
        return Failure(BadObjectId(id));
      }
      var k := IndexOfKey(categories, CategoryOid, oid.value);
      if k.Some? {
        RemoveKeyAt(categories, CategoryOid, k.value);
      } else {
        RemoveKeyAbsent(categories, CategoryOid, oid.value);
      }
      DistinctRemoveKey(categories, CategoryOid, oid.value, CategoryOid);
      DistinctRemoveKey(categories, CategoryOid, oid.value, CategoryName);
      categories := RemoveKey(categories, CategoryOid, oid.value);
      r := Success(k.Some?);
    }

    /**
      `addProduct(product)`: the product is stored, then read back with its category
      populated; a reference to no category makes that read throw after the insert.
    */
    method AddProduct(input: ProductInput) returns (r: Result<ProductView, StoreError>)
      requires Valid()
      modifies this
      ensures Valid() && online == old(online) && categories == old(categories) && users == old(users)
      ensures !old(online) ==> r == Failure(Unavailable) && unchanged(this)
      ensures old(online) ==>
        var d := InsertProduct(old(products), old(nextOid), input);
        && (d.Failure? ==> r == Failure(d.error) && unchanged(this))
        && (d.Success? ==> && products == old(products) + [d.value] && nextOid == d.value.oid + 1
                           && r == (if Populate(categories, d.value.categoryRef).Some?
                                    then Success(ViewProduct(categories, d.value))
                                    else Failure(MissingCategory)))
    {
      if !online {
        return Failure(Unavailable);
      }
      var d := InsertProduct(products, nextOid, input);
      if d.Failure? {
        return Failure(d.error);
      }
      InsertProductKeepsStore(products, nextOid, input);
      products := products + [d.value];
      nextOid := d.value.oid + 1;
      if Populate(categories, d.value.categoryRef).None? {
        return Failure(MissingCategory);
      }
      r := Success(ViewProduct(categories, d.value));
    }

    /**
      `updateProduct(id, updates)`: a truthy `categoryId` is converted before the query,
      then the id is cast, an empty `categoryId` fails its cast, the patch is validated,
      the product looked up (null when absent), the SKU index checked against the other
      products, and the result populated.
    */
    method UpdateProduct(id: string, patch: ProductInput) returns (r: Result<Option<ProductView>, StoreError>)
      requires Valid()
      modifies this
      ensures Valid() && online == old(online) && nextOid == old(nextOid)
      ensures categories == old(categories) && users == old(users)
      ensures !old(online) ==> r == Failure(Unavailable) && products == old(products)
      ensures old(online) && patch.categoryId.Some? && ParseId(patch.categoryId.value).None? ==>
                r.Failure? && r.error.BadObjectId? && products == old(products)
      ensures old(online) && ParseId(id).None? ==> r.Failure? && r.error.BadObjectId? && products == old(products)
      ensures r == Success(None) ==> ParseId(id).Some? && KeyFree(old(products), ProductOid, ParseId(id).value)
                                     && products == old(products)
      ensures old(online) && ParseId(id).Some? && (patch.categoryId.None? || ParseId(patch.categoryId.value).Some?) ==>
        var f := PatchFields(patch);
        var k := IndexOfKey(old(products), ProductOid, ParseId(id).value);
        if ProductPatchViolation(f).Some? then r == Failure(Invalid(ProductPatchViolation(f).value)) && products == old(products)
        else if k.None? then r == Success(None)
        else
          var p := PatchProduct(old(products)[k.value], f);
          if !KeyFreeExcept(old(products), ProductSku, k.value, p.sku)
          then r == Failure(DuplicateKey("sku")) && products == old(products)
          else && products == old(products)[k.value := p]
               && r == (if Populate(categories, p.categoryRef).Some?
                        then Success(Some(ViewProduct(categories, p)))
                        else Failure(MissingCategory))
    {
      if !online {
        return Failure(Unavailable);
      }
      if patch.categoryId.Some? && patch.categoryId.value != [] && ParseId(patch.categoryId.value).None? {
        return Failure(BadObjectId(patch.categoryId.value));
      }
      var oid := ParseId(id);
      if oid.None? {
        return Failure(BadObjectId(id));
      }
      if patch.categoryId.Some? && ParseId(patch.categoryId.value).None? {
        return Failure(BadObjectId(patch.categoryId.value));
      }
      var f := PatchFields(patch);
      var v := ProductPatchViolation(f);
      if v.Some? {
        return Failure(Invalid(v.value));
      }
      var k := IndexOfKey(products, ProductOid, oid.value);
      if k.None? {
        return Success(None);
      }
      var p := PatchProduct(products[k.value], f);
      if !KeyFreeExcept(products, ProductSku, k.value, p.sku) {
        return Failure(DuplicateKey("sku"));
      }
      DistinctUpdate(products, ProductOid, k.value, p);
      DistinctUpdate(products, ProductSku, k.value, p);
      products := products[k.value := p];
      if Populate(categories, p.categoryRef).None? {
        return Failure(MissingCategory);
      }
      r := Success(Some(ViewProduct(categories, p)));
    }

    /** `deleteProduct(id)`: whether a product had that id. */
    method DeleteProduct(id: string) returns (r: Result<bool, StoreError>)
      requires Valid()
      modifies this
      ensures Valid() && online == old(online) && nextOid == old(nextOid)
      ensures categories == old(categories) && users == old(users)
      ensures !old(online) ==> r == Failure(Unavailable)
      ensures old(online) && ParseId(id).None? ==> r == Failure(BadObjectId(id))
      ensures old(online) && ParseId(id).Some? ==> r.Success?
      ensures r.Failure? ==> products == old(products)
      ensures r.Success? ==> ParseId(id).Some? && products == RemoveKey(old(products), ProductOid, ParseId(id).value)
      ensures r.Success? ==> (r.value <==> !KeyFree(old(products), ProductOid, ParseId(id).value))
      ensures r.Success? ==> |products| == |old(products)| - (if r.value then 1 else 0)
    {
      if !online {
        return Failure(Unavailable);
      }
      var oid := ParseId(id);
      if oid.None? {
        return Failure(BadObjectId(id));
      }
      var k := IndexOfKey(products, ProductOid, oid.value);
      if k.Some? {
        RemoveKeyAt(products, ProductOid, k.value);
      } else {
        RemoveKeyAbsent(products, ProductOid, oid.value);
      }
      DistinctRemoveKey(products, ProductOid, oid.value, ProductOid);
      DistinctRemoveKey(products, ProductOid, oid.value, ProductSku);
      products := RemoveKey(products, ProductOid, oid.value);
      r := Success(k.Some?);
    }

    /** `addUser(user)`: the stored user, appended to the collection. */
    method AddUser(name: Option<string>, email: Option<string>, role: Option<string>) returns (r: Result<UserView, StoreError>)
      requires Valid()
      modifies this
      ensures Valid() && online == old(online) && categories == old(categories) && products == old(products)
      ensures !old(online) ==> r == Failure(Unavailable) && unchanged(this)
      ensures old(online) ==>
        var d := InsertUser(old(users), old(nextOid), name, email, role);
        && (d.Success? ==> r == Success(ViewUser(d.value)) && users == old(users) + [d.value]
                           && nextOid == old(nextOid) + 1)
        && (d.Failure? ==> r == Failure(d.error) && unchanged(this))
    {
      if !online {
        return Failure(Unavailable);
      }
      var d := InsertUser(users, nextOid, name, email, role);
      if d.Failure? {
        return Failure(d.error);
      }
      InsertUserKeepsStore(users, nextOid, name, email, role);
      users := users + [d.value];
      nextOid := nextOid + 1;
      r := Success(ViewUser(d.value));
    }

    /** The first step of `initializeData()`: an empty category collection receives the samples `ss`. */
    method SeedCategoryCollection(ss: seq<(string, string)>)
      requires Valid() && online && categories == [] && CategorySamplesOk(ss)
      modifies this
      ensures Valid() && online
      ensures categories == SeedCategories(ss, old(nextOid)) && nextOid == old(nextOid) + |ss|
      ensures products == old(products) && users == old(users)
    {
      ghost var n0 := nextOid;
      var i := 0;
      while i < |ss|
        invariant 0 <= i <= |ss|
        invariant Valid() && online
        invariant categories == SeedCategories(ss, n0)[..i] && nextOid == n0 + i
        invariant products == old(products) && users == old(users)
      {
        SeedCategoryInsert(ss, n0, i);
        var added := AddCategory(Some(ss[i].0), Some(ss[i].1));
        TakeSnoc(SeedCategories(ss, n0), i);
        i := i + 1;
      }
      assert SeedCategories(ss, n0)[..i] == SeedCategories(ss, n0);
    }

    /** The second step: an empty product collection receives the samples whose category exists. */
    method SeedProductCollection(ss: seq<SampleProduct>, ghost n1: nat)
      requires Valid() && online && products == [] && ProductSamplesOk(ss) && nextOid == n1
      modifies this
      ensures Valid() && online
      ensures products == SeedProducts(ss, categories, n1)
      ensures nextOid == n1 + |products|
      ensures categories == old(categories) && users == old(users)
    {
      var updated := ViewCategories(categories);
      var i := 0;
      while i < |ss|
        invariant 0 <= i <= |ss|
        invariant Valid() && online
        invariant products == SeedProducts(ss[..i], categories, n1)
        invariant nextOid == n1 + |products|
        invariant categories == old(categories) && users == old(users)
      {
        IndexOfKeyAgree(updated, CategoryViewName, categories, CategoryName, ss[i].categoryName);
        var found := IndexOfKey(updated, CategoryViewName, ss[i].categoryName);
        if found.Some? {
          var id := updated[found.value].id;
          ghost var before := products;
          ghost var p := SeedProduct(ss[i], nextOid, categories[found.value].oid);
          SeedProductInsert(ss, categories, products, n1, nextOid, i, found.value, id);
          var added := AddProduct(SampleProductInput(ss[i], id));
          assert products == before + [p];
          SeedProductsAdd(ss, categories, before, n1, i, found.value);
        } else {
          SeedProductsSkip(ss, categories, n1, i);
        }
        i := i + 1;
      }
      assert ss[..i] == ss;
    }

    /** The third step: an empty user collection receives the samples `ss`. */
    method SeedUserCollection(ss: seq<(string, string, string)>, ghost n2: nat)
      requires Valid() && online && users == [] && UserSamplesOk(ss) && nextOid == n2
      modifies this
      ensures Valid() && online
      ensures users == SeedUsers(ss, n2) && nextOid == n2 + |ss|
      ensures categories == old(categories) && products == old(products)
    {
      var i := 0;
      while i < |ss|
        invariant 0 <= i <= |ss|
        invariant Valid() && online
        invariant users == SeedUsers(ss, n2)[..i] && nextOid == n2 + i
        invariant categories == old(categories) && products == old(products)
      {
        ghost var before := users;
        SeedUserInsert(ss, users, n2, nextOid, i);
        var added := AddUser(Some(ss[i].0), Some(ss[i].1), Some(ss[i].2));
        assert users == before + [SeedUsers(ss, n2)[i]];
        TakeSnoc(SeedUsers(ss, n2), i);
        i := i + 1;
      }
      assert SeedUsers(ss, n2)[..i] == SeedUsers(ss, n2);
    }

    /**
      The seeding of `initializeData()` for the samples `cats`, `prods` and `usrs`: each empty
      collection is filled with its samples, in that order, numbered on from `nextOid`
      (`n1` is where the products start, `n2` where the users start). Sample products are
      added only when their category (found by exact name among the categories after the
      first step) exists.
    */
    method SeedCollections(cats: seq<(string, string)>, prods: seq<SampleProduct>, usrs: seq<(string, string, string)>)
      returns (ghost n1: nat, ghost n2: nat)
      requires Valid() && online
      requires CategorySamplesOk(cats) && ProductSamplesOk(prods) && UserSamplesOk(usrs)
      requires cats != [] && usrs != []
      modifies this
      ensures Valid() && online
      ensures n1 == old(nextOid) + (if old(categories) == [] then |cats| else 0)
      ensures n2 == n1 + (if old(products) == [] then |products| else 0)
      ensures old(categories) == [] ==> categories == SeedCategories(cats, old(nextOid))
      ensures old(categories) != [] ==> categories == old(categories)
      ensures old(products) == [] ==> products == SeedProducts(prods, categories, n1)
      ensures old(products) != [] ==> products == old(products)
      ensures old(users) == [] ==> users == SeedUsers(usrs, n2)
      ensures old(users) != [] ==> users == old(users)
      ensures nextOid == n2 + (if old(users) == [] then |usrs| else 0)
      ensures SeededWith(prods, categories, products, users)
    {
      if categories == [] {
        SeedCategoryCollection(cats);
      }
      n1 := nextOid;
      SeedProductsEmpty(prods, categories, n1);
      if products == [] {
        SeedProductCollection(prods, n1);
      }
      n2 := nextOid;
      if users == [] {
        SeedUserCollection(usrs, n2);
      }
    }

    /**
      `initializeData()`: when the database is reachable, the collections that are empty
      receive the sample documents.
    */
    method InitializeData() returns (r: Result<(), StoreError>, ghost n1: nat, ghost n2: nat)
      requires Valid()
      modifies this
      ensures Valid() && online == old(online)
      ensures r.Success? <==> old(online)
      ensures !old(online) ==> r == Failure(Unavailable) && unchanged(this)
      ensures old(online) ==> SeededFrom(old(categories), old(products), old(users), old(nextOid), n1, n2,
                                         categories, products, users, nextOid)
    {
      if !online {
        return Failure(Unavailable), 0, 0;
      }
      SampleCategoriesOk();
      SampleProductsOk();
      SampleUsersOk();
      n1, n2 := SeedCollections(SampleCategories, SampleProducts, SampleUsers);
      r := Success(());
    }
  }

  /** The update document `updateProduct` builds: a present `categoryId` becomes a reference. */
  function PatchFields(patch: ProductInput): (f: ProductFields)
    requires patch.categoryId.None? || ParseId(patch.categoryId.value).Some?
    ensures f.categoryRef.Some? <==> patch.categoryId.Some?
    ensures f.categoryRef.Some? ==> IdString(f.categoryRef.value) == patch.categoryId.value
  {
    var ref := if patch.categoryId.Some? then ParseId(patch.categoryId.value) else None;
    var f := ProductFields(patch.name, patch.description, patch.sku, patch.price, patch.cost, patch.stock, patch.minStock, ref);
    if patch.categoryId.Some? then
      ParseIdIff(patch.categoryId.value, ref.value);
      f
    else f
  }
}
