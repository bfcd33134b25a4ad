/**
  The three Mongoose schemas (lib/models/Category.ts, Product.ts, User.ts): the records the
  store keeps, what casting a document applies (trim, upper- and lower-casing, defaults)
  and which documents the validators accept. Unique indexes are a property of a whole
  collection and are kept by the store (module Database).
*/
module Schema {
  import opened Wrappers
  import opened Text

  datatype Category = Category(oid: nat, name: string, description: string)

  datatype Product = Product(oid: nat, name: string, description: string, sku: string,
                             price: int, cost: int, stock: int, minStock: int, categoryRef: nat)

  /** The `role` enum: 'admin', 'manager' and 'user'. */
  datatype Role = Admin | Manager | Member

  datatype User = User(oid: nat, name: string, email: string, role: Role)

  /** The path whose validator rejected a document (a Mongoose ValidationError). */
  datatype Violation = Required(path: string) | BelowMinimum(path: string)
                     | NotInEnum(path: string) | NoMatch(path: string)

  /** A required, trimmed string path. */
  predicate IsRequiredText(s: string) {
    s != [] && IsTrimmed(s)
  }

  predicate IsUpperCase(s: string) {
    Upper(s) == s
  }

  predicate IsLowerCase(s: string) {
    Lower(s) == s
  }

  /** A string path with `trim: true, default: ''`. */
  function TrimOrEmpty(s: Option<string>): (r: string)
    ensures IsTrimmed(r)
    ensures s.None? ==> r == []
  {
    if s.Some? then Trim(s.value) else []
  }

  // ---------------------------------------------------------------- Category

  predicate ValidCategory(c: Category) {
    IsRequiredText(c.name) && IsTrimmed(c.description)
  }

  /** `new Category({name, description})` followed by validation. */
  function CastCategory(oid: nat, name: Option<string>, description: Option<string>): (r: Result<Category, Violation>)
    ensures r.Success? <==> name.Some? && Trim(name.value) != []
    ensures r.Failure? ==> r.error == Required("name")
    ensures r.Success? ==> ValidCategory(r.value) && r.value.oid == oid
    ensures r.Success? ==> r.value.name == Trim(name.value) && r.value.description == TrimOrEmpty(description)
  {
    if name.None? || Trim(name.value) == [] then Failure(Required("name"))
    else Success(Category(oid, Trim(name.value), TrimOrEmpty(description)))
  }

  /** The validator an update with `runValidators: true` runs on the category paths it sets. */
  function CategoryPatchViolation(name: Option<string>): (r: Option<Violation>)
    ensures r.Some? <==> name.Some? && Trim(name.value) == []
  {
    if name.Some? && Trim(name.value) == [] then Some(Required("name")) else None
  }

  /** The category after an update that sets only the paths present in the patch. */
  function PatchCategory(c: Category, name: Option<string>, description: Option<string>): (r: Category)
    requires CategoryPatchViolation(name).None?
    ensures r.oid == c.oid
    ensures ValidCategory(c) ==> ValidCategory(r)
    ensures name.None? ==> r.name == c.name
    ensures description.None? ==> r.description == c.description
  {
    Category(c.oid,
             if name.Some? then Trim(name.value) else c.name,
             if description.Some? then Trim(description.value) else c.description)
  }

  // ---------------------------------------------------------------- Product

  predicate ValidProduct(p: Product) {
    && IsRequiredText(p.name)
    && IsTrimmed(p.description)
    && IsRequiredText(p.sku) && IsUpperCase(p.sku)
    && p.price >= 0 && p.cost >= 0
    && p.stock >= 0 && p.minStock >= 0
  }

  /** The SKU as stored: trimmed, then upper-cased. */
  function StoredSku(sku: string): (r: string)
    ensures IsTrimmed(r) && IsUpperCase(r)
    ensures |r| == |Trim(sku)|
  {
    UpperKeepsTrimmed(Trim(sku));
    UpperIdempotent(Trim(sku));
    Upper(Trim(sku))
  }

  /** The values of a product document's paths; `None` is a path that is absent (or not a number). */
  datatype ProductFields = ProductFields(name: Option<string>, description: Option<string>, sku: Option<string>,
                                         price: Option<int>, cost: Option<int>,
                                         stock: Option<int>, minStock: Option<int>, categoryRef: Option<nat>)

  /** The first path of a new product document, in schema order, that fails its validator. */
  function ProductViolation(f: ProductFields): (r: Option<Violation>)
    ensures r.None? <==> && f.name.Some? && Trim(f.name.value) != []
                         && f.sku.Some? && Trim(f.sku.value) != []
                         && f.price.Some? && f.price.value >= 0
                         && f.cost.Some? && f.cost.value >= 0
                         && f.stock.GetOr(0) >= 0 && f.minStock.GetOr(0) >= 0
                         && f.categoryRef.Some?
  {
    if f.name.None? || Trim(f.name.value) == [] then Some(Required("name"))
    else if f.sku.None? || Trim(f.sku.value) == [] then Some(Required("sku"))
    else if f.price.None? then Some(Required("price"))
    else if f.price.value < 0 then Some(BelowMinimum("price"))
    else if f.cost.None? then Some(Required("cost"))
    else if f.cost.value < 0 then Some(BelowMinimum("cost"))
    else if f.stock.GetOr(0) < 0 then Some(BelowMinimum("stock"))
    else if f.minStock.GetOr(0) < 0 then Some(BelowMinimum("minStock"))
    else if f.categoryRef.None? then Some(Required("categoryId"))
    else None
  }

  /** `new Product(fields)` followed by validation: defaults, trimming and upper-casing applied. */
  function CastProduct(oid: nat, f: ProductFields): (r: Result<Product, Violation>)
    ensures r.Failure? <==> ProductViolation(f).Some?
    ensures r.Success? ==> ValidProduct(r.value) && r.value.oid == oid
    ensures r.Success? ==> && r.value.name == Trim(f.name.value)
                           && r.value.description == TrimOrEmpty(f.description)
                           && r.value.sku == StoredSku(f.sku.value)
                           && r.value.price == f.price.value && r.value.cost == f.cost.value
                           && r.value.stock == f.stock.GetOr(0) && r.value.minStock == f.minStock.GetOr(0)
                           && r.value.categoryRef == f.categoryRef.value
  {
    match ProductViolation(f)
    case Some(v) => Failure(v)
    case None =>
      Success(Product(oid, Trim(f.name.value), TrimOrEmpty(f.description), StoredSku(f.sku.value),
                      f.price.value, f.cost.value, f.stock.GetOr(0), f.minStock.GetOr(0), f.categoryRef.value))
  }

  /** The validators an update with `runValidators: true` runs on the product paths it sets. */
  function ProductPatchViolation(f: ProductFields): (r: Option<Violation>)
    ensures r.None? <==> && (f.name.Some? ==> Trim(f.name.value) != [])
                         && (f.sku.Some? ==> Trim(f.sku.value) != [])
                         && (f.price.Some? ==> f.price.value >= 0)
                         && (f.cost.Some? ==> f.cost.value >= 0)
                         && (f.stock.Some? ==> f.stock.value >= 0)
                         && (f.minStock.Some? ==> f.minStock.value >= 0)
  {
    if f.name.Some? && Trim(f.name.value) == [] then Some(Required("name"))
    else if f.sku.Some? && Trim(f.sku.value) == [] then Some(Required("sku"))
    else if f.price.Some? && f.price.value < 0 then Some(BelowMinimum("price"))
    else if f.cost.Some? && f.cost.value < 0 then Some(BelowMinimum("cost"))
    else if f.stock.Some? && f.stock.value < 0 then Some(BelowMinimum("stock"))
    else if f.minStock.Some? && f.minStock.value < 0 then Some(BelowMinimum("minStock"))
    else None
  }

  /** The product after an update that sets only the paths present in the patch. */
  function PatchProduct(p: Product, f: ProductFields): (r: Product)
    requires ProductPatchViolation(f).None?
    ensures r.oid == p.oid
    ensures ValidProduct(p) ==> ValidProduct(r)
    ensures f.name.None? ==> r.name == p.name
    ensures f.description.None? ==> r.description == p.description
    ensures f.sku.None? ==> r.sku == p.sku
    ensures r.price == f.price.GetOr(p.price) && r.cost == f.cost.GetOr(p.cost)
    ensures r.stock == f.stock.GetOr(p.stock) && r.minStock == f.minStock.GetOr(p.minStock)
    ensures r.categoryRef == f.categoryRef.GetOr(p.categoryRef)
  {
    Product(p.oid,
            if f.name.Some? then Trim(f.name.value) else p.name,
            if f.description.Some? then Trim(f.description.value) else p.description,
            if f.sku.Some? then StoredSku(f.sku.value) else p.sku,
            f.price.GetOr(p.price), f.cost.GetOr(p.cost),
            f.stock.GetOr(p.stock), f.minStock.GetOr(p.minStock),
            f.categoryRef.GetOr(p.categoryRef))
  }

  // ---------------------------------------------------------------- User

  /** `/^\S+@\S+\.\S+$/`: no white space, and an '@' and a later '.' that leave text on every side. */
  predicate MatchesEmailPattern(s: string)
    ensures MatchesEmailPattern(s) ==> |s| >= 5 && '@' in s && '.' in s
  {
    && (forall k :: 0 <= k < |s| ==> !IsSpace(s[k]))
    && exists i, j :: 1 <= i && i + 2 <= j && j + 2 <= |s| && s[i] == '@' && s[j] == '.'
  }

  predicate ValidUser(u: User) {
    && IsRequiredText(u.name)
    && u.email != [] && IsTrimmed(u.email) && IsLowerCase(u.email)
    && MatchesEmailPattern(u.email)
  }

  function RoleName(r: Role): string {
    match r
    case Admin => "admin"
    case Manager => "manager"
    case Member => "user"
  }

  /** The `role` path: 'user' when absent, otherwise one of the enum's values. */
  function CastRole(s: Option<string>): (r: Option<Role>)
    ensures s.None? ==> r == Some(Member)
    ensures s.Some? ==> (r.Some? <==> s.value in {"admin", "manager", "user"})
    ensures r.Some? && s.Some? ==> RoleName(r.value) == s.value
  {
    if s.None? then Some(Member)
    else if s.value == "admin" then Some(Admin)
    else if s.value == "manager" then Some(Manager)
    else if s.value == "user" then Some(Member)
    else None
  }

  /** The e-mail as stored: trimmed, then lower-cased. */
  function StoredEmail(email: string): (r: string)
    ensures IsTrimmed(r) && IsLowerCase(r)
    ensures |r| == |Trim(email)|
  {
    LowerKeepsTrimmed(Trim(email));
    LowerIdempotent(Trim(email));
    Lower(Trim(email))
  }

  /** `new User({name, email, role})` followed by validation. */
  function CastUser(oid: nat, name: Option<string>, email: Option<string>, role: Option<string>): (r: Result<User, Violation>)
    ensures r.Success? <==> && name.Some? && Trim(name.value) != []
                            && email.Some? && StoredEmail(email.value) != []
                            && MatchesEmailPattern(StoredEmail(email.value))
                            && CastRole(role).Some?
    ensures r.Success? ==> ValidUser(r.value) && r.value.oid == oid
    ensures r.Success? ==> && r.value.name == Trim(name.value)
                           && r.value.email == StoredEmail(email.value)
                           && r.value.role == CastRole(role).value
  {
    if name.None? || Trim(name.value) == [] then Failure(Required("name"))
    else if email.None? || StoredEmail(email.value) == [] then Failure(Required("email"))
    else if !MatchesEmailPattern(StoredEmail(email.value)) then Failure(NoMatch("email"))
    else if CastRole(role).None? then Failure(NotInEnum("role"))
    else Success(User(oid, Trim(name.value), StoredEmail(email.value), CastRole(role).value))
  }

  /** Casting a role name gives back that role: the enum and its names agree. */
  lemma CastRoleName(r: Role)
    ensures CastRole(Some(RoleName(r))) == Some(r)
  {
  }

  /** Lower-casing keeps every character that the e-mail pattern looks at. */
  lemma {:induction false} LowerKeepsEmailPattern(s: string)
    requires MatchesEmailPattern(s)
    ensures MatchesEmailPattern(Lower(s))
  {
    var i, j :| 1 <= i && i + 2 <= j && j + 2 <= |s| && s[i] == '@' && s[j] == '.';
    assert Lower(s)[i] == '@' && Lower(s)[j] == '.';
    forall k | 0 <= k < |s|
      ensures !IsSpace(Lower(s)[k])
    {
      assert !IsSpace(s[k]);
    }
  }
}
