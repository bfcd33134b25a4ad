# Inventory management: a Dafny model of the record-keeping core

This project models the record-keeping logic of a small Next.js inventory application:
which inputs are accepted and what is stored, and the figures the pages derive from the
stored records. The network, the MongoDB driver and the rendering are stripped away. What
remains is modelled in four layers.

- **The store** (`database.dfy`, `schema.dfy`, `ids.dfy`). Class `Database.Inventory` holds
  the three collections (categories, products, users) as sequences of records. It also holds
  an ObjectId counter and a flag that stands for the database connection. Its methods are
  the data-access functions of `lib/database.ts`. Their contracts carry the validity
  invariant the Mongoose schemas impose: required, trimmed, upper-cased SKU, lower-cased
  e-mail matching the e-mail pattern, non-negative numbers, and the unique indexes on
  `_id`, category `name`, product `sku` and user `email`. The seeding routine
  `initializeData` is a loop over the sample documents, proved against a function that
  describes the seeded state.
- **The two collection route handlers** (`categories_route.dfy`, `products_route.dfy`).
  Each is a method that runs the handler's checks in order against the store. The contract
  gives the status code and error text of each outcome, and states that only a 201 changes
  the store, by exactly one record.
- **The derived views** (`listings.dfy`, `summary_cards.dfy`, `reports.dfy`,
  `dashboard_charts.dfy`, `dashboard.dfy`). These are pure functions over the product and
  category listings that `GET` returns: totals, low-stock counts, the restock report, the
  per-category chart, the top-six chart and the refill recommendations.
- **The client-side lists of the pages** (`products_page.dfy`, `categories_page.dfy`,
  `settings_page.dfy`, `users_page.dfy`, `history_page.dfy`, `activity_log.dfy`). The
  search filters and badge classifiers are functions. Each page's list state is a class
  whose add, edit and delete handlers reassign the list.

Modelling conventions:

- ObjectIds are naturals drawn from a counter. Their text form is canonical decimal
  (`ObjectIds.IdString`), and `new Types.ObjectId(s)` is parsing that text back
  (`ObjectIds.ParseId`).
- Prices and costs are integers (cents).
- Case mapping is ASCII.
- White space is ASCII white space.
- Clocks, `fetch`, `confirm` and the server's answer to a page are parameters.

## Where the two uniqueness rules differ

Two checks in the route handlers disagree with the schema's unique indexes. The model
proves both as they are written.

**Category names.**
- `POST /api/categories` refuses a name equal to a stored one ignoring case.
- The schema's unique index compares exactly.
- `CategoriesRoute.CaseVariantRefusedOnlyByHandler` shows a stored "Tools" for which the
  handler refuses "tools", while the index would accept it.
- `CategoriesRoute.UntakenNameInserts` proves the harmless direction: a name the handler
  lets through is never rejected by the index.

**SKUs.**
- `POST /api/products` compares the SKU exactly.
- The schema upper-cases the SKU before storing it.
- `ProductsRoute.CaseVariantSkuPassesHandler` shows a stored "PEN" for which the handler
  lets "pen" through. The unique index then rejects it, and the handler answers 500
  instead of its own 400.
- `ProductsRoute.StoredFormSkuCheckAgrees` proves that the two rules agree whenever the
  posted SKU is already trimmed and has no lower-case letters.

## Model

| member | source | states |
|---|---|---|
| Text.Lower | app/history/page.tsx:67-71 | `toLowerCase` keeps the length and maps every character to its ASCII lower-case form |
| Text.Upper | lib/models/Product.ts:33 | `toUpperCase` keeps the length and maps every character to its ASCII upper-case form |
| Text.LowerOfUpper | app/page.tsx:328-332 | lower-casing after upper-casing equals lower-casing, so a case-insensitive test cannot tell them apart |
| Text.Trim | lib/models/Category.ts:17 | the result is trimmed and never longer, and trimmed text is left as it is |
| Text.TrimDropsOnlySpaces | lib/models/Category.ts:17 | `trim` returns a slice of the input with only white space removed at the two ends |
| Text.TrimEmptyIff | app/api/categories/route.ts:48 | `name.trim() === ''` exactly when the name is all white space |
| Text.ContainsIff | app/history/page.tsx:67-71 | `includes` holds exactly when the term occurs at some position |
| Text.EmptyTermMatches | app/history/page.tsx:67-71 | every field includes the empty search term |
| Text.MatchesTermIff | app/history/page.tsx:68 | a field matches a search term exactly when the lower-cased term occurs at some position of the lower-cased field |
| ObjectIds.IdString | lib/database.ts:13 | an id's text form is a non-empty string of digits |
| ObjectIds.ParseIdString | lib/database.ts:85 | parsing an id's text form gives the id back |
| ObjectIds.ParseIdIff | lib/database.ts:85 | text parses to an id exactly when it is that id's text form |
| ObjectIds.IdStringInjective | lib/database.ts:13 | two ids have equal text forms exactly when they are equal, so comparing `id` strings compares ids |
| Lists.Filter | app/reports/page.tsx:87 | `filter` keeps exactly the elements that pass, in order (a subsequence) |
| Lists.RemoveKey | app/settings/page.tsx:124 | `filter(e => e.id !== id)` keeps exactly the entries with another id, in order, and none with that id remains |
| Lists.RemoveKeyAt | app/page.tsx:222 | with unique ids, removing by the id of entry i removes exactly that entry |
| Lists.ReplaceKey | app/page.tsx:178-180 | `map(e => e.id === id ? x : e)` keeps the length and replaces exactly the entries with that id |
| Lists.Take | app/dashboard/page.tsx:128 | `slice(0, n)` is the prefix of length min(n, length) |
| Lists.MaxOrZero | app/settings/page.tsx:95 | `Math.max(...ids, 0)` is at least 0, at least every id, and is 0 or one of the ids |
| Lists.NextId | app/settings/page.tsx:95 | the new id is greater than every existing id, and it is 1 or one more than an existing id, so it is exactly the largest id (or 0) plus 1 |
| Schema.TrimOrEmpty | lib/models/Category.ts:18-22 | a description is stored trimmed, and as '' when absent |
| Schema.CastCategory | lib/models/Category.ts:12-22 | a category is accepted exactly when its name trims to non-empty; it is stored with trimmed name and description |
| Schema.CategoryPatchViolation | lib/database.ts:30-34 | an update is rejected by the validators exactly when it sets a name that trims to empty |
| Schema.PatchCategory | lib/database.ts:28-42 | an update changes only the paths present in it, keeps the id and keeps the category valid |
| Schema.StoredSku | lib/models/Product.ts:28-34 | the stored SKU is trimmed and upper-case, with the length of the trimmed input |
| Schema.ProductViolation | lib/models/Product.ts:16-61 | a product document is accepted exactly when name and SKU trim to non-empty, price and cost are present and at least 0, stock and minStock (0 by default) are at least 0, and a category is set |
| Schema.CastProduct | lib/models/Product.ts:16-61 | an accepted product is valid and carries the trimmed name, the trimmed description or '', the stored SKU, the numbers given and 0 for an absent stock or minStock |
| Schema.ProductPatchViolation | lib/database.ts:126-130 | an update is rejected exactly when a path it sets breaks that path's validator |
| Schema.PatchProduct | lib/database.ts:118-130 | an update changes only the paths present in it, keeps the id and keeps the product valid |
| Schema.CastRole | lib/models/User.ts:26-31 | the role defaults to 'user' and is accepted exactly when it is 'admin', 'manager' or 'user' |
| Schema.CastRoleName | lib/models/User.ts:26-31 | every role's name casts back to that role |
| Schema.MatchesEmailPattern | lib/models/User.ts:24 | an e-mail matching `^\S+@\S+\.\S+$` has at least 5 characters and contains both '@' and '.' |
| Schema.StoredEmail | lib/models/User.ts:22-23 | the stored e-mail is trimmed and lower-case |
| Schema.CastUser | lib/models/User.ts:11-31 | a user is accepted exactly when the name trims to non-empty, the stored e-mail is non-empty and matches `^\S+@\S+\.\S+$`, and the role is in the enum; the stored user is valid |
| Schema.LowerKeepsEmailPattern | lib/models/User.ts:22-24 | lower-casing keeps an e-mail matching the pattern |
| Database.ViewCategories | lib/database.ts:8-16 | `getCategories` lists every category once, in collection order, with `id` its id's text form |
| Database.Populate | lib/database.ts:54 | `populate` finds the category with the referenced id, and null exactly when there is none |
| Database.ViewProduct | lib/database.ts:56-73 | a listed product carries its id text and the stored name, description, SKU, price, cost and levels; its category is null exactly when the reference is dangling; otherwise `categoryId` is the category's id and the category is a listed one |
| Database.ViewProducts | lib/database.ts:52-74 | `getProducts` lists every product once, in collection order |
| Database.ViewUsers | lib/database.ts:191-199 | `getUsers` lists every user once, in collection order |
| Database.ProductById | lib/database.ts:162-188 | a malformed id is a cast error, an unknown id gives null, and a found product is the listed product with that id |
| Database.ProductByIdOfListed | lib/database.ts:162-188 | looking a product up by its listed `id` returns its listing entry |
| Database.InsertCategory | lib/database.ts:18-26 | `Category.create` succeeds exactly when the schema accepts the category and its name is not stored yet (exact match) |
| Database.InsertCategoryKeepsStore | lib/models/Category.ts:12-22 | an accepted category keeps the collection valid, with unique ids and names |
| Database.InsertProduct | lib/database.ts:76-88 | `addProduct` rejects a malformed `categoryId`; it stores the product exactly when name and SKU trim to non-empty, price and cost are present and at least 0, stock and minStock (0 when absent) are at least 0, and the stored SKU is new; the stored product has the trimmed name, the trimmed description or '', the stored SKU, the given numbers and the given category id |
| Database.InsertProductKeepsStore | lib/models/Product.ts:16-61 | an accepted product keeps the collection valid, with unique ids and SKUs |
| Database.InsertUser | lib/database.ts:201-209 | `User.create` succeeds exactly when the schema accepts the user and the stored e-mail is new |
| Database.InsertUserKeepsStore | lib/models/User.ts:11-31 | an accepted user keeps the collection valid, with unique ids and e-mails |
| Database.SampleCategoriesOk | lib/database.ts:219-225 | the sample categories are accepted as written and have distinct names |
| Database.SampleProductsOk | lib/database.ts:236-267 | the sample products are accepted as written and have distinct SKUs |
| Database.SampleUsersOk | lib/database.ts:278-281 | the sample users are accepted as written and have distinct e-mails |
| Database.SeedCategories | lib/database.ts:218-230 | the seeded categories are one per sample |
| Database.SeedProducts | lib/database.ts:234-274 | at most one seeded product per sample; a sample whose category name is missing is skipped |
| Database.SeedUsers | lib/database.ts:277-286 | the seeded users are one per sample |
| Database.SeedProductsEmpty | lib/database.ts:269-273 | no product is seeded exactly when no sample's category exists |
| Database.SeedProductsSkip | lib/database.ts:270 | a sample whose category is not found adds nothing |
| Database.SeedProductsAdd | lib/database.ts:269-273 | a sample whose category is found is appended, referring to the first category with that name |
| Database.SeedProductsOnSampleCategories | lib/database.ts:245-265 | over the five sample categories, all three sample products find their category |
| Database.SeedCategoryInsert | lib/database.ts:227-229 | each sample category is accepted when it is added |
| Database.SeedProductInsert | lib/database.ts:269-273 | each sample product whose category exists is accepted when it is added |
| Database.SeedUserInsert | lib/database.ts:283-285 | each sample user is accepted when it is added |
| Database.SeededFromIsSeeded | lib/database.ts:212-293 | after seeding there are categories and users, and there are products unless no sample's category exists |
| Database.SeedingIdempotent | lib/database.ts:218-277 | seeding a store that already has categories, users and (where possible) products changes nothing |
| Database.SeedingEmptyStore | lib/database.ts:218-286 | seeding an empty store gives exactly 5 categories, 3 products and 2 users |
| Database.Inventory.GetCategories | lib/database.ts:8-16 | fails exactly when the database is unreachable; otherwise lists the categories |
| Database.Inventory.GetProducts | lib/database.ts:52-74 | fails exactly when the database is unreachable; otherwise lists the products |
| Database.Inventory.GetUsers | lib/database.ts:191-199 | fails exactly when the database is unreachable; otherwise lists the users |
| Database.Inventory.GetProductById | lib/database.ts:162-188 | the lookup result of `ProductById` on the current store |
| Database.Inventory.AddCategory | lib/database.ts:18-26 | an accepted category is appended and returned; on any failure the store is unchanged; the store stays valid |
| Database.Inventory.UpdateCategory | lib/database.ts:28-43 | cast error, validation error, null for an unknown id, duplicate-name error, or exactly that category replaced by its patched form |
| Database.Inventory.DeleteCategory | lib/database.ts:45-49 | on a reachable store a well-formed id always succeeds; the answer is true exactly when a category had that id; only that category is removed and the products are left alone |
| Database.Inventory.AddProduct | lib/database.ts:76-113 | an accepted product is appended; the reply is its listing, or an error when its category does not exist (the insert stays); on rejection nothing changes |
| Database.Inventory.UpdateProduct | lib/database.ts:115-154 | cast errors, validation error, null for an unknown id, duplicate-SKU error, or exactly that product replaced by its patched form |
| Database.Inventory.DeleteProduct | lib/database.ts:156-160 | on a reachable store a well-formed id always succeeds; the answer is true exactly when a product had that id; only that product is removed |
| Database.Inventory.AddUser | lib/database.ts:201-209 | an accepted user is appended and returned; on any failure the store is unchanged; the store stays valid |
| Database.Inventory.SeedCategoryCollection | lib/database.ts:218-230 | the loop adds the sample categories in order, numbered from the counter |
| Database.Inventory.SeedProductCollection | lib/database.ts:232-274 | the loop adds exactly the samples whose category exists, in order |
| Database.Inventory.SeedUserCollection | lib/database.ts:276-286 | the loop adds the sample users in order |
| Database.Inventory.SeedCollections | lib/database.ts:216-286 | each empty collection receives its samples, independently of the others; non-empty ones are kept |
| Database.Inventory.InitializeData | lib/database.ts:212-293 | fails exactly when the database is unreachable (changing nothing); otherwise leaves the seeded state |
| Database.PatchFields | lib/database.ts:118-124 | a present `categoryId` becomes the reference whose text form it is |
| Database.ErrorMessage | lib/mongodb.ts:53 | every error has a non-empty message; a failed connection's message starts with "MongoDB connection failed: " |
| Listings.LowStockItems | app/reports/page.tsx:87 | exactly the products with `stock <= minStock`, in order |
| Listings.LowStockCount | components/product-summary-cards.tsx:20 | at most the number of products; 0 exactly when none is low; all exactly when every one is |
| Listings.LowStockCountIsLowCount | components/product-summary-cards.tsx:20 | the length of the filtered list equals the number of products with `stock <= minStock`, counted one product at a time |
| Listings.TotalStock | components/product-summary-cards.tsx:18 | the sum of the stocks, non-negative when every stock is |
| Listings.TotalStockAppend | components/product-summary-cards.tsx:18 | the total of two listings together is the sum of their totals |
| Listings.InCategory | components/dashboard-charts.tsx:39 | exactly the products whose `categoryId` is the given id, in order |
| Listings.ProductCount | app/api/categories/route.ts:20 | at most the number of products, and 0 exactly when none has that `categoryId` |
| CategoriesRoute.ReferenceCount | app/api/categories/route.ts:20 | the number of stored products referring to a category, at most all products |
| CategoriesRoute.WithCounts | app/api/categories/route.ts:19-25 | one entry per category, in order, with the count of products listed under its id |
| CategoriesRoute.ViewedInCategory | app/api/categories/route.ts:20 | a listed product shows a stored category's id exactly when it references that category |
| CategoriesRoute.CountByIdIsReferenceCount | app/api/categories/route.ts:20 | counting listed products by id equals counting stored references |
| CategoriesRoute.ListedCounts | app/api/categories/route.ts:19-25 | `GET` lists every stored category once, in order, with the number of products referring to it |
| CategoriesRoute.CategoriesGet | app/api/categories/route.ts:11-39 | seeds first, then answers 200 with the counted categories; when the store fails, 500 "Failed to fetch categories" with the connection error's message only in development, and no change |
| CategoriesRoute.NewCategory | app/api/categories/route.ts:69-72 | the new category has the trimmed name and the trimmed description or '' |
| CategoriesRoute.NameTaken | app/api/categories/route.ts:57-60 | a name the case-insensitive check finds free is also free under exact comparison |
| CategoriesRoute.UntakenNameInserts | app/api/categories/route.ts:56-72 | a name the case-insensitive check lets through is accepted by the store as `NewCategory` |
| CategoriesRoute.UntakenNameKeepsUnique | app/api/categories/route.ts:56-72 | adding an untaken name keeps names unique ignoring case |
| CategoriesRoute.CaseVariantRefusedOnlyByHandler | app/api/categories/route.ts:57-59 | with "Tools" stored, the handler refuses "tools" but the exact unique index would accept it |
| CategoriesRoute.CategoriesPost | app/api/categories/route.ts:42-86 | 500 on an unreadable body or store failure, 400 on a missing name, 400 on a name taken ignoring case, in that order; 201 exactly when all pass, adding exactly one category with count 0; otherwise no change; uniqueness ignoring case is kept |
| ProductsRoute.ProductsGet | app/api/products/route.ts:17-30 | seeds first, then answers 200 with every product; when the store fails, 500 "Failed to fetch products" and no change |
| ProductsRoute.RequiredMissing | app/api/products/route.ts:39 | a price or cost of 0 counts as missing; when nothing is missing, name, SKU, price, cost and categoryId are all present |
| ProductsRoute.FindById | app/api/products/route.ts:83 | `find(p => p.id === id)` returns a listed product with that id, and nothing exactly when none has it |
| ProductsRoute.FindListed | app/api/products/route.ts:82-83 | finding a listed product by its id returns that product |
| ProductsRoute.ListedCategoryId | app/api/products/route.ts:47-49 | an id that a listed category shows is well formed and names a stored category |
| ProductsRoute.StoredFormSkuCheckAgrees | app/api/products/route.ts:59-60 | for a trimmed SKU without lower-case letters, the handler's exact check and the unique index agree |
| ProductsRoute.CaseVariantSkuPassesHandler | app/api/products/route.ts:60 | with "PEN" stored, "pen" passes the handler's check and is then rejected by the unique index |
| ProductsRoute.AddCheckedProduct | app/api/products/route.ts:69-85 | after the checks, either 500 with no change, or 201 with the stored product as listed, appended once, referring to the posted category id |
| ProductsRoute.ProductsPost | app/api/products/route.ts:33-93 | 500 on an unreadable body, 400 on a missing field (0 counts as missing), 500 on store failure, 400 on an unknown category, 400 on an exactly matching SKU, in that order; only a 201 changes the store, by one product |
| SummaryCards.Summarize | components/product-summary-cards.tsx:17-20 | the product count, the sum of the stocks and the low-stock count (at most the product count); all zero on an empty list; stock non-negative for non-negative stocks |
| SummaryCards.SummarizeAppend | components/product-summary-cards.tsx:17-20 | the cards of two listings together add up |
| Reports.WeeklyRestockNeeds | app/reports/page.tsx:103-109 | one row per low-stock product, in order |
| Reports.RestockNeedOf | app/reports/page.tsx:103-109 | a row copies name, SKU and levels, `currentStock + needed == minStock`, and `needed` is non-negative exactly for a low-stock product |
| Reports.RestockNeedsReachMinimum | app/reports/page.tsx:103-109 | each row copies its product's name, SKU and levels; `needed` is at least 0 and `currentStock + needed == minStock` |
| Reports.NoRestockNeedsIff | app/reports/page.tsx:87-109 | the report is empty exactly when no product is low, and empty for an empty listing |
| DashboardCharts.FigureOf | components/dashboard-charts.tsx:39-48 | a bar has the category's name, the count, stock and value of the products under its id |
| DashboardCharts.Figures | components/dashboard-charts.tsx:38-48 | one bar per category, in order |
| DashboardCharts.CategoryData | components/dashboard-charts.tsx:38-49 | exactly the bars with at least one product, in category order |
| DashboardCharts.FiguresCountEachProductOnce | components/dashboard-charts.tsx:38-48 | with distinct category ids, the counts of all bars sum to at most the number of products |
| DashboardCharts.FilterKeepsSum | components/dashboard-charts.tsx:49 | dropping bars without products keeps the total count |
| DashboardCharts.CategoryDataCountsAtMostAll | components/dashboard-charts.tsx:38-49 | with distinct category ids, the counts shown sum to at most the number of products |
| DashboardCharts.Truncate | components/dashboard-charts.tsx:54 | names of at most 20 characters are unchanged; longer ones become their first 20 characters and "..." |
| DashboardCharts.Slices | components/dashboard-charts.tsx:52-56 | one slice per product, in order |
| DashboardCharts.InsertByValue | components/dashboard-charts.tsx:57 | inserting into a sorted list keeps it sorted by value (largest first) and adds exactly that element |
| DashboardCharts.SortByValue | components/dashboard-charts.tsx:57 | the result is sorted by value, largest first, and a permutation of the input |
| DashboardCharts.TopProducts | components/dashboard-charts.tsx:52-58 | min(6, n) slices, sorted by value, drawn from the products' slices |
| DashboardCharts.TopProductsAreTop | components/dashboard-charts.tsx:52-58 | a product worth more than the smallest slice shown is among those shown |
| Dashboard.DashboardStats | app/dashboard/page.tsx:97-101 | product and category counts, the sum of the stocks and the low-stock count, which is at most the product count |
| Dashboard.StatsAgreeWithSummary | app/dashboard/page.tsx:97-100 | the dashboard's figures equal the summary cards' |
| Dashboard.RecommendedStock | app/dashboard/page.tsx:133 | `Math.max(2*minStock, 10)`: at least 10, at least twice the minimum, and one of the two |
| Dashboard.NeedsRefill | app/dashboard/page.tsx:127 | the integer test `2*stock <= 3*minStock` agrees with the source's `stock <= minStock * 1.5` over the reals |
| Dashboard.RefillOf | app/dashboard/page.tsx:129-134 | a recommendation copies name, SKU and stock, and recommends at least 10 and at least twice the minimum |
| Dashboard.RefillCandidates | app/dashboard/page.tsx:127 | exactly the products with `stock <= 1.5*minStock`, in order |
| Dashboard.RefillRecommendations | app/dashboard/page.tsx:125-134 | at most five rows: the first min(5, n) candidates, in order |
| Dashboard.RecommendationsAreRefills | app/dashboard/page.tsx:125-134 | each row is a candidate's name, SKU and stock, with a recommendation of at least 10 and at least twice its minimum |
| Dashboard.LowStockNeedsRefill | app/dashboard/page.tsx:127 | with a non-negative minimum, a low-stock product is a refill candidate |
| Dashboard.LowStockAmongRefillCandidates | app/dashboard/page.tsx:127 | with non-negative minimums, every low-stock product is a candidate, so there are at least as many candidates |
| Dashboard.LowStockAlerts | app/dashboard/page.tsx:332-334 | the first min(3, count) low-stock products |
| Dashboard.MoreAlerts | app/dashboard/page.tsx:371-373 | the "+N more" note appears exactly when more than 3 products are low |
| Dashboard.AlertsAccountForAll | app/dashboard/page.tsx:332-373 | alerts shown plus N equal the low-stock count; no alerts exactly when none is low |
| ActivityLog.ActionBadge | components/activity-log-table.tsx:16-27 | green exactly for add/create; blue for update/edit only without add/create; destructive for delete/remove only without the earlier words; muted otherwise |
| ActivityLog.ActionBadgeIgnoresCase | components/activity-log-table.tsx:17-23 | the badge is the same for the upper- and lower-cased action |
| ActivityLog.RenderLog | components/activity-log-table.tsx:29-54 | "No activity found" exactly for an empty list; otherwise one row per activity with its badge |
| HistoryPage.FilteredActivities | app/history/page.tsx:67-71 | exactly the activities whose action, details or user contains the term ignoring case, in order |
| HistoryPage.EmptySearchShowsAll | app/history/page.tsx:67-71 | an empty term shows every activity |
| HistoryPage.Note | app/history/page.tsx:101-103 | "Showing x of y" appears only when there are activities, with x the filtered count and x <= y |
| ProductsPage.FilteredProducts | app/page.tsx:328-332 | exactly the products whose name, SKU or category name contains the term ignoring case, in order |
| ProductsPage.FormComplete | app/page.tsx:128 | the form is complete exactly when none of name, SKU, price, cost and categoryId is empty |
| ProductsPage.EmptySearchShowsAll | app/page.tsx:328-332 | an empty term shows every product |
| ProductsPage.SearchIgnoresTermCase | app/page.tsx:328-332 | the upper-cased term filters the same as the term |
| ProductsPage.StockNote | app/page.tsx:820-822 | "Low Stock" exactly when `stock <= minStock` |
| ProductsPage.DeleteRemovesOne | app/page.tsx:222 | with unique ids, deleting a listed product removes that entry only |
| ProductsPage.ProductList.constructor | app/page.tsx:45 | the list starts empty |
| ProductsPage.ProductList.HandleAdd | app/page.tsx:127-157 | nothing is sent for an incomplete form; a created product is prepended; otherwise the list is unchanged |
| ProductsPage.ProductList.HandleEdit | app/page.tsx:159-190 | nothing without a selection; an updated product replaces exactly the entries with the selected id |
| ProductsPage.ProductList.HandleDelete | app/page.tsx:207-226 | after a confirmed and successful delete, exactly the entries with that id are gone |
| CategoriesPage.FilteredCategories | app/categories/page.tsx:48-51 | exactly the categories whose name or description contains the term ignoring case, in order |
| CategoriesPage.EmptySearchShowsAll | app/categories/page.tsx:48-51 | an empty term shows every category |
| CategoriesPage.SearchIgnoresTermCase | app/categories/page.tsx:48-51 | the upper-cased term filters the same as the term |
| CategoriesPage.CategoryList.constructor | app/categories/page.tsx:19 | the list starts empty |
| CategoriesPage.CategoryList.HandleAdd | app/categories/page.tsx:57-83 | nothing is sent without a name; a created category is prepended |
| CategoriesPage.CategoryList.HandleEdit | app/categories/page.tsx:85-111 | nothing without a selection; an updated category replaces exactly the entries with the selected id |
| CategoriesPage.CategoryList.HandleDelete | app/categories/page.tsx:113-133 | after a confirmed and successful delete, exactly the entries with that id are gone |
| Lists.Keys | app/settings/page.tsx:95 | `map` to a key gives one key per element, in order |
| SettingsPage.NewSetting | app/settings/page.tsx:94-98 | the new setting's id is at least 1, greater than every existing id, and unused |
| SettingsPage.EditedSetting | app/settings/page.tsx:109-113 | an edited setting keeps its id |
| SettingsPage.FilteredSettings | app/settings/page.tsx:77-82 | exactly the settings whose name, category or value contains the term ignoring case, in order |
| SettingsPage.EmptySearchShowsAll | app/settings/page.tsx:77-82 | an empty term shows every setting |
| SettingsPage.SearchIgnoresTermCase | app/settings/page.tsx:77-82 | the upper-cased term filters the same as the term |
| SettingsPage.CategoryBadge | app/settings/page.tsx:138-151 | Security, Notifications and Integration each have their own badge; General and any other category are muted |
| SettingsPage.SettingList.constructor | app/settings/page.tsx:65 | the list starts as the five samples, with unique ids |
| SettingsPage.SettingList.HandleAdd | app/settings/page.tsx:93-102 | the returned id is `Math.max(...ids, 0) + 1` over the old ids; the new setting, carrying the form and that id, is prepended; ids stay unique |
| SettingsPage.SettingList.HandleEdit | app/settings/page.tsx:104-120 | nothing without a selection; otherwise only the entries with the selected id take the form's fields and the new time stamp, keeping their id |
| SettingsPage.SettingList.HandleDelete | app/settings/page.tsx:122-125 | after confirmation exactly the entries with that id are gone; ids stay unique |
| UsersPage.NewUser | app/users/page.tsx:84-88 | the new user's id is at least 1, greater than every existing id, and unused |
| UsersPage.EditedUser | app/users/page.tsx:97-101 | an edited user keeps its id and `lastActive` |
| UsersPage.FilteredUsers | app/users/page.tsx:68-72 | exactly the users whose name or e-mail contains the term ignoring case, in order |
| UsersPage.EmptySearchShowsAll | app/users/page.tsx:68-72 | an empty term shows every user |
| UsersPage.SearchIgnoresTermCase | app/users/page.tsx:68-72 | the upper-cased term filters the same as the term |
| UsersPage.RoleBadge | app/users/page.tsx:124-135 | Admin and Manager have their own badge; Staff and any other role are muted |
| UsersPage.StatusBadge | app/users/page.tsx:137-148 | Active is green and Suspended destructive; Inactive and any other status are muted |
| UsersPage.UserList.constructor | app/users/page.tsx:56 | the list starts as the four samples, with unique ids |
| UsersPage.UserList.HandleAdd | app/users/page.tsx:83-92 | the returned id is `Math.max(...ids, 0) + 1` over the old ids; the new user, carrying the form and that id, is prepended; ids stay unique |
| UsersPage.UserList.HandleEdit | app/users/page.tsx:94-106 | nothing without a selection; otherwise only the entries with the selected id take the form's fields, keeping id and `lastActive` |
| UsersPage.UserList.HandleDelete | app/users/page.tsx:108-111 | after confirmation exactly the entries with that id are gone; ids stay unique |

## Left out

- Floating point: `totalValue`, `potentialProfit`, the category percentage bars, `parseFloat` and currency formatting. Prices and costs are integers (cents). `parseInt`/`parseFloat` of text is not modelled: JSON numbers are `Option<int>`, with `None` for absent or not a number.
- `String(categoryId)` on a non-string `categoryId`, and non-string values in the JSON bodies. Body fields are typed as optional strings or integers; a body that does not parse is `None` (a 500).
- The clock: time stamps (`new Date()`, `createdAt`, `updatedAt`) are a parameter `now` or are omitted.
- `fetch`, `alert` and `confirm`. The server's answer and the user's confirmation are parameters of the page handlers.
- The mock sales, POS and restock data of the reports and dashboard pages. They are constants, not behaviour.
- The connection cache and retry of `lib/mongodb.ts`. The connection is one flag, `online`.
- Concurrency. Each handler is one atomic step, so the race between a route's duplicate check and the store write is not modelled.
- Unicode case mapping and Unicode white space. Both are ASCII here.
- String lengths and slices count UTF-16 code units in the source (`length`, `substring`, `slice`) and characters here. They differ only for characters outside the Basic Multilingual Plane, such as emoji; `DashboardCharts.Truncate` would cut such a name at a different place.
- The per-id route handlers (`/api/categories/[id]`, `/api/products/[id]`). The store operations they call are modelled.
- React state, rendering, charts, the dialog components and the pages' data loading.
- The HEAD side of the merge conflicts in `app/page.tsx` and `app/dashboard/page.tsx`. Only the cited lines are modelled, taken from outside the conflicts or from the `origin/karki_branch` side.
- ProductsPage.FilteredProducts: a product whose category is null does not match. The source would throw when it reads `category.name`.
- Database.ErrorMessage: the connection error carries the driver's own text after "MongoDB connection failed: ". The model has no driver, so it uses the fallback "Unknown error". Messages of the other errors are placeholders.
- DashboardCharts.SortByValue: stability is not proved. The order among equal values is whatever the insertion sort gives.
- DashboardCharts.CategoryDataCountsAtMostAll: assumes the category ids are distinct. Every listing the store produces has distinct ids; with repeated ids a product would be counted once per copy.
- DashboardCharts.TopProducts: the contract says the six slices are drawn from the products and sorted. That they are the six largest is stated only by `TopProductsAreTop`.
- Database.Inventory.UpdateProduct: for `price` and `cost`, the `if (updates.price)` coercion is not distinguished from the plain copy of `...updates`. Both set the given integer.
