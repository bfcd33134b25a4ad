/**
  The category list of app/categories/page.tsx: the search filter and the list updates
  after the server answered an add, an edit or a delete (`None` is a failed request).
*/
module CategoriesPage {
  import opened Wrappers
  import opened Text
  import opened Lists
  import opened Database
  import opened CategoriesRoute

  datatype CategoryForm = CategoryForm(name: string, description: string)

  function ListedCategoryId(c: CategoryWithCount): string { c.category.id }

  /** The search test: name or description contains the term, ignoring case. */
  function MatchesCategory(term: string): CategoryWithCount -> bool {
    (c: CategoryWithCount) => MatchesTerm(c.category.name, term) || MatchesTerm(c.category.description, term)
  }

  /** `filteredCategories` */
  function FilteredCategories(cs: seq<CategoryWithCount>, term: string): (r: seq<CategoryWithCount>)
    ensures |r| <= |cs| && IsSubsequence(r, cs)
    ensures forall c :: c in r <==> c in cs && MatchesCategory(term)(c)
  {
    Filter(cs, MatchesCategory(term))
  }

  /** An empty search shows every category. */
  lemma EmptySearchShowsAll(cs: seq<CategoryWithCount>)
    ensures FilteredCategories(cs, "") == cs
  {
    forall c | c in cs ensures MatchesCategory("")(c) {
      EmptyTermMatches(c.category.name);
    }
    FilterKeepsAll(cs, MatchesCategory(""));
  }

  /** The search ignores the case of the term. */
  lemma SearchIgnoresTermCase(cs: seq<CategoryWithCount>, term: string)
    ensures FilteredCategories(cs, Upper(term)) == FilteredCategories(cs, term)
  {
    LowerOfUpper(term);
    FilterAgree(cs, MatchesCategory(Upper(term)), MatchesCategory(term));
  }

  class CategoryList {
    var categories: seq<CategoryWithCount>

    constructor()
      ensures categories == []
    {
      categories := [];
    }

    /** `handleAdd`: nothing is sent without a name; a created category goes to the front. */
    method HandleAdd(form: CategoryForm, created: Option<CategoryWithCount>) returns (sent: bool)
      modifies this
      ensures sent <==> form.name != []
      ensures sent && created.Some? ==> categories == [created.value] + old(categories)
      ensures !sent || created.None? ==> categories == old(categories)
    {
      if form.name == [] {
        return false;
      }
      sent := true;
      if created.Some? {
        categories := [created.value] + categories;
      }
    }

    /** `handleEdit`: the entries with the selected id are replaced by the updated category. */
    method HandleEdit(selected: Option<string>, updated: Option<CategoryWithCount>) returns (sent: bool)
      modifies this
      ensures sent <==> selected.Some?
      ensures sent && updated.Some? ==>
                categories == ReplaceKey(old(categories), ListedCategoryId, selected.value, updated.value)
      ensures !sent || updated.None? ==> categories == old(categories)
    {
      if selected.None? {
        return false;
      }
      sent := true;
      if updated.Some? {
        categories := ReplaceKey(categories, ListedCategoryId, selected.value, updated.value);
      }
    }

    /** `handleDelete`: after a confirmed, successful delete the entries with that id are gone. */
    method HandleDelete(id: string, confirmed: bool, deleted: bool)
      modifies this
      ensures confirmed && deleted ==> categories == RemoveKey(old(categories), ListedCategoryId, id)
      ensures !(confirmed && deleted) ==> categories == old(categories)
    {
      if confirmed && deleted {
        categories := RemoveKey(categories, ListedCategoryId, id);
      }
    }
  }
}
