/** The category store (`useCategoryStore`): a cache of the user's categories,
    the category being viewed, and the loading/error flags, kept in step with
    the categories endpoint of the remote API. */
module Categories {
  import opened Remote
  import Collections

  /** A category as the API returns it. `isMain` marks top-level categories,
      `isIncome` is the API's `is_income`, `parentId` its `parent_id` (absent
      for main categories). */
  datatype Category = Category(id: int, name: string, isMain: bool, isIncome: bool, parentId: Option<int>)

  function IdOf(c: Category): int { c.id }

  predicate IsMain(c: Category) { c.isMain }
  predicate IsIncome(c: Category) { c.isIncome }
  predicate IsExpense(c: Category) { !c.isIncome }
  predicate IsMainIncome(c: Category) { c.isMain && c.isIncome }
  predicate IsMainExpense(c: Category) { c.isMain && !c.isIncome }

  const FetchCategoriesFailed := "Nie udało się pobrać kategorii"
  const FetchIncomeCategoriesFailed := "Nie udało się pobrać kategorii przychodów"
  const FetchExpenseCategoriesFailed := "Nie udało się pobrać kategorii wydatków"
  const FetchCategoryFailed := "Nie udało się pobrać kategorii o ID"
  const CreateCategoryFailed := "Nie udało się utworzyć kategorii"
  const UpdateCategoryFailed := "Nie udało się zaktualizować kategorii o ID"
  const DeleteCategoryFailed := "Nie udało się usunąć kategorii o ID"

  // Getters. Each is a view computed from the store's `categories` on read.

  /** `getCategoryById`: the first category whose id is `parseInt(id)`. */
  function CategoryById(categories: seq<Category>, id: Option<int>): (r: Option<Category>)
    ensures r.None? <==> forall c :: c in categories ==> Some(c.id) != id
    ensures r.Some? ==> r.value in categories && Some(r.value.id) == id
    ensures r.Some? ==> exists i :: 0 <= i < |categories| && categories[i] == r.value &&
                                    forall j :: 0 <= j < i ==> Some(categories[j].id) != id
  {
    Collections.Find(categories, IdOf, id)
  }

  /** `getMainCategories`: the top-level categories, in cache order. */
  function MainCategories(categories: seq<Category>): (r: seq<Category>)
    ensures forall c :: c in r <==> c in categories && c.isMain
    ensures Collections.Subsequence(r, categories)
  {
    Collections.FilterKeepsOrder(categories, IsMain);
    Collections.Filter(categories, IsMain)
  }

  /** `getSubCategories`: the categories whose `parent_id === parseInt(parentId)`. */
  function SubCategories(categories: seq<Category>, parentId: Option<int>): (r: seq<Category>)
    ensures forall c :: c in r <==> c in categories && parentId.Some? && c.parentId == parentId
    ensures Collections.Subsequence(r, categories)
  {
    Collections.FilterKeepsOrder(categories, (c: Category) => parentId.Some? && c.parentId == parentId);
    Collections.Filter(categories, (c: Category) => parentId.Some? && c.parentId == parentId)
  }

  /** `getIncomeCategories`: the income categories, in cache order. */
  function IncomeCategories(categories: seq<Category>): (r: seq<Category>)
    ensures forall c :: c in r <==> c in categories && c.isIncome
    ensures Collections.Subsequence(r, categories)
  {
    Collections.FilterKeepsOrder(categories, IsIncome);
    Collections.Filter(categories, IsIncome)
  }

  /** `getExpenseCategories`: the expense categories, in cache order. */
  function ExpenseCategories(categories: seq<Category>): (r: seq<Category>)
    ensures forall c :: c in r <==> c in categories && !c.isIncome
    ensures Collections.Subsequence(r, categories)
  {
    Collections.FilterKeepsOrder(categories, IsExpense);
    Collections.Filter(categories, IsExpense)
  }

  /** `getMainIncomeCategories`: the top-level income categories, in cache order. */
  function MainIncomeCategories(categories: seq<Category>): (r: seq<Category>)
    ensures forall c :: c in r <==> c in categories && c.isMain && c.isIncome
    ensures Collections.Subsequence(r, categories)
  {
    Collections.FilterKeepsOrder(categories, IsMainIncome);
    Collections.Filter(categories, IsMainIncome)
  }

  /** `getMainExpenseCategories`: the top-level expense categories, in cache order. */
  function MainExpenseCategories(categories: seq<Category>): (r: seq<Category>)
    ensures forall c :: c in r <==> c in categories && c.isMain && !c.isIncome
    ensures Collections.Subsequence(r, categories)
  {
    Collections.FilterKeepsOrder(categories, IsMainExpense);
    Collections.Filter(categories, IsMainExpense)
  }

  /** Income and expense categories partition the cache: each category is in
      exactly one of the two views, each view keeps the cache's order, and
      together they hold every category as often as the cache does. */
  lemma IncomeExpensePartition(categories: seq<Category>)
    ensures forall c :: c in categories ==> (c in IncomeCategories(categories) <==> c !in ExpenseCategories(categories))
    ensures forall c :: c in IncomeCategories(categories) || c in ExpenseCategories(categories) ==> c in categories
    ensures Collections.Subsequence(IncomeCategories(categories), categories)
    ensures Collections.Subsequence(ExpenseCategories(categories), categories)
    ensures multiset(IncomeCategories(categories)) + multiset(ExpenseCategories(categories)) == multiset(categories)
  {
    Collections.FilterComplement(categories, IsIncome, IsExpense);
  }

  /** `getMainIncomeCategories` holds exactly the main income categories of the
      cache, each as often as the cache holds it, in the cache's order. */
  lemma MainIncomeCategoriesExact(categories: seq<Category>, c: Category)
    ensures multiset(MainIncomeCategories(categories))[c] == if c.isMain && c.isIncome then multiset(categories)[c] else 0
    ensures Collections.Subsequence(MainIncomeCategories(categories), categories)
  {
    Collections.FilterCounts(categories, IsMainIncome, c);
  }

  /** The main categories split into the main income and the main expense
      ones: the two views together are a permutation of `getMainCategories`. */
  lemma MainCategoriesSplit(categories: seq<Category>)
    ensures multiset(MainIncomeCategories(categories) + MainExpenseCategories(categories)) == multiset(MainCategories(categories))
  {
    var main := MainCategories(categories);
    Collections.FilterFilter(categories, IsMain, IsIncome, IsMainIncome);
    Collections.FilterFilter(categories, IsMain, IsExpense, IsMainExpense);
    Collections.FilterComplement(main, IsIncome, IsExpense);
  }

  /** After `createCategory` appends `c` to the cache, each view is the old
      view followed by `c` exactly when `c` passes that view's test: the new
      category shows up at the end of the views it belongs to and nowhere else. */
  lemma CreatedCategoryJoinsItsViews(categories: seq<Category>, c: Category)
    ensures MainCategories(categories + [c]) == MainCategories(categories) + (if c.isMain then [c] else [])
    ensures IncomeCategories(categories + [c]) == IncomeCategories(categories) + (if c.isIncome then [c] else [])
    ensures ExpenseCategories(categories + [c]) == ExpenseCategories(categories) + (if c.isIncome then [] else [c])
    ensures MainIncomeCategories(categories + [c]) ==
            MainIncomeCategories(categories) + (if c.isMain && c.isIncome then [c] else [])
    ensures MainExpenseCategories(categories + [c]) ==
            MainExpenseCategories(categories) + (if c.isMain && !c.isIncome then [c] else [])
  {
    AppendFilter(categories, c, IsMain);
    AppendFilter(categories, c, IsIncome);
    AppendFilter(categories, c, IsExpense);
    AppendFilter(categories, c, IsMainIncome);
    AppendFilter(categories, c, IsMainExpense);
  }

  /** Filtering a cache with one category appended. */
  lemma AppendFilter(categories: seq<Category>, c: Category, keep: Category -> bool)
    ensures Collections.Filter(categories + [c], keep) == Collections.Filter(categories, keep) + (if keep(c) then [c] else [])
  {
    Collections.FilterConcat(categories, [c], keep);
    assert [c][1..] == [];
  }

  /** On a main income, a main expense and a sub income category, only the first is a main income category. */
  lemma MainIncomeCategoriesExample()
    ensures var mainIncome := Category(1, "Pensja", true, true, None);
            var mainExpense := Category(2, "Jedzenie", true, false, None);
            var subIncome := Category(3, "Premia", false, true, Some(1));
            MainIncomeCategories([mainIncome, mainExpense, subIncome]) == [mainIncome]
  {
    var mainIncome := Category(1, "Pensja", true, true, None);
    var mainExpense := Category(2, "Jedzenie", true, false, None);
    var subIncome := Category(3, "Premia", false, true, Some(1));
    var s := [mainIncome, mainExpense, subIncome];
    assert s[1..] == [mainExpense, subIncome] && s[1..][1..] == [subIncome];
  }

  /** Deleting id 5 from the cache `[{id: 5}, {id: 7}]` leaves `[{id: 7}]`. */
  lemma DeleteCategoryExample()
    ensures var c5 := Category(5, "Auto", true, false, None);
            var c7 := Category(7, "Dom", true, false, None);
            Collections.Without([c5, c7], IdOf, Some(5)) == [c7]
  {
    var c5 := Category(5, "Auto", true, false, None);
    var c7 := Category(7, "Dom", true, false, None);
    assert [c5, c7][1..] == [c7];
  }

  class CategoryStore {
    var categories: seq<Category>
    var category: Option<Category>
    var loading: bool
    var error: Option<string>

    constructor ()
      ensures categories == [] && category == None && !loading && error == None
    {
      categories, category, loading, error := [], None, false, None;
    }

    /** The common shape of the three list fetches: replace the cache on
        success; on failure keep it, record the message and raise nothing. */
    method FetchList(response: Outcome<seq<Category>>, fallback: string)
      modifies this
      ensures !loading && category == old(category)
      ensures response.Ok? ==> categories == response.value && error == None
      ensures response.Err? ==> categories == old(categories) && error == Some(ClientText(response.failure, fallback))
    {
      loading := true;
      match response {
      case Ok(list) =>
        categories := list;
        error := None;
      case Err(f) =>
        error := Some(ClientText(f, fallback));
      }
      loading := false;
    }

    /** `fetchCategories(type)`; `type` only selects the request URL. */
    method FetchCategories(response: Outcome<seq<Category>>)
      modifies this
      ensures !loading && category == old(category)
      ensures response.Ok? ==> categories == response.value && error == None
      ensures response.Err? ==> categories == old(categories) && error == Some(ClientText(response.failure, FetchCategoriesFailed))
    {
      FetchList(response, FetchCategoriesFailed);
    }

    method FetchIncomeCategories(response: Outcome<seq<Category>>)
      modifies this
      ensures !loading && category == old(category)
      ensures response.Ok? ==> categories == response.value && error == None
      ensures response.Err? ==> categories == old(categories) && error == Some(ClientText(response.failure, FetchIncomeCategoriesFailed))
    {
      FetchList(response, FetchIncomeCategoriesFailed);
    }

    method FetchExpenseCategories(response: Outcome<seq<Category>>)
      modifies this
      ensures !loading && category == old(category)
      ensures response.Ok? ==> categories == response.value && error == None
      ensures response.Err? ==> categories == old(categories) && error == Some(ClientText(response.failure, FetchExpenseCategoriesFailed))
    {
      FetchList(response, FetchExpenseCategoriesFailed);
    }

    /** `fetchCategory(id)`: changes only the viewed category, never the cache. */
    method FetchCategory(response: Outcome<Category>)
      modifies this
      ensures !loading && categories == old(categories)
      ensures response.Ok? ==> category == Some(response.value) && error == None
      ensures response.Err? ==> category == old(category) && error == Some(ClientText(response.failure, FetchCategoryFailed))
    {
      loading := true;
      match response {
      case Ok(c) =>
        category := Some(c);
        error := None;
      case Err(f) =>
        error := Some(ClientText(f, FetchCategoryFailed));
      }
      loading := false;
    }

    /** `createCategory`: appends the created category and returns it, or records and re-raises the failure. */
    method CreateCategory(response: Outcome<Category>) returns (r: Outcome<Category>)
      modifies this
      ensures r == response && !loading && category == old(category)
      ensures response.Ok? ==> categories == old(categories) + [response.value] && error == None
      ensures response.Err? ==> categories == old(categories) && error == Some(ClientText(response.failure, CreateCategoryFailed))
    {
      loading := true;
      match response {
      case Ok(c) =>
        categories := categories + [c];
        error := None;
      case Err(f) =>
        error := Some(ClientText(f, CreateCategoryFailed));
      }
      r := response;
      loading := false;
    }

    /** `updateCategory(id, ...)`: overwrites the first cached category with
        that id, if any, and returns the server's record either way; a
        failure is recorded and re-raised. */
    method UpdateCategory(id: Option<int>, response: Outcome<Category>) returns (r: Outcome<Category>)
      modifies this
      ensures r == response && !loading && category == old(category)
      ensures |categories| == |old(categories)|
      ensures response.Ok? ==> error == None
      ensures response.Ok? ==> var i := Collections.FindIndex(old(categories), IdOf, id);
                               if i == -1 then categories == old(categories)
                               else categories == old(categories)[i := response.value]
      ensures response.Err? ==> categories == old(categories) && error == Some(ClientText(response.failure, UpdateCategoryFailed))
    {
      loading := true;
      match response {
      case Ok(c) =>
        var index := Collections.FindIndex(categories, IdOf, id);
        if index != -1 {
          categories := categories[index := c];
        }
        error := None;
      case Err(f) =>
        error := Some(ClientText(f, UpdateCategoryFailed));
      }
      r := response;
      loading := false;
    }

    /** `deleteCategory(id)`: drops every cached category with that id, or records and re-raises the failure. */
    method DeleteCategory(id: Option<int>, response: Outcome<()>) returns (r: Outcome<()>)
      modifies this
      ensures r == response && !loading && category == old(category)
      ensures response.Ok? ==> categories == Collections.Without(old(categories), IdOf, id) && error == None
      ensures response.Ok? ==> forall c :: c in categories ==> !Collections.SameId(c.id, id)
      ensures response.Err? ==> categories == old(categories) && error == Some(ClientText(response.failure, DeleteCategoryFailed))
    {
      loading := true;
      match response {
      case Ok(_) =>
        categories := Collections.Without(categories, IdOf, id);
        error := None;
      case Err(f) =>
        error := Some(ClientText(f, DeleteCategoryFailed));
      }
      r := response;
      loading := false;
    }
  }
}
