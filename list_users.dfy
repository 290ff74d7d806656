/**
 * The user list page: its hook configuration, the status select and its mapping to the
 * `isActive` filter, what it passes to the users query, and the Clear Filters button.
 */
module ListUsers {
  import opened Wrappers
  import opened Js
  import Pagination
  import FilterParams
  import Search

  const IsActiveKey := "isActive"

  const PaginationConfig := Pagination.Config(1, 10, Pagination.DefaultConfig.maxPageSize)
  const FilterConfig := FilterParams.Config(map[IsActiveKey := Undefined], FilterParams.DefaultConfig.debounceMs)
  const SearchConfig := Search.Config(500, 2)

  const StatusOptions: seq<string> := ["all", "active", "inactive"]

  /** `filters.isActive`, `undefined` when the key is missing. */
  function IsActiveOf(filters: FilterParams.Filters): Value {
    if IsActiveKey in filters then filters[IsActiveKey] else Undefined
  }

  /** The value the status select shows for the live filters. */
  function StatusSelectValue(filters: FilterParams.Filters): (v: string)
    ensures v in StatusOptions
    ensures v == "all" <==> IsActiveOf(filters) == Undefined
    ensures v == "active" <==> IsActiveOf(filters) != Undefined && Truthy(IsActiveOf(filters))
  {
    var a := IsActiveOf(filters);
    if a == Undefined then "all" else if Truthy(a) then "active" else "inactive"
  }

  /** The `isActive` value `onValueChange` stores for a chosen option. */
  function StatusFilterValue(choice: string): (v: Value)
    ensures choice == "all" ==> v == Undefined
    ensures choice != "all" ==> v.Bool? && (v.b <==> choice == "active")
  {
    if choice == "all" then Undefined else Bool(choice == "active")
  }

  /** Choosing an option and reading the select back shows that option. */
  lemma ChoiceIsShown(s: FilterParams.State, choice: string)
    requires choice in StatusOptions
    ensures StatusSelectValue(FilterParams.WithFilter(s, IsActiveKey, StatusFilterValue(choice)).filters) == choice
  {
  }

  /** Re-choosing the shown option stores the same `isActive` value, for every value the
      select can store. */
  lemma ShownIsChoice(filters: FilterParams.Filters)
    requires IsActiveOf(filters) == Undefined || IsActiveOf(filters).Bool?
    ensures StatusFilterValue(StatusSelectValue(filters)) == IsActiveOf(filters)
  {
  }

  /** The arguments of `useUsers(page, pageSize, search, isActive)`. */
  datatype UsersQuery = UsersQuery(page: int, pageSize: int, search: Option<string>, isActive: Value)

  function Query(pages: Pagination.PaginationState, search: Search.State, filters: FilterParams.State): (q: UsersQuery)
    ensures q.page == pages.page && q.pageSize == pages.pageSize
    ensures q.search.Some? <==> |search.debounced| >= SearchConfig.minLength
    ensures q.search.Some? ==> q.search.value == search.debounced
    ensures q.isActive == IsActiveOf(filters.debounced)
  {
    UsersQuery(pages.page, pages.pageSize,
               if Search.IsValidSearch(search, SearchConfig) then Some(search.debounced) else None,
               IsActiveOf(filters.debounced))
  }

  /** Choosing a status changes the select at once but reaches the query only when the
      filter debounce fires. */
  lemma StatusReachesQueryOnFire(pages: Pagination.PaginationState, search: Search.State,
                                 s: FilterParams.State, choice: string)
    ensures var s' := FilterParams.WithFilter(s, IsActiveKey, StatusFilterValue(choice));
            Query(pages, search, s').isActive == IsActiveOf(s.debounced)
            && Query(pages, search, FilterParams.Fire(s')).isActive == StatusFilterValue(choice)
  {
  }

  /** The Clear Filters button and its label, when shown. */
  function ClearFiltersButton(filters: FilterParams.Filters): (button: Option<string>)
    ensures button.Some? <==> FilterParams.ActiveFiltersCount(filters) > 0
    ensures button.Some? ==> button.value == "Clear Filters (" + NatToString(FilterParams.ActiveFiltersCount(filters)) + ")"
  {
    FilterParams.HasActiveIffCountPositive(filters);
    if FilterParams.HasActiveFilters(filters)
    then Some("Clear Filters (" + NatToString(FilterParams.ActiveFiltersCount(filters)) + ")")
    else None
  }

  /** The page starts, and returns after Clear Filters, with no button; choosing Active or
      Inactive (but not All) shows it with a count of one. */
  lemma ClearFiltersButtonCases(choice: string)
    requires choice in StatusOptions
    ensures ClearFiltersButton(FilterConfig.initialFilters) == None
    ensures var f := FilterParams.Merge(FilterConfig.initialFilters, map[IsActiveKey := StatusFilterValue(choice)]);
            ClearFiltersButton(f) == if choice == "all" then None else Some("Clear Filters (1)")
  {
    var init := FilterConfig.initialFilters;
    assert FilterParams.ActiveKeys(init) == {};
    var f := FilterParams.Merge(init, map[IsActiveKey := StatusFilterValue(choice)]);
    assert f.Keys == {IsActiveKey};
    if choice == "all" {
      assert FilterParams.ActiveKeys(f) == {};
    } else {
      assert FilterParams.ActiveKeys(f) == {IsActiveKey};
      assert FilterParams.ActiveFiltersCount(f) == 1;
      assert NatToString(1) == "1";
      assert FilterParams.IsActive(f[IsActiveKey]);
      assert FilterParams.HasActiveFilters(f);
      assert "Clear Filters (" + "1" + ")" == "Clear Filters (1)";
    }
  }

  /** The Clear button beside the search box is shown while the live term is non-empty. */
  predicate ShowsClearSearch(search: Search.State) {
    Search.HasSearchTerm(search)
  }

  /** Typing shows the button exactly when the new term is non-empty, and clicking it hides
      the button. */
  lemma ClearSearchShownIff(search: Search.State, t: string)
    ensures ShowsClearSearch(Search.Update(search, t)) <==> t != ""
    ensures !ShowsClearSearch(Search.Clear(search))
  {
  }
}
