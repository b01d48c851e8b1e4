/**
 * The filter bar's state (src/components/FilterBar.tsx): the filter
 * options the selects edit and the search box's text. Each change is
 * reported to the page; the reported values are the methods' results.
 */
module FilterBar {
  import opened Common
  import opened Lib

  /** The bar's starting and reset filters: everything shown, by due date, no search key. */
  const DefaultFilters := FilterOptions(Some("all"), Some("all"), Some("all"), None, Some("dueDate"))

  /** A present value counts as an active filter unless it is "all" or "dueDate". */
  function Active(v: Option<string>): nat {
    if v.Some? && v.value != "all" && v.value != "dueDate" then 1 else 0
  }

  /**
   * `activeFilterCount`: the number of present values other than "all"
   * and "dueDate". It is at most five, at most four while no search key
   * is present, and zero exactly when every present value is "all" or
   * "dueDate".
   */
  function ActiveFilterCount(f: FilterOptions): (n: nat)
    ensures n <= 5
    ensures f.search.None? ==> n <= 4
    ensures n == 0 <==>
      forall v :: (v in [f.status, f.priority, f.taskType, f.search, f.sortBy] && v.Some?) ==> v.value in {"all", "dueDate"}
  {
    Active(f.status) + Active(f.priority) + Active(f.taskType) + Active(f.search) + Active(f.sortBy)
  }

  /**
   * One choice in a select moves the count by the change in that key
   * alone: sorting by due date, or picking "all", makes the key inactive,
   * while any other sort order or a specific status counts as one more
   * active filter.
   */
  lemma ActiveFilterCountOfChoice(f: FilterOptions, order: string, status: string)
    ensures ActiveFilterCount(MergeFilters(f, NoFilters.(sortBy := Some(order))))
            == ActiveFilterCount(f) - Active(f.sortBy) + (if order in {"all", "dueDate"} then 0 else 1)
    ensures ActiveFilterCount(MergeFilters(f, NoFilters.(status := Some(status))))
            == ActiveFilterCount(f) - Active(f.status) + (if status in {"all", "dueDate"} then 0 else 1)
  {
  }

  class FilterBarState {
    var filters: FilterOptions
    var searchTerm: string

    /**
     * The search text lives in its own state, never among the filters, so
     * at most the four select keys can be active.
     */
    predicate Valid()
      reads this
    {
      filters.search.None?
    }

    constructor()
      ensures filters == DefaultFilters && searchTerm == ""
      ensures Valid() && ActiveFilterCount(filters) == 0
    {
      filters := DefaultFilters;
      searchTerm := "";
    }

    /**
     * `updateFilters`: the keys passed replace the old ones; the merged
     * options are reported. The selects pass one of the four select keys,
     * never a search key.
     */
    method UpdateFilters(patch: FilterOptions) returns (reported: FilterOptions)
      requires Valid() && patch.search.None?
      modifies this
      ensures filters == MergeFilters(old(filters), patch) && reported == filters
      ensures searchTerm == old(searchTerm)
      ensures Valid() && ActiveFilterCount(filters) <= 4
    {
      filters := MergeFilters(filters, patch);
      reported := filters;
    }

    /** `handleSearch`: the text is kept and reported. */
    method HandleSearch(value: string) returns (reported: string)
      modifies this
      ensures searchTerm == value && reported == value && filters == old(filters)
      ensures old(Valid()) ==> Valid()
    {
      searchTerm := value;
      reported := value;
    }

    /** `handleReset`: the starting filters come back, the search is cleared, and both are reported. */
    method HandleReset() returns (reportedFilters: FilterOptions, reportedSearch: string)
      modifies this
      ensures filters == DefaultFilters && searchTerm == ""
      ensures reportedFilters == DefaultFilters && reportedSearch == ""
      ensures Valid() && ActiveFilterCount(filters) == 0
    {
      filters := DefaultFilters;
      searchTerm := "";
      reportedFilters, reportedSearch := filters, searchTerm;
    }
  }
}
