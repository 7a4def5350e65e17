/** The lead list's filter bar: five selects, each setting one filter key,
    and a clear button. Every change hands the parent the filters that are
    set, with empty selections left out. */
module FilterBar {

  /** The keys of the filter state, one per select. */
  const FilterKeys: set<string> := {"status", "salesAgent", "priority", "source", "tags"}

  /** The state on mount and after Clear Filters: every key present, empty. */
  const EmptyFilters: map<string, string> :=
    map["status" := "", "salesAgent" := "", "priority" := "", "source" := "", "tags" := ""]

  /** The cleaning step: the entries whose value is not the empty string. */
  function Clean(filters: map<string, string>): (r: map<string, string>)
    ensures forall k :: k in r <==> k in filters && filters[k] != ""
    ensures forall k :: k in r ==> r[k] == filters[k]
  {
    map k | k in filters && filters[k] != "" :: filters[k]
  }

  class FilterBarState {
    /** The `filters` state: one selected value per key, "" for "All". */
    var filters: map<string, string>

    ghost predicate Valid()
      reads this
    {
      filters.Keys == FilterKeys
    }

    constructor ()
      ensures Valid() && filters == EmptyFilters
    {
      filters := EmptyFilters;
    }

    /** `handleFilterChange(key, value)`: replace one key's value, then emit
        the cleaned filters to the parent. */
    method HandleFilterChange(key: string, value: string) returns (emitted: map<string, string>)
      requires Valid() && key in FilterKeys
      modifies this
      ensures Valid()
      ensures filters == old(filters)[key := value]
      ensures emitted == Clean(filters)
      ensures emitted.Keys <= FilterKeys
    {
      filters := filters[key := value];
      emitted := Clean(filters);
    }

    /** `clearFilters`: every value back to "", and the empty map emitted. */
    method ClearFilters() returns (emitted: map<string, string>)
      modifies this
      ensures Valid() && filters == EmptyFilters
      ensures emitted == map[]
      ensures emitted == Clean(filters)
    {
      filters := EmptyFilters;
      emitted := map[];
      CleanEmptyFilters();
    }
  }

  /** What Clear Filters emits is what cleaning its new state gives. */
  lemma CleanEmptyFilters()
    ensures Clean(EmptyFilters) == map[]
  {
    assert forall k :: k in EmptyFilters ==> EmptyFilters[k] == "";
  }

  /** Choosing "All" for a key removes it from what is emitted and leaves
      every other entry as it was. */
  lemma ClearingOneKey(filters: map<string, string>, key: string)
    ensures Clean(filters[key := ""]) == Clean(filters) - {key}
  {
  }

  /** Choosing a real value for a key sets exactly that entry of what is
      emitted. */
  lemma SettingOneKey(filters: map<string, string>, key: string, value: string)
    requires value != ""
    ensures Clean(filters[key := value]) == Clean(filters)[key := value]
  {
  }

  /** Applying the same change twice gives the same state and emits the
      same filters as applying it once. */
  lemma ChangeIdempotent(filters: map<string, string>, key: string, value: string)
    ensures filters[key := value][key := value] == filters[key := value]
    ensures Clean(filters[key := value][key := value]) == Clean(filters[key := value])
  {
  }

  /** Emitted keys are always among the five filter keys. */
  lemma EmittedKeys(filters: map<string, string>)
    requires filters.Keys <= FilterKeys
    ensures Clean(filters).Keys <= FilterKeys
  {
  }
}
