/** The package listing page: the search term (seeded from the URL), the four filters, the
    load that picks between the whole table and a search, and the clear-all action. */
module PackagesPage {
  import opened Common
  import opened Records
  import opened PackageService

  /** `searchTerm || Object.values(filters).some(filter => filter)`: some criterion is a
      non-empty text. */
  predicate HasSearchCriteria(searchTerm: string, filters: Filters)
  {
    searchTerm != "" || filters.destination != "" || filters.minPrice != ""
    || filters.maxPrice != "" || filters.duration != ""
  }

  /** No criterion is set exactly when the term is empty and the filters are the cleared ones. */
  lemma NoCriteriaIffCleared(searchTerm: string, filters: Filters)
    ensures !HasSearchCriteria(searchTerm, filters) <==> searchTerm == "" && filters == NoFilters
  {
  }

  /** How a load ends besides returning the list: the backend returns something that is not
      an array, or throws with a message (possibly empty). */
  datatype LoadFault = NoFault | NonArray | Thrown(message: string)

  /** The message shown for a thrown error: its own, or the page's default when it is empty. */
  function LoadErrorMessage(message: string): (m: string)
    ensures m != ""
    ensures message != "" ==> m == message
  {
    if message != "" then message else "Failed to load packages from database"
  }

  /** The packages a search for these criteria returns. */
  function SearchResult(packages: seq<Package>, searchTerm: string, filters: Filters): seq<Package>
  {
    Filter(packages, p => Matches(p, searchTerm, filters))
  }

  /** Whichever branch the load takes, the list it shows is the search result for the current
      criteria: with none set, the search result is the whole table. */
  lemma DispatchAgrees(packages: seq<Package>, searchTerm: string, filters: Filters)
    ensures (if HasSearchCriteria(searchTerm, filters) then SearchResult(packages, searchTerm, filters)
             else packages) == SearchResult(packages, searchTerm, filters)
  {
    NoCriteriaIffCleared(searchTerm, filters);
    SearchResultFacts(packages, searchTerm, filters);
  }

  /** The page's state. `params` are the URL's search parameters. */
  class Page {
    var searchTerm: string
    var filters: Filters
    var packages: seq<Package>
    var error: Option<string>
    var params: map<string, string>

    /** The page as it mounts: the term is the URL's `search` parameter, or empty. */
    constructor (params: map<string, string>)
      ensures searchTerm == (if "search" in params then params["search"] else "")
      ensures filters == NoFilters && packages == [] && error.None? && this.params == params
    {
      searchTerm := if "search" in params then params["search"] else "";
      filters := NoFilters;
      packages := [];
      error := None;
      this.params := params;
    }

    /** `hasActiveFilters`, the same test as the load's. */
    predicate HasActiveFilters()
      reads this
    {
      HasSearchCriteria(searchTerm, filters)
    }

    /** `loadPackages`, run whenever the term or the filters change: the whole table when no
        criterion is set, otherwise the search. A result that is not an array, or an error,
        leaves the list empty; an error also sets the message. */
    method LoadPackages(store: PackageStore, fault: LoadFault)
      modifies this
      ensures fault.NoFault? ==>
        packages == SearchResult(store.packages, searchTerm, filters) && error.None?
      ensures fault.NoFault? && !HasActiveFilters() ==> packages == store.packages
      ensures fault.NonArray? ==> packages == [] && error.None?
      ensures fault.Thrown? ==> packages == [] && error == Some(LoadErrorMessage(fault.message))
      ensures searchTerm == old(searchTerm) && filters == old(filters) && params == old(params)
    {
      error := None;
      if fault.Thrown? {
        error := Some(LoadErrorMessage(fault.message));
        packages := [];
        return;
      }
      var data;
      if HasSearchCriteria(searchTerm, filters) {
        data := store.SearchPackages(searchTerm, filters);
      } else {
        data := store.GetAll();
      }
      DispatchAgrees(store.packages, searchTerm, filters);
      if fault.NonArray? {
        packages := [];
      } else {
        packages := data;
      }
    }

    /** `handleSearch`: keeps the term and puts it in the URL, or empties the URL's
        parameters for an empty term. */
    method HandleSearch(query: string)
      modifies this
      ensures searchTerm == query
      ensures query != "" ==> params == map["search" := query]
      ensures query == "" ==> params == map[]
      ensures filters == old(filters) && packages == old(packages) && error == old(error)
    {
      searchTerm := query;
      if query != "" {
        params := map["search" := query];
      } else {
        params := map[];
      }
    }

    /** `handleFiltersChange`: takes the filters a sidebar sends. */
    method HandleFiltersChange(newFilters: Filters)
      modifies this
      ensures filters == newFilters
      ensures searchTerm == old(searchTerm) && params == old(params)
      ensures packages == old(packages) && error == old(error)
    {
      filters := newFilters;
    }

    /** `handleClearAll`: empties the term, clears the four filters and the URL's parameters,
        after which no filter is active. */
    method HandleClearAll()
      modifies this
      ensures searchTerm == "" && filters == NoFilters && params == map[]
      ensures !HasActiveFilters()
      ensures packages == old(packages) && error == old(error)
    {
      searchTerm := "";
      filters := NoFilters;
      params := map[];
    }
  }
}
