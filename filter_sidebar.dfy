/** The filter sidebar of the package listing: it keeps its own copy of the four filters and
    sends every new value to the page. */
module FilterSidebar {
  import opened PackageService
  import opened PackagesPage

  datatype FilterKey = Destination | MinPrice | MaxPrice | Duration

  /** The value a filter set holds for one key. */
  function Get(f: Filters, key: FilterKey): string
  {
    match key
    case Destination => f.destination
    case MinPrice => f.minPrice
    case MaxPrice => f.maxPrice
    case Duration => f.duration
  }

  /** `{ ...filters, [key]: value }`: the key takes the value and the other three stay. */
  function WithKey(f: Filters, key: FilterKey, value: string): (r: Filters)
    ensures Get(r, key) == value
    ensures forall k :: k != key ==> Get(r, k) == Get(f, k)
  {
    match key
    case Destination => f.(destination := value)
    case MinPrice => f.(minPrice := value)
    case MaxPrice => f.(maxPrice := value)
    case Duration => f.(duration := value)
  }

  /** Two filter sets that agree on every key are the same. */
  lemma FiltersByKeys(f: Filters, g: Filters)
    requires forall k :: Get(f, k) == Get(g, k)
    ensures f == g
  {
    assert Get(f, Destination) == Get(g, Destination);
    assert Get(f, MinPrice) == Get(g, MinPrice);
    assert Get(f, MaxPrice) == Get(g, MaxPrice);
    assert Get(f, Duration) == Get(g, Duration);
  }

  /** Two changes to the same key leave only the last value. */
  lemma LastChangeWins(f: Filters, key: FilterKey, a: string, b: string)
    ensures WithKey(WithKey(f, key, a), key, b) == WithKey(f, key, b)
  {
    FiltersByKeys(WithKey(WithKey(f, key, a), key, b), WithKey(f, key, b));
  }

  /** Changes to different keys can be made in either order. */
  lemma ChangesCommute(f: Filters, k1: FilterKey, a: string, k2: FilterKey, b: string)
    requires k1 != k2
    ensures WithKey(WithKey(f, k1, a), k2, b) == WithKey(WithKey(f, k2, b), k1, a)
  {
    FiltersByKeys(WithKey(WithKey(f, k1, a), k2, b), WithKey(WithKey(f, k2, b), k1, a));
  }

  /** Setting a key to the value it has changes nothing. */
  lemma ChangeToSameValue(f: Filters, key: FilterKey)
    ensures WithKey(f, key, Get(f, key)) == f
  {
    FiltersByKeys(WithKey(f, key, Get(f, key)), f);
  }

  /** One sidebar: its own filters, and the page it reports to. */
  class Sidebar {
    var filters: Filters
    const page: Page

    constructor (page: Page)
      ensures filters == NoFilters && this.page == page
    {
      filters := NoFilters;
      this.page := page;
    }

    /** `handleFilterChange`: the key takes the value, and the page is sent the same filters
        the sidebar now keeps. */
    method HandleFilterChange(key: FilterKey, value: string)
      modifies this, page
      ensures filters == WithKey(old(filters), key, value)
      ensures page.filters == filters
      ensures page.searchTerm == old(page.searchTerm) && page.params == old(page.params)
      ensures page.packages == old(page.packages) && page.error == old(page.error)
    {
      filters := WithKey(filters, key, value);
      page.HandleFiltersChange(filters);
    }

    /** `handleClearFilters`: all four filters empty, here and on the page. Clearing twice is
        the same as clearing once, as the outcome does not depend on the state before. */
    method HandleClearFilters()
      modifies this, page
      ensures filters == NoFilters && page.filters == NoFilters
      ensures page.searchTerm == old(page.searchTerm) && page.params == old(page.params)
      ensures page.packages == old(page.packages) && page.error == old(page.error)
    {
      filters := NoFilters;
      page.HandleFiltersChange(filters);
    }
  }

  /** The page's clear-all as written, followed by a change in a sidebar: the sidebar still
      holds the filters chosen before, so the page receives them back with the one change. */
  method ClearAllThenChange(sidebar: Sidebar, key: FilterKey, value: string)
    modifies sidebar, sidebar.page
    ensures sidebar.page.filters == WithKey(old(sidebar.filters), key, value)
    ensures sidebar.page.searchTerm == ""
  {
    sidebar.page.HandleClearAll();
    sidebar.HandleFilterChange(key, value);
  }

  /** With Nepal chosen in the sidebar, clear-all and then a maximum price of 1000 search for
      Nepal again, although the page had cleared it. */
  method StaleDestinationExample(sidebar: Sidebar)
    requires sidebar.filters == Filters("Nepal", "", "", "")
    modifies sidebar, sidebar.page
    ensures sidebar.page.filters == Filters("Nepal", "", "1000", "")
    ensures HasSearchCriteria(sidebar.page.searchTerm, sidebar.page.filters)
  {
    ClearAllThenChange(sidebar, MaxPrice, "1000");
  }

  /** Clear-all as intended: the page and both of its sidebars (the desktop and the mobile
      one) end with empty filters, so a later change starts from nothing. */
  method ClearAllSynced(page: Page, desktop: Sidebar, mobile: Sidebar)
    requires desktop.page == page && mobile.page == page
    modifies page, desktop, mobile
    ensures page.searchTerm == "" && page.filters == NoFilters && page.params == map[]
    ensures desktop.filters == NoFilters && mobile.filters == NoFilters
    ensures page.packages == old(page.packages) && page.error == old(page.error)
  {
    page.HandleClearAll();
    desktop.filters := NoFilters;
    mobile.filters := NoFilters;
  }

  /** After the synced clear-all, a change in either sidebar sends exactly that one filter. */
  method ClearAllSyncedThenChange(page: Page, desktop: Sidebar, mobile: Sidebar, useMobile: bool,
                                  key: FilterKey, value: string)
    requires desktop.page == page && mobile.page == page
    modifies page, desktop, mobile
    ensures page.filters == WithKey(NoFilters, key, value)
    ensures page.searchTerm == ""
  {
    ClearAllSynced(page, desktop, mobile);
    if useMobile {
      mobile.HandleFilterChange(key, value);
    } else {
      desktop.HandleFilterChange(key, value);
    }
  }
}
