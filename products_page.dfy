/** The filter state of the product listing page (app/urunler/page.tsx) and the handlers it passes
    to the search bar and the filter panel. */
module ProductListing {
  import opened Wrappers
  import opened Catalog
  import opened ProductFiltering

  /** A snapshot of the page's six filter fields. */
  datatype PageFilters = PageFilters(
    selectedSubcategory: Option<string>,
    minPrice: Option<real>,
    maxPrice: Option<real>,
    inStock: bool,
    sortBy: SortOption,
    searchQuery: string)
  {
    /** The props the page hands to the filter panel; the search text is not among them. */
    function Props(): (p: FilterProps)
      ensures p.inStock.Some? && p.sortBy.Some?
    {
      FilterProps(selectedSubcategory, minPrice, maxPrice, Some(inStock), Some(sortBy))
    }
  }

  /** The state the page starts in. */
  const InitialFilters := PageFilters(None, None, None, false, Newest, "")

  /** The initial state shows no active filter and displays the 'newest' sort. */
  lemma InitialHasNoActiveFilters()
    ensures !HasActiveFilters(InitialFilters.Props())
    ensures DisplayedSort(InitialFilters.Props()) == Newest
  {
  }

  /** The search text never turns the filter badge on or off. */
  lemma SearchDoesNotActivateFilters(s: PageFilters, q: string)
    ensures HasActiveFilters(s.(searchQuery := q).Props()) == HasActiveFilters(s.Props())
  {
  }

  /** The page always passes a defined sort, so the panel displays exactly the page's sort. */
  lemma DisplayedSortIsPageSort(s: PageFilters)
    ensures DisplayedSort(s.Props()) == s.sortBy
  {
  }

  /** The page component's filter state. */
  class ProductsPage {
    var selectedSubcategory: Option<string>
    var minPrice: Option<real>
    var maxPrice: Option<real>
    var inStock: bool
    var sortBy: SortOption
    var searchQuery: string

    function State(): PageFilters
      reads this
    {
      PageFilters(selectedSubcategory, minPrice, maxPrice, inStock, sortBy, searchQuery)
    }

    constructor ()
      ensures State() == InitialFilters
    {
      selectedSubcategory := None;
      minPrice := None;
      maxPrice := None;
      inStock := false;
      sortBy := Newest;
      searchQuery := "";
    }

    /** `handleClearFilters`: the six setters in order; whatever the state was, the page is back at
        its initial state, so clearing twice is the same as clearing once. */
    method HandleClearFilters()
      modifies this
      ensures State() == InitialFilters
      ensures !HasActiveFilters(State().Props())
    {
      selectedSubcategory := None;
      minPrice := None;
      maxPrice := None;
      inStock := false;
      sortBy := Newest;
      searchQuery := "";
      InitialHasNoActiveFilters();
    }

    /** The `onPriceChange` handler: both bounds in one call, nothing else. */
    method OnPriceChange(min: Option<real>, max: Option<real>)
      modifies this
      ensures State() == old(State()).(minPrice := min, maxPrice := max)
    {
      minPrice := min;
      maxPrice := max;
    }

    /** `onSubcategoryChange={setSelectedSubcategory}`. */
    method OnSubcategoryChange(slug: Option<string>)
      modifies this
      ensures State() == old(State()).(selectedSubcategory := slug)
    {
      selectedSubcategory := slug;
    }

    /** `onStockChange={setInStock}`. */
    method OnStockChange(checked: bool)
      modifies this
      ensures State() == old(State()).(inStock := checked)
    {
      inStock := checked;
    }

    /** `onSortChange={setSortBy}`. */
    method OnSortChange(sort: SortOption)
      modifies this
      ensures State() == old(State()).(sortBy := sort)
    {
      sortBy := sort;
    }

    /** `onSearch={setSearchQuery}`. */
    method OnSearch(query: string)
      modifies this
      ensures State() == old(State()).(searchQuery := query)
    {
      searchQuery := query;
    }
  }

  /** Clearing the filters and then pressing the panel's price button. The panel filled its price
      inputs from the props once, when it was created, and nothing refills them, so clearing leaves
      the old text in place: the apply reports that text's bounds again, and a bound that had been
      applied before the clear comes back. */
  method ClearThenApplyPrice(page: ProductsPage, panel: ProductFilters, parse: string -> real)
    modifies page
    ensures panel.localMinPrice == old(panel.localMinPrice) && panel.localMaxPrice == old(panel.localMaxPrice)
    ensures page.State() == InitialFilters.(minPrice := BoundOf(panel.localMinPrice, parse),
                                            maxPrice := BoundOf(panel.localMaxPrice, parse))
    ensures panel.localMinPrice != "" || panel.localMaxPrice != "" ==> HasActiveFilters(page.State().Props())
  {
    page.HandleClearFilters();
    var min, max := panel.HandlePriceApply(parse);
    page.OnPriceChange(min, max);
  }
}
