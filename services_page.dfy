/** The public services page (src/pages/ServicesPage.tsx): the catalog filter over category,
    price range and search term, the filter-change and clear handlers with the `category`
    URL parameter they keep in step, and the active-filter and heading conditions. */
module ServicesPage {
  import opened Common
  import opened Listing
  import opened ServiceCatalog

  /** The keys of `FilterOptions` the page sets. The category is the raw string from the
      drop-down or the URL, so an unknown category is possible. */
  datatype FilterOptions = FilterOptions(
    category: Option<string>,
    minPrice: Option<real>,
    maxPrice: Option<real>)

  /** The options object `{}` that clearing leaves. */
  const NoOptions: FilterOptions := FilterOptions(None, None, None)

  /** A number is truthy in JavaScript when present and non-zero. */
  predicate TruthyPrice(p: Option<real>) {
    p.Some? && p.value != 0.0
  }

  /** The filter callback, as its four early returns read: a service is dropped when a
      truthy category differs, when a set minimum exceeds its price, when a set maximum is
      below its price, or when a truthy term is found in neither its name nor its
      description. */
  predicate Keep(s: Service, o: FilterOptions, term: string) {
    if Truthy(o.category) && CategoryName(s.category) != o.category.value then false
    else if o.minPrice.Some? && s.price < o.minPrice.value then false
    else if o.maxPrice.Some? && s.price > o.maxPrice.value then false
    else if term != "" && !Includes(s.name, term) && !Includes(s.description, term) then false
    else true
  }

  function KeepFn(o: FilterOptions, term: string): Service -> bool {
    s => Keep(s, o, term)
  }

  /** A service is kept exactly when each of the four conditions holds; both price bounds
      are inclusive, and an unset or empty category or term does not filter. */
  lemma KeepIff(s: Service, o: FilterOptions, term: string)
    ensures Keep(s, o, term) <==>
      (!Truthy(o.category) || CategoryName(s.category) == o.category.value) &&
      (o.minPrice.None? || o.minPrice.value <= s.price) &&
      (o.maxPrice.None? || s.price <= o.maxPrice.value) &&
      (term == "" || Includes(s.name, term) || Includes(s.description, term))
  {
  }

  /** `filteredServices`: the kept services, in catalog order. */
  function FilteredServices(services: seq<Service>, o: FilterOptions, term: string)
    : (r: seq<Service>)
    ensures forall k :: 0 <= k < |r| ==> r[k] in services && Keep(r[k], o, term)
    ensures forall k :: 0 <= k < |services| && Keep(services[k], o, term) ==> services[k] in r
    ensures exists idx :: AtPositions(r, services, idx) &&
                          forall j :: 0 <= j < |services| ==> (Keep(services[j], o, term) <==> j in idx)
  {
    FilterKeepsOrder(services, KeepFn(o, term));
    Filter(services, KeepFn(o, term))
  }

  /** With no options and an empty term every service is shown, which is what clearing the
      filters leads to. */
  lemma ClearedFiltersKeepAll(services: seq<Service>)
    ensures FilteredServices(services, NoOptions, "") == services
  {
    FilterKeepsAll(services, KeepFn(NoOptions, ""));
  }

  /** Filtering the shown list again with the same options and term changes nothing. */
  lemma FilterTwiceSame(services: seq<Service>, o: FilterOptions, term: string)
    ensures FilteredServices(FilteredServices(services, o, term), o, term) ==
            FilteredServices(services, o, term)
  {
    FilterIdempotent(services, KeepFn(o, term));
  }

  /** Category plumbing with prices from 50 to 100 shows both plumbing services of the
      catalog, Pipe Repair at 85 and Bathroom Plumbing at 95. */
  lemma PlumbingPriceRange()
    ensures FilteredServices(Catalog, FilterOptions(Some("plumbing"), Some(50.0), Some(100.0)), "")
            == [Catalog[0], Catalog[4]]
  {
    var keep := KeepFn(FilterOptions(Some("plumbing"), Some(50.0), Some(100.0)), "");
    assert keep(Catalog[0]) && keep(Catalog[4]);
    assert !keep(Catalog[1]) && !keep(Catalog[2]) && !keep(Catalog[3]);
    assert !keep(Catalog[5]) && !keep(Catalog[6]) && !keep(Catalog[7]);
    FilterExactlyTwo(Catalog, keep, 0, 4);
  }

  /** A set minimum drops every service priced below it. */
  lemma MinimumDropsCheaper(services: seq<Service>, s: Service, min: real)
    requires s.price < min
    ensures s !in FilteredServices(services, FilterOptions(None, Some(min), None), "")
  {
  }

  /** A minimum of 0 is still a bound, tested with `!== undefined`, and it keeps every
      service whose price is not negative. */
  lemma ZeroMinimumKeepsAll(services: seq<Service>)
    requires forall k :: 0 <= k < |services| ==> services[k].price >= 0.0
    ensures FilteredServices(services, FilterOptions(None, Some(0.0), None), "") == services
  {
    FilterKeepsAll(services, KeepFn(FilterOptions(None, Some(0.0), None), ""));
  }

  /** On the catalog, a minimum of 100 drops the 85 Pipe Repair service while a minimum of
      0 drops nothing. */
  lemma MinimumPriceBound()
    ensures Catalog[0] !in FilteredServices(Catalog, FilterOptions(None, Some(100.0), None), "")
    ensures FilteredServices(Catalog, FilterOptions(None, Some(0.0), None), "") == Catalog
  {
    CatalogShape();
    MinimumDropsCheaper(Catalog, Catalog[0], 100.0);
    ZeroMinimumKeepsAll(Catalog);
  }

  /** The "Active Filters" row is shown when the category, a price bound or the term is
      truthy. */
  predicate ActiveFiltersShown(o: FilterOptions, term: string) {
    Truthy(o.category) || TruthyPrice(o.minPrice) || TruthyPrice(o.maxPrice) || term != ""
  }

  /** The price chip is shown when either bound is truthy. */
  predicate PriceChipShown(o: FilterOptions) {
    TruthyPrice(o.minPrice) || TruthyPrice(o.maxPrice)
  }

  /** A maximum price of 0 hides every service of positive price and yet shows neither the
      active-filter row nor the price chip, because those test truthiness. */
  lemma ZeroMaximumHiddenButFilters(services: seq<Service>)
    requires forall k :: 0 <= k < |services| ==> services[k].price > 0.0
    ensures FilteredServices(services, FilterOptions(None, None, Some(0.0)), "") == []
    ensures !ActiveFiltersShown(FilterOptions(None, None, Some(0.0)), "")
    ensures !PriceChipShown(FilterOptions(None, None, Some(0.0)))
  {
    FilterKeepsNone(services, KeepFn(FilterOptions(None, None, Some(0.0)), ""));
  }

  /** The noun of the heading "{n} Service(s) Available". */
  function HeadingNoun(n: nat): (noun: string)
    ensures noun == "Service" <==> n == 1
    ensures noun == "Services" <==> n != 1
  {
    if n == 1 then "Service" else "Services"
  }

  /** The keys `handleFilterChange` is called with, and the value. */
  datatype FilterChange =
    | SetCategory(category: Option<string>)
    | SetMinPrice(minPrice: Option<real>)
    | SetMaxPrice(maxPrice: Option<real>)

  /** The page's state: the filter options, the search box and the URL query parameters. */
  class ServicesPageState {
    /** The services the page lists: the mock catalog. */
    const services: seq<Service>
    var options: FilterOptions
    var searchTerm: string
    var urlParams: map<string, string>

    /** The category starts from the `category` query parameter when it is non-empty. */
    constructor(params: map<string, string>)
      ensures services == Catalog && urlParams == params && searchTerm == ""
      ensures "category" in params && params["category"] != "" ==>
                options == FilterOptions(Some(params["category"]), None, None)
      ensures !("category" in params && params["category"] != "") ==> options == NoOptions
    {
      services := Catalog;
      urlParams := params;
      searchTerm := "";
      if "category" in params && params["category"] != "" {
        options := FilterOptions(Some(params["category"]), None, None);
      } else {
        options := NoOptions;
      }
    }

    /** The services on screen. */
    function Shown(): seq<Service>
      reads this
    {
      FilteredServices(services, options, searchTerm)
    }

    /** `handleFilterChange`: only the changed key of the options moves; a category change
        writes a truthy value to the URL or removes the parameter, a price change leaves the
        URL alone. */
    method ChangeFilter(c: FilterChange)
      modifies this
      ensures c.SetCategory? ==> options == old(options).(category := c.category)
      ensures c.SetMinPrice? ==> options == old(options).(minPrice := c.minPrice)
      ensures c.SetMaxPrice? ==> options == old(options).(maxPrice := c.maxPrice)
      ensures c.SetCategory? && Truthy(c.category) ==>
                urlParams == old(urlParams)["category" := c.category.value]
      ensures c.SetCategory? && !Truthy(c.category) ==>
                urlParams == old(urlParams) - {"category"} && "category" !in urlParams
      ensures !c.SetCategory? ==> urlParams == old(urlParams)
      ensures searchTerm == old(searchTerm)
    {
      match c
      case SetCategory(v) =>
        options := options.(category := v);
        if Truthy(v) {
          urlParams := urlParams["category" := v.value];
        } else {
          urlParams := urlParams - {"category"};
        }
      case SetMinPrice(v) =>
        options := options.(minPrice := v);
      case SetMaxPrice(v) =>
        options := options.(maxPrice := v);
    }

    /** The search box. */
    method SetSearchTerm(term: string)
      modifies this
      ensures searchTerm == term
      ensures options == old(options) && urlParams == old(urlParams)
    {
      searchTerm := term;
    }

    /** `clearFilters`: options `{}`, empty term, no query parameters; the whole catalog is
        shown again. */
    method ClearFilters()
      modifies this
      ensures options == NoOptions && searchTerm == "" && urlParams == map[]
      ensures Shown() == services
      ensures !ActiveFiltersShown(options, searchTerm)
    {
      options := NoOptions;
      searchTerm := "";
      urlParams := map[];
      ClearedFiltersKeepAll(services);
    }
  }
}
