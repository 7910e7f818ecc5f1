/** The admin "Services" screen (src/pages/admin/AdminServices.tsx): the search over name
    and description with a category drop-down, five services per page, and the category
    badge colours. */
module AdminServices {
  import opened Common
  import opened Listing
  import opened ServiceCatalog

  const PageSize: int := 5

  /** The category drop-down: 'all' or one category. */
  datatype CategoryFilter = AllCategories | OnlyCategory(category: ServiceCategory)

  /** The filter callback: the term is found, ignoring case, in the name or the description,
      and the drop-down is 'all' or the service's category. */
  predicate Matches(s: Service, term: string, f: CategoryFilter) {
    var matchesSearch := Includes(s.name, term) || Includes(s.description, term);
    var matchesCategory := f == AllCategories || s.category == f.category;
    matchesSearch && matchesCategory
  }

  function Keep(term: string, f: CategoryFilter): Service -> bool {
    s => Matches(s, term, f)
  }

  /** `filteredServices`: exactly the matching services, in their original order. */
  function FilterServices(services: seq<Service>, term: string, f: CategoryFilter)
    : (r: seq<Service>)
    ensures forall k :: 0 <= k < |r| ==> r[k] in services && Matches(r[k], term, f)
    ensures forall k :: 0 <= k < |services| && Matches(services[k], term, f) ==> services[k] in r
    ensures exists idx :: AtPositions(r, services, idx) &&
                          forall j :: 0 <= j < |services| ==> (Matches(services[j], term, f) <==> j in idx)
  {
    FilterKeepsOrder(services, Keep(term, f));
    Filter(services, Keep(term, f))
  }

  /** `currentServices`: at most five matching services, the page `page` of the filtered
      list, and none past the last page. */
  function CurrentServices(services: seq<Service>, term: string, f: CategoryFilter, page: int)
    : (r: seq<Service>)
    ensures |r| <= PageSize
    ensures forall k :: 0 <= k < |r| ==> r[k] in services && Matches(r[k], term, f)
    ensures var filtered := FilterServices(services, term, f);
            1 <= page && (page - 1) * PageSize <= |filtered| ==>
              r == filtered[(page - 1) * PageSize..Min(page * PageSize, |filtered|)]
    ensures var filtered := FilterServices(services, term, f);
            TotalPages(|filtered|, PageSize) < page ==> r == []
  {
    var filtered := FilterServices(services, term, f);
    if TotalPages(|filtered|, PageSize) < page then
      PageBeyondEndIsEmpty(filtered, page, PageSize);
      PageItems(filtered, page, PageSize)
    else
      PageItems(filtered, page, PageSize)
  }

  /** An empty search matches every service, so only the drop-down decides. */
  lemma EmptySearchMatches(s: Service, f: CategoryFilter)
    ensures Matches(s, "", f) <==> f == AllCategories || s.category == f.category
  {
    EmptyTermIncluded(s.name);
  }

  /** An empty search with 'all' lists every service. */
  lemma EmptySearchKeepsAll(services: seq<Service>)
    ensures FilterServices(services, "", AllCategories) == services
  {
    forall k | 0 <= k < |services|
      ensures Keep("", AllCategories)(services[k])
    {
      EmptySearchMatches(services[k], AllCategories);
    }
    FilterKeepsAll(services, Keep("", AllCategories));
  }

  /** With an empty search, a category held by exactly the services at positions i < j
      lists those two. */
  lemma EmptySearchCategoryOfTwo(services: seq<Service>, c: ServiceCategory, i: int, j: int)
    requires 0 <= i < j < |services| && services[i].category == c && services[j].category == c
    requires forall k :: 0 <= k < |services| && k != i && k != j ==> services[k].category != c
    ensures FilterServices(services, "", OnlyCategory(c)) == [services[i], services[j]]
  {
    forall k | 0 <= k < |services|
      ensures Keep("", OnlyCategory(c))(services[k]) <==> services[k].category == c
    {
      EmptySearchMatches(services[k], OnlyCategory(c));
    }
    FilterExactlyTwo(services, Keep("", OnlyCategory(c)), i, j);
  }

  /** Eight services fill two pages, of five and of three. */
  lemma EightServicesTwoPages(services: seq<Service>)
    requires |services| == 8
    ensures TotalPages(|FilterServices(services, "", AllCategories)|, PageSize) == 2
    ensures CurrentServices(services, "", AllCategories, 1) == services[..5]
    ensures CurrentServices(services, "", AllCategories, 2) == services[5..]
  {
    EmptySearchKeepsAll(services);
    var filtered := FilterServices(services, "", AllCategories);
    assert filtered == services;
    assert TotalPages(8, PageSize) == 2;
    assert CurrentServices(services, "", AllCategories, 1) == filtered[0..5];
    assert CurrentServices(services, "", AllCategories, 2) == filtered[5..8];
  }

  /** The whole catalog: eight services, on two pages of five and three. */
  lemma UnfilteredCatalog()
    ensures FilterServices(Catalog, "", AllCategories) == Catalog
    ensures TotalPages(|FilterServices(Catalog, "", AllCategories)|, PageSize) == 2
    ensures |CurrentServices(Catalog, "", AllCategories, 1)| == 5
    ensures |CurrentServices(Catalog, "", AllCategories, 2)| == 3
  {
    CatalogShape();
    EmptySearchKeepsAll(Catalog);
    EightServicesTwoPages(Catalog);
  }

  /** The drop-down 'plumbing' with an empty search keeps exactly the services with ids 1 and 5. */
  lemma PlumbingServices()
    ensures FilterServices(Catalog, "", OnlyCategory(Plumbing)) == [Catalog[0], Catalog[4]]
    ensures Catalog[0].id == "1" && Catalog[4].id == "5"
  {
    assert Catalog[0].category == Plumbing && Catalog[4].category == Plumbing;
    assert forall k :: 0 <= k < |Catalog| && k != 0 && k != 4 ==> Catalog[k].category != Plumbing;
    EmptySearchCategoryOfTwo(Catalog, Plumbing, 0, 4);
  }

  /** The badge colour classes of `getCategoryColor`. */
  function CategoryColor(c: ServiceCategory): string {
    match c
    case Plumbing => "bg-blue-100 text-blue-800"
    case Electrical => "bg-yellow-100 text-yellow-800"
    case Cleaning => "bg-cyan-100 text-cyan-800"
    case Carpentry => "bg-amber-100 text-amber-800"
    case Painting => "bg-violet-100 text-violet-800"
    case Gardening => "bg-green-100 text-green-800"
  }

  /** The six categories have six different colours. */
  lemma CategoryColorsDistinct(a: ServiceCategory, b: ServiceCategory)
    requires a != b
    ensures CategoryColor(a) != CategoryColor(b)
  {
  }

  /** `{service.duration} hour{service.duration > 1 ? 's' : ''}` */
  function DurationLabel(duration: nat): (text: string)
    ensures text == NatToString(duration) + " hours" <==> duration > 1
    ensures text == NatToString(duration) + " hour" <==> duration <= 1
  {
    NatToString(duration) + " " + DurationUnit(duration)
  }
}
