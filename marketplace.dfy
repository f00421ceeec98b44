/** The car marketplace: the filter record sent with every search, its
    updates (a filter change, a page change, clearing, the city from the
    URL), the normalised search response and the pagination controls. */
module Marketplace {
  import opened Common
  import CarCard

  /** A filter value: the record mixes text inputs and numbers. */
  datatype JsValue = Str(s: string) | Num(n: int)

  type Filters = map<string, JsValue>

  const PageKey: string := "page"
  const CityKey: string := "city"
  const LoadFailedMessage: string := "Failed to load cars"

  /** The record on first render, and again after "Clear filters". */
  const InitialFilters: Filters := map[
    "category" := Str(""), "transmission" := Str(""), "minPrice" := Str(""), "maxPrice" := Str(""),
    CityKey := Str(""), "seats" := Str(""), "search" := Str(""),
    PageKey := Num(1), "limit" := Num(12), "sort" := Str("-createdAt")]

  /** `handleFilterChange(key, value)`: that key takes the value and the page
      goes back to 1 (the page reset wins even when the key is `page`). */
  function FilterChange(f: Filters, key: string, value: JsValue): (r: Filters)
    ensures r.Keys == f.Keys + {key, PageKey}
    ensures r[PageKey] == Num(1)
    ensures key != PageKey ==> r[key] == value
    ensures forall k :: k in f && k != key && k != PageKey ==> r[k] == f[k]
  {
    f[key := value][PageKey := Num(1)]
  }

  /** `handlePageChange(newPage)`: only the page changes. */
  function PageChange(f: Filters, newPage: int): (r: Filters)
    ensures r.Keys == f.Keys + {PageKey}
    ensures r[PageKey] == Num(newPage)
    ensures forall k :: k in f && k != PageKey ==> r[k] == f[k]
  {
    f[PageKey := Num(newPage)]
  }

  /** `clearFilters`: the initial record, whatever the current one. */
  function ClearFilters(f: Filters): (r: Filters)
    ensures r == InitialFilters
  {
    InitialFilters
  }

  /** Clearing twice is clearing once, and a filter change after clearing
      only differs from the initial record in that key. */
  lemma ClearIdempotent(f: Filters, key: string, value: JsValue)
    requires key != PageKey
    ensures ClearFilters(ClearFilters(f)) == ClearFilters(f)
    ensures var r := FilterChange(ClearFilters(f), key, value);
            r[key] == value && forall k :: k in InitialFilters && k != key ==> r[k] == InitialFilters[k]
  {
  }

  /** The effect on mount of the URL's `city`, `pickupDate` and
      `returnDate` (`None` when absent): a truthy city replaces the city
      filter; the dates are read but not used. */
  function ApplyUrlParams(f: Filters, city: Option<string>, pickupDate: Option<string>,
                          returnDate: Option<string>): (r: Filters)
    requires CityKey in f
    ensures city.Some? && Truthy(city.value) ==> r == f[CityKey := Str(city.value)]
    ensures !(city.Some? && Truthy(city.value)) ==> r == f
  {
    var given := (city.Some? && Truthy(city.value)) || (pickupDate.Some? && Truthy(pickupDate.value)) ||
                 (returnDate.Some? && Truthy(returnDate.value));
    if given then
      f[CityKey := if city.Some? && Truthy(city.value) then Str(city.value) else f[CityKey]]
    else f
  }

  /** The pagination block of the page. */
  datatype Pagination = Pagination(total: int, totalPages: int, currentPage: int)

  const InitialPagination: Pagination := Pagination(0, 0, 1)

  /** The search endpoint's response; any field may be missing. */
  datatype SearchResponse = SearchResponse(cars: Option<seq<CarCard.Car>>, total: Option<int>,
                                           totalPages: Option<int>, currentPage: Option<int>)

  /** `n || d` on a number that may be missing. */
  function NumOr(n: Option<int>, d: int): (r: int)
    ensures n.Some? && n.value != 0 ==> r == n.value
    ensures !(n.Some? && n.value != 0) ==> r == d
  {
    if n.Some? && n.value != 0 then n.value else d
  }

  /** The pagination taken from a response: total and page count default
      to 0, the current page to 1. */
  function PaginationOf(data: SearchResponse): (p: Pagination)
    ensures p.total == NumOrZero(data.total) && p.totalPages == NumOrZero(data.totalPages)
    ensures p.currentPage == NumOr(data.currentPage, 1)
    ensures p.currentPage != 0
  {
    Pagination(NumOrZero(data.total), NumOrZero(data.totalPages), NumOr(data.currentPage, 1))
  }

  /** An empty response gives the same pagination as first render. */
  lemma EmptyResponseIsInitial()
    ensures PaginationOf(SearchResponse(None, None, None, None)) == InitialPagination
  {
  }

  /** The controls appear only when there is more than one page. */
  predicate ShowPagination(p: Pagination) {
    p.totalPages > 1
  }

  predicate PrevDisabled(p: Pagination) {
    p.currentPage == 1
  }

  predicate NextDisabled(p: Pagination) {
    p.currentPage == p.totalPages
  }

  /** The numbered buttons: always 1, 2, … up to five of them, whatever the
      current page. */
  function PageButtons(p: Pagination): (b: seq<int>)
    requires ShowPagination(p)
    ensures |b| == if p.totalPages < 5 then p.totalPages else 5
    ensures forall i :: 0 <= i < |b| ==> b[i] == i + 1
    ensures forall i :: 0 <= i < |b| ==> 1 <= b[i] <= p.totalPages
  {
    seq(if p.totalPages < 5 then p.totalPages else 5, i => i + 1)
  }

  /** From a current page within range, the enabled arrows lead to a page
      that is still within range. */
  lemma ArrowsStayInRange(p: Pagination)
    requires ShowPagination(p) && 1 <= p.currentPage <= p.totalPages
    ensures !PrevDisabled(p) ==> 1 <= p.currentPage - 1 <= p.totalPages
    ensures !NextDisabled(p) ==> 1 <= p.currentPage + 1 <= p.totalPages
    ensures PrevDisabled(p) <==> p.currentPage - 1 < 1
    ensures NextDisabled(p) <==> p.currentPage + 1 > p.totalPages
  {
  }

  /** Beyond page 5 no numbered button is the current page. */
  lemma NoButtonBeyondFive(p: Pagination)
    requires ShowPagination(p) && p.currentPage > 5
    ensures p.currentPage !in PageButtons(p)
  {
  }

  class MarketplacePage {
    var cars: seq<CarCard.Car>
    var loading: bool
    var error: Option<string>
    var filters: Filters
    var pagination: Pagination

    /** The record always holds the city and the page. */
    predicate Valid()
      reads this
    {
      CityKey in filters && PageKey in filters
    }

    constructor ()
      ensures Valid()
      ensures cars == [] && loading && error.None? && filters == InitialFilters && pagination == InitialPagination
    {
      cars := [];
      loading := true;
      error := None;
      filters := InitialFilters;
      pagination := InitialPagination;
    }

    method HandleFilterChange(key: string, value: JsValue)
      requires Valid()
      modifies this
      ensures Valid()
      ensures filters == FilterChange(old(filters), key, value)
      ensures cars == old(cars) && loading == old(loading) && error == old(error) && pagination == old(pagination)
    {
      filters := FilterChange(filters, key, value);
    }

    method HandlePageChange(newPage: int)
      requires Valid()
      modifies this
      ensures Valid()
      ensures filters == PageChange(old(filters), newPage)
      ensures cars == old(cars) && loading == old(loading) && error == old(error) && pagination == old(pagination)
    {
      filters := PageChange(filters, newPage);
    }

    method ClearAll()
      requires Valid()
      modifies this
      ensures Valid()
      ensures filters == InitialFilters
      ensures cars == old(cars) && loading == old(loading) && error == old(error) && pagination == old(pagination)
    {
      filters := ClearFilters(filters);
    }

    method InitFromUrl(city: Option<string>, pickupDate: Option<string>, returnDate: Option<string>)
      requires Valid()
      modifies this
      ensures Valid()
      ensures filters == ApplyUrlParams(old(filters), city, pickupDate, returnDate)
      ensures cars == old(cars) && loading == old(loading) && error == old(error) && pagination == old(pagination)
    {
      filters := ApplyUrlParams(filters, city, pickupDate, returnDate);
    }

    /** `fetchCars` with the search outcome as input: a response replaces
        the cars (none when missing) and the pagination; a failure keeps
        both and sets the message. Loading ends either way. */
    method FetchCars(outcome: Result<SearchResponse>)
      requires Valid()
      modifies this
      ensures Valid()
      ensures !loading && filters == old(filters)
      ensures outcome.Ok? ==> cars == outcome.value.cars.GetOr([]) &&
                              pagination == PaginationOf(outcome.value) && error.None?
      ensures outcome.Err? ==> cars == old(cars) && pagination == old(pagination) &&
                               error == Some(OrElse(outcome.message, LoadFailedMessage))
    {
      loading := true;
      error := None;
      match outcome {
        case Ok(data) =>
          cars := data.cars.GetOr([]);
          pagination := PaginationOf(data);
        case Err(m) =>
          error := Some(OrElse(m, LoadFailedMessage));
      }
      loading := false;
    }
  }
}
