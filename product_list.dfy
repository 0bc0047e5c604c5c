/**
 * The paginated product list: the products of the current page, the page
 * number, the page count reported by the server, and the state of the page
 * fetch. The fetch handler and the Previous / Next / numbered-page handlers
 * become methods of `ListState`; the page-number list, the disabled flags,
 * the record mapping and the choice of view are functions.
 */
module ProductList {
  import opened Types
  import Decimal

  /** Number of products requested per page (the `limit` query parameter). */
  const PageLimit: int := 6

  const FetchProductsError: string := "Failed to fetch products"

  /** A product record as the paginated endpoint returns it (price as text). */
  datatype ProductRecord = ProductRecord(id: int, name: string, price: string, createdAt: string)

  /** The `detail` part of a page response. */
  datatype PageResponse = PageResponse(data: seq<ProductRecord>, page: int, pages: int, total: int)

  /** The query of one page request. */
  datatype PageRequest = PageRequest(page: int, limit: int)

  /** What the list renders: the spinner, the error banner alone, or the
      product cards together with the pagination controls. */
  datatype ListView =
    | Spinner
    | ErrorBanner(message: string)
    | Grid(cards: seq<Product>, pageButtons: seq<int>, current: int, previousDisabled: bool, nextDisabled: bool)

  /** The Previous handler's page update. */
  function PreviousPage(page: int): (r: int)
    ensures r >= 1
    ensures page >= 2 ==> r == page - 1
    ensures page <= 1 ==> r == 1
  {
    if page - 1 > 1 then page - 1 else 1
  }

  /** The Next handler's page update. */
  function NextPage(page: int, totalPages: int): (r: int)
    ensures r <= totalPages
    ensures page < totalPages ==> r == page + 1
    ensures page >= totalPages ==> r == totalPages
  {
    if page + 1 < totalPages then page + 1 else totalPages
  }

  /** Previous is disabled exactly on the page where clicking it would not
      change the page. */
  predicate PreviousDisabled(currentPage: int)
    ensures PreviousDisabled(currentPage) <==> PreviousPage(currentPage) == currentPage
  {
    currentPage == 1
  }

  /** Next is disabled exactly on the page where clicking it would not
      change the page. */
  predicate NextDisabled(currentPage: int, totalPages: int)
    ensures NextDisabled(currentPage, totalPages) <==> NextPage(currentPage, totalPages) == currentPage
  {
    currentPage == totalPages
  }

  /** With at least one page, Previous and Next keep a page that lies in
      `[1, totalPages]` inside that range. */
  lemma NavigationStaysInRange(page: int, totalPages: int)
    requires 1 <= page <= totalPages
    ensures 1 <= PreviousPage(page) <= totalPages
    ensures 1 <= NextPage(page, totalPages) <= totalPages
  {
  }

  /** With a page count of 0, Next from the first page leads to page 0,
      outside every page button. */
  lemma NextWithoutPages()
    ensures NextPage(1, 0) == 0 && !NextDisabled(1, 0)
    ensures PageNumbers(0) == []
  {
  }

  /** The numbered buttons: `1, 2, ..., totalPages`, none when the count is
      not positive. */
  function PageNumbers(totalPages: int): (r: seq<int>)
    ensures |r| == if totalPages > 0 then totalPages else 0
    ensures forall i :: 0 <= i < |r| ==> r[i] == i + 1
    decreases totalPages
  {
    if totalPages <= 0 then [] else PageNumbers(totalPages - 1) + [totalPages]
  }

  /** A page has a button exactly when it lies in `[1, totalPages]`, and the
      buttons ascend strictly. */
  lemma PageButtonsCoverRange(totalPages: int, page: int)
    ensures page in PageNumbers(totalPages) <==> 1 <= page <= totalPages
    ensures forall i, j :: 0 <= i < j < |PageNumbers(totalPages)| ==> PageNumbers(totalPages)[i] < PageNumbers(totalPages)[j]
  {
    var r := PageNumbers(totalPages);
    if 1 <= page <= totalPages {
      assert r[page - 1] == page;
    }
  }

  /** One fetched record in the client shape: the numeric id becomes its
      decimal string, which reads back as the server id, the price text goes
      through `parseFloat`, and name and creation time are copied. */
  function ToProduct(rec: ProductRecord, parseFloat: string -> real): (p: Product)
    ensures p.id == Decimal.DecimalString(rec.id) && Decimal.ParseInt(p.id) == rec.id
    ensures p.name == rec.name && p.createdAt == Some(rec.createdAt)
    ensures p.price == parseFloat(rec.price)
  {
    Decimal.DecimalRoundTrip(rec.id);
    Product(Decimal.DecimalString(rec.id), rec.name, parseFloat(rec.price), Some(rec.createdAt))
  }

  /** The `map` over the fetched records, in order. */
  function MapRecords(records: seq<ProductRecord>, parseFloat: string -> real): (ps: seq<Product>)
    ensures |ps| == |records|
    ensures forall i :: 0 <= i < |ps| ==> ps[i] == ToProduct(records[i], parseFloat)
    decreases |records|
  {
    if records == [] then []
    else MapRecords(records[..|records| - 1], parseFloat) + [ToProduct(records[|records| - 1], parseFloat)]
  }

  /** Records with distinct ids give products with distinct ids, so the ids
      stay usable as card keys. */
  lemma {:induction false} MapRecordsKeepsIdsDistinct(records: seq<ProductRecord>, parseFloat: string -> real)
    requires forall i, j :: 0 <= i < j < |records| ==> records[i].id != records[j].id
    ensures forall i, j :: 0 <= i < j < |records| ==>
      MapRecords(records, parseFloat)[i].id != MapRecords(records, parseFloat)[j].id
  {
    var ps := MapRecords(records, parseFloat);
    forall i, j | 0 <= i < j < |records|
      ensures ps[i].id != ps[j].id
    {
      assert ps[i].id == Decimal.DecimalString(records[i].id);
      assert ps[j].id == Decimal.DecimalString(records[j].id);
      Decimal.DecimalStringInjective(records[i].id, records[j].id);
    }
  }

  /** Which view is rendered: loading first, then error, then the grid with
      its pagination controls. */
  function ViewOf(products: seq<Product>, currentPage: int, totalPages: int, isLoading: bool, error: Option<string>): (v: ListView)
    ensures v == Spinner <==> isLoading
    ensures v.ErrorBanner? <==> !isLoading && Truthy(error)
    ensures v.ErrorBanner? ==> v.message == error.value
    ensures v.Grid? <==> !isLoading && !Truthy(error)
    ensures v.Grid? ==> v.cards == products && v.pageButtons == PageNumbers(totalPages) && v.current == currentPage
    ensures v.Grid? ==> (v.previousDisabled <==> currentPage == 1) && (v.nextDisabled <==> currentPage == totalPages)
  {
    if isLoading then Spinner
    else if Truthy(error) then ErrorBanner(error.value)
    else Grid(products, PageNumbers(totalPages), currentPage, PreviousDisabled(currentPage), NextDisabled(currentPage, totalPages))
  }

  class ListState {
    var products: seq<Product>
    var currentPage: int
    var totalPages: int
    var isLoading: bool
    var error: Option<string>

    constructor ()
      ensures products == [] && currentPage == 1 && totalPages == 1
      ensures !isLoading && error == None
    {
      products := [];
      currentPage := 1;
      totalPages := 1;
      isLoading := false;
      error := None;
    }

    /** The first half of the page fetch: loading starts, the error is
        cleared and the request for `page` is issued. */
    method BeginFetch(page: int) returns (request: PageRequest)
      modifies this`isLoading, this`error
      ensures isLoading && error == None
      ensures request.page == page && request.limit == PageLimit
    {
      isLoading := true;
      error := None;
      request := PageRequest(page, PageLimit);
    }

    /** The second half of the page fetch: on success the mapped records and
        the server's page count replace the old ones, on failure the error is
        set and both stay; loading ends either way. */
    method ResolveFetch(outcome: FetchOutcome<PageResponse>, parseFloat: string -> real)
      modifies this`products, this`totalPages, this`error, this`isLoading
      ensures products == if outcome.Fetched? then MapRecords(outcome.payload.data, parseFloat) else old(products)
      ensures totalPages == if outcome.Fetched? then outcome.payload.pages else old(totalPages)
      ensures error == if outcome.Fetched? then old(error) else Some(FetchProductsError)
      ensures !isLoading
    {
      match outcome {
        case Fetched(response) =>
          products := MapRecords(response.data, parseFloat);
          totalPages := response.pages;
        case FetchFailed =>
          error := Some(FetchProductsError);
      }
      isLoading := false;
    }

    method Previous()
      modifies this`currentPage
      ensures currentPage == PreviousPage(old(currentPage))
    {
      currentPage := PreviousPage(currentPage);
    }

    method Next()
      modifies this`currentPage
      ensures currentPage == NextPage(old(currentPage), totalPages)
    {
      currentPage := NextPage(currentPage, totalPages);
    }

    /** A click on the numbered button `page`. */
    method SelectPage(page: int)
      modifies this`currentPage
      ensures currentPage == page
    {
      currentPage := page;
    }

    function View(): ListView
      reads this
    {
      ViewOf(products, currentPage, totalPages, isLoading, error)
    }
  }

  /** A first fetch reports two pages, button 2 is clicked, and the fetch
      of page 2 fails: the error banner alone is shown, with no cards and no
      pagination controls. */
  method FailedPageScenario() returns (view: ListView, request: PageRequest)
    ensures request == PageRequest(2, PageLimit)
    ensures view == ErrorBanner(FetchProductsError)
  {
    var list := new ListState();
    var first := list.BeginFetch(list.currentPage);
    var record := ProductRecord(7, "Widget", "100.00", "2024-01-01");
    list.ResolveFetch(Fetched(PageResponse([record], 1, 2, 7)), _ => 100.0);
    assert list.View().Grid? && list.View().pageButtons == [1, 2];
    list.SelectPage(list.View().pageButtons[1]);
    request := list.BeginFetch(list.currentPage);
    list.ResolveFetch(FetchFailed, _ => 0.0);
    view := list.View();
  }
}
