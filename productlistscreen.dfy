/**
 * The product list screen: the products on show, the loading and refreshing
 * flags, the error banner and the search box, and the three handlers that
 * fetch from the catalog (the load on mount and on retry, the search, the
 * pull-to-refresh). Each handler runs as one step that ends when its request
 * settles; what the screen shows while the request is pending is recorded in
 * `pendingView`.
 */
module ProductListScreen {
  import opened JsRuntime
  import opened ProductsApi

  const LoadError := "Failed to load products. Please try again."
  const SearchError := "Search failed. Please try again."

  /** The page the screen always asks for, whatever the catalog client's default. */
  const PageLimit := 20

  /** What the screen renders: a full-screen spinner, the error banner with a retry button, or the grid. */
  datatype View = Spinner | ErrorPanel(message: string) | ProductGrid(items: seq<Product>)

  /** The render decision, from the screen's state. */
  function Render(products: seq<Product>, loading: bool, error: Option<string>, refreshing: bool): (v: View)
    ensures v.Spinner? <==> loading && !refreshing
    ensures v.ErrorPanel? ==> Truthy(error) && v.message == error.value
    ensures v.ProductGrid? ==> v.items == products && !Truthy(error)
    ensures !(loading && !refreshing) && Truthy(error) ==> v.ErrorPanel?
  {
    if loading && !refreshing then Spinner
    else if Truthy(error) then ErrorPanel(error.value)
    else ProductGrid(products)
  }

  /**
   * The products and the error once a request has settled: a fulfilled request
   * replaces the products and leaves no error; a rejected one keeps the products
   * and reports `message`.
   */
  function Settle(products: seq<Product>, result: Result<ProductsResponse, JsError>, message: string)
    : (r: (seq<Product>, Option<string>))
    ensures r.1.None? <==> result.Success?
    ensures result.Success? ==> r.0 == result.value.products
    ensures result.Failure? ==> r == (products, Some(message))
  {
    match result
    case Success(response) => (response.products, None)
    case Failure(_) => (products, Some(message))
  }

  class ProductList {
    var products: seq<Product>
    var loading: bool
    var error: Option<string>
    var searchQuery: string
    var refreshing: bool
    /** The URLs of the catalog requests made, in order: the screen's outward trace. */
    var requested: seq<string>
    /** What the screen showed while its last request was pending. */
    var pendingView: View

    /** The only errors the screen ever shows are its own two messages. */
    ghost predicate Valid()
      reads this
    {
      error == None || error == Some(LoadError) || error == Some(SearchError)
    }

    /** What the screen renders now; the error panel only ever carries one of the screen's two messages. */
    function View(): (v: View)
      reads this
      ensures Valid() && v.ErrorPanel? ==> v.message == LoadError || v.message == SearchError
    {
      Render(products, loading, error, refreshing)
    }

    /** The screen as first rendered: no products, loading, nothing typed. */
    constructor ()
      ensures Valid()
      ensures products == [] && loading && error == None && searchQuery == "" && !refreshing
      ensures requested == [] && View() == Spinner
    {
      products := [];
      loading := true;
      error := None;
      searchQuery := "";
      refreshing := false;
      requested := [];
      pendingView := Spinner;
    }

    /** The search box's `onChangeText`. */
    method SetSearchQuery(text: string)
      modifies this
      ensures searchQuery == text
      ensures products == old(products) && loading == old(loading) && error == old(error)
      ensures refreshing == old(refreshing) && requested == old(requested) && pendingView == old(pendingView)
    {
      searchQuery := text;
    }

    /**
     * `loadProducts`: asks for the first twenty products. While pending, the
     * spinner shows unless a refresh is under way, in which case the list stays.
     * Settling ends both the loading and the refreshing state.
     */
    method LoadProducts(fetch: Request -> HttpReply<ProductsResponse>)
      requires Valid()
      modifies this
      ensures Valid()
      ensures requested == old(requested) + [ProductsUrl(PageLimit, 0)]
      ensures pendingView == (if old(refreshing) then ProductGrid(old(products)) else Spinner)
      ensures (products, error) == Settle(old(products), GetProducts(fetch, PageLimit, 0), LoadError)
      ensures !loading && !refreshing && searchQuery == old(searchQuery)
      ensures View() == if error == None then ProductGrid(products) else ErrorPanel(LoadError)
    {
      loading := true;
      error := None;
      pendingView := View();
      requested := requested + [ProductsUrl(PageLimit, 0)];
      var response := GetProducts(fetch, PageLimit, 0);
      if response.Success? {
        products := response.value.products;
      } else {
        error := Some(LoadError);
      }
      loading := false;
      refreshing := false;
    }

    /**
     * `handleSearch`: a query that is empty after trimming reloads the first
     * page instead; any other query is sent as typed, untrimmed.
     */
    method HandleSearch(fetch: Request -> HttpReply<ProductsResponse>)
      requires Valid()
      modifies this
      ensures Valid()
      ensures !loading && searchQuery == old(searchQuery)
      ensures IsBlank(old(searchQuery)) ==>
        && requested == old(requested) + [ProductsUrl(PageLimit, 0)]
        && pendingView == (if old(refreshing) then ProductGrid(old(products)) else Spinner)
        && (products, error) == Settle(old(products), GetProducts(fetch, PageLimit, 0), LoadError)
        && !refreshing
      ensures !IsBlank(old(searchQuery)) ==>
        && requested == old(requested) + [SearchUrl(old(searchQuery))]
        && pendingView == (if old(refreshing) then ProductGrid(old(products)) else Spinner)
        && (products, error) == Settle(old(products), SearchProducts(old(searchQuery), fetch), SearchError)
        && refreshing == old(refreshing)
    {
      if IsBlank(searchQuery) {
        LoadProducts(fetch);
      } else {
        Search(fetch);
      }
    }

    /**
     * The search request of `handleSearch`: clears the error, replaces the
     * products on success or sets "Search failed. Please try again." and keeps
     * them on failure. Settling leaves the refreshing flag as it was.
     */
    method Search(fetch: Request -> HttpReply<ProductsResponse>)
      requires Valid()
      modifies this
      ensures Valid()
      ensures !loading && searchQuery == old(searchQuery) && refreshing == old(refreshing)
      ensures requested == old(requested) + [SearchUrl(old(searchQuery))]
      ensures pendingView == (if old(refreshing) then ProductGrid(old(products)) else Spinner)
      ensures (products, error) == Settle(old(products), SearchProducts(old(searchQuery), fetch), SearchError)
    {
      loading := true;
      error := None;
      pendingView := View();
      requested := requested + [SearchUrl(searchQuery)];
      var response := SearchProducts(searchQuery, fetch);
      if response.Success? {
        products := response.value.products;
      } else {
        error := Some(SearchError);
      }
      loading := false;
    }

    /** `handleRefresh`: a load of the first page that keeps the current list on screen while pending. */
    method HandleRefresh(fetch: Request -> HttpReply<ProductsResponse>)
      requires Valid()
      modifies this
      ensures Valid()
      ensures requested == old(requested) + [ProductsUrl(PageLimit, 0)]
      ensures pendingView == ProductGrid(old(products))
      ensures (products, error) == Settle(old(products), GetProducts(fetch, PageLimit, 0), LoadError)
      ensures !loading && !refreshing && searchQuery == old(searchQuery)
    {
      refreshing := true;
      LoadProducts(fetch);
    }
  }

  /**
   * On mount the screen asks for twenty products from the start of the
   * catalog, and ends showing either the grid of what came back or the load
   * error, never the spinner.
   */
  method MountLoadsFirstPage(fetch: Request -> HttpReply<ProductsResponse>)
    returns (url: string, view: View)
    ensures PageOf(url) == Some((20, 0))
    ensures GetProducts(fetch, 20, 0).Success? ==> view == ProductGrid(GetProducts(fetch, 20, 0).value.products)
    ensures GetProducts(fetch, 20, 0).Failure? ==> view == ErrorPanel(LoadError)
  {
    var screen := new ProductList();
    screen.LoadProducts(fetch);
    url := screen.requested[0];
    ProductsUrlCarriesPage(20, 0);
    view := screen.View();
  }

  /**
   * A search whose query is not blank reaches the server as exactly the text
   * typed, surrounding spaces included; a blank one asks for the first page.
   */
  method SearchSendsTypedQuery(query: string, fetch: Request -> HttpReply<ProductsResponse>)
    returns (url: string)
    ensures !IsBlank(query) ==> SearchQueryOf(url) == Some(query)
    ensures IsBlank(query) ==> PageOf(url) == Some((20, 0))
  {
    var screen := new ProductList();
    screen.SetSearchQuery(query);
    screen.HandleSearch(fetch);
    url := screen.requested[0];
    if IsBlank(query) {
      ProductsUrlCarriesPage(20, 0);
    }
  }

  /**
   * A failed search after a successful load shows the search error while
   * keeping the loaded products for when the error clears; a retry that
   * succeeds then shows the fresh page.
   */
  method FailedSearchThenRetry(query: string, fetch: Request -> HttpReply<ProductsResponse>,
                               failing: Request -> HttpReply<ProductsResponse>)
    returns (afterSearch: View, keptProducts: seq<Product>, afterRetry: View)
    requires !IsBlank(query)
    requires GetProducts(fetch, 20, 0).Success?
    requires SearchProducts(query, failing).Failure?
    ensures afterSearch == ErrorPanel(SearchError)
    ensures keptProducts == GetProducts(fetch, 20, 0).value.products
    ensures afterRetry == ProductGrid(GetProducts(fetch, 20, 0).value.products)
  {
    var screen := new ProductList();
    screen.LoadProducts(fetch);
    screen.SetSearchQuery(query);
    screen.HandleSearch(failing);
    afterSearch, keptProducts := screen.View(), screen.products;
    screen.LoadProducts(fetch);
    afterRetry := screen.View();
  }

  /** Pulling to refresh keeps the list on screen while the request is pending, where a plain load shows the spinner. */
  method RefreshKeepsListVisible(fetch: Request -> HttpReply<ProductsResponse>)
    returns (whileLoading: View, whileRefreshing: View)
    requires GetProducts(fetch, 20, 0).Success?
    ensures whileLoading == Spinner
    ensures whileRefreshing == ProductGrid(GetProducts(fetch, 20, 0).value.products)
  {
    var screen := new ProductList();
    screen.LoadProducts(fetch);
    whileLoading := screen.pendingView;
    screen.HandleRefresh(fetch);
    whileRefreshing := screen.pendingView;
  }
}
