/**
 * The catalog client of the DummyJSON service: four GET requests whose URLs
 * are built from the caller's arguments, and one rule for how each call
 * settles (decoded body on an ok status; an Error with a fixed message on any
 * other status; a failed fetch or an undecodable body rethrown unchanged).
 */
module ProductsApi {
  import opened JsRuntime
  import UriComponent

  const BaseUrl := "https://dummyjson.com"
  const ListPrefix := BaseUrl + "/products?limit="
  const ItemPrefix := BaseUrl + "/products/"
  const SearchPrefix := BaseUrl + "/products/search?q="
  const CategoryPrefix := BaseUrl + "/products/category/"

  datatype Dimensions = Dimensions(width: real, height: real, depth: real)

  datatype Review = Review(rating: real, comment: string, date: string, reviewerName: string, reviewerEmail: string)

  datatype Meta = Meta(createdAt: string, updatedAt: string, barcode: string, qrCode: string)

  datatype Product = Product(
    id: int, title: string, description: string, price: real, discountPercentage: real, rating: real,
    stock: int, brand: string, category: string, thumbnail: string, images: seq<string>, tags: seq<string>,
    sku: string, weight: real, dimensions: Dimensions, warrantyInformation: string,
    shippingInformation: string, availabilityStatus: string, reviews: seq<Review>, returnPolicy: string,
    minimumOrderQuantity: int, meta: Meta)

  /** One page of products, as the list, search and category endpoints return it. */
  datatype ProductsResponse = ProductsResponse(products: seq<Product>, total: int, skip: int, limit: int)

  // ---------------------------------------------------------------------------
  // URLs

  /**
   * `/products?limit=…&skip=…`: the list endpoint, from which the server reads
   * back exactly `limit` and `skip` (`ProductsUrlCarriesPage`).
   */
  function ProductsUrl(limit: int, skip: int): (url: string)
    ensures Expect(ListPrefix, url).Some?
  {
    ListPrefix + (NumberToText(limit) + ("&skip=" + NumberToText(skip)))
  }

  /** `/products/{id}`, from which the server reads back exactly `id`. */
  function ProductUrl(id: int): (url: string)
    ensures ProductIdOf(url) == Some(id)
  {
    var url := ItemPrefix + NumberToText(id);
    ReadProductId(id, url);
    url
  }

  /** `/products/search?q=` and the encoded query, from which the server reads back exactly `query`. */
  function SearchUrl(query: string): (url: string)
    ensures SearchQueryOf(url) == Some(query)
  {
    var url := SearchPrefix + UriComponent.Encode(query);
    ReadSearchQuery(query, url);
    url
  }

  /** `/products/category/` and the encoded category, from which the server reads back exactly `category`. */
  function CategoryUrl(category: string): (url: string)
    ensures CategoryOf(url) == Some(category)
  {
    var url := CategoryPrefix + UriComponent.Encode(category);
    ReadCategory(category, url);
    url
  }

  // ---------------------------------------------------------------------------
  // Calls

  /**
   * How every catalog call settles, given the reply to its request: fulfilled
   * with the decoded body of an ok response; rejected with `Error(message)` on
   * any other status, whatever the body; rejected with the very error of a
   * failed fetch or of a body that does not decode.
   */
  ghost predicate Settles<T>(r: Result<T, JsError>, reply: HttpReply<T>, message: string) {
    match reply
    case Rejected(e) => r == Failure(e)
    case Response(ok, json) => if ok then r == json else r == Failure(Error(message))
  }

  /** `fetch(url)`, the `ok` check, `response.json()`, and the catch that logs and rethrows. */
  function FetchJson<T>(url: string, fetch: Request -> HttpReply<T>, message: string): (r: Result<T, JsError>)
    ensures Settles(r, fetch(Get(url)), message)
    ensures r.Success? ==> fetch(Get(url)).Response? && fetch(Get(url)).ok
  {
    match fetch(Get(url))
    case Rejected(e) => Failure(e)
    case Response(ok, json) => if !ok then Failure(Error(message)) else json
  }

  /** `getProducts(limit, skip)`, by default the first ten products. */
  function GetProducts(fetch: Request -> HttpReply<ProductsResponse>, limit: int := 10, skip: int := 0)
    : (r: Result<ProductsResponse, JsError>)
    ensures Settles(r, fetch(Get(ProductsUrl(limit, skip))), "Failed to fetch products")
  {
    FetchJson(ProductsUrl(limit, skip), fetch, "Failed to fetch products")
  }

  /** `getProductById(id)`: a failed status names the id. */
  function GetProductById(id: int, fetch: Request -> HttpReply<Product>): (r: Result<Product, JsError>)
    ensures Settles(r, fetch(Get(ProductUrl(id))), "Failed to fetch product with ID " + NumberToText(id))
  {
    FetchJson(ProductUrl(id), fetch, "Failed to fetch product with ID " + NumberToText(id))
  }

  /** `searchProducts(query)`: the query is sent as it is given, only percent-encoded. */
  function SearchProducts(query: string, fetch: Request -> HttpReply<ProductsResponse>): (r: Result<ProductsResponse, JsError>)
    ensures Settles(r, fetch(Get(SearchUrl(query))), "Failed to search products")
  {
    FetchJson(SearchUrl(query), fetch, "Failed to search products")
  }

  /** `getProductsByCategory(category)`: a failed status names the category. */
  function GetProductsByCategory(category: string, fetch: Request -> HttpReply<ProductsResponse>)
    : (r: Result<ProductsResponse, JsError>)
    ensures Settles(r, fetch(Get(CategoryUrl(category))), "Failed to fetch products in category " + category)
  {
    FetchJson(CategoryUrl(category), fetch, "Failed to fetch products in category " + category)
  }

  // ---------------------------------------------------------------------------
  // What the server reads back from each URL

  /** The `limit` and `skip` parameters of a list URL. */
  function PageOf(url: string): Option<(int, int)> {
    var s0 :- Expect(ListPrefix, url);
    var limit :- ParseInt(s0);
    var s1 :- Expect("&skip=", limit.1);
    var skip :- ParseInt(s1);
    if skip.1 == "" then Some((limit.0, skip.0)) else None
  }

  /** The id in a single-product URL. */
  function ProductIdOf(url: string): Option<int> {
    var s0 :- Expect(ItemPrefix, url);
    var id :- ParseInt(s0);
    if id.1 == "" then Some(id.0) else None
  }

  /** The decoded `q` parameter of a search URL; None when the URL holds a second parameter or a fragment. */
  function SearchQueryOf(url: string): Option<string> {
    var q :- Expect(SearchPrefix, url);
    if '&' in q || '#' in q then None else UriComponent.Decode(q)
  }

  /** The decoded category of a category URL; None when the URL holds a further path segment or a query. */
  function CategoryOf(url: string): Option<string> {
    var segment :- Expect(CategoryPrefix, url);
    if '/' in segment || '?' in segment || '#' in segment then None else UriComponent.Decode(segment)
  }

  lemma {:induction false} ProductsUrlCarriesPage(limit: int, skip: int)
    ensures PageOf(ProductsUrl(limit, skip)) == Some((limit, skip))
  {
    var tail := "&skip=" + NumberToText(skip);
    ExpectLiteral(ListPrefix, NumberToText(limit) + tail);
    NumberTextRoundTrip(limit, tail);
    ExpectLiteral("&skip=", NumberToText(skip));
    NumberTextRoundTrip(skip, "");
    assert NumberToText(skip) + "" == NumberToText(skip);
  }

  lemma ReadProductId(id: int, url: string)
    requires url == ItemPrefix + NumberToText(id)
    ensures ProductIdOf(url) == Some(id)
  {
    ExpectLiteral(ItemPrefix, NumberToText(id));
    NumberTextRoundTrip(id, "");
    assert NumberToText(id) + "" == NumberToText(id);
  }

  /** Text made of unreserved characters and `%` holds none of the characters that delimit URL parts. */
  lemma NoDelimiter(e: string)
    requires forall i | 0 <= i < |e| :: UriComponent.Unreserved(e[i]) || e[i] == '%'
    ensures '&' !in e && '#' !in e && '/' !in e && '?' !in e
  {
    forall i | 0 <= i < |e|
      ensures e[i] != '&' && e[i] != '#' && e[i] != '/' && e[i] != '?'
    {
      assert UriComponent.Unreserved(e[i]) || e[i] == '%';
    }
  }

  /** The encoded query holds no `&` or `#`, so it stays one parameter and decodes back to itself. */
  lemma ReadSearchQuery(query: string, url: string)
    requires url == SearchPrefix + UriComponent.Encode(query)
    ensures SearchQueryOf(url) == Some(query)
  {
    var e := UriComponent.Encode(query);
    ExpectLiteral(SearchPrefix, e);
    NoDelimiter(e);
    UriComponent.DecodeEncode(query);
    assert Expect(SearchPrefix, url) == Some(e);
  }

  /** The encoded category holds no `/`, `?` or `#`, so it stays one path segment and decodes back to itself. */
  lemma ReadCategory(category: string, url: string)
    requires url == CategoryPrefix + UriComponent.Encode(category)
    ensures CategoryOf(url) == Some(category)
  {
    var e := UriComponent.Encode(category);
    ExpectLiteral(CategoryPrefix, e);
    NoDelimiter(e);
    UriComponent.DecodeEncode(category);
    assert Expect(CategoryPrefix, url) == Some(e);
  }
}
