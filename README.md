# Session and catalog core of a React Native shop client

This project models the logic of a small mobile client. The client logs a user in against the DummyJSON
identity service and keeps the session in a two-key persistent store. It then lets the user browse and
search the DummyJSON product catalog. The model covers five parts:

- **Session manager** (`AuthContext.AuthProvider`). This is a class with the four in-memory fields
  `isLoggedIn`, `isLoading`, `error` and `userData`, plus the persistent store as a `map<string, string>`.
  It has three methods: restore on start, `login` and `logout`. Each method follows the try/catch/finally
  paths of the source and sets its exact error strings. Two things are inputs chosen by the caller:
  - the identity service's reply;
  - which store call throws, if any (`StoreFault`).
- **Authentication client** (`DummyJsonApi.Login`). This is a pure mapping from the reply to a request to a
  `LoginResponse`. The reply is one of: an ok response, a failed response, a body that is not JSON, or no
  response at all. The model also covers the request the client sends, whose JSON body carries exactly the
  credentials.
- **Catalog client** (`ProductsApi`). It builds the URLs of the four endpoints, percent-encoding the search
  query and the category with `encodeURIComponent`. It also fixes how each call settles. The model proves
  that the server reads back from each URL exactly the page, id, query or category it was given.
- **Product list screen** (`ProductListScreen.ProductList`). This is a class with the screen's state, its
  load, search and refresh handlers, and the rule that picks the spinner, the error panel or the grid.
- **Login screen** (`LoginScreen.LoginForm`). It holds the trimmed-presence guard and the failure alert.

The source calls foreign functions: `fetch`, `AsyncStorage`, `JSON.stringify`/`JSON.parse`,
`encodeURIComponent` and `String.prototype.trim`. These are handled as follows:

- `fetch` is a parameter: a function from the request to its reply.
- The store is a map, and a `StoreFault` says which call, if any, throws.
- The JSON, URI-encoding and trimming functions are written out for the values the core passes to them.
  - The JSON and URI-encoding functions each have a proved inverse: `JSON.parse(JSON.stringify(user))` gives
    the user back, and `decodeURIComponent(encodeURIComponent(s))` gives `s` back.
  - Trimming has no inverse. Its contract instead characterises the result: the infix of the input between
    its leading and trailing white space.

The encoding follows section 18.2.6.5 of ECMA-262, 6th edition. Trimming uses the white space and line
terminators of sections 11.2 and 11.3.

Every asynchronous operation is modelled as one atomic step that ends when its last awaited call settles.
Where a screen shows something while a request is pending, the model records it in `pendingView`.

Behaviour worth knowing:

- **Restore and an unreadable user record.** A stored user record that does not parse makes restore report
  "Failed to restore login session".
- **Failed logout.** A logout whose store removal throws keeps the user logged in in memory.
- **Interrupted logout.** The token is removed first. An interrupted logout therefore leaves the user record
  without its token, not a token without its record.
- **Interrupted login.** A login whose second store write throws stores its new token next to whatever user
  record the store already held. After an interrupted logout, that is the previous user's record, so the
  next start restores the previous user (`AuthContext.LoginOverStaleRecord`).
- **Logout and the error.** A successful logout does not clear an earlier error.
- **Blank credentials.** They are refused only by the login screen. The session manager's `login` sends
  whatever it is given.
- **Blank search.** A blank search loads the screen's own first page, 20 products from offset 0. It does not
  use the catalog client's default of 10.

## Model

| member | source | states |
|---|---|---|
| JsRuntime.Trim | src/screens/LoginScreen.tsx:19 | `s.trim()` is the infix of `s` between a run of leading and a run of trailing white space; it starts and ends with a non-space, and is empty exactly when `s` is white space throughout |
| JsRuntime.NumberToText | src/services/ProductsApiService.ts:69 | the text a `${n}` interpolation writes for an integer reads back as that integer |
| JsRuntime.NumberTextRoundTrip | src/services/ProductsApiService.ts:68-69 | the decimal text an integer is interpolated as reads back as that integer, whatever non-digit text follows |
| Json.QuoteRoundTrip | src/services/DummyJsonApiService.ts:35-38 | a string written by `JSON.stringify` parses back to the same string, leaving whatever text follows |
| Json.EscapeRoundTrip | src/services/DummyJsonApiService.ts:35-38 | the escaped body of a JSON string literal reads back as the original characters up to the closing quote |
| UriComponent.Encode | src/services/ProductsApiService.ts:111 | `encodeURIComponent` output holds only unreserved characters and `%`, so it never adds `/`, `?`, `&`, `=` or `#` to the URL |
| UriComponent.Utf8Valid | src/services/ProductsApiService.ts:111 | the UTF-8 bytes of each character form one valid, shortest sequence that decodes to that character |
| UriComponent.DecodeEncode | src/services/ProductsApiService.ts:111 | decoding an encoded component gives the original text back, for every string |
| UriComponent.EncodeInjective | src/services/ProductsApiService.ts:133 | distinct categories or queries are sent as distinct URL components |
| DummyJsonApi.Login | src/services/DummyJsonApiService.ts:28-65 | the response has a user exactly when it has no error; an ok response with a decodable body gives the user copied field by field from the body and the token `data.token`, or `data.accessToken` when that is falsy; a failed status gives only the error `data.message`, or "Login failed" when that is falsy; no response or an undecodable body (parsed before the status is looked at) gives only "Network error occurred"; an error is never empty and never comes with a token |
| DummyJsonApi.CredentialsJson | src/services/DummyJsonApiService.ts:35-38 | `JSON.stringify({ username, password })` is a JSON object, never empty; what it carries is stated by CredentialsRoundTrip |
| DummyJsonApi.LoginRequest | src/services/DummyJsonApiService.ts:30-39 | the request is a POST to `/auth/login` with the JSON content type and a body; what the body carries is stated by CredentialsRoundTrip |
| DummyJsonApi.CredentialsRoundTrip | src/services/DummyJsonApiService.ts:30-39 | the POST body to `/auth/login` carries exactly the username and the password, whatever characters they hold |
| UserJson.SerializeUser | src/context/AuthContext.tsx:67 | `JSON.stringify(response.user)` is a JSON object and never empty, so restore finds it truthy; that it parses back is stated by UserRoundTrip |
| UserJson.ParseUser | src/context/AuthContext.tsx:36 | the restore reads only a JSON object that opens with its `id` member and closes with `}`; anything else counts as a parse failure |
| UserJson.UserRoundTrip | src/context/AuthContext.tsx:65-68 | the user record written to the store parses back to the same user, with or without an image |
| ProductsApi.ProductsUrl | src/services/ProductsApiService.ts:69 | the URL addresses the product list endpoint; what it carries is stated by ProductsUrlCarriesPage |
| ProductsApi.ProductsUrlCarriesPage | src/services/ProductsApiService.ts:68-69 | the server reads back exactly the `limit` and `skip` given |
| ProductsApi.ProductUrl | src/services/ProductsApiService.ts:90 | the server reads back exactly the id given |
| ProductsApi.SearchUrl | src/services/ProductsApiService.ts:111 | the server reads back exactly the query given, as a single `q` parameter |
| ProductsApi.CategoryUrl | src/services/ProductsApiService.ts:133 | the server reads back exactly the category given, as a single path segment |
| ProductsApi.FetchJson | src/services/ProductsApiService.ts:67-80 | each call resolves with the decoded body of an ok response, fails with `Error(message)` on any other status, and rethrows a fetch or decoding error unchanged; it yields data only from an ok response |
| ProductsApi.GetProducts | src/services/ProductsApiService.ts:66-81 | `GET /products?limit=…&skip=…`, by default 10 and 0; a failed status fails with "Failed to fetch products" |
| ProductsApi.GetProductById | src/services/ProductsApiService.ts:88-101 | `GET /products/{id}`; a failed status fails with "Failed to fetch product with ID " and the id |
| ProductsApi.SearchProducts | src/services/ProductsApiService.ts:108-123 | `GET /products/search?q=` and the encoded query; a failed status fails with "Failed to search products" |
| ProductsApi.GetProductsByCategory | src/services/ProductsApiService.ts:130-145 | `GET /products/category/` and the encoded category; a failed status fails with "Failed to fetch products in category " and the category |
| AuthContext.GetItem | src/context/AuthContext.tsx:32-33 | `getItem` gives the stored value of a key that is present and null for one that is not |
| AuthContext.RestoreOutcome | src/context/AuthContext.tsx:30-46 | a session is restored exactly when neither read throws, both stored values are present and non-empty and the user record parses, and then it is the parsed user; no session (and no error) exactly when neither read throws and a value is missing or empty |
| AuthContext.RestoreAfterLogin | src/context/AuthContext.tsx:62-68 | a store written by a successful login restores exactly the user that logged in |
| AuthContext.RestoreWithoutToken | src/context/AuthContext.tsx:35 | a store without a token restores no session and no error, whatever user record it holds |
| AuthContext.LoginError | src/context/AuthContext.tsx:62-80 | a login leaves no error exactly when the reply has a truthy token and a user and no store write throws; otherwise a non-empty error |
| AuthContext.AuthProvider.constructor | src/context/AuthContext.tsx:23-26 | logged out, loading, no error, no user, over the persisted store |
| AuthContext.AuthProvider.CheckLoginStatus | src/context/AuthContext.tsx:30-46 | a restored session sets the user and logs in; no session changes nothing; a throwing read or an unparsable record sets "Failed to restore login session" and leaves the session; loading ends false and the store is unchanged |
| AuthContext.AuthProvider.Login | src/context/AuthContext.tsx:52-84 | clears the error first; with a token and a user, stores the token and then the serialised user, sets the user, logs in and returns true; without them returns false with the client's error or "Login failed" and changes nothing else; a throwing write returns false with "An unexpected error occurred", the second storing the new token next to whatever user record the store held; returns true exactly when the error ends cleared; loading ends false |
| AuthContext.AuthProvider.Logout | src/context/AuthContext.tsx:86-99 | removes the token and then the user record, then clears the user and logs out, keeping any earlier error; a throwing removal sets "Failed to logout" and keeps the in-memory session, the second leaving the user record without its token; loading ends false |
| AuthContext.RestoreOnStart | src/context/AuthContext.tsx:23-49 | at start the user ends logged in exactly when a session is restored, with that user; an error exactly when the restore fails; loading always ends |
| AuthContext.LoginSurvivesRestart | src/context/AuthContext.tsx:62-72 | after a successful login, a new provider over the same store restores the same user, logged in, with no error |
| AuthContext.RestoreThenLogout | src/context/AuthContext.tsx:86-92 | restore followed by a logout leaves neither key in the store, whatever it held, and every other key as it was |
| AuthContext.InterruptedLogout | src/context/AuthContext.tsx:88-95 | a logout whose second removal throws keeps the user logged in in memory with "Failed to logout"; a restart over the store then finds no session and no error |
| AuthContext.LoginOverStaleRecord | src/context/AuthContext.tsx:62-68 | after a logout interrupted at its second removal, a login whose second write throws fails but leaves its token next to the previous user's record, and the next start restores the previous user |
| ProductListScreen.Render | src/screens/ProductListScreen.tsx:104-136 | the spinner shows exactly when loading and not refreshing; otherwise the error panel with the message when the error is truthy, and the grid of the products when not |
| ProductListScreen.Settle | src/screens/ProductListScreen.tsx:27-30 | a settled request leaves no error exactly when it succeeded, and then its products; a failed one keeps the products and reports the screen's message |
| ProductListScreen.ProductList.View | src/screens/ProductListScreen.tsx:129-135 | the error panel only ever shows one of the screen's two messages |
| ProductListScreen.ProductList.constructor | src/screens/ProductListScreen.tsx:16-20 | no products, loading, no error, empty query, not refreshing: the spinner shows |
| ProductListScreen.ProductList.SetSearchQuery | src/screens/ProductListScreen.tsx:119 | only the query changes |
| ProductListScreen.ProductList.LoadProducts | src/screens/ProductListScreen.tsx:23-36 | clears the error, requests 20 products from offset 0, replaces the products on success or sets "Failed to load products. Please try again." and keeps them on failure; loading and refreshing end false; the spinner shows while pending unless refreshing |
| ProductListScreen.ProductList.HandleSearch | src/screens/ProductListScreen.tsx:38-55 | a blank query behaves as a load and sends no search; any other query is sent untrimmed, a failure sets "Search failed. Please try again." and keeps the products, and refreshing is left as it was |
| ProductListScreen.ProductList.Search | src/screens/ProductListScreen.tsx:44-54 | the search request of `handleSearch`: clears the error, sends the query as typed, replaces the products on success or sets "Search failed. Please try again." and keeps them on failure; loading ends false and refreshing is left as it was |
| ProductListScreen.ProductList.HandleRefresh | src/screens/ProductListScreen.tsx:57-60 | a load during which the current list stays on screen |
| ProductListScreen.MountLoadsFirstPage | src/screens/ProductListScreen.tsx:66-68 | on mount the screen asks for limit 20, skip 0 and ends with the grid of what came back or the load error |
| ProductListScreen.SearchSendsTypedQuery | src/screens/ProductListScreen.tsx:38-47 | a non-blank query reaches the server exactly as typed, surrounding spaces included; a blank one asks for the first page |
| ProductListScreen.FailedSearchThenRetry | src/screens/ProductListScreen.tsx:44-54 | a failed search shows its error while keeping the loaded products; a successful retry shows the fresh page |
| ProductListScreen.RefreshKeepsListVisible | src/screens/ProductListScreen.tsx:57-60 | while a refresh is pending the list stays on screen, where a plain load shows the spinner |
| LoginScreen.CanSubmit | src/screens/LoginScreen.tsx:19 | the form is submitted exactly when both fields hold a character other than white space |
| LoginScreen.FailureAlert | src/screens/LoginScreen.tsx:25-27 | an alert "Login Failed" with the error shown exactly when the login failed and that error is truthy |
| LoginScreen.LoginForm.constructor | src/screens/LoginScreen.tsx:14-15 | the form starts with username "kminchelle" and password "0lelplR" |
| LoginScreen.LoginForm.SetUsername | src/screens/LoginScreen.tsx:39 | only the username changes |
| LoginScreen.LoginForm.SetPassword | src/screens/LoginScreen.tsx:51 | only the password changes |
| LoginScreen.LoginForm.HandleLogin | src/screens/LoginScreen.tsx:16-28 | blank credentials raise "Username and password are required" and do not call login; otherwise login is called with the untrimmed fields, the session and the store end as that login leaves them, loading ends, and the alert depends on the error the screen was rendered with |
| LoginScreen.LoginForm.HandleLoginReportingOutcome | src/screens/LoginScreen.tsx:18-28 | the intended handler: blank credentials raise "Username and password are required"; otherwise the session and the store end as the login leaves them, loading ends, every failed login raises an alert with the error that login left, and a successful one raises none |
| LoginScreen.StaleErrorAlert | src/screens/LoginScreen.tsx:16-27 | on a fresh screen a refused login raises no alert as written, and a second failure shows the first one's message |
| LoginScreen.EachFailureAlerted | src/screens/LoginScreen.tsx:18-28 | through the intended handler the same two failed logins each raise an alert with their own message |

## Left out

- Async interleaving is not modelled. Overlapping `login` calls, a search started during a refresh, and the
  un-awaited `loadProducts` inside `handleSearch` are all outside the model, because each operation is one
  atomic step.
- `console.error` logging is left out: it has no effect on state.
- `Alert.alert` display is left out; the model only returns which alert is raised.
- JSX, styles, navigation and the `isLoading` spinner on the login button are presentation and are left out.
- LoginScreen.LoginForm: keeps what was typed across login attempts. In the app, AppNavigator.tsx:15-21
  replaces the whole navigator with a spinner while `isLoading` is true. Each login attempt therefore
  remounts the login screen, and its fields return to the demo credentials.
- `useAuth`'s throw outside a provider is React context mechanics and is not modelled.
- `handleProductPress` (ProductListScreen.tsx:62-64) is navigation and is not modelled.
- HomeScreen.tsx, AppNavigator.tsx, App.tsx and ProductDetailScreen.tsx are not part of this model. They
  hold presentation, floating-point formatting, and a fetch-state pattern that ProductListScreen already
  shows.
- `response.json()` is not modelled as a parser. Each reply carries its decoded body, or a failure that
  stands for a body that is not JSON. The login body's identity fields are assumed present. A body missing
  one of them would give `undefined` fields in the source.
- Product prices, ratings and weights are `real`. Floating-point arithmetic and formatting are not modelled.
- ProductsApi.ProductsUrl: only integer `limit`, `skip` and `id` are modelled. A fractional number is outside
  the model.
- JsRuntime.NumberToText: writes every integer in plain decimal digits. JavaScript writes integers of
  magnitude 10^21 or more in exponent form (`1e+21`), and holds integers exactly only up to 2^53. For such
  integers the model's URLs and the `id` in the stored user record (`UserJson.SerializeUser`) differ from the
  app's.
- AuthContext.AuthProvider.CheckLoginStatus: the stored user record is read by a parser that accepts only the
  layout `JSON.stringify` writes for a user. Any other text counts as a parse failure. `JSON.parse` would
  accept other valid JSON (such as `null`) and log in with it as the user.
- AuthContext.StoreFault: a fault at any call numbered 2 or higher has no effect. No operation makes more than
  two store calls.
- Json.Escape: lone surrogates are not modelled. Dafny strings hold only Unicode scalar values, so the
  `\uXXXX` escapes `JSON.stringify` writes for lone surrogates never arise. For the same reason
  `encodeURIComponent` never throws in this model.

## Findings

| source | as written | input that shows it | evidently intended | confidence | as-written member | corrected member |
|---|---|---|---|---|---|---|
| src/screens/LoginScreen.tsx:16-27 | after `await login(...)` the handler tests the `error` captured when the screen last rendered, not the error that login set | a fresh screen where the server refuses the demo credentials with "Invalid credentials": no alert is raised; a second attempt that fails with "Network error occurred" then alerts "Invalid credentials" | every failed login raises "Login Failed" with the error of that attempt | likely; not executed | LoginScreen.LoginForm.HandleLogin, LoginScreen.StaleErrorAlert | LoginScreen.LoginForm.HandleLoginReportingOutcome, LoginScreen.EachFailureAlerted |
