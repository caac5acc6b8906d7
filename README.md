# Paginated user-list client: a Dafny model

This project models the logic of a small iOS client that pages through a REST
collection of users. It covers five parts of that client:

- **Response classification** (`api_agent.dfy`, module `APIAgent`). One HTTP exchange becomes exactly one
  `CustomResult<APIResponse<T>>`. The cases are: not an HTTP response; a 2xx status whose body
  decodes, or fails to decode in one of five ways; a 401; any other status. The page count comes
  from the `x-pagination-pages` header, parsed as Swift's `Int(String)` does (`decimal.dfy`).
- **Request building** (`url_request.dfy`, module `URLRequestExtension`). It covers the
  multipart/form-data body, the query items of the URL, and the choice of method, headers and body.
  The multipart body uses the part layout of section 4.2 of RFC 7578 and the delimiter lines of
  section 5.1.1 of RFC 2046.
- **The user endpoint** (`user_endpoint.dfy`, module `UserEndpoints`). `getUsers(page:)` maps a page
  number to an endpoint descriptor.
- **The pagination manager** (`pagination.dfy`, module `Pagination`). This is a class holding a
  `PaginationState` record and an append-only item list. It has a guard that admits one request at
  a time and a completion handler that merges a page.
- **The view model** (`user_list_view_model.dfy`, module `UserListViewModels`). It decides when to
  fetch and tells its delegate about the result.

The shared declarations (HTTP method, body mode, parameter encoding, endpoint descriptor, media
record) are in `endpoint.dfy`. `Option` and `Result` are in `wrappers.dfy`.

Modelling choices:

- The parameter dictionary `[String: Any]` is a sequence of key/value pairs with a closed value
  type: string, integer or array of strings. The sequence order stands for the dictionary's
  iteration order, and every property is stated against that sequence.
- JSON decoding is foreign code, so the classifier takes its outcomes as inputs:
  - the payload decode (a value, or one of dataCorrupted, keyNotFound, valueNotFound, typeMismatch,
    other);
  - the `ErrorResponse` decode (a value, or the failure's description);
  - the header's value as Foundation looks it up.
- The manager's completion handler consumes `CustomResult<[T]>`: an optional page, or an error.
  The model takes that page outcome as the input to `PaginationManager.Complete` and never reads
  `totalPages`. The agent delivers `CustomResult<APIResponse<T>>` instead (`APIAgent.swift:29-30`),
  so their types do not match at the call in `Pagination.swift:48`.
- `loadNextPage` is asynchronous, so it is two methods:
  - `LoadNextPage` runs the guard, sets `isLoading`, and returns the endpoint descriptor the
    factory builds for the current page;
  - `Complete` is the completion handler.
  `Complete` does not require a request in flight, because a `reset` can come before a late
  completion and the code does not guard against that.
- In the view model, every queue hop is immediate and sequential. The network's one outcome is a
  parameter, and the delegate calls are recorded in `notifications`.
- Bytes and text are both `seq<char>`: one character per byte of media data.

Three behaviours of the code worth noting:

- There is no total-page bound. `hasMorePages` is only ever set to true (`Pagination.swift:20`,
  `Pagination.swift:59`), so `canLoadMore` is exactly "not loading".
- A successful outcome without a payload clears `isLoading`; it does not leave the manager loading.
  The caller's completion is not invoked.
- In the 401 and default branches the fallback error has an empty `errorCode`, not "1001".

## Model

| member | source | states |
|---|---|---|
| `Endpoint.RawValue` | UIKitPaginationDemo/Network/Endpoint.swift:12-17 | Each HTTP method's raw value is a non-empty upper-case word |
| `Endpoint.RawValueInjective` | UIKitPaginationDemo/Network/Endpoint.swift:12-17 | Raw values are unique: two methods have the same raw value exactly when they are the same method |
| `Decimal.NatText` | UIKitPaginationDemo/Extensions/URLRequestExtension.swift:80 | The decimal text of a natural number is a non-empty run of digits with no leading zero |
| `Decimal.ParseInt` | UIKitPaginationDemo/Network/APIAgent.swift:70 | `Int(text)` yields only values within 64-bit `Int` range, and only for text that holds a digit |
| `Decimal.NatTextRoundTrip` | UIKitPaginationDemo/Extensions/URLRequestExtension.swift:80 | Reading back the digits written for n gives n |
| `Decimal.IntText` | UIKitPaginationDemo/Extensions/URLRequestExtension.swift:80 | `String(describing:)` of an `Int`: a leading minus exactly for negatives, followed by a non-empty run of digits |
| `Decimal.IntTextRoundTrip` | UIKitPaginationDemo/Network/APIAgent.swift:70 | `Int(String(describing: n))` is n when n fits in `Int`, and nil otherwise |
| `Decimal.ParseIntRejectsNonDigit` | UIKitPaginationDemo/Network/APIAgent.swift:70 | Text with a character that is neither a digit nor a leading sign does not parse |
| `APIAgent.TotalPages` | UIKitPaginationDemo/Network/APIAgent.swift:70 | An absent header gives no page count; a present one gives an `Int`-range value or none |
| `APIAgent.ProcessDataResponse` | UIKitPaginationDemo/Network/APIAgent.swift:60-128 | Non-HTTP gives failure (0, "", "", "unknown!!"). Success holds exactly for a 2xx status with a decoded body, and carries the model and the header's page count. A 2xx decode failure gives the HTTP status, code "1001", "Unexpected Error: 1001" and the decoder's diagnostic. Any other status returns a decoded server error unchanged; otherwise the HTTP status, the decode failure's description, an empty code and "Unexpected Error: 1001" |
| `APIAgent.DecodeFailureContextByKind` | UIKitPaginationDemo/Network/APIAgent.swift:81-99 | The diagnostic per failure kind: the context's description for dataCorrupted, "Key '…' not found: …", "Value '…' not found: …", "Type '…' mismatch: …", and the error's description otherwise |
| `APIAgent.UnauthorizedLikeOtherStatus` | UIKitPaginationDemo/Network/APIAgent.swift:105-126 | The 401 branch gives the same result as the default branch for every input |
| `APIAgent.SuccessCarriesPayload` | UIKitPaginationDemo/Network/APIAgent.swift:73-80 | A success always carries a payload; the agent never delivers an empty success |
| `APIAgent.TotalPagesFromHeader` | UIKitPaginationDemo/Network/APIAgent.swift:70-79 | For a decoded 2xx body, `totalPages` is n when the header is the decimal text of an in-range n. It is none when the header is absent, empty, a lone sign, the text of an n outside `Int` range, or holds a character that is neither a digit nor a leading sign |
| `URLRequestExtension.CreateDataBody` | UIKitPaginationDemo/Extensions/URLRequestExtension.swift:30-49 | The two loops build exactly all parameter parts, then all media parts, then the close delimiter; every parameter value must be a string |
| `URLRequestExtension.ParameterPartsStep` | UIKitPaginationDemo/Extensions/URLRequestExtension.swift:34-38 | Each parameter k=v adds exactly `--B\r\nContent-Disposition: form-data; name="k"\r\n\r\nv\r\n` after the earlier ones |
| `URLRequestExtension.MediaPartsStep` | UIKitPaginationDemo/Extensions/URLRequestExtension.swift:40-46 | Each media item adds its delimiter, disposition with filename, content type, blank line, raw data and line break after the earlier ones |
| `URLRequestExtension.ParameterPartsAppend` | UIKitPaginationDemo/Extensions/URLRequestExtension.swift:34-38 | Parameter parts keep the parameters' order across any split of the sequence |
| `URLRequestExtension.MediaPartsAppend` | UIKitPaginationDemo/Extensions/URLRequestExtension.swift:40-46 | Media parts keep the input order across any split of the sequence |
| `URLRequestExtension.MultipartBodyEndsWithClosing` | UIKitPaginationDemo/Extensions/URLRequestExtension.swift:47-48 | The body always ends with `--B--\r\n` |
| `URLRequestExtension.MultipartSingleParts` | UIKitPaginationDemo/Extensions/URLRequestExtension.swift:32-48 | One parameter gives exactly its part, one media item exactly its part, and no parameters and no media give exactly `--B--\r\n` |
| `URLRequestExtension.MakeQueryItems` | UIKitPaginationDemo/Extensions/URLRequestExtension.swift:73-84 | The loop produces exactly the in-order expansion of all parameters into query items |
| `URLRequestExtension.AppendStringItems` | UIKitPaginationDemo/Extensions/URLRequestExtension.swift:76-78 | The inner loop appends one item per string of an array value, named by the key, in order |
| `URLRequestExtension.MakeURLComponents` | UIKitPaginationDemo/Extensions/URLRequestExtension.swift:63-85 | Query items are set only for url-encoded request parameters that exist, and are then the expansion of the parameters in order; the path is appended only when non-empty |
| `URLRequestExtension.StringItemsAt` | UIKitPaginationDemo/Extensions/URLRequestExtension.swift:75-78 | An array of strings gives one item per element, under the same key, in element order |
| `URLRequestExtension.ExpandQueryItemsCount` | UIKitPaginationDemo/Extensions/URLRequestExtension.swift:73-84 | The number of items is the sum of the contributions: the array length for an array value, one for any other value |
| `URLRequestExtension.ExpandQueryItemsNames` | UIKitPaginationDemo/Extensions/URLRequestExtension.swift:74-82 | Every query item is named after one of the parameter keys |
| `URLRequestExtension.MakeRequest` | UIKitPaginationDemo/Extensions/URLRequestExtension.swift:11-28 | The request carries the base URL, the path component only when the path is non-empty, the query items, the method's raw value, every header pair in order and the chosen body |
| `URLRequestExtension.BodySelection` | UIKitPaginationDemo/Extensions/URLRequestExtension.swift:22-27 | A JSON body exactly for json-encoded request parameters that exist, holding those parameters. A multipart body exactly for an upload with media. Otherwise no body. Query items and a body never go together |
| `UserEndpoints.GetUsersDescriptor` | UIKitPaginationDemo/Network/Endpoints/UserEndpoint.swift:13-49 | For every page: base URL "https://gorest.co.in", path "public/v2/users", GET, the single parameter ("page", page), url-encoded request parameters, no headers, no media |
| `UserEndpoints.GetUsersRequest` | UIKitPaginationDemo/Network/Endpoints/UserEndpoint.swift:39-45 | The page travels as the one query item ("page", decimal text of page), which parses back to the page; there are no headers and no body, and the method is "GET" |
| `UserEndpoints.GetUsersInjective` | UIKitPaginationDemo/Network/Endpoints/UserEndpoint.swift:28-33 | Different pages give different endpoints |
| `UserListViewModels.UserPage` | UIKitPaginationDemo/Source/UserList/ViewModel/UserListViewModel.swift:50-51 | The endpoint factory handed to the manager gives, for each page, a GET of `public/v2/users` with the single url-encoded parameter page |
| `Pagination.FlattenLength` | UIKitPaginationDemo/Network/Pagination.swift:56-57 | The accumulated list is as long as the sum of the merged page lengths |
| `Pagination.FlattenConcat` | UIKitPaginationDemo/Network/Pagination.swift:56 | Merging pages in two runs accumulates the same list as merging them in one run |
| `Pagination.FlattenSnoc` | UIKitPaginationDemo/Network/Pagination.swift:56 | Merging a page appends it, in server order, after everything accumulated |
| `Pagination.SettleWithPage` | UIKitPaginationDemo/Network/Pagination.swift:55-60 | A delivered page is appended in server order and counted, the page number advances, more pages stay on offer, and the caller receives the whole accumulated list |
| `Pagination.SettleWithFailure` | UIKitPaginationDemo/Network/Pagination.swift:51-63 | A failure only clears `isLoading`: page, count and items stay put, and the caller receives the error |
| `Pagination.SettleWithoutPayload` | UIKitPaginationDemo/Network/Pagination.swift:51-55 | A success without a payload only clears `isLoading`, and the caller's completion is not invoked |
| `Pagination.RetryAsksSamePage` | UIKitPaginationDemo/Network/Pagination.swift:45-58 | After a failed or empty load the manager is idle again at the same page number, so the next load asks for the same page |
| `Pagination.PaginationManager.constructor` | UIKitPaginationDemo/Network/Pagination.swift:25-31 | A new manager is in the initial state with no items and keeps its page size |
| `Pagination.PaginationManager.CurrentItems` | UIKitPaginationDemo/Network/Pagination.swift:33 | The current items are all merged pages in order, and there are `itemCount` of them |
| `Pagination.PaginationManager.CanLoadMore` | UIKitPaginationDemo/Network/Pagination.swift:34 | Since `hasMorePages` stays true, loading is allowed exactly when no request is in flight |
| `Pagination.PaginationManager.Reset` | UIKitPaginationDemo/Network/Pagination.swift:36-39 | From any state: page 1, not loading, more pages, count 0, no items |
| `Pagination.PaginationManager.LoadNextPage` | UIKitPaginationDemo/Network/Pagination.swift:41-46 | A refused call (a request in flight) changes nothing and makes no request. An admitted one sets `isLoading` and requests the factory's endpoint for the current page; items are untouched |
| `Pagination.PaginationManager.Complete` | UIKitPaginationDemo/Network/Pagination.swift:51-64 | The new state, items and merged pages are the settled ones for the outcome (see the `Settle…` lemmas), what the caller receives is the delivered result, and the invariant (count = number of items, items = merged pages in order, page = 1 + merges) is kept |
| `UserListViewModels.CompletionNotifications` | UIKitPaginationDemo/Source/UserList/ViewModel/UserListViewModel.swift:52-63 | An uninvoked completion (a success without a payload) makes no delegate call. An invoked one makes exactly one result call, last, preceded only by the end of loading of an initial fetch; it reports success exactly when a page was delivered and passes a failure's error on unchanged |
| `UserListViewModels.DeliveryFollowsOutcome` | UIKitPaginationDemo/Source/UserList/ViewModel/UserListViewModel.swift:52-63 | Reacting to what the manager hands the completion gives the same delegate calls as reacting to the page outcome itself |
| `UserListViewModels.LoadingNotificationsOnlyInitially` | UIKitPaginationDemo/Source/UserList/ViewModel/UserListViewModel.swift:46-56 | Loading-state notifications come only from the initial fetch: true first and, when the completion runs, false before the result |
| `UserListViewModels.UserListViewModel.constructor` | UIKitPaginationDemo/Source/UserList/ViewModel/UserListViewModel.swift:28 | A new view model owns a fresh manager in the initial state |
| `UserListViewModels.UserListViewModel.Users` | UIKitPaginationDemo/Source/UserList/ViewModel/UserListViewModel.swift:33 | The users are exactly the manager's accumulated items |
| `UserListViewModels.UserListViewModel.IsEmpty` | UIKitPaginationDemo/Source/UserList/ViewModel/UserListViewModel.swift:34 | Empty exactly when the manager's item count is zero |
| `UserListViewModels.UserListViewModel.FetchNextPage` | UIKitPaginationDemo/Source/UserList/ViewModel/UserListViewModel.swift:41-66 | A fetch is made exactly when the manager is not loading; otherwise manager and delegate calls are unchanged. A fetch requests the current page, leaves the manager in the settled state, items and pages for the outcome, and makes exactly the fetch's delegate calls |
| `UserListViewModels.UserListViewModel.Fetch` | UIKitPaginationDemo/Source/UserList/ViewModel/UserListViewModel.swift:44-65 | The dispatched block: announces an initial load, requests the current page, and leaves the manager in the settled state, items and pages for the outcome with exactly the fetch's delegate calls |
| `UserListViewModels.UserListViewModel.Notify` | UIKitPaginationDemo/Source/UserList/ViewModel/UserListViewModel.swift:53-63 | The completion appends the end of loading (initial fetch only) and then the delivered news; an uninvoked completion appends nothing |
| `UserListViewModels.UserListViewModel.FetchInitialData` | UIKitPaginationDemo/Source/UserList/ViewModel/UserListViewModel.swift:36-39 | After the reset page 1 is always requested; the manager ends in the settled state for the outcome starting from the initial state (so not loading, and holding just the first page if one arrived), and the delegate gets the initial fetch's calls |
| `UserListViewModels.UserListViewModel.LoadMoreIfNeeded` | UIKitPaginationDemo/Source/UserList/ViewModel/UserListViewModel.swift:69-72 | A fetch is made exactly when the displayed row is the last one (row = count − 1) and no load is in flight; then state, items, pages and delegate calls are those of a non-initial fetch, and otherwise nothing changes |

## Left out

- The agent's `run` (`APIAgent.swift:37-58`) is not modelled: it is URLSession I/O and main-queue dispatch. Its one delivered result is a parameter. Its transport-error branch has no `return`, so an error that arrives together with response data would reach the completion twice; the model does not capture that.
- JSON decoding (`JSONDecoder`) and JSON serialisation (`JSONSerialization`) are foreign library calls. Decode outcomes are inputs, and the JSON body is kept as the parameter list it serialises.
- Looking up the header by name is case-insensitive Foundation code. Its result is an input.
- Foundation URL handling (`URL`, `appendingPathComponent`, percent-encoding, the forced unwraps of `URLComponents` and `url`) is left out. The model keeps the base URL, the path component and the list of query items.
- Logging (`print`, `log()`, `prettyPrintedJSONString`) is output only.
- `addValue(_:forHTTPHeaderField:)` joins values of header names that differ only in case. The model lists the header pairs as added.
- Text appended to the multipart body is kept as its characters. Its UTF-8 encoding and the `Data.append(String)` helper are not part of this model.
- `Media`'s initialiser encodes a UIImage as JPEG. Only the key/filename/data/mimeType record is modelled.
- `NetworkError` (`Endpoint.swift:41-45`) is never used.
- `PaginationManager.Complete`: the counters `itemCount` and `currentPage` are unbounded integers. Swift's `+=` on `Int` traps on overflow (`Pagination.swift:57-58`); the model does not capture that trap, which would need more than 2^63 items or pages.
- The manager's own `[weak self]` capture and `guard let self` (`Pagination.swift:48-49`) drop the completion once the manager is gone. The model's manager always outlives its requests.
- The view model's delegate is always attached. The model does not cover a `nil` delegate or the `[weak self]` captures that turn a call into nothing once the object is gone.
- Queue hops are concurrency. Each dispatch runs immediately, in order.
- UI code (view controllers, cells, loading indicator) is not part of this model.
