# MWShop data-fetching core in Dafny

This project models the data-fetching engine of the MWShop mobile shop, plus
the pure utilities around it. It proves properties of that model. The parts
modelled are:

- **`usePagination`** (module `Pagination`, class `Paginator`). This is the
  infinite-scroll controller. It holds the list state, two guards against
  duplicate requests, a retry loop of three attempts, and a load-more merge
  that drops products whose id is already listed.
- **`useApi`** (module `UseApi`, class `ApiHook`). This is the generic request
  hook: the same retry-3 loop over a `{data, loading, error}` record.
- **`apiClient`** (module `Client`, class `ApiClient`). These are the axios
  interceptors:
  - the request side injects the bearer token;
  - the response side evicts credentials on the first 401;
  - a request that got no response is re-sent, at most three times.
- **`getProducts` / `searchProducts`** (module `ProductService`). This is the
  envelope decoder. It accepts the nested or flat products envelope and
  rejects anything else.
- **`getErrorMessage` / `handleError`** (module `ErrorHandler`). This is the
  decision table from "was there a response / what did the API say / which
  status" to a user message.
- **The form validators** (module `Validation`) and **the display
  formatters** (module `Formatters`).

Shared modules:

- `Wrappers` holds `Option`/`Result`.
- `Json` holds the response bodies, JavaScript property reads and truthiness.
- `Text` holds JavaScript whitespace and `trim`, ASCII digits, `toString`,
  `padStart` and filtering.
- `Seqs` holds repetition.
- `Messages` holds the application strings of `src/constants/strings.ts`.

Modelling choices:

- Each `await` is one sequential step, and the 500 ms waits are no-ops.
- Each collaborator that cannot be seen is an oracle stored in the class:
  - the fetch function handed to `usePagination`;
  - the function passed to `request`;
  - the network.
- An oracle is a fixed script of outcomes, read one per call. Past the end
  of the script every call fails. The class also keeps a log of the calls
  made, so the contracts can say which calls happened.
- The retry loops of the two hooks and the re-send loop of the client are
  `while` loops in methods. Each method is proved equal to a recursive
  specification function (`Attempts`, `Tries`, `Dispatch`), and the lemmas
  state the promised properties about that function. The array `filter`
  and `map` calls of the merge and the digit filter of the phone formatter
  are recursive functions (`Unseen`, `Ids`, `Text.Filter`).
- The storage wrapper is the `store` map of the client.
- `Date` values come in as their calendar fields or as elapsed
  milliseconds; the clock stays outside.

Three behaviours of the code deserve note:

- **401 during a pagination fetch.** A 401 is one more rejected attempt for
  the controller. It is retried like any other rejection. The state that
  results carries the fixed "Không thể tải sản phẩm" message, not the
  unauthorized message.
- **Duplicate ids.** Ids are deduplicated only against the list already
  shown. Duplicates inside one page stay (`Pagination.InPageDuplicatesKept`),
  and a replacing fetch takes the page as it is. So "no duplicate ids"
  holds only when each page has unique ids (`Pagination.MergeUnique`).
- **Re-sends after no response.** A request that gets no response is sent
  up to four times: the first send and three re-sends. The `_retry` marker
  does not stop these re-sends; it only guards the 401 eviction.

## Model

| member | source | states |
|---|---|---|
| Pagination.Unseen | src/hooks/usePagination.ts:84-89 | the page filtered against known ids is no longer than the page and holds exactly the page's products whose id is not known |
| Pagination.UnseenCounts | src/hooks/usePagination.ts:87-89 | the filter keeps each product of the page with its multiplicity when its id is unknown, and drops it entirely otherwise |
| Pagination.Merge | src/hooks/usePagination.ts:82-90 | the load-more merge keeps the old list as an unchanged prefix; what follows is exactly the page's products whose id was not listed |
| Pagination.MergeInServerOrder | src/hooks/usePagination.ts:87-90 | the merge keeps server order: the new products of a page made of two parts are those of the first part, then those of the second, both checked against the old list's ids only |
| Pagination.UnseenUnique | src/hooks/usePagination.ts:87-89 | filtering a page with unique ids leaves unique ids |
| Pagination.MergeUnique | src/hooks/usePagination.ts:82-90 | if the old list and the page each have unique ids, so does the merged list |
| Pagination.MergeIds | src/hooks/usePagination.ts:82-90 | the ids of the merged list are the ids of the old list together with those of the page: no id is lost |
| Pagination.InPageDuplicatesKept | src/hooks/usePagination.ts:84-90 | two products of one page with the same id both stay |
| Pagination.OverlappingPagesScenario | src/hooks/usePagination.ts:82-90 | page [1, 2] followed by page [2, 3] lists [1, 2, 3] |
| Pagination.OverlappingPagesThroughController | src/hooks/usePagination.ts:44-139 | driven through the hook's `fetchData` and `loadMore`, page [1, 2] then page [2, 3] ends with the list [1, 2, 3], no more pages, and exactly the requests for pages 1 and 2 at 25 per page |
| Pagination.InFlight | src/hooks/usePagination.ts:64-69 | while a request is outstanding exactly one loading flag is set, `loadingMore` is the kind of fetch, the error is cleared, and list, page and `hasMore` are kept |
| Pagination.Succeed | src/hooks/usePagination.ts:76-103 | the success updater clears both flags and the error and makes the page current; `hasMore` is true only when `has_more` is true; a load-more's list is the merge of the old list with the page's products, a replacing load's list is the page's products |
| Pagination.LoadMoreMerges | src/hooks/usePagination.ts:76-101 | a load-more success keeps the old list in front, then adds each product of the page as often as the page holds it unless its id is already listed; the ids are the union of both, unique ids stay unique, and `hasMore` follows `has_more ?? false` |
| Pagination.GiveUp | src/hooks/usePagination.ts:112-117 | the failure updater sets the fixed message and clears both flags, keeping list, page and `hasMore` |
| Pagination.FetchSpec | src/hooks/usePagination.ts:44-130 | a fetch makes at most three calls; one that called either ends with the error set or has made the page current and recorded it as merged |
| Pagination.Attempts | src/hooks/usePagination.ts:57-126 | the retry loop makes at least one and at most three calls |
| Pagination.AttemptsOutcome | src/hooks/usePagination.ts:57-126 | every call before the last was rejected; a resolved last call applies the success updater and records the page; a rejected last call is the third and gives up with the page guard unchanged |
| Pagination.StepResolved | src/hooks/usePagination.ts:62-107 | a resolved attempt ends the loop with the success updater applied to the in-flight state of that attempt |
| Pagination.StepGiveUp | src/hooks/usePagination.ts:109-119 | a rejected third attempt ends the loop with the failure updater applied to the in-flight state |
| Pagination.StepRetry | src/hooks/usePagination.ts:109-125 | a rejected first or second attempt goes on to the next attempt |
| Pagination.GuardsSkipFetch | src/hooks/usePagination.ts:47-55 | no call is made exactly when a request is in flight or a load-more asks for a page at or below the last page merged; then state and both guards are unchanged |
| Pagination.GiveUpAfterThreeRejections | src/hooks/usePagination.ts:108-120 | a running fetch gives up exactly when all three calls are rejected; it then sets the fixed message, clears both flags and keeps list, page, `hasMore` and the page guard |
| Pagination.SucceedOnFirstResolved | src/hooks/usePagination.ts:71-107 | the first resolved call among the first three decides: the page becomes current and is recorded as merged, both flags and the error are cleared |
| Pagination.FetchKeepsInvariant | src/hooks/usePagination.ts:44-130 | after a fetch the flags are never both set, the page guard is 0 or the current page, at most three calls were made, and a fetch that called leaves nothing loading |
| Pagination.ReplaceWholesale | src/hooks/usePagination.ts:76-77 | a replacing success shows exactly the page's products, `[]` when `products` is missing; `hasMore` is true only when `has_more` is true |
| Pagination.Paginator.constructor | src/hooks/usePagination.ts:29-42 | the defaults are per page 25 and initial page 1; the initial state is loading with an empty list; both guards are cleared |
| Pagination.Paginator.FetchData | src/hooks/usePagination.ts:44-130 | `fetchData` changes state, guards, call log and in-flight log exactly as the specification function of the guards and the retry loop says, and keeps the invariant |
| Pagination.Paginator.RetryLoop | src/hooks/usePagination.ts:57-127 | the `while` loop ends in the state of `Attempts`; the fetch function is called once per attempt with `{page, per_page}` |
| Pagination.Paginator.StartAttempt | src/hooks/usePagination.ts:62-74 | an attempt shows the in-flight state and makes the next call of the fetch function |
| Pagination.Paginator.FinishAttempt | src/hooks/usePagination.ts:79-126 | an attempt settles on a resolved call or on the third rejection; otherwise it clears the in-flight flag and goes round again |
| Pagination.Paginator.Resolve | src/hooks/usePagination.ts:79-106 | the success updater is applied, the page is recorded as merged, and the in-flight flag is cleared |
| Pagination.Paginator.Fail | src/hooks/usePagination.ts:112-118 | the failure updater is applied and the in-flight flag is cleared |
| Pagination.Paginator.BeginAttempt | src/hooks/usePagination.ts:62-74 | the in-flight flag is set, the in-flight state is shown and logged, and the fetch function is called with `{page, per_page}` |
| Pagination.Paginator.CallFetchFunction | src/hooks/usePagination.ts:71-74 | one call is logged with its parameters and answered by the next outcome of the script |
| Pagination.Paginator.LoadMore | src/hooks/usePagination.ts:132-139 | nothing changes without more pages or while loading more; otherwise this is `fetchData(currentPage + 1, true)`, which calls the fetch function when nothing is in flight |
| Pagination.Paginator.Refresh | src/hooks/usePagination.ts:141-144 | the page guard is reset to 0, then `fetchData(initialPage, false)` runs |
| Pagination.Paginator.Reset | src/hooks/usePagination.ts:146-157 | the initial state is restored, both guards are cleared, and no call is made |
| UseApi.Loading | src/hooks/useApi.ts:30 | each attempt sets `loading`, clears the error and keeps `data` |
| UseApi.ApiArgs | src/hooks/useApi.ts:32-33 | the arguments passed on are those after `args[0]` |
| UseApi.Tries | src/hooks/useApi.ts:25-63 | the request loop runs at least one and at most three attempts |
| UseApi.TriesOutcome | src/hooks/useApi.ts:28-60 | every attempt before the last threw; a returned last invocation is the result and the data; otherwise the result is null after three attempts |
| UseApi.NullAfterThreeFailures | src/hooks/useApi.ts:44-55 | `request` returns null exactly when none of the first three invocations returned, or `args[0]` is not a function; the state is then `{null, false, the fixed message}` |
| UseApi.FirstAnswerIsResult | src/hooks/useApi.ts:35-43 | the first returned invocation is returned and becomes `data`, with `loading` and `error` cleared |
| UseApi.RequestSettles | src/hooks/useApi.ts:37-55 | after `request` nothing is loading; `data` is the result; there is an error exactly when there is no result; at most three invocations were made |
| UseApi.ApiHook.constructor | src/hooks/useApi.ts:17-21 | the initial record is `{data: null, loading: false, error: null}` |
| UseApi.ApiHook.Request | src/hooks/useApi.ts:24-64 | the result, the state, the invocation log and the in-flight log are those of `Tries` |
| UseApi.ApiHook.Attempt | src/hooks/useApi.ts:29-59 | one pass shows the loading state, invokes `args[0]` with the rest when it is a function, and settles or goes round again |
| UseApi.ApiHook.Invoke | src/hooks/useApi.ts:35 | one invocation is logged with its arguments and answered by the script |
| UseApi.ApiHook.Reset | src/hooks/useApi.ts:66-72 | `reset` restores the initial record |
| UseApi.ApiHook.SetData | src/hooks/useApi.ts:74-76 | `setData` changes `data` and nothing else |
| Client.WithAuth | src/api/client.ts:19-32 | the request interceptor keeps url, params and both markers, and changes nothing without a truthy token |
| Client.BearerHeader | src/api/client.ts:21-25 | `Authorization` is `Bearer <token>` exactly when a non-empty token is stored; every other header is kept |
| Client.EvictRemovesExactlyCredentials | src/api/client.ts:62-63 | eviction removes exactly `auth_token` and `user_data` and keeps every other entry with its value |
| Client.Settle | src/api/client.ts:41-90 | a reply resolves exactly when it is 2xx, with that response; a rejection carries the response if there was one, and its configuration is marked `_retry` exactly when it was already marked or this is its first 401 |
| Client.Evict | src/api/client.ts:62-63 | after eviction no token and no user data are stored, and every remaining entry is as it was |
| Client.Dispatch | src/api/client.ts:19-91 | a request makes at least one send and at most one more than its re-sends left |
| Client.DispatchReplies | src/api/client.ts:76-84 | the request is sent again only after replies that carried no response |
| Client.DispatchSends | src/api/client.ts:21-84 | send `i` is the intercepted first configuration with `_retryCount` raised by `i` |
| Client.ReauthUnchanged | src/api/client.ts:21-25 | running the request interceptor again on a re-sent configuration changes nothing |
| Client.DispatchSettles | src/api/client.ts:41-91 | the last reply decides the outcome: 2xx resolves; a first 401 marks `_retry`, evicts and rejects; anything else rejects as it came |
| Client.DispatchStops | src/api/client.ts:59-90 | the last send keeps the `_retry` mark of the first; it is not followed by another because it got a response or used up the re-sends |
| Client.AtMostFourSends | src/api/client.ts:76-88 | no request is sent more than four times |
| Client.NoResponseGivesUpAfterThreeResends | src/api/client.ts:76-90 | a fresh request that never gets a response is sent exactly four times and is rejected without a response; the store is unchanged |
| Client.SuccessPassesThrough | src/api/client.ts:41-48 | the request resolves exactly when the last reply is 2xx, with that response unchanged and the store untouched |
| Client.CredentialsEvictedOnFirst401 | src/api/client.ts:59-74 | the store changes only by evicting the credentials, and only on a 401 to a request not yet marked; the rejection then carries the `_retry` mark; 403, 500 and other statuses change nothing |
| Client.MarkedRequestKeepsStore | src/api/client.ts:59 | a request already marked `_retry` never evicts |
| Client.AnsweredSendsOnce | src/api/client.ts:59-90 | a first reply with a response settles the request with that one send: no status causes a re-send |
| Client.HeadersOnEverySend | src/api/client.ts:13-25 | every send of a fresh request carries the default headers, and carries `Authorization: Bearer <token>` exactly when a non-empty token is stored |
| Client.ApiClient.constructor | src/api/client.ts:10-17 | the client starts with the given store and network script, and nothing sent |
| Client.ApiClient.Request | src/api/client.ts:19-91 | the result, the store and the log of sends are those of `Dispatch` |
| Client.ApiClient.Round | src/api/client.ts:19-91 | one pass through the interceptors settles the request as `Dispatch` does, or marks it for a re-send with fewer re-sends left |
| Client.ApiClient.Intercept | src/api/client.ts:20-31 | the request interceptor computes `WithAuth` from the current store |
| Client.ApiClient.Send | src/api/client.ts:84 | one send is logged and answered by the network script |
| Client.ApiClient.EvictCredentials | src/api/client.ts:62-63 | the two `removeItem` calls leave the store evicted |
| Client.ApiClient.RemoveItem | src/api/client.ts:62 | one key is removed from the store |
| ProductService.Decode | src/api/services/productService.ts:16-36 | an accepted body holds a products array; only a null body is a `TypeError`; every other rejection is the validation error "Thử lại" |
| ProductService.Receive | src/api/services/productService.ts:13-39 | a client error is rethrown unchanged, and a response body is decoded |
| ProductService.NestedTakesPrecedence | src/api/services/productService.ts:18-28 | when `body.data` is an object or array, only it decides the outcome |
| ProductService.NestedWithoutProductsRejected | src/api/services/productService.ts:21-27 | a nested object without products is rejected even when the top level has a products array |
| ProductService.FlatEnvelopeAccepted | src/api/services/productService.ts:30-32 | without a nested object, a top-level products array accepts the body itself |
| ProductService.DecodeAcceptsExactlyTwoShapes | src/api/services/productService.ts:16-36 | a body decodes exactly when it has one of the two envelope shapes; a malformed body never becomes an empty page |
| ProductService.EnvelopesAgree | src/api/services/productService.ts:18-32 | the nested and the flat envelope of the same products decode to the same value |
| ProductService.EmptyPageAccepted | src/api/services/productService.ts:30-32 | an empty products array is accepted |
| ProductService.GetProducts | src/api/services/productService.ts:10-40 | the result is the decoder applied to the client's `GET /home` with `{page, per_page}`; store and send log are those of the client |
| ProductService.SearchProducts | src/api/services/productService.ts:55-92 | the result is the same decoder on `GET /search` with `q`, `per_page` and `page` |
| ErrorHandler.ApiMessage | src/utils/errorHandler.ts:34-37 | the API message is present exactly when the body is an object whose `message` is a non-empty string, and is that string |
| ErrorHandler.StatusMessage | src/utils/errorHandler.ts:42-57 | the status table never gives the empty text or the network message |
| ErrorHandler.GetErrorMessage | src/utils/errorHandler.ts:27-58 | the message is never empty; no response gives the network message; a non-empty API message is returned verbatim |
| ErrorHandler.HandleError | src/utils/errorHandler.ts:111-119 | the message shown is never empty |
| ErrorHandler.StatusTable | src/utils/errorHandler.ts:42-57 | without an API message: 400, 401, 403 and 404 each map to their own message; 500, 502 and 503 map to the server message; every other status is unknown; each holds in both directions |
| ErrorHandler.MessagesDistinct | src/utils/errorHandler.ts:12-20 | the seven table messages are pairwise different |
| ErrorHandler.ApiMessageOverridesStatus | src/utils/errorHandler.ts:33-39 | a non-empty string message in the body wins whatever the status |
| ErrorHandler.NonStringMessageIgnored | src/utils/errorHandler.ts:37-57 | a message that is not a non-empty string is ignored and the status decides |
| ErrorHandler.FallbackNeverUsed | src/utils/errorHandler.ts:111-118 | `handleError` always returns the classifier's message, so the fallback is never reached |
| ErrorHandler.ServiceErrorsWithoutResponseShowNetwork | src/utils/errorHandler.ts:29-31 | the service's own rejections and requests without a response show the network message |
| Validation.ValidatePassword | src/utils/validation.ts:70-89 | valid exactly when not blank and the untrimmed length reaches the bound (default 6); blank gives the required message, too short the minimum message |
| Validation.ValidateRequired | src/utils/validation.ts:97-111 | valid exactly when not blank; otherwise the message is `<field> <lower-cased required>` with a field name, the required message without one |
| Validation.ValidateMinLength | src/utils/validation.ts:119-131 | valid exactly when non-empty and at least the bound long, with no trimming; otherwise the minimum message |
| Validation.ValidateMaxLength | src/utils/validation.ts:139-151 | invalid exactly when non-empty and longer than the bound (the empty text always passes); then the maximum message |
| Validation.ValidatePasswordMatch | src/utils/validation.ts:159-171 | valid exactly when the two texts are equal |
| Validation.EmailPatternInWords | src/utils/validation.ts:26 | the email pattern holds exactly for text with no whitespace, exactly one `@` with something before it, and after it a `.` with something on both sides |
| Validation.SingleAt | src/utils/validation.ts:26 | an `@` is the only one exactly when it is counted once |
| Validation.MissingIffBlank | src/utils/validation.ts:19 | the missing-value test (falsy, or empty once trimmed) holds exactly for blank text |
| Validation.ValidateEmail | src/utils/validation.ts:18-36 | an email is valid exactly when it matches the pattern; it is reported missing exactly when blank, and malformed otherwise |
| Validation.ValidatePhone | src/utils/validation.ts:43-62 | a phone is valid exactly when it is ten ASCII digits starting with 0; it is reported missing exactly when blank, and malformed otherwise |
| Validation.PasswordLengthIsUntrimmed | src/utils/validation.ts:81-86 | surrounding spaces count towards the length bound |
| Validation.RequiredLowered | src/utils/validation.ts:105 | the lower-cased required message reads "trường này là bắt buộc" |
| Validation.RequiredWithFieldName | src/utils/validation.ts:101-107 | a blank value with a field name gives "<field> trường này là bắt buộc" |
| Text.TrimEmptyIffBlank | src/utils/validation.ts:19 | `trim()` gives the empty text exactly for blank text |
| Formatters.Cleaned | src/utils/formatters.ts:44 | removing the non-digits leaves only ASCII digits |
| Formatters.FormatPhone | src/utils/formatters.ts:42-52 | ten digits give twelve characters, spaces at 4 and 8, and the digits everywhere else; any other count gives the input back |
| Formatters.PhoneGrouped | src/utils/formatters.ts:46-49 | ten digits come out as twelve characters with spaces at 4 and 8; dropping the spaces, or keeping only the digits, gives the cleaned number back |
| Formatters.PhoneOtherwiseUnchanged | src/utils/formatters.ts:51 | unless there are exactly ten digits, the input comes back as given, not cleaned |
| Formatters.PhoneIdempotent | src/utils/formatters.ts:42-52 | formatting a formatted number changes nothing |
| Formatters.SliceTo | src/utils/formatters.ts:79 | `slice(0, end)` is a prefix, `end` long within range, counted from the back when negative |
| Formatters.TruncateText | src/utils/formatters.ts:75-80 | text that fits comes back unchanged; longer text becomes a prefix of it followed by `...` |
| Formatters.TruncateFits | src/utils/formatters.ts:76-78 | text that fits comes back unchanged |
| Formatters.TruncateCuts | src/utils/formatters.ts:79 | longer text keeps its first `maxLength` characters, then `...`, for `maxLength + 3` characters in all |
| Formatters.TruncateNegative | src/utils/formatters.ts:76-79 | a negative bound drops that many characters from the back before the ellipsis |
| Formatters.TruncateIdempotent | src/utils/formatters.ts:75-80 | for a non-negative bound, truncating again with the same bound changes nothing |
| Formatters.FormatTimeAgo | src/utils/formatters.ts:87-106 | the answer is "Vừa xong" exactly when less than a minute has passed (negative differences included) |
| Formatters.TimeAgoBuckets | src/utils/formatters.ts:90-105 | the floor cascade equals one division by the unit: a day or more gives days; an hour to a day gives 1 to 23 hours; a minute to an hour gives 1 to 59 minutes; anything less, negative included, is "Vừa xong" |
| Formatters.TwoDigits | src/utils/formatters.ts:24-30 | a number below 100 is padded to exactly two digits that read back as the number |
| Formatters.DateReadsBack | src/utils/formatters.ts:24-34 | within the calendar ranges the date is two digits of day, `/`, two digits of the one-based month, `/`, then the year |
| Formatters.TimeReadsBack | src/utils/formatters.ts:29-31 | within the clock ranges the time part is a space, two digits of hours, `:`, then two digits of minutes |
| Formatters.FormatDate | src/utils/formatters.ts:21-35 | the result starts with the date part; it is longer, the next character being a space, exactly when the time is included |
| Formatters.TimeExtendsDate | src/utils/formatters.ts:28-34 | without the time the result is the date alone; with it, the same date followed by the six-character time part |

## Left out

- Screens, components, navigation and styles are rendering glue. The
  end-of-list guard of the home screen only repeats the guard of `loadMore`.
- `src/utils/storage.ts` is a thin wrapper over AsyncStorage. The client
  keeps the stored pairs as a map, and storage failures are not modelled.
- Logging is I/O and is left out: `logError`, `logRequest`, `logResponse`,
  the `__DEV__` branches and the `console` calls.
- `formatCurrency` and `formatNumber` are left out. They depend on
  locale-dependent `toLocaleString` and floating-point `toFixed`.
- `Date` parsing and `new Date()` are left out. `formatDate` takes the
  calendar fields a `Date` reports, and `formatTimeAgo` takes the elapsed
  milliseconds as an integer.
- The axios transport, its timeout and base URL, and the 500 ms waits are
  left out. The network is a script of replies, and each wait is a no-op.
- React `setState` batching, stale closures and interleaved calls are left
  out. One caller runs each operation to completion. In this sequential
  model the in-flight guard (`isFetching`) of `fetchData` and the
  `loadingMore` guard of `loadMore` are never true at a public method
  boundary. They are modelled and proved, but they only matter when calls
  interleave.
- `getProductById` and `getCategories` are left out. They only return
  `response.data.data`.
- The constants and type files are left out, with the needed values copied:
  default page 1 and page size 25 from `src/constants/api.ts:9-10`, and the
  messages from `src/constants/strings.ts:73-93`. `MAX_RETRY_ATTEMPTS` and
  `RETRY_DELAY` are unused by the core, which hard-codes 3 and 500.
- Lengths count Dafny characters (code points), while JavaScript counts
  UTF-16 units. The two differ only for characters outside the Basic
  Multilingual Plane.
- Validation.ValidateRequired lower-cases with ASCII-only rules, not full
  Unicode `toLowerCase`. This is exact for the one message it lowers
  (`Validation.RequiredLowered`).
- Client.Dispatch does not model an error whose `config` is missing. On a
  401 reading `_retry` on it throws inside the interceptor
  (`src/api/client.ts:59`); with no response the retry branch is skipped
  (`src/api/client.ts:76`) and the error is rejected as is
  (`src/api/client.ts:90`).
- UseApi.NullAfterThreeFailures: in the code `request` also returns `null`,
  with `data: null` and `error: null`, when the request function resolves
  to `null` or `undefined` (`src/hooks/useApi.ts:35-43`). The model keeps a
  resolved value as `Some(v)`, so its `None` means only the third failure.
- UseApi.RequestSettles: a resolved `null` or `undefined` is not told apart
  from other resolved values. It settles with that value, `loading` false
  and no error, as the code does, but the model does not state that
  `request` then returns `null`.
- Pagination.Paginator.FetchData takes both its arguments explicitly. The
  defaults `page = initialPage` and `isLoadMore = false`
  (`src/hooks/usePagination.ts:45`) are not modelled; every caller in the
  hook passes both.
- Formatters.TruncateText takes an integer bound, so a fractional or `NaN`
  `maxLength` is not modelled.
- Pagination.Succeed reads `products || []` for a products value that is
  present (a list) or missing. A truthy non-array `products` would make
  `filter` throw inside the updater, and is not modelled.
- Json numbers are integers. Floating-point values in bodies are not
  modelled; the decoder never inspects them.
