# EatsOrder core, modelled in Dafny

EatsOrder is an iOS food-ordering app. Its users browse nearby and popular
stores, fill a one-store cart, pay for an order and chat with the store.
This project models the app's sequential decision and update logic. The
transport, the persistence layer, the platform SDKs and the views become
given inputs, or are left out. Most core source files have one Dafny module
each, and an older copy of a file that the repository still ships has its
own `Legacy…` module. The exceptions:

* EatsOrder/Source/Service/Middleware/AuthMiddleware.swift is split: its
  `prepare` and 419/418 policy sit in `NetworkServices` beside
  NetworkService.swift, and its `TokenRefreshState` actor is `RefreshSlot`.
* EatsOrder/Source/MV/User/Model/ChatModel.swift is split between
  `ChatEntities` (the record-to-entity mappings) and `ChatModels`.
* `NetworkTypes` holds the declarations of NetworkProtocol.swift and
  NetworkError.swift, together with the JSON header set the endpoint files
  share.
* The two cart entity files share `OrderEntities`.

Three more modules are shared helpers: `Wrappers` (Option and Result),
`Text` (string helpers) and `Seqs` (`firstIndex`, `filter`, `sorted`).

* **Request pipeline** (`NetworkTypes`, `NetworkServices`, `RefreshSlot`,
  `TokenStore`, `AuthModels`):
  - Each send is a given per-attempt outcome: a status plus whether the body
    decodes, or a transport error.
  - `NetworkService.Request` is the one-retry loop and
    `NetworkService.ExecuteRequest` the prepare/send/verdict chain. Both are
    proved against the pure `Execute` and `RequestOutcome` functions.
  - The auth middleware's 419/418 policy is a pure verdict function. For the
    app's chain (the auth middleware, then the logging middleware), the
    verdict on every error status is proved (`NetworkServices.AppChainVerdicts`).
  - The refresh slot, the token store and the session holder are classes.
    Every session flow is built from `Dispatch` calls, as in the app.
* **Endpoint tables** (`StoreEndpoints`, `UserEndpoints`, `ChatEndpoints`,
  `OrderEndpoints`, `AuthEndpoints`) are total functions from request cases
  to path, method, query items, headers and body. The query builders keep
  the source's append loops as methods.
* **Cart and orders** (`OrderEntities`, `OrderModels`, `LegacyOrderModels`,
  `StoreDetailScreens`):
  - cart updates in place, with the one-store invariant;
  - totals as folds;
  - order creation, the payment guard and callback, and the order history
    newest payment first;
  - the store screen's add and remove buttons.
* **Stores, chat and likes** (`StoreEntities`, `StoreModels`,
  `LegacyStoreModels`, `ChatEntities`, `ChatModels`, `LikeButtons`):
  - the filters and sorts with their permutation properties;
  - like synchronisation across the cached lists;
  - chat paging and optimistic sending;
  - the like button's optimistic toggle.
* **Forms** (`InputFields`, `SignUpScreens`, `LegacySignUpScreens`,
  `SignUpViews`, `SignInScreens`, `LegacySignInScreens`): each field's
  validator, the field validation state machine, and the rules that
  enable a form's button.
* **Location and images** (`LocationManagers`, `LocationModels`,
  `ImageCaches`):
  - the error and status mappings and the location status transitions;
  - address formatting;
  - the percent-encoded cache key, proved injective;
  - the image loader's state machine and the cache manager's
    memory / in-flight / download decisions.

Three places where the code's own signals say more than it does; the model
follows what the code does:

* `isAccessTokenExpired` only checks for an empty token. A comment marks
  the JWT decoding of the expiry field as still to be written
  (EatsOrder/Source/Service/TokenManager.swift:23-30).
* An `authRetryNeeded` on the second attempt is rethrown as it is, so the
  trailing `throw NetworkError.maxRetriesExceeded`
  (EatsOrder/Source/Service/NetworkService.swift:46) can never be reached
  (`NetworkServices.RequestNeverMaxRetries`).
* Endpoints declare `requiresAuthentication`
  (EatsOrder/Source/Service/NetworkProtocol.swift:35), but nothing reads
  it: the auth middleware's `prepare` looks only at `isLoggedIn`.

A few more places where the model follows the code as written:

* `fetchPopularStores` never sends its category
  (`StoreModels.StoreModel.FetchPopularStores`).
* The refresh in `checkSessionValidity` can only start when a logged-in
  session has an empty access token (`AuthModels.SessionChecked`).
* The older login form flags passwords of eight or more characters
  (`LegacySignInScreens.PasswordRuleIsInverted`).
* `error.localizedDescription ?? default` never takes the default for a
  `NetworkError` (`StoreModels.StoreErrorMessage`).
* The `Middleware` protocol declares a tuple result, but the pipeline uses
  `Result<Bool, Error>`. The model uses the `Result` form.
* `authenticationFailed` is raised with a message
  (EatsOrder/Source/Service/Middleware/AuthMiddleware.swift:67-71), but the
  Swift enum case declares no payload
  (EatsOrder/Source/Service/NetworkError.swift:15). The model's
  `AuthenticationFailed` carries the message the callers pass.
* The older cart entity (EatsOrder/Source/MV/Store/OrderEntity.swift) has
  the same totals as the newer one and is modelled by the same `Cart`.

## Model

| member | source | states |
|---|---|---|
| TokenStore.LoggedInIsNeverExpired | EatsOrder/Source/Service/TokenManager.swift:18-30 | being logged in rules out an expired access token, whatever the refresh token is |
| TokenStore.TokenManager.constructor | EatsOrder/Source/Service/TokenManager.swift:11-12 | the two tokens are whatever the persistent store holds |
| TokenStore.TokenManager.SaveTokens | EatsOrder/Source/Service/TokenManager.swift:32-35 | both tokens are replaced; the manager is logged in afterwards exactly when both new tokens are non-empty |
| TokenStore.TokenManager.ClearTokens | EatsOrder/Source/Service/TokenManager.swift:37-40 | both tokens become empty, so the manager is logged out and the access token counts as expired |
| TokenStore.TokenManager.Logout | EatsOrder/Source/Service/TokenManager.swift:42-44 | logging out has the same effect as clearing the tokens |
| NetworkTypes.MethodFromRawValue | EatsOrder/Source/Service/NetworkProtocol.swift:39-44 | a raw value that is accepted is the raw value of the method it yields |
| NetworkTypes.MethodRawValueRoundTrip | EatsOrder/Source/Service/NetworkProtocol.swift:39-44 | parsing a method's raw value gives that method back |
| NetworkTypes.JsonHeaders | EatsOrder/Source/Service/Endpoint/UserEndpoint.swift:57-65 | the shared header set has exactly the keys `Content-Type` and `SeSACKey`, with the JSON content type and the API key |
| NetworkServices.ConfigUrl | EatsOrder/Source/Service/NetworkService.swift:110-122 | there is a URL exactly when the endpoint has a base URL; it is built from the base, the path and the query items |
| NetworkServices.ConfigRequest | EatsOrder/Source/Service/NetworkService.swift:124-139 | the loop that sets headers one key at a time yields the request with exactly the endpoint's headers, its method raw value and its body |
| NetworkServices.AddValue | EatsOrder/Source/Service/Middleware/AuthMiddleware.swift:54 | adding a header value keeps every other field, creates the field when it is missing, and appends with a comma when it is present |
| NetworkServices.Prepare | EatsOrder/Source/Service/Middleware/AuthMiddleware.swift:52-56 | the auth middleware adds the access token as `Authorization` only when both tokens are present, and changes nothing otherwise; the logging middleware sets `X-Request-ID`; URL, method and body are never touched |
| NetworkServices.AuthProcessPolicy | EatsOrder/Source/Service/Middleware/AuthMiddleware.swift:58-75 | on 419 a successful refresh asks for a retry and a failed one calls the expiry handler and fails with the refresh-failed message; 418 calls the expiry handler and fails with the session-expired message; any other status passes |
| NetworkServices.ScanStep | EatsOrder/Source/Service/NetworkService.swift:83-93 | one step of the verdict loop: a retry verdict throws `authRetryNeeded`, a failure throws its error, a pass moves to the next middleware |
| NetworkServices.Decode | EatsOrder/Source/Service/NetworkService.swift:99-104 | a body that decodes is the result; one that does not is a `decodingError` carrying the reason |
| NetworkServices.RawRequest | EatsOrder/Source/Service/NetworkService.swift:50-59 | the raw request consults no middleware and sends at most once; no base URL is `invalidUrl` before any send; only 200...299 decodes, any other status is a `serverError` with that status |
| NetworkServices.RawRequestRejectsRedirectRange | EatsOrder/Source/Service/NetworkService.swift:81 | a 300...304 response that the middleware pipeline decodes is a `serverError` on the raw path |
| NetworkServices.ScanFirstObjection | EatsOrder/Source/Service/NetworkService.swift:83-93 | the first middleware whose verdict is not a pass decides the thrown error, and no later middleware is consulted |
| NetworkServices.ScanAllPass | EatsOrder/Source/Service/NetworkService.swift:83-96 | when every verdict is a pass, nothing objects and every middleware is consulted once, in order |
| NetworkServices.ScanObjectionKinds | EatsOrder/Source/Service/NetworkService.swift:83-93 | the verdict loop only ever throws `authRetryNeeded` or an authentication failure |
| NetworkServices.ExecuteNeverMaxRetries | EatsOrder/Source/Service/NetworkService.swift:62-105 | one execution never throws `maxRetriesExceeded` |
| NetworkServices.RequestNeverMaxRetries | EatsOrder/Source/Service/NetworkService.swift:24-47 | the request never throws `maxRetriesExceeded`; it sends twice exactly when the first attempt asked for a retry, and a second `authRetryNeeded` is rethrown as it is |
| NetworkServices.RequestRethrowsFirstError | EatsOrder/Source/Service/NetworkService.swift:31-42 | an outcome of the first attempt other than `authRetryNeeded` is the request's outcome, after one attempt |
| NetworkServices.AcceptedStatusSkipsChain | EatsOrder/Source/Service/NetworkService.swift:81-104 | a status in 200...304 consults no middleware and goes straight to decoding |
| NetworkServices.PreparesBeforeSend | EatsOrder/Source/Service/NetworkService.swift:67-74 | every middleware prepares once, in registration order, before the single send |
| NetworkServices.ScanEventsKinds | EatsOrder/Source/Service/NetworkService.swift:83-93 | the verdict loop neither prepares nor sends |
| NetworkServices.AppPrepare | EatsOrder/Source/Service/Middleware/AuthMiddleware.swift:52-56 | with the app's two middleware the request gains `Authorization` only when logged in, and always `X-Request-ID` |
| NetworkServices.AppChainVerdicts | EatsOrder/Source/Service/Middleware/AuthMiddleware.swift:58-75 | with the app's two middleware an error status gives a retry on 419 with a successful refresh, an authentication failure on 419 without one and on 418, and a `serverError` otherwise |
| NetworkServices.NetworkService.constructor | EatsOrder/Source/Service/NetworkService.swift:12-16 | a new service has no middleware |
| NetworkServices.NetworkService.AddMiddleware | EatsOrder/Source/Service/NetworkService.swift:19-21 | the middleware is appended at the end |
| NetworkServices.NetworkService.ExecuteRequest | EatsOrder/Source/Service/NetworkService.swift:62-105 | the prepare loop, the send and the verdict loop compute exactly the execution the specification function describes |
| NetworkServices.NetworkService.ProcessChain | EatsOrder/Source/Service/NetworkService.swift:83-96 | the verdict loop throws the scan's objection, or `serverError` with the status when nothing objects |
| NetworkServices.NetworkService.Request | EatsOrder/Source/Service/NetworkService.swift:24-47 | the retry loop gives the specified outcome after one or two attempts, and two exactly when the first asked for a retry |
| RefreshSlot.TokenRefreshState.constructor | EatsOrder/Source/Service/Middleware/AuthMiddleware.swift:10-12 | the slot starts empty and not refreshing |
| RefreshSlot.TokenRefreshState.RefreshToken | EatsOrder/Source/Service/Middleware/AuthMiddleware.swift:14-32 | a caller finding a task in the slot gets that task and starts no handler; otherwise a new task fills the slot and the handler runs once more |
| RefreshSlot.TokenRefreshState.Complete | EatsOrder/Source/Service/Middleware/AuthMiddleware.swift:22-27 | the finished task empties the slot and its value is what every waiter receives |
| RefreshSlot.TokenRefreshState.AwaitedValue | EatsOrder/Source/Service/Middleware/AuthMiddleware.swift:17-31 | a waiter has a value exactly when its task has finished |
| RefreshSlot.OverlappingCallers | EatsOrder/Source/Service/Middleware/AuthMiddleware.swift:14-32 | two overlapping callers share one task and one handler run, and both receive its result |
| RefreshSlot.SequentialCallers | EatsOrder/Source/Service/Middleware/AuthMiddleware.swift:14-32 | a caller arriving after completion starts a new task, and each receives its own task's result |
| StoreEndpoints.Path | EatsOrder/Source/Service/Endpoint/StoreEndpoint.swift:26-45 | every path lies under `/stores`; detail, like and user-review paths embed their id |
| StoreEndpoints.Method | EatsOrder/Source/Service/Endpoint/StoreEndpoint.swift:47-55 | only the like request is a POST; every other is a GET |
| StoreEndpoints.PresentItemsExactly | EatsOrder/Source/Service/Endpoint/StoreEndpoint.swift:59-90 | a query item is sent exactly for each present argument, and none when every argument is absent |
| StoreEndpoints.NilIfEmpty | EatsOrder/Source/Service/Endpoint/StoreEndpoint.swift:90-127 | an empty list of query items is sent as no query at all |
| StoreEndpoints.Parameters | EatsOrder/Source/Service/Endpoint/StoreEndpoint.swift:57-132 | search sends its name, popular stores sends the category only when given, detail/like/popular searches send none, and a query that is sent is never empty |
| StoreEndpoints.AppendIfPresent | EatsOrder/Source/Service/Endpoint/StoreEndpoint.swift:62-64 | one `if let` block appends the item exactly when its argument is present |
| StoreEndpoints.BuildStoreListItems | EatsOrder/Source/Service/Endpoint/StoreEndpoint.swift:59-88 | the seven blocks append the present arguments in the order category, longitude, latitude, maxDistance, next, limit, order_by |
| StoreEndpoints.BuildFilterItems | EatsOrder/Source/Service/Endpoint/StoreEndpoint.swift:99-127 | the liked-stores and user-review blocks append category, next and limit when present, in that order |
| StoreEndpoints.BuildParameters | EatsOrder/Source/Service/Endpoint/StoreEndpoint.swift:57-132 | the getter as written computes the parameters table |
| StoreEndpoints.Headers | EatsOrder/Source/Service/Endpoint/StoreEndpoint.swift:134-142 | every store request sends the JSON content type and the API key, and nothing else |
| StoreEndpoints.BodyOf | EatsOrder/Source/Service/Endpoint/StoreEndpoint.swift:144-152 | only the like request has a body, carrying the like status |
| StoreEndpoints.Describe | EatsOrder/Source/Service/Endpoint/StoreEndpoint.swift:22-24 | store requests use the versioned base URL |
| StoreEndpoints.StoreListWithoutArguments | EatsOrder/Source/Service/Endpoint/StoreEndpoint.swift:90 | a store list request without arguments sends no query |
| UserEndpoints.Path | EatsOrder/Source/Service/Endpoint/UserEndpoint.swift:26-42 | every path lies under `/users/` |
| UserEndpoints.PathsDistinct | EatsOrder/Source/Service/Endpoint/UserEndpoint.swift:26-42 | two requests with the same path are the same case |
| UserEndpoints.Method | EatsOrder/Source/Service/Endpoint/UserEndpoint.swift:44-51 | only the profile request is a GET; the others are POSTs |
| UserEndpoints.Parameters | EatsOrder/Source/Service/Endpoint/UserEndpoint.swift:53-55 | no user request sends a query |
| UserEndpoints.Headers | EatsOrder/Source/Service/Endpoint/UserEndpoint.swift:57-65 | the JSON content type and the API key, and nothing else |
| UserEndpoints.BodyOf | EatsOrder/Source/Service/Endpoint/UserEndpoint.swift:67-104 | every request but the profile one has a body |
| UserEndpoints.BodyRoundTrip | EatsOrder/Source/Service/Endpoint/UserEndpoint.swift:67-104 | each body carries exactly its case's arguments: reading the body back gives the request |
| UserEndpoints.Describe | EatsOrder/Source/Service/Endpoint/UserEndpoint.swift:22-24 | user requests use the unversioned base URL |
| UserEndpoints.DescribeInjective | EatsOrder/Source/Service/Endpoint/UserEndpoint.swift:10-106 | two different user requests never produce the same descriptor |
| ChatEndpoints.Path | EatsOrder/Source/Service/Endpoint/ChatEndpoint.swift:21-34 | room creation and listing share `/chats`; sending and fetching messages use the room's path; uploads go under `/files` |
| ChatEndpoints.Method | EatsOrder/Source/Service/Endpoint/ChatEndpoint.swift:36-49 | listing rooms and fetching messages are GETs; the rest are POSTs |
| ChatEndpoints.Parameters | EatsOrder/Source/Service/Endpoint/ChatEndpoint.swift:51-61 | a query is sent only when fetching messages with a cursor, and it is that cursor |
| ChatEndpoints.Headers | EatsOrder/Source/Service/Endpoint/ChatEndpoint.swift:63-76 | uploads send the multipart content type, every other request the JSON one; always with the API key |
| ChatEndpoints.BodyOf | EatsOrder/Source/Service/Endpoint/ChatEndpoint.swift:78-89 | room creation, sending and uploading carry their arguments as the body; the two fetches have none |
| ChatEndpoints.Describe | EatsOrder/Source/Service/Endpoint/ChatEndpoint.swift:17-19 | chat requests use the versioned base URL |
| ChatEndpoints.DescribeInjective | EatsOrder/Source/Service/Endpoint/ChatEndpoint.swift:10-90 | two different chat requests never produce the same descriptor, although some share a path |
| OrderEndpoints.Path | EatsOrder/Source/Service/Endpoint/OrderEndpoint.swift:20-29 | creating and listing orders share `/orders`; a status update goes to the order's own path |
| OrderEndpoints.Method | EatsOrder/Source/Service/Endpoint/OrderEndpoint.swift:31-40 | create is POST, list is GET, a status update is PUT |
| OrderEndpoints.Parameters | EatsOrder/Source/Service/Endpoint/OrderEndpoint.swift:42-49 | no order request sends a query |
| OrderEndpoints.Headers | EatsOrder/Source/Service/Endpoint/OrderEndpoint.swift:51-56 | the shared JSON header set |
| OrderEndpoints.BodyOf | EatsOrder/Source/Service/Endpoint/OrderEndpoint.swift:58-67 | only the list request has no body |
| OrderEndpoints.Describe | EatsOrder/Source/Service/Endpoint/OrderEndpoint.swift:16-18 | order requests use the unversioned base URL |
| OrderEndpoints.RequestRoundTrip | EatsOrder/Source/Service/Endpoint/OrderEndpoint.swift:20-67 | the method, path and body of an order request determine it: store id, menu list, total, order code and next status are all carried unchanged |
| AuthEndpoints.Headers | EatsOrder/Source/Service/Endpoint/AuthEndpoint.swift:39-49 | the refresh request sends exactly four headers: JSON content type, API key, the refresh token it was built with, and the stored access token |
| AuthEndpoints.Describe | EatsOrder/Source/Service/Endpoint/AuthEndpoint.swift:14-57 | a GET to `/auth/refresh` on the unversioned base URL, with no query and no body |
| AuthModels.LoginTypeFromRawValue | EatsOrder/Source/MV/Auth/Model/AuthModel.swift:37-38 | exactly the three raw values `email`, `kakao` and `apple` name a sign-in type, and each names the type whose raw value it is |
| AuthModels.LoginTypeRoundTrip | EatsOrder/Source/MV/Auth/Model/AuthModel.swift:37-81 | the stored raw value of a sign-in type reads back as that type |
| AuthModels.LoginTypeDisplayName | EatsOrder/Source/MV/Auth/Model/AuthModel.swift:40-46 | the label of a sign-in type is its raw value, so it reads back as that type |
| AuthModels.DispatchChangesOnlyNamedField | EatsOrder/Source/MV/Auth/Model/AuthModel.swift:108-144 | each action changes only the field it names, sets it to the carried value, and touches the token store only for the two token actions |
| AuthModels.ErrorMessageFor | EatsOrder/Source/MV/Auth/Model/AuthModel.swift:164-171 | a NetworkError's own description is stored as it is; any other error's description follows the default text and `: ` |
| AuthModels.InitIsNeverExpired | EatsOrder/Source/MV/Auth/Model/AuthModel.swift:92-101 | since expiry only means an empty access token, `init` never yields `expired`: it is `active` exactly when the store is logged in |
| AuthModels.Expire | EatsOrder/Source/MV/Auth/Model/AuthModel.swift:216-225 | session expiry clears both tokens, the logged-in and login-success flags, marks the session expired and stores the expiry message, and keeps the join flag and the validation result |
| AuthModels.LoggedOut | EatsOrder/Source/MV/Auth/Model/AuthModel.swift:349-358 | logout has the effect of expiry except that the error message is cleared |
| AuthModels.RefreshRequest | EatsOrder/Source/MV/Auth/Model/AuthModel.swift:200 | the refresh sends a GET to `/auth/refresh` without a body |
| AuthModels.RefreshOutcome | EatsOrder/Source/MV/Auth/Model/AuthModel.swift:201 | the refresh succeeds exactly when the raw request (no middleware) succeeds |
| AuthModels.Refreshed | EatsOrder/Source/MV/Auth/Model/AuthModel.swift:197-212 | a successful refresh saves the new tokens and makes the session active; a failed one stores the error, keeps the tokens and expires the session |
| AuthModels.SignedIn | EatsOrder/Source/MV/Auth/Model/AuthModel.swift:243-346 | the sign-in flows clear their success flag first; success saves the tokens, makes the session active and logged in and sets the flag; failure only stores the error |
| AuthModels.EmailValidated | EatsOrder/Source/MV/Auth/Model/AuthModel.swift:228-240 | the server's message becomes the validation result with the error cleared; on failure the stored error message is also the validation result |
| AuthModels.SessionChecked | EatsOrder/Source/MV/Auth/Model/AuthModel.swift:174-186 | nothing happens unless logged in with an empty access token; a refresh already running expires the session; otherwise a successful refresh is kept and a failed one ends in expiry |
| AuthModels.AuthModel.constructor | EatsOrder/Source/MV/Auth/Model/AuthModel.swift:87-105 | the model mirrors the store's logged-in state and, when logged in, starts `expired` or `active` by the access token |
| AuthModels.AuthModel.LastLoginType | EatsOrder/Source/MV/Auth/Model/AuthModel.swift:79-81 | a reported sign-in type is the one whose raw value is stored |
| AuthModels.AuthModel.LastLoginDate | EatsOrder/Source/MV/Auth/Model/AuthModel.swift:82-84 | a date is reported exactly when a positive time is stored, and it is that time |
| AuthModels.AuthModel.SaveLastLoginInfo | EatsOrder/Source/MV/Auth/Model/AuthModel.swift:74-77 | the type's raw value and the current time are stored, so the type reads back; the session state is untouched |
| AuthModels.AuthModel.Dispatch | EatsOrder/Source/MV/Auth/Model/AuthModel.swift:108-144 | the new state is what the action does to the old one |
| AuthModels.AuthModel.HandleError | EatsOrder/Source/MV/Auth/Model/AuthModel.swift:164-171 | only the error message changes, to the text for the caught error |
| AuthModels.AuthModel.HandleSessionExpiration | EatsOrder/Source/MV/Auth/Model/AuthModel.swift:216-225 | the five dispatches leave the expired state |
| AuthModels.AuthModel.Logout | EatsOrder/Source/MV/Auth/Model/AuthModel.swift:349-358 | the five dispatches leave the logged-out state |
| AuthModels.AuthModel.HandleTokenRefreshNeeded | EatsOrder/Source/MV/Auth/Model/AuthModel.swift:189-213 | while a refresh runs it returns false, sends nothing and changes nothing; otherwise it sends the refresh request and reports and applies its outcome |
| AuthModels.AuthModel.CheckSessionValidity | EatsOrder/Source/MV/Auth/Model/AuthModel.swift:174-186 | a refresh is attempted exactly when logged in with an empty access token, and the session ends as the session check transition says |
| AuthModels.AuthModel.EmailValidation | EatsOrder/Source/MV/Auth/Model/AuthModel.swift:228-240 | it sends the e-mail validation request and ends in the validated state |
| AuthModels.AuthModel.CompleteSignIn | EatsOrder/Source/MV/Auth/Model/AuthModel.swift:252-264 | the shared success and failure paths; only a success records the sign-in type and time |
| AuthModels.AuthModel.Login | EatsOrder/Source/MV/Auth/Model/AuthModel.swift:243-265 | sends the login request; success records an e-mail sign-in |
| AuthModels.AuthModel.Join | EatsOrder/Source/MV/Auth/Model/AuthModel.swift:268-296 | sends the join request and uses the join flag; success records an e-mail sign-in |
| AuthModels.AuthModel.KakaoLoginFlow | EatsOrder/Source/MV/Auth/Model/AuthModel.swift:299-321 | sends the Kakao login request; success records a Kakao sign-in |
| AuthModels.AuthModel.AppleLoginFlow | EatsOrder/Source/MV/Auth/Model/AuthModel.swift:324-346 | sends the Apple login request with the optional nickname; success records an Apple sign-in |
| OrderEntities.SumOfConcat | EatsOrder/Source/MV/Store/Entity/OrderEntity.swift:26-31 | the item sum behind the cart totals splits over a concatenation |
| OrderEntities.ReduceIsSum | EatsOrder/Source/MV/Store/Entity/OrderEntity.swift:26-31 | the left fold `reduce` from any start value is that value plus the item sum |
| OrderEntities.EmptyCartTotals | EatsOrder/Source/MV/Store/Entity/OrderEntity.swift:26-31 | an empty cart totals zero in price and in quantity |
| OrderEntities.TotalsAreSums | EatsOrder/Source/MV/Store/Entity/OrderEntity.swift:26-31 | the price total is the sum of price times quantity and the quantity total the sum of quantities, in both cart entity files (EatsOrder/Source/MV/Store/OrderEntity.swift:25-30 is the same code) |
| OrderEntities.TotalsAfterAppend | EatsOrder/Source/MV/Store/OrderEntity.swift:25-30 | appending an item adds its amount to the price total and its quantity to the quantity total |
| OrderEntities.SumAfterUpdate | EatsOrder/Source/MV/Store/Entity/OrderEntity.swift:26-31 | replacing one item moves the sum by the difference of the two items' values |
| OrderEntities.TotalsAfterQuantityChange | EatsOrder/Source/MV/Store/Entity/OrderEntity.swift:26-31 | setting one item's quantity moves the quantity total by the change and the price total by the price times the change |
| OrderEntities.QuantityTotalNonNegative | EatsOrder/Source/MV/Store/Entity/OrderEntity.swift:29-31 | non-negative quantities give a non-negative quantity total |
| OrderEntities.StatusFromRawValue | EatsOrder/Source/MV/Store/Entity/OrderEntity.swift:35-43 | a recognised code names the status whose code it is |
| OrderEntities.StatusRawValueRoundTrip | EatsOrder/Source/MV/Store/Entity/OrderEntity.swift:35-43 | every status's code reads back as that status |
| OrderEntities.StatusRawValueInjective | EatsOrder/Source/MV/Store/Entity/OrderEntity.swift:35-43 | distinct statuses have distinct codes |
| OrderEntities.StatusDisplayNameInjective | EatsOrder/Source/MV/Store/Entity/OrderEntity.swift:45-56 | two statuses show the same label exactly when they are the same status |
| OrderEntities.EmptyReview | EatsOrder/Source/MV/Store/Entity/OrderEntity.swift:93-95 | the empty review has an empty id and rating zero |
| OrderEntities.TimelineId | EatsOrder/Source/MV/Store/Entity/OrderEntity.swift:102 | a timeline entry's id reads back as its status |
| OrderEntities.TimelineIdsIdentifyStatus | EatsOrder/Source/MV/Store/Entity/OrderEntity.swift:98-103 | two timeline entries share an id exactly when they share a status |
| OrderEntities.IsActive | EatsOrder/Source/MV/Store/Entity/OrderEntity.swift:74-81 | an order is active exactly when its status is one of the four before pickup |
| OrderEntities.CanWriteReview | EatsOrder/Source/MV/Store/Entity/OrderEntity.swift:84-86 | every order may be reviewed |
| OrderModels.FirstIndex | EatsOrder/Source/MV/Store/Model/OrderModel.swift:47-58 | the index found holds the id and no earlier item does; none is found only when no item has the id |
| OrderModels.RemoveAll | EatsOrder/Source/MV/Store/Model/OrderModel.swift:67 | what remains is exactly the items without the id |
| OrderModels.RemoveAllKeepsOrder | EatsOrder/Source/MV/Store/Model/OrderModel.swift:67 | removal works piecewise, so the kept cart items stay in their order, and an id no item has removes nothing |
| OrderModels.CartAfterAdd | EatsOrder/Source/MV/Store/Model/OrderModel.swift:41-53 | the cart after an addition belongs to the given store and is not empty |
| OrderModels.AddToOtherStoreStartsNewCart | EatsOrder/Source/MV/Store/Model/OrderModel.swift:42-44 | with no cart or another store's cart, the cart is replaced by one with only the new item |
| OrderModels.AddToSameStore | EatsOrder/Source/MV/Store/Model/OrderModel.swift:45-52 | in the same store's cart an item already there gains the added quantity in place and the rest is unchanged, or a new item goes last; the quantity total grows by the added quantity |
| OrderModels.CartAfterQuantityUpdate | EatsOrder/Source/MV/Store/Model/OrderModel.swift:56-62 | a quantity update never creates or removes the cart |
| OrderModels.QuantityUpdateTouchesFirstMatchOnly | EatsOrder/Source/MV/Store/Model/OrderModel.swift:56-62 | only the first item with the id gets the new quantity; without such an item, or without a cart, nothing changes |
| OrderModels.CartAfterRemove | EatsOrder/Source/MV/Store/Model/OrderModel.swift:65-73 | a cart left after removal is not empty and is the same store's |
| OrderModels.RemoveDropsEveryMatch | EatsOrder/Source/MV/Store/Model/OrderModel.swift:65-73 | every item with the id goes, the rest stay, and the cart becomes nil exactly when every item had the id |
| OrderModels.CartUpdatesKeepNonEmpty | EatsOrder/Source/MV/Store/Model/OrderModel.swift:41-73 | adding, changing a quantity and removing each keep a present cart non-empty |
| OrderModels.OrderMenus | EatsOrder/Source/MV/Store/Model/OrderModel.swift:83-85 | one order line per cart item, in order, with its id and quantity |
| OrderModels.StatusFromServer | EatsOrder/Source/MV/Store/Model/OrderModel.swift:165-224 | a known status code gives its status and an unknown one gives `fail` |
| OrderModels.MenuLines | EatsOrder/Source/MV/Store/Model/OrderModel.swift:163-212 | one cart item per order line, with the menu's id, name and price, the line's quantity and not sold out |
| OrderModels.Timeline | EatsOrder/Source/MV/Store/Model/OrderModel.swift:170-228 | one timeline entry per server entry, with its status read as above |
| OrderModels.ToEntity | EatsOrder/Source/MV/Store/Model/OrderModel.swift:158-172 | every field of the order comes from the record: the ids, store id and name and total are kept, the menu lines and the timeline are mapped one for one, the status is read as above, each unreadable date (created, updated, paid) becomes `now`, and the review is the sent one or the empty review |
| OrderModels.ToEntities | EatsOrder/Source/MV/Store/Model/OrderModel.swift:142 | each server record maps to its order, in order |
| OrderModels.SortByPaidAt | EatsOrder/Source/MV/Store/Model/OrderModel.swift:143 | the result is newest payment first and a permutation of the input |
| OrderModels.FetchedHistoryIsSortedPermutation | EatsOrder/Source/MV/Store/Model/OrderModel.swift:141-146 | the fetched history holds every received order once, newest payment first |
| OrderModels.OrderModel.constructor | EatsOrder/Source/MV/Store/Model/OrderModel.swift:17-25 | the model starts with no cart, no orders, no pending payment and no result |
| OrderModels.OrderModel.AddMenuToCart | EatsOrder/Source/MV/Store/Model/OrderModel.swift:41-53 | the cart becomes the cart after the addition; nothing else changes |
| OrderModels.OrderModel.UpdateMenuQuantity | EatsOrder/Source/MV/Store/Model/OrderModel.swift:56-62 | the cart becomes the cart after the quantity update; nothing else changes |
| OrderModels.OrderModel.RemoveMenuFromCart | EatsOrder/Source/MV/Store/Model/OrderModel.swift:65-73 | the cart becomes the cart after the removal; nothing else changes |
| OrderModels.OrderModel.ClearCart | EatsOrder/Source/MV/Store/Model/OrderModel.swift:76-78 | the cart becomes nil; nothing else changes |
| OrderModels.OrderModel.CreateOrder | EatsOrder/Source/MV/Store/Model/OrderModel.swift:81-93 | without a cart nothing is sent and no code is returned; otherwise the request carries the store, one line per item and the cart's total, and the server's code or error is passed on |
| OrderModels.OrderModel.PreparePayment | EatsOrder/Source/MV/Store/Model/OrderModel.swift:108-122 | nothing happens without a non-empty cart; a code with a positive total and a store name becomes the pending payment; a failure sets a failed result with the error text |
| OrderModels.OrderModel.HandlePaymentCallback | EatsOrder/Source/MV/Store/Model/OrderModel.swift:125-135 | the pending payment always ends; a missing receipt id fails; otherwise the verdict decides the result and its message, and only a valid receipt clears the cart |
| OrderModels.OrderModel.FetchOrderList | EatsOrder/Source/MV/Store/Model/OrderModel.swift:138-153 | on success the list is the mapped records sorted newest payment first; on failure it is empty |
| LegacyOrderModels.LegacyOrderModel.constructor | EatsOrder/Source/MV/Store/OrderModel.swift:16-22 | the model starts with no cart and no orders |
| LegacyOrderModels.LegacyOrderModel.AddMenuToCart | EatsOrder/Source/MV/Store/OrderModel.swift:26-38 | the same addition as the newer model; the order list is untouched |
| LegacyOrderModels.LegacyOrderModel.UpdateMenuQuantity | EatsOrder/Source/MV/Store/OrderModel.swift:41-47 | the same quantity update as the newer model |
| LegacyOrderModels.LegacyOrderModel.RemoveMenuFromCart | EatsOrder/Source/MV/Store/OrderModel.swift:50-58 | the same removal as the newer model |
| LegacyOrderModels.LegacyOrderModel.ClearCart | EatsOrder/Source/MV/Store/OrderModel.swift:61-63 | the cart becomes nil |
| StoreEntities.EmptyStoreDetail | EatsOrder/Source/MV/Store/Entity/StoreEntity.swift:66 | the empty detail has blank texts, no menu and is not liked |
| StoreModels.DispatchAssignsOnlyItsField | EatsOrder/Source/MV/Store/StoreModel.swift:82-107 | each action assigns exactly its own field; `setMyPickStores` and `toggleStoreLike` change nothing; the page counter never moves |
| StoreModels.StoreErrorMessage | EatsOrder/Source/MV/Store/StoreModel.swift:224-231 | a NetworkError stores its description; any other error the default text |
| StoreModels.CategoryFiltered | EatsOrder/Source/MV/Store/StoreModel.swift:45-51 | with no category every popular store is shown; with one, exactly the stores of that category |
| StoreModels.FlagFiltered | EatsOrder/Source/MV/Store/StoreModel.swift:55-62 | a store is kept exactly when it carries every flag that is set; with none set the list is unchanged |
| StoreModels.NearbyView | EatsOrder/Source/MV/Store/StoreModel.swift:54-71 | the nearby view is a permutation of the flag-filtered stores |
| StoreModels.NearbyViewOrder | EatsOrder/Source/MV/Store/StoreModel.swift:63-70 | orders and reviews sort by count, largest first; distance sorts by longitude, smallest first |
| StoreModels.NearbyViewMembers | EatsOrder/Source/MV/Store/StoreModel.swift:54-71 | a store is in the nearby view exactly when it passes the flag filters |
| StoreModels.WithPickAtFirst | EatsOrder/Source/MV/Store/StoreModel.swift:124-129 | the list keeps its length |
| StoreModels.WithPickAtFirstChangesOneEntry | EatsOrder/Source/MV/Store/StoreModel.swift:124-129 | only the first store with the id changes, and only in its like flag, which then holds the new value |
| StoreModels.WithDetailPick | EatsOrder/Source/MV/Store/StoreModel.swift:130-133 | a cached detail for the id takes the new like flag; no key is added and other details stay |
| StoreModels.NearbyRequest | EatsOrder/Source/MV/Store/StoreModel.swift:165-175 | the nearby query has no category, and no cursor exactly when `next` is empty |
| StoreModels.StoreModel.constructor | EatsOrder/Source/MV/Store/StoreModel.swift:31-42 | the published fields start at their declared defaults |
| StoreModels.StoreModel.FilteredPopularStores | EatsOrder/Source/MV/Store/StoreModel.swift:45-51 | the popular list through the category filter |
| StoreModels.StoreModel.FilteredAndSortedNearbyStores | EatsOrder/Source/MV/Store/StoreModel.swift:54-71 | the nearby list through the flag filters and the chosen order |
| StoreModels.StoreModel.Dispatch | EatsOrder/Source/MV/Store/StoreModel.swift:82-107 | the dispatch fields change as the action says and the lists and view settings stay |
| StoreModels.StoreModel.HandleError | EatsOrder/Source/MV/Store/StoreModel.swift:224-231 | only the error changes, to the stored message |
| StoreModels.StoreModel.UpdateStoreLikeStatus | EatsOrder/Source/MV/Store/StoreModel.swift:123-134 | both lists and the detail cache take the new like flag for the store; nothing else changes |
| StoreModels.StoreModel.ToggleStoreLikeRequest | EatsOrder/Source/MV/Store/StoreModel.swift:112-120 | sends the flipped status; a failure is rethrown with nothing changed; a success synchronises the lists with the flipped status |
| StoreModels.StoreModel.UpdateSearchText | EatsOrder/Source/MV/Store/StoreModel.swift:137-145 | the text is always stored; a search starts exactly for more than two characters |
| StoreModels.StoreModel.SearchStores | EatsOrder/Source/MV/Store/StoreModel.swift:185-196 | sends the search; loading ends off; a failure stores the search error text |
| StoreModels.StoreModel.FetchPopularSearches | EatsOrder/Source/MV/Store/StoreModel.swift:147-157 | the keywords on success; none, with the error stored, on failure |
| StoreModels.StoreModel.FetchNearbyStores | EatsOrder/Source/MV/Store/StoreModel.swift:160-182 | the page and cursor on success; no stores and cursor "0", with the error stored, on failure |
| StoreModels.StoreModel.FetchPopularStores | EatsOrder/Source/MV/Store/StoreModel.swift:199-209 | the request carries no category whatever is passed; the stores on success, none on failure |
| StoreModels.StoreModel.FetchDetail | EatsOrder/Source/MV/Store/StoreModel.swift:211-221 | the detail on success; the empty detail, with the error stored, on failure |
| LegacyStoreModels.LegacyStoreModel.constructor | EatsOrder/Source/MV/MainHome/StoreModel.swift:31-43 | the five fields start at their declared defaults |
| LegacyStoreModels.LegacyStoreModel.Dispatch | EatsOrder/Source/MV/MainHome/StoreModel.swift:46-70 | the fields change as the action says, as in the newer model |
| LegacyStoreModels.LegacyStoreModel.HandleError | EatsOrder/Source/MV/MainHome/StoreModel.swift:162-169 | only the error changes, to the stored message |
| LegacyStoreModels.LegacyStoreModel.UpdateSearchText | EatsOrder/Source/MV/MainHome/StoreModel.swift:75-83 | the text is always stored; a search starts exactly for more than two characters |
| LegacyStoreModels.LegacyStoreModel.SearchStores | EatsOrder/Source/MV/MainHome/StoreModel.swift:123-134 | sends the search; loading ends off; a failure stores the search error text |
| LegacyStoreModels.LegacyStoreModel.FetchPopularSearches | EatsOrder/Source/MV/MainHome/StoreModel.swift:85-95 | the keywords on success; none, with the error stored, on failure |
| LegacyStoreModels.LegacyStoreModel.FetchNearbyStores | EatsOrder/Source/MV/MainHome/StoreModel.swift:98-120 | the page and cursor on success; no stores and cursor "0", with the error stored, on failure |
| LegacyStoreModels.LegacyStoreModel.FetchPopularStores | EatsOrder/Source/MV/MainHome/StoreModel.swift:137-147 | the request carries no category; the stores on success, none on failure |
| LegacyStoreModels.LegacyStoreModel.FetchDetail | EatsOrder/Source/MV/MainHome/StoreModel.swift:149-159 | the detail on success; the empty detail, with the error stored, on failure |
| StoreDetailScreens.MenuQuantity | EatsOrder/Source/MV/Store/View/StoreDetailScreen.swift:23-26 | no cart or no line with the id shows 0; otherwise the first such line's quantity |
| StoreDetailScreens.FirstIndexIs | EatsOrder/Source/MV/Store/View/StoreDetailScreen.swift:53 | an index holding the id with no earlier holder is the one found |
| StoreDetailScreens.CartAfterOnAdd | EatsOrder/Source/MV/Store/View/StoreDetailScreen.swift:51-69 | after the add button there is always a cart |
| StoreDetailScreens.OnAddQuantity | EatsOrder/Source/MV/Store/View/StoreDetailScreen.swift:51-69 | after the add button the cart is the menu's store's, and the menu shows one more than before when the cart was already that store's, one otherwise |
| StoreDetailScreens.OnRemoveQuantity | EatsOrder/Source/MV/Store/View/StoreDetailScreen.swift:76-86 | nothing changes unless this store's cart holds the menu; a quantity above one drops by one; otherwise the line goes and the menu shows 0 |
| StoreDetailScreens.FirstPosition | EatsOrder/Source/MV/Store/View/StoreDetailScreen.swift:140-143 | the first position of an element that occurs |
| StoreDetailScreens.FirstPositionInPrefix | EatsOrder/Source/MV/Store/View/StoreDetailScreen.swift:140-143 | an element occurring in a prefix first occurs at the same place in the whole list |
| StoreDetailScreens.Distinct | EatsOrder/Source/MV/Store/View/StoreDetailScreen.swift:140-143 | the ordered set holds each element of the list exactly once |
| StoreDetailScreens.DistinctKeepsFirstOccurrenceOrder | EatsOrder/Source/MV/Store/View/StoreDetailScreen.swift:140-143 | the ordered set lists its elements in the order they first occur |
| StoreDetailScreens.MenuCategories | EatsOrder/Source/MV/Store/View/StoreDetailScreen.swift:141 | the category of each menu, in order |
| StoreDetailScreens.Categories | EatsOrder/Source/MV/Store/View/StoreDetailScreen.swift:140-143 | every menu's category appears, each exactly once, and only those |
| StoreDetailScreens.CartBarVisible | EatsOrder/Source/MV/Store/View/StoreDetailScreen.swift:635 | the cart bar shows exactly for a cart with lines |
| StoreDetailScreens.CartBadge | EatsOrder/Source/MV/Store/View/StoreDetailScreen.swift:646 | the badge is the cart's quantity total |
| StoreDetailScreens.StoreDetailScreen.constructor | EatsOrder/Source/MV/Store/View/StoreDetailScreen.swift:19 | no stepper is shown at first |
| StoreDetailScreens.StoreDetailScreen.OnAdd | EatsOrder/Source/MV/Store/View/StoreDetailScreen.swift:51-74 | the order model's cart becomes the cart after the add button, the menu's stepper shows, and the rest of the order model stays |
| StoreDetailScreens.StoreDetailScreen.OnRemove | EatsOrder/Source/MV/Store/View/StoreDetailScreen.swift:76-91 | the order model's cart becomes the cart after the remove button, the menu's stepper shows, and the rest of the order model stays |
| StoreDetailScreens.StoreDetailScreen.StepperTimerFired | EatsOrder/Source/MV/Store/View/StoreDetailScreen.swift:72-91 | the timer firing hides that menu's stepper |
| ChatEntities.ParticipantFromDto | EatsOrder/Source/MV/User/Model/ChatModel.swift:148-156 | a participant keeps the record's id, nickname and image |
| ChatEntities.ChatFromDto | EatsOrder/Source/MV/User/Model/ChatModel.swift:158-169 | a message keeps the record's fields and has no send state |
| ChatEntities.ChatsFromDtos | EatsOrder/Source/MV/User/Model/ChatModel.swift:57 | each record maps to its message, in order |
| ChatEntities.RoomFromDto | EatsOrder/Source/MV/User/Model/ChatModel.swift:136-146 | a room keeps its id, time and participants in order, has a last message exactly when the record has one, and counts no unread messages |
| ChatEntities.RoomsFromDtos | EatsOrder/Source/MV/User/Model/ChatModel.swift:41 | each record maps to its room, in order |
| ChatModels.PageCursor | EatsOrder/Source/MV/User/Model/ChatModel.swift:66-81 | an empty page gives no cursor; any other gives the creation time of its last message |
| ChatModels.TempMessage | EatsOrder/Source/MV/User/Model/ChatModel.swift:91-96 | the placeholder has the fresh id, the room and text given, the local sender, no files and the sending state |
| ChatModels.Settled | EatsOrder/Source/MV/User/Model/ChatModel.swift:99-107 | only the first message with the temporary id changes: to the server's message on success, to failed otherwise; the list keeps its length |
| ChatModels.WithoutChat | EatsOrder/Source/MV/User/Model/ChatModel.swift:115 | exactly the messages with another id stay |
| ChatModels.SendSettlesItsOwnPlaceholder | EatsOrder/Source/MV/User/Model/ChatModel.swift:90-108 | with a fresh id and nothing in between, the send ends with the server's message, or the failed placeholder, appended to the earlier list |
| ChatModels.SettledKeepsOthers | EatsOrder/Source/MV/User/Model/ChatModel.swift:90-108 | a send leaves every earlier message where it was |
| ChatModels.DeleteKeepsOrder | EatsOrder/Source/MV/User/Model/ChatModel.swift:114-116 | deletion works piecewise, so the remaining messages keep their order, and an absent id changes nothing |
| ChatModels.ChatModel.constructor | EatsOrder/Source/MV/User/Model/ChatModel.swift:15-27 | no rooms, not loading, no error, no messages, not paging, more pages assumed, no cursor |
| ChatModels.ChatModel.FetchRooms | EatsOrder/Source/MV/User/Model/ChatModel.swift:35-46 | the rooms request; the mapped rooms on success, the error text otherwise; loading ends off |
| ChatModels.ChatModel.LoadInitialMessages | EatsOrder/Source/MV/User/Model/ChatModel.swift:61-72 | the first page without a cursor replaces the list and sets the cursor and whether a full page came; a failure keeps them |
| ChatModels.ChatModel.LoadMoreMessages | EatsOrder/Source/MV/User/Model/ChatModel.swift:75-87 | nothing without more pages or while paging; otherwise the page for the stored cursor goes in front and the cursor and the more-pages flag follow it |
| ChatModels.ChatModel.BeginSend | EatsOrder/Source/MV/User/Model/ChatModel.swift:90-97 | the placeholder is appended and the message is sent without files |
| ChatModels.ChatModel.FinishSend | EatsOrder/Source/MV/User/Model/ChatModel.swift:98-107 | the list is settled by the temporary id |
| ChatModels.ChatModel.SendMessage | EatsOrder/Source/MV/User/Model/ChatModel.swift:90-108 | the whole send: the placeholder appended, then settled |
| ChatModels.ChatModel.ResendMessage | EatsOrder/Source/MV/User/Model/ChatModel.swift:110-112 | resending sends the text again as a new message at the end and keeps every earlier message |
| ChatModels.ChatModel.DeleteMessage | EatsOrder/Source/MV/User/Model/ChatModel.swift:114-116 | every message with that id goes |
| InputFields.Message | EatsOrder/Source/SharedUI/InputField.swift:19-30 | an unjudged field shows no text; valid shows its optional text; invalid and loading show theirs |
| InputFields.IsValid | EatsOrder/Source/SharedUI/InputField.swift:71-74 | exactly the valid state counts as valid |
| InputFields.AfterTextChange | EatsOrder/Source/SharedUI/InputField.swift:104-108 | the first edit of an untouched field marks it as being edited; every other state is kept for the validator |
| InputFields.MessageOnlyWhenJudged | EatsOrder/Source/SharedUI/InputField.swift:19-114 | only a judged field shows a text, and an invalid or loading one always does |
| InputFields.TextChangeIsIdempotent | EatsOrder/Source/SharedUI/InputField.swift:104-108 | a second edit changes nothing more, and an edit never changes validity or the text shown |
| SignUpScreens.EmailVerdict | EatsOrder/Source/MV/Auth/View/SignUpScreen.swift:115-128 | an empty address is invalid, a malformed one invalid with the format text, a well-formed one waits for the server |
| SignUpScreens.NickVerdict | EatsOrder/Source/MV/Auth/View/SignUpScreen.swift:137-152 | a nickname is judged valid or invalid, never left pending |
| SignUpScreens.PhoneVerdict | EatsOrder/Source/MV/Auth/View/SignUpScreen.swift:155-176 | a phone number is judged valid or invalid |
| SignUpScreens.PasswordVerdict | EatsOrder/Source/MV/Auth/View/SignUpScreen.swift:179-207 | a password is judged valid or invalid |
| SignUpScreens.ConfirmVerdict | EatsOrder/Source/MV/Auth/View/SignUpScreen.swift:214-227 | a confirmation is judged valid or invalid |
| SignUpScreens.DuplicationVerdict | EatsOrder/Source/MV/Auth/View/SignUpScreen.swift:238-242 | the server's text is shown as valid exactly when it contains `사용 가능`, and as invalid otherwise |
| SignUpScreens.NickVerdictValidIff | EatsOrder/Source/MV/Auth/View/SignUpScreen.swift:137-152 | a nickname is valid exactly when it is non-empty and has none of `. , ? * - @` |
| SignUpScreens.PhoneVerdictValidIff | EatsOrder/Source/MV/Auth/View/SignUpScreen.swift:155-176 | a phone number is valid exactly when it is empty or, without hyphens, ten or eleven digits |
| SignUpScreens.PasswordVerdictValidIff | EatsOrder/Source/MV/Auth/View/SignUpScreen.swift:179-207 | a password is valid exactly when it has at least eight characters with a letter, a digit and one of `@$!%*#?&` |
| SignUpScreens.ConfirmVerdictValidIff | EatsOrder/Source/MV/Auth/View/SignUpScreen.swift:214-227 | a confirmation is valid exactly when it is non-empty and equals the password |
| SignUpScreens.InitialState | EatsOrder/Source/MV/Auth/View/SignUpScreen.swift:273-291 | the fresh form is not submittable, not loading, and keeps the validator invariant |
| SignUpScreens.FormValidMeansFieldsAccepted | EatsOrder/Source/MV/Auth/View/SignUpScreen.swift:300-314 | a submittable form holds a well-formed address, an acceptable nickname and password, a matching confirmation and an empty or acceptable phone number |
| SignUpScreens.EmailSignUpScreen.constructor | EatsOrder/Source/MV/Auth/View/SignUpScreen.swift:12 | the screen starts with the fresh form |
| SignUpScreens.EmailSignUpScreen.HandleEmailChange | EatsOrder/Source/MV/Auth/View/SignUpScreen.swift:115-134 | the address and its verdict are stored; the invariant is kept |
| SignUpScreens.EmailSignUpScreen.HandleNickChange | EatsOrder/Source/MV/Auth/View/SignUpScreen.swift:137-152 | the nickname and its verdict are stored; the invariant is kept |
| SignUpScreens.EmailSignUpScreen.HandlePhoneNumChange | EatsOrder/Source/MV/Auth/View/SignUpScreen.swift:155-176 | the phone number and its verdict are stored; the invariant is kept |
| SignUpScreens.EmailSignUpScreen.HandlePasswordChange | EatsOrder/Source/MV/Auth/View/SignUpScreen.swift:179-211 | the password and its verdict are stored; only an accepted password re-judges the confirmation; the invariant is kept |
| SignUpScreens.EmailSignUpScreen.HandleConfirmPasswordChange | EatsOrder/Source/MV/Auth/View/SignUpScreen.swift:214-227 | the confirmation and its verdict against the current password are stored; the invariant is kept |
| SignUpScreens.EmailSignUpScreen.ConfirmPasswordCheck | EatsOrder/Source/MV/Auth/View/SignUpScreen.swift:214-227 | only the confirmation's verdict changes |
| SignUpScreens.EmailSignUpScreen.CheckEmailDuplication | EatsOrder/Source/MV/Auth/View/SignUpScreen.swift:230-243 | nothing changes for an empty address or when the form's address is no longer well-formed; otherwise the server's verdict is shown |
| LegacySignUpScreens.NickText | EatsOrder/Source/MV/SignUpScreen.swift:197-257 | no message exactly when the nickname is non-empty and has none of `. , ? * - @` |
| LegacySignUpScreens.PasswordText | EatsOrder/Source/MV/SignUpScreen.swift:203-269 | no message exactly when the password has at least eight characters with a letter, a digit and one of `@$!%*#?&` |
| LegacySignUpScreens.ConfirmText | EatsOrder/Source/MV/SignUpScreen.swift:220-284 | no message exactly when the confirmation is non-empty and equals the password |
| LegacySignUpScreens.PhoneText | EatsOrder/Source/MV/SignUpScreen.swift:287-303 | no message exactly when the phone number is empty or, without hyphens, ten or eleven digits |
| LegacySignUpScreens.EmailText | EatsOrder/Source/MV/SignUpScreen.swift:235-246 | an empty address and a malformed one get their texts; a well-formed one keeps a server verdict already shown (`사용 가능` or `이미 사용 중`) and otherwise shows nothing |
| LegacySignUpScreens.EmailTextIsIdempotent | EatsOrder/Source/MV/SignUpScreen.swift:235-246 | validating the address twice gives the same text as once |
| LegacySignUpScreens.EmailSignUpScreenState.constructor | EatsOrder/Source/MV/SignUpScreen.swift:174-189 | the form starts empty, with no messages, not loading |
| LegacySignUpScreens.EmailSignUpScreenState.ValidateEmail | EatsOrder/Source/MV/SignUpScreen.swift:235-246 | only the e-mail message changes, to the text above |
| LegacySignUpScreens.EmailSignUpScreenState.ValidateNick | EatsOrder/Source/MV/SignUpScreen.swift:249-257 | only the nickname message changes, to the text above |
| LegacySignUpScreens.EmailSignUpScreenState.ValidatePassword | EatsOrder/Source/MV/SignUpScreen.swift:260-273 | the password message changes, and the confirmation is always re-checked |
| LegacySignUpScreens.EmailSignUpScreenState.ValidateConfirmPassword | EatsOrder/Source/MV/SignUpScreen.swift:276-284 | only the confirmation message changes, to the text above |
| LegacySignUpScreens.EmailSignUpScreenState.ValidatePhoneNum | EatsOrder/Source/MV/SignUpScreen.swift:287-303 | only the phone message changes, to the text above |
| LegacySignUpScreens.EmailSignUpScreenState.ValidateAllFields | EatsOrder/Source/MV/SignUpScreen.swift:306-312 | every message becomes its validator's text; a form the button accepts (EatsOrder/Source/MV/SignUpScreen.swift:225-232) then shows no nickname, password or confirmation message |
| SignUpViews.PhoneNeverDecides | EatsOrder/Source/MV/SignUpView.swift:157-165 | the phone number never changes the verdict, and nothing is accepted without the terms agreed |
| SignUpViews.FormValidMeansConfirmed | EatsOrder/Source/MV/SignUpView.swift:157-165 | a form the button accepts has a non-empty address, the terms agreed, and a confirmation the newer screen's rule also accepts |
| SignUpViews.WeakerPasswordRule | EatsOrder/Source/MV/SignUpView.swift:157-165 | every password the newer screen accepts passes this view's rule, but eight letters pass here and not there |
| SignInScreens.EmailVerdict | EatsOrder/Source/MV/Auth/View/SignInScreen.swift:494-508 | an empty address is invalid; a well-formed one returns the field to its untouched look rather than marking it valid; any other is invalid with the format text |
| SignInScreens.PasswordVerdict | EatsOrder/Source/MV/Auth/View/SignInScreen.swift:511-518 | a password is flagged exactly when it has fewer than eight characters; otherwise the field is untouched |
| SignInScreens.IconNameInjective | EatsOrder/Source/MV/Auth/View/SignInScreen.swift:138-144 | two sign-in kinds share a symbol exactly when they are the same kind |
| SignInScreens.IconName | EatsOrder/Source/MV/Auth/View/SignInScreen.swift:138-144 | e-mail shows the envelope, Kakao the message bubble and Apple the Apple logo, and each symbol is shown for its kind only |
| SignInScreens.LoginButtonIgnoresVerdicts | EatsOrder/Source/MV/Auth/View/SignInScreen.swift:399-402 | the button is off while loading; otherwise any two non-empty texts enable it, even with a short password or a rejected address flagged, and an enabled button never goes with the empty-address message |
| SignInScreens.EmailLoginView.constructor | EatsOrder/Source/MV/Auth/View/SignInScreen.swift:382-389 | both fields start untouched |
| SignInScreens.EmailLoginView.EmailChanged | EatsOrder/Source/MV/Auth/View/SignInScreen.swift:413-508 | the address and its verdict are stored, never as valid; the password side is untouched |
| SignInScreens.EmailLoginView.PasswordChanged | EatsOrder/Source/MV/Auth/View/SignInScreen.swift:430-518 | the password and its verdict are stored, never as valid; the address side is untouched |
| SignInScreens.EmailLoginView.SubmitPassword | EatsOrder/Source/MV/Auth/View/SignInScreen.swift:399-447 | submitting the password field logs in exactly when both texts are non-empty and no login is running |
| LegacySignInScreens.PasswordVerdict | EatsOrder/Source/MV/Auth/SignInScreen.swift:291-298 | a password is flagged exactly when it has at least eight characters; otherwise the field is untouched |
| LegacySignInScreens.PasswordRuleIsInverted | EatsOrder/Source/MV/Auth/SignInScreen.swift:291-298 | every password is flagged by exactly one of the two login forms |
| LegacySignInScreens.LoginButtonIgnoresVerdicts | EatsOrder/Source/MV/Auth/SignInScreen.swift:217-220 | the older button is the newer one without the loading guard, and it enables login for every long password although this form flags it |
| LegacySignInScreens.EmailLoginView.constructor | EatsOrder/Source/MV/Auth/SignInScreen.swift:209-212 | both fields start untouched |
| LegacySignInScreens.EmailLoginView.EmailChanged | EatsOrder/Source/MV/Auth/SignInScreen.swift:274-288 | the address and the same verdict as the newer form are stored |
| LegacySignInScreens.EmailLoginView.PasswordChanged | EatsOrder/Source/MV/Auth/SignInScreen.swift:291-298 | the password and the older verdict are stored |
| LegacySignInScreens.EmailLoginContainer.constructor | EatsOrder/Source/MV/Auth/SignInScreen.swift:188-190 | empty texts, not dismissed |
| LegacySignInScreens.EmailLoginContainer.Login | EatsOrder/Source/MV/Auth/SignInScreen.swift:192-195 | login only closes the screen |
| LikeButtons.LikeButton.IsDisabled | EatsOrder/Source/SharedUI/LikeButton.swift:80 | the button is disabled exactly while a request runs |
| LikeButtons.LikeButton.constructor | EatsOrder/Source/SharedUI/LikeButton.swift:32-47 | the shown value starts as the parent's, with no request running |
| LikeButtons.LikeButton.HandleToggle | EatsOrder/Source/SharedUI/LikeButton.swift:89-127 | a tap while a request runs is ignored; otherwise the shown value flips and the request for it starts |
| LikeButtons.LikeButton.ToggleFinished | EatsOrder/Source/SharedUI/LikeButton.swift:128-150 | success keeps the flipped value, failure restores the one from before the tap; the request is over |
| LikeButtons.LikeButton.ParentChanged | EatsOrder/Source/SharedUI/LikeButton.swift:81-86 | the parent's value is recorded; the shown value takes it only when it differs from the previous parent value (the change handler fires only on a change) and no request runs |
| LikeButtons.LikeButton.TapAndSettle | EatsOrder/Source/SharedUI/LikeButton.swift:81-150 | a tap, a parent update during the request, and the answer: the update is not shown, and the value ends flipped on success and back where it was on failure |
| LocationManagers.ErrorFrom | EatsOrder/Source/MV/MainHome/LocationManager.swift:41-62 | the app's own errors pass through unchanged; the denied, unknown and network codes map to their own cases; the three geocoder codes become a geocoding failure carrying the description; every other code or foreign error becomes a system error carrying its description |
| LocationManagers.ErrorFromIsIdempotent | EatsOrder/Source/MV/MainHome/LocationManager.swift:41-62 | mapping an already mapped error again gives the same error |
| LocationManagers.StatusFrom | EatsOrder/Source/MV/MainHome/LocationManager.swift:77-90 | authorised exactly for "always" and "when in use", undetermined exactly for "not determined" and unknown values, denied and restricted one to one; never updating or an error |
| LocationManagers.ErrorDescription | EatsOrder/Source/MV/MainHome/LocationManager.swift:23-38 | the geocoding and system error texts are their fixed prefix followed by the carried reason or message |
| LocationManagers.StatusMessage | EatsOrder/Source/MV/MainHome/LocationManager.swift:387-402 | an error status shows that error's description |
| LocationManagers.ErrorDescriptionKeepsDetail | EatsOrder/Source/MV/MainHome/LocationManager.swift:23-38 | two geocoding failures (or two system errors) show the same status line only when they carry the same text |
| LocationManagers.ErrorIfAny | EatsOrder/Source/MV/MainHome/LocationManager.swift:267-272 | there is an error exactly when the status is an error, and it is that status's error |
| LocationManagers.AddressComponents | EatsOrder/Source/MV/MainHome/LocationManager.swift:278-295 | at most four parts, and none exactly when area, locality, sub-locality and street are all missing |
| LocationManagers.FormatAddress | EatsOrder/Source/MV/MainHome/LocationManager.swift:277-302 | the present parts joined with ", "; with no parts, the placemark's name, or empty text when it has none |
| LocationManagers.FormatFullAddress | EatsOrder/Source/MV/MainHome/LocationManager.swift:277-302 | a full placemark reads area, city, district, street in that order, and its name is not used |
| LocationManagers.FormatSkipsMissing | EatsOrder/Source/MV/MainHome/LocationManager.swift:277-302 | missing middle parts leave no empty slot between the separators |
| LocationManagers.ReverseGeocode | EatsOrder/Source/MV/MainHome/LocationManager.swift:228-247 | a geocoder error becomes a geocoding failure with its description, an empty answer one with the "not found" text, and a placemark its formatted address |
| LocationManagers.RequestStarted | EatsOrder/Source/MV/MainHome/LocationManager.swift:181-191 | an unauthorised request leaves the freshly read status and the waiting flag; an authorised one is updating with the caller waiting |
| LocationManagers.TimedOut | EatsOrder/Source/MV/MainHome/LocationManager.swift:194-200 | the timer turns an updating service into the timeout error with nobody waiting and leaves every other state alone |
| LocationManagers.UpdatesStarted | EatsOrder/Source/MV/MainHome/LocationManager.swift:206-216 | continuous updates start when authorised, and otherwise the status is the permission error |
| LocationManagers.UpdatesStopped | EatsOrder/Source/MV/MainHome/LocationManager.swift:219-225 | stopping turns updating back into authorised and changes nothing else |
| LocationManagers.StopIsIdempotent | EatsOrder/Source/MV/MainHome/LocationManager.swift:219-225 | stopping twice is stopping once, and after a stop the timer changes nothing |
| LocationManagers.RequestThenTimeout | EatsOrder/Source/MV/MainHome/LocationManager.swift:181-203 | an authorised request not answered before the timer ends in the timeout error; one answered by a fix or a failure first keeps that outcome |
| LocationManagers.StartThenStop | EatsOrder/Source/MV/MainHome/LocationManager.swift:206-225 | start then stop leaves authorised when permitted and the permission error otherwise |
| LocationManagers.LocationManager.constructor | EatsOrder/Source/MV/MainHome/LocationManager.swift:155-171 | the status is read from the authorisation value, with no location and nobody waiting |
| LocationManagers.LocationManager.RequestLocation | EatsOrder/Source/MV/MainHome/LocationManager.swift:181-203 | the new status and waiting flag are those of the request transition; the permission error is thrown exactly when not authorised; the kept location is unchanged |
| LocationManagers.LocationManager.TimeoutFired | EatsOrder/Source/MV/MainHome/LocationManager.swift:194-200 | the state follows the timer transition, and the timeout error is delivered exactly when the service was updating with a caller waiting |
| LocationManagers.LocationManager.StartUpdatingLocation | EatsOrder/Source/MV/MainHome/LocationManager.swift:206-216 | the state follows the start transition; the kept location is unchanged |
| LocationManagers.LocationManager.StopUpdatingLocation | EatsOrder/Source/MV/MainHome/LocationManager.swift:219-225 | the state follows the stop transition; the kept location is unchanged |
| LocationManagers.LocationManager.DidChangeAuthorization | EatsOrder/Source/MV/MainHome/LocationManager.swift:347-354 | the status becomes the one read from the new authorisation value; a waiting caller stays waiting |
| LocationManagers.LocationManager.DidUpdateLocation | EatsOrder/Source/MV/MainHome/LocationManager.swift:305-340 | a geocoded fix is kept with its address, the status becomes authorised and a waiting caller gets that fix; a geocoding failure becomes the mapped error status, the old fix stays and a waiting caller gets the error |
| LocationManagers.LocationManager.DidFail | EatsOrder/Source/MV/MainHome/LocationManager.swift:367-380 | the status becomes the mapped error, and a waiting caller gets that error exactly when one was waiting |
| LocationManagers.LocationManager.GetErrorIfAny | EatsOrder/Source/MV/MainHome/LocationManager.swift:267-272 | the error of the current status, if it is one |
| LocationManagers.LocationManager.CurrentAddress | EatsOrder/Source/MV/MainHome/LocationManager.swift:405-407 | the kept fix's address when there is one, otherwise the waiting text |
| LocationModels.ReverseGeocodeWithDetail | EatsOrder/Source/MV/Location/LocationModel.swift:194-214 | fails exactly when the plain reverse geocoding fails and with the same error; otherwise the address is the formatted address and the detail is the placemark's name, or empty when it has none |
| LocationModels.PlacemarkLines | EatsOrder/Source/MV/Location/LocationModel.swift:194-214 | for every placemark: without components both lines show its name (or empty text), and with components the address is the components joined with ", " and the detail is the name |
| LocationModels.LocationModel.constructor | EatsOrder/Source/MV/Location/LocationModel.swift:103-126 | the status is read from the authorisation value, no location is kept, the address shows the loading text with no detail, and the recent location is the built-in default |
| LocationModels.LocationModel.RequestLocation | EatsOrder/Source/MV/Location/LocationModel.swift:147-169 | the status and waiting flag follow the request transition; the permission error is thrown exactly when not authorised; the address lines and recent location are unchanged |
| LocationModels.LocationModel.TimeoutFired | EatsOrder/Source/MV/Location/LocationModel.swift:159-167 | the state follows the timer transition and the timeout is delivered exactly when updating with a caller waiting |
| LocationModels.LocationModel.StartUpdatingLocation | EatsOrder/Source/MV/Location/LocationModel.swift:172-182 | the state follows the start transition; nothing else changes |
| LocationModels.LocationModel.StopUpdatingLocation | EatsOrder/Source/MV/Location/LocationModel.swift:185-191 | the state follows the stop transition; nothing else changes |
| LocationModels.LocationModel.DidChangeAuthorization | EatsOrder/Source/MV/Location/LocationModel.swift:367-372 | the status becomes the one read from the new authorisation value; a waiting caller stays waiting, and the address lines, the fix and the recent location are kept |
| LocationModels.LocationModel.DidUpdateLocation | EatsOrder/Source/MV/Location/LocationModel.swift:284-319 | a geocoded fix keeps only its coordinates and the status becomes authorised; a geocoding failure becomes the mapped error status and the old fix stays; nobody is left waiting |
| LocationModels.LocationModel.DidFail | EatsOrder/Source/MV/Location/LocationModel.swift:385-394 | the status becomes the mapped error and nobody is left waiting |
| LocationModels.LocationModel.RegionGeocoded | EatsOrder/Source/MV/Location/LocationModel.swift:322-342 | a settled map centre shows its address and detail, or the failure text with no detail; the location state is unchanged |
| LocationModels.LocationModel.SaveRecentLocation | EatsOrder/Source/MV/Location/LocationModel.swift:347-353 | the recent location becomes the given one exactly when it could be encoded |
| LocationModels.LocationModel.LoadRecentLocation | EatsOrder/Source/MV/Location/LocationModel.swift:355-360 | the recent location becomes the stored one when one could be read back, and stays otherwise |
| LocationModels.LocationModel.GetErrorIfAny | EatsOrder/Source/MV/Location/LocationModel.swift:246-251 | the error of the current status, if it is one |
| LocationModels.LocationModel.CurrentAddress | EatsOrder/Source/MV/Location/LocationModel.swift:419-421 | always the waiting text |
| ImageCaches.Utf8 | EatsOrder/Source/Core/SharedUI/CachedAsyncImage.swift:371-376 | one to four bytes, each below 256, with the length readable from the first byte |
| ImageCaches.Utf8RoundTrip | EatsOrder/Source/Core/SharedUI/CachedAsyncImage.swift:371-376 | reading the bytes back gives the character's code point |
| ImageCaches.Utf8Injective | EatsOrder/Source/Core/SharedUI/CachedAsyncImage.swift:371-376 | two characters with the same bytes are the same character |
| ImageCaches.HexDigit | EatsOrder/Source/Core/SharedUI/CachedAsyncImage.swift:371-376 | digits below ten are '0' to '9' and the rest upper-case 'A' to 'F' |
| ImageCaches.Hex | EatsOrder/Source/Core/SharedUI/CachedAsyncImage.swift:371-376 | every byte is two letters or digits |
| ImageCaches.HexInjective | EatsOrder/Source/Core/SharedUI/CachedAsyncImage.swift:371-376 | two bytes with the same two hexadecimal digits are the same byte |
| ImageCaches.Escape | EatsOrder/Source/Core/SharedUI/CachedAsyncImage.swift:371-376 | three characters per byte, each a '%', a letter or a digit, with each byte's '%' followed by its digits |
| ImageCaches.EscapeInjective | EatsOrder/Source/Core/SharedUI/CachedAsyncImage.swift:371-376 | two byte strings with the same escape are equal |
| ImageCaches.Token | EatsOrder/Source/Core/SharedUI/CachedAsyncImage.swift:373 | an alphanumeric character is kept as itself and any other becomes the escape of its UTF-8 bytes |
| ImageCaches.PercentEncoded | EatsOrder/Source/Core/SharedUI/CachedAsyncImage.swift:373 | never shorter than the input, and made only of '%' and alphanumerics |
| ImageCaches.ReplacePercent | EatsOrder/Source/Core/SharedUI/CachedAsyncImage.swift:374 | the same length, with exactly the '%' characters turned into '_' |
| ImageCaches.SafeFilename | EatsOrder/Source/Core/SharedUI/CachedAsyncImage.swift:371-376 | the file name has no '%' and is made only of '_' and alphanumerics |
| ImageCaches.SafeFilenameKeepsAlphanumerics | EatsOrder/Source/Core/SharedUI/CachedAsyncImage.swift:371-376 | a URL of alphanumerics only is its own file name |
| ImageCaches.PercentEncodedKeepsAlphanumerics | EatsOrder/Source/Core/SharedUI/CachedAsyncImage.swift:373 | percent-encoding leaves a string of alphanumerics unchanged |
| ImageCaches.TokenPrefixFree | EatsOrder/Source/Core/SharedUI/CachedAsyncImage.swift:373 | no character's encoding is a prefix of another's, so an encoding splits in only one way |
| ImageCaches.PercentEncodedInjective | EatsOrder/Source/Core/SharedUI/CachedAsyncImage.swift:373 | two strings with the same percent-encoding are equal |
| ImageCaches.SafeFilenameInjective | EatsOrder/Source/Core/SharedUI/CachedAsyncImage.swift:371-376 | two URLs share a cache key exactly when they are the same URL |
| ImageCaches.LoaderStepsKeepWillSettle | EatsOrder/Source/Core/SharedUI/CachedAsyncImage.swift:414-457 | loading, cancelling and an answer each keep "a loading state holds a task that will still answer" |
| ImageCaches.EmptyUrlFails | EatsOrder/Source/Core/SharedUI/CachedAsyncImage.swift:416-422 | an empty URL fails with the bad-URL error and the held task is cancelled |
| ImageCaches.LoadStartsUnlessShownWithoutTask | EatsOrder/Source/Core/SharedUI/CachedAsyncImage.swift:424-431 | a load starts a fresh task and shows progress exactly unless an image is shown with no task held, in which case nothing changes |
| ImageCaches.CancelIsFinal | EatsOrder/Source/Core/SharedUI/CachedAsyncImage.swift:450-457 | cancelling twice is cancelling once, no answer changes anything after a cancel, and a cancelled loader never shows progress |
| ImageCaches.LoadThenAnswer | EatsOrder/Source/Core/SharedUI/CachedAsyncImage.swift:414-448 | a started load shows the image on success and the error on failure |
| ImageCaches.ShownImageKeptOnlyAfterCancel | EatsOrder/Source/Core/SharedUI/CachedAsyncImage.swift:424-427 | after a successful load, the same load starts over; it keeps the image only after a cancel has dropped its task |
| ImageCaches.ImageOf | EatsOrder/Source/Core/SharedUI/CachedAsyncImage.swift:393-398 | an image exactly in the success state, and it is that image |
| ImageCaches.ErrorOf | EatsOrder/Source/Core/SharedUI/CachedAsyncImage.swift:407-412 | an error exactly in the failure state, and it is that error |
| ImageCaches.AccessorsAreExclusive | EatsOrder/Source/Core/SharedUI/CachedAsyncImage.swift:393-412 | the image and the error are never both present, and neither is present while loading or idle |
| ImageCaches.ImageLoader.constructor | EatsOrder/Source/Core/SharedUI/CachedAsyncImage.swift:390-391 | idle with no task |
| ImageCaches.ImageLoader.LoadImage | EatsOrder/Source/Core/SharedUI/CachedAsyncImage.swift:414-448 | the new state and task are those of the load transition |
| ImageCaches.ImageLoader.Cancel | EatsOrder/Source/Core/SharedUI/CachedAsyncImage.swift:450-457 | the new state and task are those of the cancel transition |
| ImageCaches.ImageLoader.TaskCompleted | EatsOrder/Source/Core/SharedUI/CachedAsyncImage.swift:432-446 | the answer is written only by a task that is neither cancelled nor already done |
| ImageCaches.ImageLoader.LoadedImage | EatsOrder/Source/Core/SharedUI/CachedAsyncImage.swift:393-398 | the image of the current state |
| ImageCaches.ImageLoader.IsLoading | EatsOrder/Source/Core/SharedUI/CachedAsyncImage.swift:400-405 | true exactly while loading |
| ImageCaches.ImageLoader.LoadError | EatsOrder/Source/Core/SharedUI/CachedAsyncImage.swift:407-412 | the error of the current state |
| ImageCaches.ValidationOutcomes | EatsOrder/Source/Core/SharedUI/CachedAsyncImage.swift:193-240 | the conditional request succeeds exactly on 304, which keeps the current image, or on 200 with a decodable body, which gives the new image; any other status is a bad server response |
| ImageCaches.DownloadIsStricterThanValidation | EatsOrder/Source/Core/SharedUI/CachedAsyncImage.swift:243-275 | the download succeeds exactly on 200 with a decodable body, then agrees with the conditional request; a 304 is a bad server response |
| ImageCaches.DiskEntryIsOnlyValidated | EatsOrder/Source/Core/SharedUI/CachedAsyncImage.swift:69-95 | with a disk entry the plain download is never consulted, the download task succeeds exactly when the validation request does, and the entry keeps the disk's validators and is not written back to disk |
| ImageCaches.NoDiskEntryDownloads | EatsOrder/Source/Core/SharedUI/CachedAsyncImage.swift:69-95 | with no disk entry the validation request is never consulted and the download decides; its result also goes to disk |
| ImageCaches.ImageCacheManager.constructor | EatsOrder/Source/Core/SharedUI/CachedAsyncImage.swift:14-18 | empty memory and no running downloads |
| ImageCaches.ImageCacheManager.LoadImage | EatsOrder/Source/Core/SharedUI/CachedAsyncImage.swift:49-97 | a memory entry younger than a day is returned and nothing changes; otherwise the key's entry is dropped, and the running download for the same URL is joined or a new one is registered for it |
| ImageCaches.ImageCacheManager.DownloadFinished | EatsOrder/Source/Core/SharedUI/CachedAsyncImage.swift:69-107 | a successful task is cached in memory under the key and returned; a failure is passed on with the memory unchanged; either way the key's running download is forgotten |
| ImageCaches.ImageCacheManager.CancelDownload | EatsOrder/Source/Core/SharedUI/CachedAsyncImage.swift:278-282 | only the key's running download is removed |
| ImageCaches.ImageCacheManager.ClearMemoryCache | EatsOrder/Source/Core/SharedUI/CachedAsyncImage.swift:285-287 | memory is emptied and running downloads stay |
| ImageCaches.ImageCacheManager.ClearAllCache | EatsOrder/Source/Core/SharedUI/CachedAsyncImage.swift:290-307 | memory and running downloads are both emptied |
| ImageCaches.ImageCacheManager.ActiveDownloadsCount | EatsOrder/Source/Core/SharedUI/CachedAsyncImage.swift:349-351 | the number of running downloads |

## Left out

- Concurrency. Actor interleaving, `MainActor` hops, `Task` cancellation timing and `CheckedContinuation` resumption are modelled sequentially. A waiting caller is a `waiting` flag, and a task is a record with `cancelled` and `finished` flags.
- OrderModels.ToEntity: the order's store is reduced to its id and name. The Swift mapping (EatsOrder/Source/MV/Store/Model/OrderModel.swift:180-200) also copies the category, closing time, image URLs, hash tags, coordinates and dates, and fills the pick, Picchelin, rating and count fields with constants (`false`, `0`) and the distance with nil. None of these is modelled, because no core operation reads the order's store beyond its id and name.
- NetworkServices.ConfigUrl: does not model a nil `URLComponents` or a nil `components.url` (EatsOrder/Source/Service/NetworkService.swift:115-121), because URL parsing is outside the model; every endpoint with a base URL gets a URL.
- NetworkServices.ConfigRequest: does not model a body whose `try?` JSON encoding fails and leaves `httpBody` nil (EatsOrder/Source/Service/NetworkService.swift:133-135), because JSON encoding is outside the model; the request carries the endpoint's body as it is.
- Transport and serialisation. `URLSession`, JSON encoding and decoding, and `UIImage(data:)` are given outcomes. A body that decodes or not, an `encoded` flag, and an optional decoded image stand in for them.
- Persistence. `UserDefaults` is either the token store's two fields or a given stored value (the recent location). The disk image cache (`FileManager`, `loadFromDisk`, `storeEntry`, `getCacheSize`, directory clean-up) is a given disk answer.
- `NSCache` eviction, count and cost limits. The memory-warning observer is also left out.
- Platform SDKs and app lifecycle: Kakao and Apple sign-in, the payment SDK, Firebase, and the sign-up screens' `signUp()` network calls.
- The chat socket service, `connectSocket`/`disconnectSocket`, `createOrFetchRoom` and `uploadFiles` in the chat model. They are transport calls with no state of their own. Their endpoint descriptors are modelled.
- The logging middleware is only a logging side effect. It is a middleware whose verdict is always a pass.
- E-mail regexes are an uninterpreted predicate `isEmailValid`.
- Password regexes are ASCII character-class tests.
- Foundation's non-ASCII alphanumerics are a given predicate `unicodeAlnum`.
- `isNumber` is treated as ASCII digits.
- `String.count` counts characters here, not grapheme clusters.
- `safeFilename`'s `hashValue` fallback is left out: percent-encoding a well-formed Swift string does not fail.
- Floating point and dates. Coordinates, the distance sort key, `paidAt` and cache ages are integer stand-ins. `Double` query values are carried as their text. `Date()` and UUIDs are parameters.
- Date formatting helpers are left out.
- Location helpers: `hasValidLocation` (the 600-second window), `getCurrentCoordinates`, `locationSummary` (`String(format:)`) and `requestLocationPermission`.
- The map region's debounce and duplicate filtering are left out. `RegionGeocoded` is the moment a settled region's geocoding answers.
- The store detail screen's stepper `Timer` invalidation and the three-second delay are left out. A timer firing is a method call.
- Animations and all view bodies are left out.
- The image requests' auth headers and the image cache's `URL(string:)` failure are left out. A failed request is an `Err` answer.
- A stale download-task removal racing a newer task for the same key is left out: with sequential calls it cannot occur.
- Header field names are compared case-sensitively here; Foundation compares them case-insensitively.
- Swift `Int` overflow in totals and counters is not modelled, because integers here are unbounded.
