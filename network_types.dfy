// The value types shared by the request pipeline: the error cases a request
// can throw, the HTTP method enum, the encodable request bodies, and the
// endpoint descriptor every endpoint enum is turned into.
module NetworkTypes {
  import opened Wrappers

  /** The errors of the pipeline. `authenticationFailed` is built with a
    * message by every caller, so the model gives it that payload. */
  datatype NetworkError =
    | InvalidUrl
    | InvalidResponse
    | DecodingError(reason: string)
    | ServerError(statusCode: int)
    | AuthenticationFailed(message: string)
    | AuthRetryNeeded
    | MaxRetriesExceeded

  /** A thrown error: either a NetworkError, or some other error (a
    * transport failure such as a URL loading error) known only by its
    * description. */
  datatype ClientError = Net(error: NetworkError) | Foreign(description: string)

  datatype NetworkMethod = Get | Post | Put | Delete

  /** The enum's raw value, which becomes the request's HTTP method. */
  function MethodRawValue(m: NetworkMethod): (raw: string)
    ensures |raw| >= 3
  {
    match m
    case Get => "GET"
    case Post => "POST"
    case Put => "PUT"
    case Delete => "DELETE"
  }

  /** `NetworkMethod(rawValue:)`. */
  function MethodFromRawValue(raw: string): (m: Option<NetworkMethod>)
    ensures m.Some? ==> MethodRawValue(m.value) == raw
  {
    if raw == "GET" then Some(Get)
    else if raw == "POST" then Some(Post)
    else if raw == "PUT" then Some(Put)
    else if raw == "DELETE" then Some(Delete)
    else None
  }

  lemma MethodRawValueRoundTrip(m: NetworkMethod)
    ensures MethodFromRawValue(MethodRawValue(m)) == Some(m)
  {
  }

  /** A URL query item; every item the endpoints build has a value. */
  datatype QueryItem = QueryItem(name: string, value: string)

  /** One ordered line of an order; the `menu_id`/`quantity` pair. */
  datatype OrderMenu = OrderMenu(menuId: string, quantity: int)

  /** The request bodies the endpoints encode, one per request DTO. */
  datatype Body =
    | EmailValidationBody(email: string)
    | JoinBody(email: string, password: string, nick: string, phoneNum: string, deviceToken: string)
    | LoginBody(email: string, password: string, deviceToken: string)
    | KakaoLoginBody(oauthToken: string, deviceToken: string)
    | AppleLoginBody(idToken: string, deviceToken: string, appleNick: Option<string>)
    | StoreLikeBody(likeStatus: bool)
    | OrderCreateBody(storeId: string, orderMenuList: seq<OrderMenu>, totalPrice: int)
    | OrderStatusUpdateBody(nextStatus: string)
    | ChatRoomCreateBody(opponentId: string)
    | ChatSendBody(content: string, files: Option<seq<string>>)
    | ChatFilesUploadBody(uploadFiles: seq<string>)

  /** The configuration the endpoints read: the two parsed base URLs (each
    * absent when its configured string is not a URL) and the API key. */
  datatype Environment = Environment(baseUrl: Option<string>, baseUrlV1: Option<string>, apiKey: string)

  /** What an endpoint enum case describes: the fields of the endpoint
    * protocol that the service reads. */
  datatype Endpoint = Endpoint(
    baseUrl: Option<string>,
    path: string,
    networkMethod: NetworkMethod,
    parameters: Option<seq<QueryItem>>,
    headers: Option<map<string, string>>,
    body: Option<Body>)

  /** A resolved URL: base, appended path component and query items. */
  datatype Url = Url(base: string, path: string, query: Option<seq<QueryItem>>)

  /** The URL request the service sends. */
  datatype UrlRequest = UrlRequest(
    url: Url,
    httpMethod: string,
    headers: map<string, string>,
    body: Option<Body>)

  /** The two header constants almost every endpoint sends. */
  function JsonHeaders(env: Environment): (h: map<string, string>)
    ensures h.Keys == {"Content-Type", "SeSACKey"}
    ensures h["Content-Type"] == "application/json" && h["SeSACKey"] == env.apiKey
  {
    map["Content-Type" := "application/json", "SeSACKey" := env.apiKey]
  }

  /** A caught error, as `handleError` sees it: whether it is a
    * NetworkError, and its localized description. */
  datatype Failure = Failure(isNetworkError: bool, description: string)

  /** The error a request threw, as a caught error; `networkErrorText` is
    * the localized description the runtime gives a NetworkError. */
  function FailureOf(e: ClientError, networkErrorText: string): (f: Failure)
    ensures f.isNetworkError <==> e.Net?
  {
    match e
    case Net(_) => Failure(true, networkErrorText)
    case Foreign(d) => Failure(false, d)
  }
}
