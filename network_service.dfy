// The request pipeline: URL and request construction, the middleware chain
// around a send, the one-retry loop, and the raw request that bypasses the
// chain. The transport is a given outcome per attempt.
module NetworkServices {
  import opened Wrappers
  import opened NetworkTypes
  import TokenStore

  /** What one send returns: an HTTP response whose body decodes to a value
    * or fails with the decoder's description, a response that is not HTTP,
    * or a thrown transport error. */
  datatype Response<T> =
    | HttpResponse(statusCode: int, decoded: Result<T, string>)
    | NonHttpResponse
    | TransportFailure(description: string)

  /** What the middleware read while preparing: the stored tokens, and the
    * request id the logging middleware stamps (built from the URL and the
    * clock). */
  datatype Context = Context(accessToken: string, refreshToken: string, requestId: string)

  /** One attempt of a request: the context at prepare time, the response,
    * and whether the refresh handler succeeds if a middleware calls it. */
  datatype Attempt<T> = Attempt(context: Context, response: Response<T>, refreshSucceeds: bool)

  /** The two middleware the app registers. */
  datatype Middleware = AuthMiddleware | LoggingMiddleware

  /** What a request does, in order. */
  datatype Event =
    | Prepared(index: nat)
    | Sent(request: UrlRequest)
    | Consulted(index: nat)
    | RefreshHandlerCalled
    | ExpiredHandlerCalled

  /** A result together with the events that produced it. */
  datatype Execution<T> = Execution(result: Result<T, ClientError>, trace: seq<Event>)

  // ---------------------------------------------------------------------
  // URL and request construction

  /** `configUrl`: no base URL, no URL. */
  function ConfigUrl(e: Endpoint): (u: Option<Url>)
    ensures u.None? <==> e.baseUrl.None?
    ensures u.Some? ==> u.value == Url(e.baseUrl.value, e.path, e.parameters)
  {
    match e.baseUrl
    case None => None
    case Some(base) => Some(Url(base, e.path, e.parameters))
  }

  /** The request `configRequest` builds: method raw value, the endpoint's
    * headers, and its body when it has one. */
  function BuildRequest(url: Url, e: Endpoint): UrlRequest
  {
    UrlRequest(url, MethodRawValue(e.networkMethod),
               if e.headers.Some? then e.headers.value else map[], e.body)
  }

  /** `configRequest`: sets the endpoint's headers one key at a time, in
    * whatever order the dictionary yields them, on a request that has none. */
  method ConfigRequest(url: Url, e: Endpoint) returns (req: UrlRequest)
    ensures req == BuildRequest(url, e)
    ensures e.headers.Some? ==> req.headers == e.headers.value
    ensures req.body == e.body
  {
    req := UrlRequest(url, MethodRawValue(e.networkMethod), map[], None);
    if e.headers.Some? {
      var h := e.headers.value;
      var remaining := h.Keys;
      while remaining != {}
        invariant remaining <= h.Keys
        invariant req.url == url && req.httpMethod == MethodRawValue(e.networkMethod) && req.body.None?
        invariant req.headers == map k | k in h.Keys - remaining :: h[k]
        decreases remaining
      {
        var key :| key in remaining;
        req := req.(headers := req.headers[key := h[key]]);
        remaining := remaining - {key};
      }
      assert req.headers == h;
    }
    if e.body.Some? {
      req := req.(body := e.body);
    }
  }

  // ---------------------------------------------------------------------
  // The middleware

  /** `URLRequest.addValue`: a value for a field already present is
    * appended to it after a comma. */
  function AddValue(headers: map<string, string>, field: string, value: string): (h: map<string, string>)
    ensures h.Keys == headers.Keys + {field}
    ensures h[field] == if field in headers then headers[field] + "," + value else value
    ensures forall k :: k in headers && k != field ==> h[k] == headers[k]
  {
    if field in headers then headers[field := headers[field] + "," + value] else headers[field := value]
  }

  /** `prepare`: the auth middleware adds the access token as
    * `Authorization` when the store holds both tokens; the logging
    * middleware sets `X-Request-ID`. */
  function Prepare(m: Middleware, req: UrlRequest, ctx: Context): (r: UrlRequest)
    ensures r.url == req.url && r.httpMethod == req.httpMethod && r.body == req.body
    ensures m.AuthMiddleware? && TokenStore.LoggedIn(ctx.accessToken, ctx.refreshToken) ==>
      r.headers == AddValue(req.headers, "Authorization", ctx.accessToken)
    ensures m.AuthMiddleware? && !TokenStore.LoggedIn(ctx.accessToken, ctx.refreshToken) ==> r == req
    ensures m.LoggingMiddleware? ==> r.headers == req.headers["X-Request-ID" := ctx.requestId]
  {
    match m
    case AuthMiddleware =>
      if TokenStore.LoggedIn(ctx.accessToken, ctx.refreshToken) then
        req.(headers := AddValue(req.headers, "Authorization", ctx.accessToken))
      else req
    case LoggingMiddleware => req.(headers := req.headers["X-Request-ID" := ctx.requestId])
  }

  /** Every middleware's `prepare`, first to last. */
  function PrepareAll(ms: seq<Middleware>, req: UrlRequest, ctx: Context): UrlRequest
  {
    if ms == [] then req
    else Prepare(ms[|ms| - 1], PrepareAll(ms[..|ms| - 1], req, ctx), ctx)
  }

  const RefreshFailedMessage := "토큰 갱신 실패. 다시 로그인해주세요."
  const SessionExpiredMessage := "세션이 만료되었습니다. 다시 로그인해주세요."

  /** `process` on an error status: its verdict (`success(retry)` or
    * `failure(error)`) and the handler calls it makes. */
  function Process(m: Middleware, status: int, refreshSucceeds: bool): (Result<bool, NetworkError>, seq<Event>)
  {
    match m
    case LoggingMiddleware => (Ok(false), [])
    case AuthMiddleware =>
      if status == 419 then
        if refreshSucceeds then (Ok(true), [RefreshHandlerCalled])
        else (Err(AuthenticationFailed(RefreshFailedMessage)), [RefreshHandlerCalled, ExpiredHandlerCalled])
      else if status == 418 then
        (Err(AuthenticationFailed(SessionExpiredMessage)), [ExpiredHandlerCalled])
      else (Ok(false), [])
  }

  /** The auth middleware's status policy. */
  lemma AuthProcessPolicy(status: int, refreshSucceeds: bool)
    ensures status == 419 && refreshSucceeds ==>
      Process(AuthMiddleware, status, refreshSucceeds) == (Ok(true), [RefreshHandlerCalled])
    ensures status == 419 && !refreshSucceeds ==>
      Process(AuthMiddleware, status, refreshSucceeds).0 == Err(AuthenticationFailed(RefreshFailedMessage)) &&
      Process(AuthMiddleware, status, refreshSucceeds).1 == [RefreshHandlerCalled, ExpiredHandlerCalled]
    ensures status == 418 ==>
      Process(AuthMiddleware, status, refreshSucceeds) == (Err(AuthenticationFailed(SessionExpiredMessage)), [ExpiredHandlerCalled])
    ensures status != 418 && status != 419 ==> Process(AuthMiddleware, status, refreshSucceeds) == (Ok(false), [])
  {
  }

  /** Result of scanning the verdicts: the error thrown, if any middleware
    * objected, and the events of the middleware consulted. */
  datatype Scan = Scan(objection: Option<NetworkError>, events: seq<Event>)

  /** The `for m in middleware` loop over verdicts, from index `j` on: the
    * first `success(true)` throws `authRetryNeeded`, the first
    * `failure(e)` throws `e`, and later middleware are not consulted. */
  function ScanFrom(ms: seq<Middleware>, j: nat, status: int, refreshSucceeds: bool): Scan
    decreases |ms| - j
  {
    if j >= |ms| then Scan(None, [])
    else
      var (verdict, effects) := Process(ms[j], status, refreshSucceeds);
      var here := [Consulted(j)] + effects;
      match verdict
      case Ok(retry) =>
        if retry then Scan(Some(AuthRetryNeeded), here)
        else var rest := ScanFrom(ms, j + 1, status, refreshSucceeds); Scan(rest.objection, here + rest.events)
      case Err(err) => Scan(Some(err), here)
  }

  /** One step of the scan: the verdict of middleware `j` decides, or the
    * scan goes on with `j + 1`. */
  lemma ScanStep(ms: seq<Middleware>, j: nat, status: int, refreshSucceeds: bool)
    requires j < |ms|
    ensures var (verdict, effects) := Process(ms[j], status, refreshSucceeds);
      var here := [Consulted(j)] + effects;
      var s := ScanFrom(ms, j, status, refreshSucceeds);
      var rest := ScanFrom(ms, j + 1, status, refreshSucceeds);
      (verdict == Ok(true) ==> s == Scan(Some(AuthRetryNeeded), here)) &&
      (verdict.Err? ==> s == Scan(Some(verdict.error), here)) &&
      (verdict == Ok(false) ==> s == Scan(rest.objection, here + rest.events))
  {
  }

  /** Status codes that skip the chain and go to decoding. */
  predicate InAcceptedRange(status: int)
  {
    200 <= status <= 304
  }

  function Decode<T>(decoded: Result<T, string>): (r: Result<T, ClientError>)
    ensures r.Ok? <==> decoded.Ok?
    ensures r.Ok? ==> r.value == decoded.value
    ensures r.Err? ==> r.error == Net(DecodingError(decoded.error))
  {
    match decoded
    case Ok(v) => Ok(v)
    case Err(reason) => Err(Net(DecodingError(reason)))
  }

  /** `executeRequest` as a function of the middleware list, the endpoint
    * and the attempt's outcome. */
  function Execute<T>(ms: seq<Middleware>, e: Endpoint, a: Attempt<T>): Execution<T>
  {
    match ConfigUrl(e)
    case None => Execution(Err(Net(InvalidUrl)), [])
    case Some(url) =>
      var req := PrepareAll(ms, BuildRequest(url, e), a.context);
      var sent := seq(|ms|, i requires 0 <= i < |ms| => Prepared(i)) + [Sent(req)];
      match a.response
      case TransportFailure(d) => Execution(Err(Foreign(d)), sent)
      case NonHttpResponse => Execution(Err(Net(InvalidResponse)), sent)
      case HttpResponse(status, decoded) =>
        if InAcceptedRange(status) then Execution(Decode(decoded), sent)
        else
          var scan := ScanFrom(ms, 0, status, a.refreshSucceeds);
          var err := if scan.objection.Some? then scan.objection.value else ServerError(status);
          Execution(Err(Net(err)), sent + scan.events)
  }

  /** `request`: the first attempt, and a second one only when the first
    * threw `authRetryNeeded`; the second attempt's error, whatever it is,
    * is rethrown. Also returns the number of attempts. */
  function RequestOutcome<T>(ms: seq<Middleware>, e: Endpoint, transport: nat -> Attempt<T>): (Execution<T>, nat)
  {
    var first := Execute(ms, e, transport(0));
    if first.result == Err(Net(AuthRetryNeeded)) then
      var second := Execute(ms, e, transport(1));
      (Execution(second.result, first.trace + second.trace), 2)
    else (first, 1)
  }

  /** `rawRequest` with `processResponse`: no middleware, and only
    * 200...299 is accepted. */
  function RawRequest<T>(e: Endpoint, response: Response<T>): (x: Execution<T>)
    ensures e.baseUrl.None? ==> x == Execution(Err(Net(InvalidUrl)), [])
    ensures forall i :: 0 <= i < |x.trace| ==> x.trace[i].Sent?
    ensures |x.trace| <= 1
    ensures response.HttpResponse? && e.baseUrl.Some? ==>
      x.result == if 200 <= response.statusCode <= 299 then Decode(response.decoded)
                  else Err(Net(ServerError(response.statusCode)))
  {
    match ConfigUrl(e)
    case None => Execution(Err(Net(InvalidUrl)), [])
    case Some(url) =>
      var sent := [Sent(BuildRequest(url, e))];
      match response
      case TransportFailure(d) => Execution(Err(Foreign(d)), sent)
      case NonHttpResponse => Execution(Err(Net(InvalidResponse)), sent)
      case HttpResponse(status, decoded) =>
        if 200 <= status <= 299 then Execution(Decode(decoded), sent)
        else Execution(Err(Net(ServerError(status))), sent)
  }

  // ---------------------------------------------------------------------
  // Properties of the chain and of the retry loop

  /** The first middleware whose verdict is not `success(false)` decides:
    * `success(true)` throws `authRetryNeeded`, `failure(e)` throws `e`,
    * and no middleware after it is consulted. */
  lemma {:induction false} ScanFirstObjection(ms: seq<Middleware>, j: nat, k: nat, status: int, refreshSucceeds: bool)
    requires j <= k < |ms|
    requires forall i :: j <= i < k ==> Process(ms[i], status, refreshSucceeds).0 == Ok(false)
    requires Process(ms[k], status, refreshSucceeds).0 != Ok(false)
    ensures var verdict := Process(ms[k], status, refreshSucceeds).0;
      ScanFrom(ms, j, status, refreshSucceeds).objection ==
        Some(if verdict == Ok(true) then AuthRetryNeeded else verdict.error)
    ensures forall ev :: ev in ScanFrom(ms, j, status, refreshSucceeds).events && ev.Consulted? ==>
      j <= ev.index <= k
    decreases k - j
  {
    ScanStep(ms, j, status, refreshSucceeds);
    if j < k {
      ScanFirstObjection(ms, j + 1, k, status, refreshSucceeds);
    }
  }

  /** When every verdict is `success(false)`, nothing objects and every
    * middleware is consulted exactly once, in registration order. */
  lemma {:induction false} ScanAllPass(ms: seq<Middleware>, j: nat, status: int, refreshSucceeds: bool)
    requires j <= |ms|
    requires forall i :: j <= i < |ms| ==> Process(ms[i], status, refreshSucceeds).0 == Ok(false)
    ensures ScanFrom(ms, j, status, refreshSucceeds).objection.None?
    ensures ScanFrom(ms, j, status, refreshSucceeds).events ==
      seq(|ms| - j, i requires 0 <= i < |ms| - j => Consulted(j + i))
    decreases |ms| - j
  {
    if j < |ms| {
      ScanStep(ms, j, status, refreshSucceeds);
      ScanAllPass(ms, j + 1, status, refreshSucceeds);
      assert Process(ms[j], status, refreshSucceeds).1 == [];
    }
  }

  /** The chain only ever throws `authRetryNeeded` or an
    * `authenticationFailed`. */
  lemma {:induction false} ScanObjectionKinds(ms: seq<Middleware>, j: nat, status: int, refreshSucceeds: bool)
    ensures var o := ScanFrom(ms, j, status, refreshSucceeds).objection;
      o.Some? ==> o.value == AuthRetryNeeded || o.value.AuthenticationFailed?
    decreases |ms| - j
  {
    if j < |ms| {
      ScanStep(ms, j, status, refreshSucceeds);
      ScanObjectionKinds(ms, j + 1, status, refreshSucceeds);
    }
  }

  /** `executeRequest` never throws `maxRetriesExceeded`. */
  lemma ExecuteNeverMaxRetries<T>(ms: seq<Middleware>, e: Endpoint, a: Attempt<T>)
    ensures Execute(ms, e, a).result != Err(Net(MaxRetriesExceeded))
  {
    if ConfigUrl(e).Some? && a.response.HttpResponse? && !InAcceptedRange(a.response.statusCode) {
      ScanObjectionKinds(ms, 0, a.response.statusCode, a.refreshSucceeds);
    }
  }

  /** The `maxRetriesExceeded` after the loop is unreachable: `request`
    * never throws it, and a second `authRetryNeeded` is rethrown as is. */
  lemma RequestNeverMaxRetries<T>(ms: seq<Middleware>, e: Endpoint, transport: nat -> Attempt<T>)
    ensures RequestOutcome(ms, e, transport).0.result != Err(Net(MaxRetriesExceeded))
    ensures Execute(ms, e, transport(0)).result == Err(Net(AuthRetryNeeded)) &&
            Execute(ms, e, transport(1)).result == Err(Net(AuthRetryNeeded)) ==>
            RequestOutcome(ms, e, transport).0.result == Err(Net(AuthRetryNeeded))
  {
    ExecuteNeverMaxRetries(ms, e, transport(0));
    ExecuteNeverMaxRetries(ms, e, transport(1));
  }

  /** On the first attempt every error other than `authRetryNeeded` is
    * rethrown unchanged and there is no second attempt. */
  lemma RequestRethrowsFirstError<T>(ms: seq<Middleware>, e: Endpoint, transport: nat -> Attempt<T>)
    requires Execute(ms, e, transport(0)).result != Err(Net(AuthRetryNeeded))
    ensures RequestOutcome(ms, e, transport) == (Execute(ms, e, transport(0)), 1)
  {
  }

  /** A status in 200...304 consults no middleware; the body is decoded, and
    * a body that fails to decode throws `decodingError`. */
  lemma AcceptedStatusSkipsChain<T>(ms: seq<Middleware>, e: Endpoint, a: Attempt<T>)
    requires e.baseUrl.Some? && a.response.HttpResponse? && InAcceptedRange(a.response.statusCode)
    ensures var x := Execute(ms, e, a);
      x.result == Decode(a.response.decoded) &&
      forall i :: 0 <= i < |x.trace| ==> !x.trace[i].Consulted?
  {
  }

  /** Before the send, each middleware's `prepare` runs once, in
    * registration order, and the request sent is the prepared one. */
  lemma PreparesBeforeSend<T>(ms: seq<Middleware>, e: Endpoint, a: Attempt<T>)
    requires e.baseUrl.Some?
    ensures var x := Execute(ms, e, a);
      |x.trace| > |ms| &&
      (forall i :: 0 <= i < |ms| ==> x.trace[i] == Prepared(i)) &&
      x.trace[|ms|] == Sent(PrepareAll(ms, BuildRequest(ConfigUrl(e).value, e), a.context)) &&
      (forall i :: |ms| < i < |x.trace| ==> !x.trace[i].Prepared? && !x.trace[i].Sent?)
  {
    var url := ConfigUrl(e).value;
    if a.response.HttpResponse? && !InAcceptedRange(a.response.statusCode) {
      ScanEventsKinds(ms, 0, a.response.statusCode, a.refreshSucceeds);
    }
  }

  lemma {:induction false} ScanEventsKinds(ms: seq<Middleware>, j: nat, status: int, refreshSucceeds: bool)
    ensures forall ev :: ev in ScanFrom(ms, j, status, refreshSucceeds).events ==> !ev.Prepared? && !ev.Sent?
    decreases |ms| - j
  {
    if j < |ms| {
      ScanStep(ms, j, status, refreshSucceeds);
      ScanEventsKinds(ms, j + 1, status, refreshSucceeds);
    }
  }

  /** `rawRequest` bypasses the chain, so a 300...304 response that
    * `executeRequest` would decode is a `serverError` there. */
  lemma RawRequestRejectsRedirectRange<T>(ms: seq<Middleware>, e: Endpoint, a: Attempt<T>)
    requires e.baseUrl.Some? && a.response.HttpResponse? && 300 <= a.response.statusCode <= 304
    requires a.response.decoded.Ok?
    ensures Execute(ms, e, a).result == Ok(a.response.decoded.value)
    ensures RawRequest(e, a.response).result == Err(Net(ServerError(a.response.statusCode)))
  {
  }

  // ---------------------------------------------------------------------
  // The chain the app registers: the auth middleware, then logging

  const AppMiddleware: seq<Middleware> := [AuthMiddleware, LoggingMiddleware]

  /** Preparing through the app's chain: `Authorization` only for a logged
    * in store, then the request id. */
  lemma AppPrepare(req: UrlRequest, ctx: Context)
    ensures PrepareAll(AppMiddleware, req, ctx).headers ==
      (if TokenStore.LoggedIn(ctx.accessToken, ctx.refreshToken)
       then AddValue(req.headers, "Authorization", ctx.accessToken) else req.headers)
        ["X-Request-ID" := ctx.requestId]
  {
    assert AppMiddleware[..1] == [AuthMiddleware];
    assert [AuthMiddleware][..0] == [];
    var one: seq<Middleware> := [AuthMiddleware];
    assert one[..|one| - 1] == [] && one[|one| - 1] == AuthMiddleware;
    assert PrepareAll([], req, ctx) == req;
    var afterAuth := PrepareAll(one, req, ctx);
    assert afterAuth == Prepare(AuthMiddleware, req, ctx);
    assert PrepareAll(AppMiddleware, req, ctx) == Prepare(LoggingMiddleware, afterAuth, ctx);
  }

  /** The app's chain on an error status: 419 refreshes through the auth
    * middleware and retries or fails, 418 fails and signals expiry, and in
    * those cases the logging middleware is never consulted; any other
    * error status passes both and becomes `serverError`. */
  lemma AppChainVerdicts(status: int, refreshSucceeds: bool)
    requires !InAcceptedRange(status)
    ensures var scan := ScanFrom(AppMiddleware, 0, status, refreshSucceeds);
      (status == 419 && refreshSucceeds ==>
         scan == Scan(Some(AuthRetryNeeded), [Consulted(0), RefreshHandlerCalled])) &&
      (status == 419 && !refreshSucceeds ==>
         scan == Scan(Some(AuthenticationFailed(RefreshFailedMessage)),
                      [Consulted(0), RefreshHandlerCalled, ExpiredHandlerCalled])) &&
      (status == 418 ==>
         scan == Scan(Some(AuthenticationFailed(SessionExpiredMessage)), [Consulted(0), ExpiredHandlerCalled])) &&
      (status != 418 && status != 419 ==> scan == Scan(None, [Consulted(0), Consulted(1)]))
  {
    ScanStep(AppMiddleware, 0, status, refreshSucceeds);
    ScanStep(AppMiddleware, 1, status, refreshSucceeds);
  }

  class NetworkService {
    var middleware: seq<Middleware>

    constructor()
      ensures middleware == []
    {
      middleware := [];
    }

    method AddMiddleware(m: Middleware)
      modifies this
      ensures middleware == old(middleware) + [m]
    {
      middleware := middleware + [m];
    }

    /** `executeRequest`: prepare through every middleware in order, send,
      * then on an error status consult the middleware in order. */
    method ExecuteRequest<T>(e: Endpoint, a: Attempt<T>) returns (x: Execution<T>)
      ensures x == Execute(middleware, e, a)
    {
      var url := ConfigUrl(e);
      if url.None? {
        return Execution(Err(Net(InvalidUrl)), []);
      }
      var req := ConfigRequest(url.value, e);
      ghost var req0 := req;
      var trace: seq<Event> := [];
      var i := 0;
      while i < |middleware|
        invariant 0 <= i <= |middleware|
        invariant req == PrepareAll(middleware[..i], req0, a.context)
        invariant trace == seq(i, k requires 0 <= k < i => Prepared(k))
      {
        assert middleware[..i + 1][..i] == middleware[..i];
        req := Prepare(middleware[i], req, a.context);
        trace := trace + [Prepared(i)];
        i := i + 1;
      }
      assert middleware[..i] == middleware;
      trace := trace + [Sent(req)];
      match a.response {
        case TransportFailure(d) =>
          return Execution(Err(Foreign(d)), trace);
        case NonHttpResponse =>
          return Execution(Err(Net(InvalidResponse)), trace);
        case HttpResponse(status, decoded) =>
          if InAcceptedRange(status) {
            return Execution(Decode(decoded), trace);
          }
          var error := ProcessChain(status, a.refreshSucceeds);
          return Execution(Err(Net(error.0)), trace + error.1);
      }
    }

    /** The `for m in middleware` loop over `process` verdicts, ending in
      * `serverError` when none objects. */
    method ProcessChain(status: int, refreshSucceeds: bool) returns (r: (NetworkError, seq<Event>))
      ensures var scan := ScanFrom(middleware, 0, status, refreshSucceeds);
        r == (if scan.objection.Some? then scan.objection.value else ServerError(status), scan.events)
    {
      var ms := middleware;
      ghost var whole := ScanFrom(ms, 0, status, refreshSucceeds);
      ghost var rest := whole;
      var events: seq<Event> := [];
      var j := 0;
      while j < |ms|
        invariant 0 <= j <= |ms|
        invariant rest == ScanFrom(ms, j, status, refreshSucceeds)
        invariant whole.objection == rest.objection && whole.events == events + rest.events
      {
        var verdict := Process(ms[j], status, refreshSucceeds);
        var here := [Consulted(j)] + verdict.1;
        ScanStep(ms, j, status, refreshSucceeds);
        match verdict.0 {
          case Ok(retry) =>
            if retry {
              return (AuthRetryNeeded, events + here);
            }
          case Err(err) =>
            return (err, events + here);
        }
        ghost var next := ScanFrom(ms, j + 1, status, refreshSucceeds);
        assert rest.events == here + next.events;
        assert events + rest.events == (events + here) + next.events;
        events := events + here;
        rest := next;
        j := j + 1;
      }
      assert rest == Scan(None, []);
      assert events + [] == events;
      return (ServerError(status), events);
    }

    /** `request`: a `while retryCount <= maxRetries` loop around
      * `executeRequest`. Only NetworkErrors are caught; any other error
      * leaves at once. */
    method Request<T>(e: Endpoint, transport: nat -> Attempt<T>) returns (x: Execution<T>, attempts: nat)
      ensures (x, attempts) == RequestOutcome(middleware, e, transport)
      ensures 1 <= attempts <= 2
      ensures attempts == 2 <==> Execute(middleware, e, transport(0)).result == Err(Net(AuthRetryNeeded))
    {
      var retryCount := 0;
      var maxRetries := 1;
      var trace: seq<Event> := [];
      attempts := 0;
      while retryCount <= maxRetries
        invariant maxRetries == 1 && 0 <= retryCount <= maxRetries && attempts == retryCount
        invariant retryCount == 0 ==> trace == []
        invariant retryCount == 1 ==>
          Execute(middleware, e, transport(0)).result == Err(Net(AuthRetryNeeded)) &&
          trace == Execute(middleware, e, transport(0)).trace
        decreases maxRetries - retryCount
      {
        var attempt := ExecuteRequest(e, transport(retryCount));
        attempts := attempts + 1;
        assert retryCount == 0 ==> trace + attempt.trace == attempt.trace;
        trace := trace + attempt.trace;
        if attempt.result.Ok? || attempt.result.error.Foreign? {
          return Execution(attempt.result, trace), attempts;
        }
        if retryCount == maxRetries {
          return Execution(attempt.result, trace), attempts;
        }
        if attempt.result.error.error == AuthRetryNeeded {
          retryCount := retryCount + 1;
          continue;
        }
        return Execution(attempt.result, trace), attempts;
      }
      assert false;
      x := Execution(Err(Net(MaxRetriesExceeded)), trace);
    }
  }
}
