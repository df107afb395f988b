// The order endpoint table: order creation, listing and status updates.
module OrderEndpoints {
  import opened Wrappers
  import opened NetworkTypes
  import Text

  datatype OrderEndpoint =
    | CreateOrder(storeId: string, orderMenuList: seq<OrderMenu>, totalPrice: int)
    | FetchOrders
    | UpdateOrderStatus(orderCode: string, nextStatus: string)

  function Path(e: OrderEndpoint): (p: string)
    ensures "/orders" <= p
    ensures !e.UpdateOrderStatus? <==> p == "/orders"
  {
    match e
    case CreateOrder(_, _, _) => "/orders"
    case FetchOrders => "/orders"
    case UpdateOrderStatus(code, _) => "/orders/" + code
  }

  function Method(e: OrderEndpoint): (m: NetworkMethod)
    ensures m == Post <==> e.CreateOrder?
    ensures m == Get <==> e.FetchOrders?
    ensures m == Put <==> e.UpdateOrderStatus?
  {
    match e
    case CreateOrder(_, _, _) => Post
    case FetchOrders => Get
    case UpdateOrderStatus(_, _) => Put
  }

  function Parameters(e: OrderEndpoint): (p: Option<seq<QueryItem>>)
    ensures p.None?
  {
    None
  }

  function Headers(env: Environment, e: OrderEndpoint): (h: map<string, string>)
    ensures h == JsonHeaders(env)
  {
    JsonHeaders(env)
  }

  function BodyOf(e: OrderEndpoint): (b: Option<Body>)
    ensures b.None? <==> e.FetchOrders?
  {
    match e
    case CreateOrder(storeId, list, total) => Some(OrderCreateBody(storeId, list, total))
    case FetchOrders => None
    case UpdateOrderStatus(_, next) => Some(OrderStatusUpdateBody(next))
  }

  /** Order requests use the unversioned base URL. */
  function Describe(env: Environment, e: OrderEndpoint): (d: Endpoint)
    ensures d.baseUrl == env.baseUrl
    ensures d.path == Path(e) && d.networkMethod == Method(e) && d.parameters.None?
    ensures d.headers == Some(Headers(env, e)) && d.body == BodyOf(e)
  {
    Endpoint(env.baseUrl, Path(e), Method(e), Parameters(e), Some(Headers(env, e)), BodyOf(e))
  }

  /** Reads an order request back from the method, path and body a
    * descriptor carries: the partner of `Describe`. */
  function FromRequest(m: NetworkMethod, path: string, body: Option<Body>): Option<OrderEndpoint>
  {
    match m
    case Post =>
      if path == "/orders" && body.Some? && body.value.OrderCreateBody? then
        Some(CreateOrder(body.value.storeId, body.value.orderMenuList, body.value.totalPrice))
      else None
    case Get => if path == "/orders" && body.None? then Some(FetchOrders) else None
    case Put =>
      if "/orders/" <= path && body.Some? && body.value.OrderStatusUpdateBody? then
        Some(UpdateOrderStatus(path[8..], body.value.nextStatus))
      else None
    case Delete => None
  }

  /** The create body carries store id, menu list and total unchanged, the
    * status update carries the next status, and the path carries the order
    * code: every order request can be read back from what is sent. */
  lemma {:induction false} RequestRoundTrip(env: Environment, e: OrderEndpoint)
    ensures var d := Describe(env, e); FromRequest(d.networkMethod, d.path, d.body) == Some(e)
  {
    if e.UpdateOrderStatus? {
      var p := "/orders/" + e.orderCode;
      assert p[8..] == e.orderCode;
    }
  }
}
