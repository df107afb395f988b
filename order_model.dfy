// The order model: the one-store cart and its updates, order creation,
// the payment preparation guard and callback, and the order history
// fetched from the server, mapped and sorted newest payment first.
module OrderModels {
  import opened Wrappers
  import opened NetworkTypes
  import opened OrderEntities
  import OrderEndpoints
  import opened Seqs

  /** `items.firstIndex(where: { $0.id == id })`. */
  function FirstIndex(items: seq<CartMenuItem>, id: string): (r: Option<nat>)
    ensures r.Some? ==>
      r.value < |items| && items[r.value].id == id &&
      forall j :: 0 <= j < r.value ==> items[j].id != id
    ensures r.None? ==> forall j :: 0 <= j < |items| ==> items[j].id != id
  {
    FirstIndexWhere(items, (item: CartMenuItem) => item.id == id)
  }

  /** `items.removeAll { $0.id == id }`. */
  function RemoveAll(items: seq<CartMenuItem>, id: string): (r: seq<CartMenuItem>)
    ensures |r| <= |items|
    ensures forall x :: x in r <==> x in items && x.id != id
  {
    Filter(items, (item: CartMenuItem) => item.id != id)
  }

  /** Removal works piecewise, so the kept items stay in their order; an id
    * no item has removes nothing. */
  lemma {:induction false} RemoveAllKeepsOrder(xs: seq<CartMenuItem>, ys: seq<CartMenuItem>, id: string)
    ensures RemoveAll(xs + ys, id) == RemoveAll(xs, id) + RemoveAll(ys, id)
    ensures (forall j :: 0 <= j < |xs| ==> xs[j].id != id) ==> RemoveAll(xs, id) == xs
  {
    FilterOfConcat(xs, ys, (item: CartMenuItem) => item.id != id);
    if forall j :: 0 <= j < |xs| ==> xs[j].id != id {
      FilterKeepsAll(xs, (item: CartMenuItem) => item.id != id);
    }
  }

  /** The cart after `addMenuToCart`. */
  function CartAfterAdd(cart: Option<Cart>, storeId: string, storeName: string, menu: CartMenuItem): (c: Cart)
    ensures c.id == storeId && |c.items| > 0
  {
    if cart.None? || cart.value.id != storeId then Cart(storeId, storeName, [menu])
    else
      var items := cart.value.items;
      match FirstIndex(items, menu.id)
      case Some(i) => cart.value.(items := items[i := items[i].(quantity := items[i].quantity + menu.quantity)])
      case None => cart.value.(items := items + [menu])
  }

  /** No cart, or another store's cart: the cart is replaced by one holding
    * only the new item. */
  lemma AddToOtherStoreStartsNewCart(cart: Option<Cart>, storeId: string, storeName: string, menu: CartMenuItem)
    requires cart.None? || cart.value.id != storeId
    ensures CartAfterAdd(cart, storeId, storeName, menu) == Cart(storeId, storeName, [menu])
    ensures TotalQuantity(CartAfterAdd(cart, storeId, storeName, menu)) == menu.quantity
  {
    var c := Cart(storeId, storeName, [menu]);
    TotalsAreSums(c);
    assert [menu][..0] == [];
    assert Sum([menu], LineQuantity) == Sum([], LineQuantity) + LineQuantity(menu);
  }

  /** The same store's cart: an item already there gains the added
    * quantity in place, others are unchanged; a new item goes last. Either
    * way the cart's quantity total grows by the added quantity. */
  lemma AddToSameStore(cart: Cart, storeName: string, menu: CartMenuItem)
    ensures var after := CartAfterAdd(Some(cart), cart.id, storeName, menu);
      after.storeName == cart.storeName &&
      TotalQuantity(after) == TotalQuantity(cart) + menu.quantity
    ensures var after := CartAfterAdd(Some(cart), cart.id, storeName, menu);
      match FirstIndex(cart.items, menu.id)
      case Some(i) =>
        |after.items| == |cart.items| &&
        after.items[i].quantity == cart.items[i].quantity + menu.quantity &&
        after.items[i].id == menu.id &&
        forall j :: 0 <= j < |cart.items| && j != i ==> after.items[j] == cart.items[j]
      case None =>
        after.items == cart.items + [menu] &&
        TotalPrice(after) == TotalPrice(cart) + menu.price * menu.quantity
  {
    match FirstIndex(cart.items, menu.id)
    case Some(i) =>
      TotalsAfterQuantityChange(cart, i, cart.items[i].quantity + menu.quantity);
    case None =>
      TotalsAfterAppend(cart, menu);
  }

  /** The cart after `updateMenuQuantity`. */
  function CartAfterQuantityUpdate(cart: Option<Cart>, menuId: string, quantity: int): (c: Option<Cart>)
    ensures c.None? <==> cart.None?
  {
    match cart
    case None => None
    case Some(current) =>
      match FirstIndex(current.items, menuId)
      case None => cart
      case Some(i) => Some(current.(items := current.items[i := current.items[i].(quantity := quantity)]))
  }

  /** Only the first item with the id gets the new quantity; with no such
    * item, or no cart, nothing changes. */
  lemma QuantityUpdateTouchesFirstMatchOnly(cart: Option<Cart>, menuId: string, quantity: int)
    ensures cart.None? ==> CartAfterQuantityUpdate(cart, menuId, quantity) == cart
    ensures cart.Some? && (forall j :: 0 <= j < |cart.value.items| ==> cart.value.items[j].id != menuId) ==>
      CartAfterQuantityUpdate(cart, menuId, quantity) == cart
    ensures cart.Some? ==>
      var after := CartAfterQuantityUpdate(cart, menuId, quantity).value;
      after.id == cart.value.id && after.storeName == cart.value.storeName &&
      |after.items| == |cart.value.items| &&
      forall j :: 0 <= j < |after.items| ==>
        after.items[j] == (if Some(j as nat) == FirstIndex(cart.value.items, menuId)
                           then cart.value.items[j].(quantity := quantity)
                           else cart.value.items[j])
  {
    if cart.Some? && FirstIndex(cart.value.items, menuId).None? {
      assert CartAfterQuantityUpdate(cart, menuId, quantity) == cart;
    }
  }

  /** The cart after `removeMenuFromCart`: a cart left empty becomes nil. */
  function CartAfterRemove(cart: Option<Cart>, menuId: string): (c: Option<Cart>)
    ensures cart.None? ==> c.None?
    ensures c.Some? ==> |c.value.items| > 0 && c.value.id == cart.value.id
  {
    match cart
    case None => None
    case Some(current) =>
      var rest := RemoveAll(current.items, menuId);
      if rest == [] then None else Some(current.(items := rest))
  }

  /** Every item with the id goes, the others stay in order, and only an
    * emptied cart becomes nil. */
  lemma RemoveDropsEveryMatch(cart: Cart, menuId: string)
    ensures var after := CartAfterRemove(Some(cart), menuId);
      (after.None? <==> forall j :: 0 <= j < |cart.items| ==> cart.items[j].id == menuId) &&
      (after.Some? ==> after.value.items == RemoveAll(cart.items, menuId) &&
                       forall x :: x in after.value.items ==> x.id != menuId)
  {
    var rest := RemoveAll(cart.items, menuId);
    if rest == [] {
      forall j | 0 <= j < |cart.items|
        ensures cart.items[j].id == menuId
      {
        assert cart.items[j] !in rest;
      }
    } else {
      assert rest[0] in cart.items && rest[0].id != menuId;
    }
  }

  /** A cart that is present is never empty: every update keeps this. */
  predicate CartNonEmpty(cart: Option<Cart>)
  {
    cart.Some? ==> |cart.value.items| > 0
  }

  lemma CartUpdatesKeepNonEmpty(cart: Option<Cart>, storeId: string, storeName: string,
                                menu: CartMenuItem, menuId: string, quantity: int)
    requires CartNonEmpty(cart)
    ensures CartNonEmpty(Some(CartAfterAdd(cart, storeId, storeName, menu)))
    ensures CartNonEmpty(CartAfterQuantityUpdate(cart, menuId, quantity))
    ensures CartNonEmpty(CartAfterRemove(cart, menuId))
  {
  }

  /** The order lines sent for a cart: each item's id and quantity, in
    * order. */
  function OrderMenus(items: seq<CartMenuItem>): (lines: seq<OrderMenu>)
    ensures |lines| == |items|
    ensures forall i :: 0 <= i < |items| ==> lines[i] == OrderMenu(items[i].id, items[i].quantity)
    decreases |items|
  {
    if items == [] then [] else [OrderMenu(items[0].id, items[0].quantity)] + OrderMenus(items[1..])
  }

  datatype PaymentInfo = PaymentInfo(orderCode: string, totalPrice: int, storeName: string)

  datatype PaymentResult = PaymentResult(success: bool, message: string)

  const OrderCreateFailedPrefix := "주문 생성 실패: "
  const MissingImpUidMessage := "결제 실패(imp_uid 없음)"
  const PaymentSucceededMessage := "결제 성공!"
  const PaymentValidationFailedMessage := "결제 검증 실패"

  /** Server-side order records; date fields are already parsed (None when
    * the text could not be read as a date). */
  datatype MenuDto = MenuDto(id: string, name: string, price: int)
  datatype OrderMenuDto = OrderMenuDto(menu: MenuDto, quantity: int)
  datatype ReviewDto = ReviewDto(id: string, rating: int)
  datatype TimelineDto = TimelineDto(status: string, completed: bool, changedAt: Option<int>)
  datatype OrderDto = OrderDto(
    orderId: string,
    orderCode: string,
    storeId: string,
    storeName: string,
    orderMenuList: seq<OrderMenuDto>,
    totalPrice: int,
    currentOrderStatus: string,
    createdAt: Option<int>,
    updatedAt: Option<int>,
    paidAt: Option<int>,
    review: Option<ReviewDto>,
    orderStatusTimeline: seq<TimelineDto>)

  /** An unknown status code is read as `fail`. */
  function StatusFromServer(raw: string): (s: OrderStatus)
    ensures StatusFromRawValue(raw).Some? ==> StatusRawValue(s) == raw
    ensures StatusFromRawValue(raw).None? ==> s == Fail
  {
    StatusFromRawValue(raw).UnwrapOr(Fail)
  }

  function MenuLines(lines: seq<OrderMenuDto>): (items: seq<CartMenuItem>)
    ensures |items| == |lines|
    ensures forall i :: 0 <= i < |lines| ==>
      items[i] == CartMenuItem(lines[i].menu.id, lines[i].menu.name, lines[i].menu.price, lines[i].quantity, false)
    decreases |lines|
  {
    if lines == [] then []
    else [CartMenuItem(lines[0].menu.id, lines[0].menu.name, lines[0].menu.price, lines[0].quantity, false)] +
         MenuLines(lines[1..])
  }

  function Timeline(entries: seq<TimelineDto>): (t: seq<StatusTimeline>)
    ensures |t| == |entries|
    ensures forall i :: 0 <= i < |entries| ==>
      t[i] == StatusTimeline(StatusFromServer(entries[i].status), entries[i].completed, entries[i].changedAt)
    decreases |entries|
  {
    if entries == [] then []
    else [StatusTimeline(StatusFromServer(entries[0].status), entries[0].completed, entries[0].changedAt)] +
         Timeline(entries[1..])
  }

  /** `toEntity`: an unreadable date becomes `now`, a missing review the
    * empty review. */
  function ToEntity(dto: OrderDto, now: int): (o: Order)
    ensures o.id == dto.orderId && o.orderCode == dto.orderCode && o.totalPrice == dto.totalPrice
    ensures o.storeId == dto.storeId && o.storeName == dto.storeName
    ensures o.items == MenuLines(dto.orderMenuList) && |o.items| == |dto.orderMenuList|
    ensures o.status == StatusFromServer(dto.currentOrderStatus)
    ensures o.createdAt == dto.createdAt.UnwrapOr(now) && o.updatedAt == dto.updatedAt.UnwrapOr(now)
    ensures o.paidAt == dto.paidAt.UnwrapOr(now)
    ensures dto.review.None? ==> o.review == EmptyReview()
    ensures dto.review.Some? ==> o.review == Review(dto.review.value.id, dto.review.value.rating)
    ensures o.statusTimeline == Timeline(dto.orderStatusTimeline)
  {
    Order(dto.orderId, dto.orderCode, dto.storeId, dto.storeName, MenuLines(dto.orderMenuList),
          dto.totalPrice, StatusFromServer(dto.currentOrderStatus),
          dto.createdAt.UnwrapOr(now), dto.updatedAt.UnwrapOr(now), dto.paidAt.UnwrapOr(now),
          match dto.review
          case None => EmptyReview()
          case Some(r) => Review(r.id, r.rating),
          Timeline(dto.orderStatusTimeline))
  }

  function ToEntities(dtos: seq<OrderDto>, now: int): (orders: seq<Order>)
    ensures |orders| == |dtos|
    ensures forall i :: 0 <= i < |dtos| ==> orders[i] == ToEntity(dtos[i], now)
    decreases |dtos|
  {
    if dtos == [] then [] else [ToEntity(dtos[0], now)] + ToEntities(dtos[1..], now)
  }

  function PaidAt(o: Order): int
  {
    o.paidAt
  }

  predicate NewestPaymentFirst(orders: seq<Order>)
  {
    forall i, j :: 0 <= i < j < |orders| ==> orders[i].paidAt >= orders[j].paidAt
  }

  /** `sorted { $0.paidAt > $1.paidAt }`. */
  function SortByPaidAt(orders: seq<Order>): (r: seq<Order>)
    ensures NewestPaymentFirst(r)
    ensures multiset(r) == multiset(orders)
  {
    var r := SortByKey(orders, PaidAt);
    assert forall i, j :: 0 <= i < j < |r| ==> PaidAt(r[i]) >= PaidAt(r[j]);
    r
  }

  class OrderModel {
    var cart: Option<Cart>
    var orderList: seq<Order>
    var pendingPayment: Option<PaymentInfo>
    var paymentResult: Option<PaymentResult>

    constructor()
      ensures cart.None? && orderList == [] && pendingPayment.None? && paymentResult.None?
    {
      cart := None;
      orderList := [];
      pendingPayment := None;
      paymentResult := None;
    }

    method AddMenuToCart(storeId: string, storeName: string, menu: CartMenuItem)
      modifies this
      ensures cart == Some(CartAfterAdd(old(cart), storeId, storeName, menu))
      ensures orderList == old(orderList) && pendingPayment == old(pendingPayment) && paymentResult == old(paymentResult)
    {
      if cart.None? || cart.value.id != storeId {
        cart := Some(Cart(storeId, storeName, [menu]));
      } else {
        var current := cart.value;
        match FirstIndex(current.items, menu.id) {
          case Some(idx) =>
            var item := current.items[idx];
            cart := Some(current.(items := current.items[idx := item.(quantity := item.quantity + menu.quantity)]));
          case None =>
            cart := Some(current.(items := current.items + [menu]));
        }
      }
    }

    method UpdateMenuQuantity(menuId: string, quantity: int)
      modifies this
      ensures cart == CartAfterQuantityUpdate(old(cart), menuId, quantity)
      ensures orderList == old(orderList) && pendingPayment == old(pendingPayment) && paymentResult == old(paymentResult)
    {
      if cart.None? {
        return;
      }
      var current := cart.value;
      match FirstIndex(current.items, menuId) {
        case Some(idx) =>
          cart := Some(current.(items := current.items[idx := current.items[idx].(quantity := quantity)]));
        case None =>
      }
    }

    method RemoveMenuFromCart(menuId: string)
      modifies this
      ensures cart == CartAfterRemove(old(cart), menuId)
      ensures orderList == old(orderList) && pendingPayment == old(pendingPayment) && paymentResult == old(paymentResult)
    {
      if cart.None? {
        return;
      }
      var current := cart.value;
      current := current.(items := RemoveAll(current.items, menuId));
      if current.items == [] {
        cart := None;
      } else {
        cart := Some(current);
      }
    }

    method ClearCart()
      modifies this
      ensures cart.None?
      ensures orderList == old(orderList) && pendingPayment == old(pendingPayment) && paymentResult == old(paymentResult)
    {
      cart := None;
    }

    /** `createOrder`: nothing is sent without a cart; otherwise the order
      * lines mirror the items and the total is the cart's total.
      * `response` is the server's answer, the issued order code. */
    method CreateOrder(response: Result<string, ClientError>)
      returns (code: Result<Option<string>, ClientError>, sent: Option<OrderEndpoints.OrderEndpoint>)
      ensures cart.None? ==> code == Ok(None) && sent.None?
      ensures cart.Some? ==>
        sent == Some(OrderEndpoints.CreateOrder(cart.value.id, OrderMenus(cart.value.items), TotalPrice(cart.value)))
      ensures cart.Some? ==>
        code == match response
          case Ok(c) => Ok(Some(c))
          case Err(e) => Err(e)
    {
      if cart.None? {
        return Ok(None), None;
      }
      var current := cart.value;
      var lines := OrderMenus(current.items);
      sent := Some(OrderEndpoints.CreateOrder(current.id, lines, TotalPrice(current)));
      code := match response
        case Ok(c) => Ok(Some(c))
        case Err(e) => Err(e);
    }

    /** `preparePayment`: `errorText` is how the thrown error prints. */
    method PreparePayment(response: Result<string, ClientError>, errorText: string)
      modifies this
      ensures cart == old(cart) && orderList == old(orderList)
      ensures old(cart).None? || old(cart).value.items == [] ==>
        pendingPayment == old(pendingPayment) && paymentResult == old(paymentResult)
      ensures old(cart).Some? && old(cart).value.items != [] ==>
        var c := old(cart).value;
        match response
        case Ok(orderCode) =>
          paymentResult == old(paymentResult) &&
          pendingPayment ==
            (if orderCode != "" && TotalPrice(c) > 0 && c.storeName != ""
             then Some(PaymentInfo(orderCode, TotalPrice(c), c.storeName))
             else old(pendingPayment))
        case Err(_) =>
          pendingPayment == old(pendingPayment) &&
          paymentResult == Some(PaymentResult(false, OrderCreateFailedPrefix + errorText))
    {
      if cart.None? || cart.value.items == [] {
        return;
      }
      var totalPrice := TotalPrice(cart.value);
      var storeName := cart.value.storeName;
      var code, _ := CreateOrder(response);
      match code {
        case Ok(Some(orderCode)) =>
          if orderCode != "" && totalPrice > 0 && storeName != "" {
            pendingPayment := Some(PaymentInfo(orderCode, totalPrice, storeName));
          }
        case Ok(None) =>
        case Err(_) =>
          paymentResult := Some(PaymentResult(false, OrderCreateFailedPrefix + errorText));
      }
    }

    /** `handlePaymentCallback`: `impUid` is the payment gateway's receipt
      * id, `receiptValid` the server's verdict on it. */
    method HandlePaymentCallback(impUid: Option<string>, receiptValid: bool)
      modifies this
      ensures pendingPayment.None? && orderList == old(orderList)
      ensures impUid.None? ==>
        paymentResult == Some(PaymentResult(false, MissingImpUidMessage)) && cart == old(cart)
      ensures impUid.Some? ==>
        paymentResult == Some(PaymentResult(receiptValid,
                                            if receiptValid then PaymentSucceededMessage
                                            else PaymentValidationFailedMessage)) &&
        cart == (if receiptValid then None else old(cart))
    {
      if impUid.None? {
        paymentResult := Some(PaymentResult(false, MissingImpUidMessage));
        pendingPayment := None;
        return;
      }
      var isValid := receiptValid;
      paymentResult := Some(PaymentResult(isValid, if isValid then PaymentSucceededMessage else PaymentValidationFailedMessage));
      if isValid {
        ClearCart();
      }
      pendingPayment := None;
    }

    /** `fetchOrderList`: `now` stands in for `Date()`. */
    method FetchOrderList(response: Result<seq<OrderDto>, ClientError>, now: int)
      modifies this
      ensures response.Err? ==> orderList == []
      ensures response.Ok? ==> orderList == SortByPaidAt(ToEntities(response.value, now))
      ensures cart == old(cart) && pendingPayment == old(pendingPayment) && paymentResult == old(paymentResult)
    {
      match response {
        case Ok(dtos) =>
          orderList := SortByPaidAt(ToEntities(dtos, now));
        case Err(_) =>
          orderList := [];
      }
    }
  }

  /** The fetched history is every received order, newest payment first. */
  lemma FetchedHistoryIsSortedPermutation(dtos: seq<OrderDto>, now: int)
    ensures NewestPaymentFirst(SortByPaidAt(ToEntities(dtos, now)))
    ensures multiset(SortByPaidAt(ToEntities(dtos, now))) == multiset(ToEntities(dtos, now))
    ensures |SortByPaidAt(ToEntities(dtos, now))| == |dtos|
  {
    SortKeepsLength(ToEntities(dtos, now), PaidAt);
  }
}
