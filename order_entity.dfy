// Cart and order values: the cart totals as left folds over the items,
// the order status codes, and the small derived properties of an order.
module OrderEntities {
  import opened Wrappers

  datatype CartMenuItem = CartMenuItem(id: string, name: string, price: int, quantity: int, isSoldOut: bool)

  /** One store's cart; `id` is the store id. */
  datatype Cart = Cart(id: string, storeName: string, items: seq<CartMenuItem>)

  function LineAmount(item: CartMenuItem): int
  {
    item.price * item.quantity
  }

  function LineQuantity(item: CartMenuItem): int
  {
    item.quantity
  }

  /** `items.reduce(acc) { $0 + f($1) }`: a fold from the first item. */
  function Reduce(acc: int, items: seq<CartMenuItem>, f: CartMenuItem -> int): int
    decreases |items|
  {
    if items == [] then acc else Reduce(acc + f(items[0]), items[1..], f)
  }

  /** The same sum written from the last item backwards. */
  function Sum(items: seq<CartMenuItem>, f: CartMenuItem -> int): int
    decreases |items|
  {
    if items == [] then 0 else Sum(items[..|items| - 1], f) + f(items[|items| - 1])
  }

  lemma {:induction false} SumOfConcat(xs: seq<CartMenuItem>, ys: seq<CartMenuItem>, f: CartMenuItem -> int)
    ensures Sum(xs + ys, f) == Sum(xs, f) + Sum(ys, f)
    decreases |ys|
  {
    if ys == [] {
      assert xs + ys == xs;
    } else {
      var zs := xs + ys;
      assert zs[..|zs| - 1] == xs + ys[..|ys| - 1];
      SumOfConcat(xs, ys[..|ys| - 1], f);
    }
  }

  /** Folding from the left with any start value adds the plain sum. */
  lemma {:induction false} ReduceIsSum(acc: int, items: seq<CartMenuItem>, f: CartMenuItem -> int)
    ensures Reduce(acc, items, f) == acc + Sum(items, f)
    decreases |items|
  {
    if items != [] {
      ReduceIsSum(acc + f(items[0]), items[1..], f);
      assert items == [items[0]] + items[1..];
      SumOfConcat([items[0]], items[1..], f);
      assert [items[0]][..0] == [];
    }
  }

  function TotalPrice(cart: Cart): int
  {
    Reduce(0, cart.items, LineAmount)
  }

  function TotalQuantity(cart: Cart): int
  {
    Reduce(0, cart.items, LineQuantity)
  }

  /** Both totals are zero for an empty cart. */
  lemma EmptyCartTotals(id: string, storeName: string)
    ensures TotalPrice(Cart(id, storeName, [])) == 0 && TotalQuantity(Cart(id, storeName, [])) == 0
  {
  }

  /** The totals are the sums of price times quantity and of quantity. */
  lemma TotalsAreSums(cart: Cart)
    ensures TotalPrice(cart) == Sum(cart.items, LineAmount)
    ensures TotalQuantity(cart) == Sum(cart.items, LineQuantity)
  {
    ReduceIsSum(0, cart.items, LineAmount);
    ReduceIsSum(0, cart.items, LineQuantity);
  }

  /** Appending an item adds its amount and its quantity to the totals. */
  lemma TotalsAfterAppend(cart: Cart, item: CartMenuItem)
    ensures TotalPrice(cart.(items := cart.items + [item])) == TotalPrice(cart) + item.price * item.quantity
    ensures TotalQuantity(cart.(items := cart.items + [item])) == TotalQuantity(cart) + item.quantity
  {
    var longer := cart.(items := cart.items + [item]);
    TotalsAreSums(cart);
    TotalsAreSums(longer);
    assert longer.items[..|longer.items| - 1] == cart.items;
  }

  /** Replacing one item changes a sum by the difference of the two. */
  lemma {:induction false} SumAfterUpdate(items: seq<CartMenuItem>, i: nat, x: CartMenuItem, f: CartMenuItem -> int)
    requires i < |items|
    ensures Sum(items[i := x], f) == Sum(items, f) - f(items[i]) + f(x)
    decreases |items|
  {
    var n := |items|;
    var updated := items[i := x];
    if i == n - 1 {
      assert updated[..n - 1] == items[..n - 1];
    } else {
      assert updated[..n - 1] == items[..n - 1][i := x];
      SumAfterUpdate(items[..n - 1], i, x, f);
    }
  }

  /** Setting one item's quantity moves the quantity total by the change,
    * and the price total by the item's price times the change. */
  lemma TotalsAfterQuantityChange(cart: Cart, i: nat, q: int)
    requires i < |cart.items|
    ensures var changed := cart.(items := cart.items[i := cart.items[i].(quantity := q)]);
      TotalQuantity(changed) == TotalQuantity(cart) - cart.items[i].quantity + q &&
      TotalPrice(changed) == TotalPrice(cart) + cart.items[i].price * (q - cart.items[i].quantity)
  {
    var changed := cart.(items := cart.items[i := cart.items[i].(quantity := q)]);
    TotalsAreSums(cart);
    TotalsAreSums(changed);
    SumAfterUpdate(cart.items, i, cart.items[i].(quantity := q), LineQuantity);
    SumAfterUpdate(cart.items, i, cart.items[i].(quantity := q), LineAmount);
  }

  /** All quantities non-negative keeps the quantity total non-negative. */
  lemma {:induction false} QuantityTotalNonNegative(items: seq<CartMenuItem>)
    requires forall i :: 0 <= i < |items| ==> items[i].quantity >= 0
    ensures Sum(items, LineQuantity) >= 0
    decreases |items|
  {
    if items != [] {
      QuantityTotalNonNegative(items[..|items| - 1]);
    }
  }

  datatype OrderStatus =
    | PendingApproval | Approved | InProgress | ReadyForPickup | PickedUp | Done | Cancel | Fail

  function StatusRawValue(s: OrderStatus): string
  {
    match s
    case PendingApproval => "PENDING_APPROVAL"
    case Approved => "APPROVED"
    case InProgress => "IN_PROGRESS"
    case ReadyForPickup => "READY_FOR_PICKUP"
    case PickedUp => "PICKED_UP"
    case Done => "DONE"
    case Cancel => "CANCEL"
    case Fail => "FAIL"
  }

  /** `OrderStatus(rawValue:)`. */
  function StatusFromRawValue(raw: string): (s: Option<OrderStatus>)
    ensures s.Some? ==> StatusRawValue(s.value) == raw
  {
    if raw == "PENDING_APPROVAL" then Some(PendingApproval)
    else if raw == "APPROVED" then Some(Approved)
    else if raw == "IN_PROGRESS" then Some(InProgress)
    else if raw == "READY_FOR_PICKUP" then Some(ReadyForPickup)
    else if raw == "PICKED_UP" then Some(PickedUp)
    else if raw == "DONE" then Some(Done)
    else if raw == "CANCEL" then Some(Cancel)
    else if raw == "FAIL" then Some(Fail)
    else None
  }

  lemma StatusRawValueRoundTrip(s: OrderStatus)
    ensures StatusFromRawValue(StatusRawValue(s)) == Some(s)
  {
  }

  /** Distinct statuses have distinct codes. */
  lemma StatusRawValueInjective(s: OrderStatus, t: OrderStatus)
    ensures StatusRawValue(s) == StatusRawValue(t) ==> s == t
  {
    StatusRawValueRoundTrip(s);
    StatusRawValueRoundTrip(t);
  }

  function StatusDisplayName(s: OrderStatus): string
  {
    match s
    case PendingApproval => "승인대기"
    case Approved => "주문승인"
    case InProgress => "조리 중"
    case ReadyForPickup => "픽업대기"
    case PickedUp => "픽업완료"
    case Done => "완료"
    case Cancel => "취소"
    case Fail => "실패"
  }

  /** Distinct statuses show distinct labels, so the timeline never shows
    * two steps under one name. */
  lemma StatusDisplayNameInjective(s: OrderStatus, t: OrderStatus)
    ensures StatusDisplayName(s) == StatusDisplayName(t) <==> s == t
  {
  }

  datatype Review = Review(id: string, rating: int)

  function EmptyReview(): (r: Review)
    ensures r.id == "" && r.rating == 0
  {
    Review("", 0)
  }

  /** `changedAt` is a time in seconds, an integer stand-in for `Date`. */
  datatype StatusTimeline = StatusTimeline(status: OrderStatus, isCompleted: bool, changedAt: Option<int>)

  function TimelineId(t: StatusTimeline): (id: string)
    ensures StatusFromRawValue(id) == Some(t.status)
  {
    StatusRawValueRoundTrip(t.status);
    StatusRawValue(t.status)
  }

  /** Two timeline entries share an id exactly when they share a status. */
  lemma TimelineIdsIdentifyStatus(t: StatusTimeline, u: StatusTimeline)
    ensures TimelineId(t) == TimelineId(u) <==> t.status == u.status
  {
    StatusRawValueInjective(t.status, u.status);
  }

  /** An order as the order history holds it; times are integer stand-ins
    * for `Date`. */
  datatype Order = Order(
    id: string,
    orderCode: string,
    storeId: string,
    storeName: string,
    items: seq<CartMenuItem>,
    totalPrice: int,
    status: OrderStatus,
    createdAt: int,
    updatedAt: int,
    paidAt: int,
    review: Review,
    statusTimeline: seq<StatusTimeline>)

  predicate IsActiveStatus(s: OrderStatus)
  {
    match s
    case PendingApproval => true
    case Approved => true
    case InProgress => true
    case ReadyForPickup => true
    case PickedUp => false
    case Done => false
    case Cancel => false
    case Fail => false
  }

  /** `Order.isActive`: the four statuses before pickup. */
  function IsActive(o: Order): (active: bool)
    ensures active <==> o.status in {PendingApproval, Approved, InProgress, ReadyForPickup}
  {
    IsActiveStatus(o.status)
  }

  /** `canWriteReview` holds for every order. */
  function CanWriteReview(o: Order): (can: bool)
    ensures can
  {
    true
  }
}
