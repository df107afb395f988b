// The store detail screen's cart logic: the quantity shown per menu, the
// add and remove buttons that drive the order model's cart, the stepper
// flags, the menu category tabs and the sticky cart bar.
module StoreDetailScreens {
  import opened Wrappers
  import opened Seqs
  import opened OrderEntities
  import opened OrderModels
  import opened StoreEntities

  /** `menuQuantity`: the first cart line with the id, or 0. */
  function MenuQuantity(cart: Option<Cart>, menuId: string): (q: int)
    ensures cart.None? ==> q == 0
    ensures cart.Some? && FirstIndex(cart.value.items, menuId).None? ==> q == 0
    ensures cart.Some? && FirstIndex(cart.value.items, menuId).Some? ==>
      q == cart.value.items[FirstIndex(cart.value.items, menuId).value].quantity
  {
    match cart
    case None => 0
    case Some(c) =>
      match FirstIndex(c.items, menuId)
      case None => 0
      case Some(i) => c.items[i].quantity
  }

  /** The first matching index is determined by its two defining facts. */
  lemma FirstIndexIs(items: seq<CartMenuItem>, id: string, k: nat)
    requires k < |items| && items[k].id == id
    requires forall j :: 0 <= j < k ==> items[j].id != id
    ensures FirstIndex(items, id) == Some(k)
  {
  }

  /** The line the add button puts in a cart for a menu not yet there. */
  function NewLine(menu: MenuItem): CartMenuItem
  {
    CartMenuItem(menu.menuId, menu.name, menu.price, 1, menu.isSoldOut)
  }

  /** The cart after `onAdd`: one more of a line already in this store's
    * cart, otherwise a new line of one, added through `addMenuToCart`. */
  function CartAfterOnAdd(cart: Option<Cart>, menu: MenuItem, detailName: Option<string>): (c: Option<Cart>)
    ensures c.Some?
  {
    if cart.Some? && cart.value.id == menu.storeId && FirstIndex(cart.value.items, menu.menuId).Some? then
      var i := FirstIndex(cart.value.items, menu.menuId).value;
      CartAfterQuantityUpdate(cart, menu.menuId, cart.value.items[i].quantity + 1)
    else
      Some(CartAfterAdd(cart, menu.storeId, detailName.UnwrapOr(""), NewLine(menu)))
  }

  /** After `onAdd` the cart is the menu's store's, and the menu's shown
    * quantity is one more than before if the cart was already that
    * store's, and one otherwise. */
  lemma OnAddQuantity(cart: Option<Cart>, menu: MenuItem, detailName: Option<string>)
    ensures var after := CartAfterOnAdd(cart, menu, detailName);
      after.value.id == menu.storeId &&
      MenuQuantity(after, menu.menuId) ==
        (if cart.Some? && cart.value.id == menu.storeId then MenuQuantity(cart, menu.menuId) + 1 else 1)
  {
    var after := CartAfterOnAdd(cart, menu, detailName);
    var id := menu.menuId;
    if cart.Some? && cart.value.id == menu.storeId {
      var items := cart.value.items;
      match FirstIndex(items, id)
      case Some(i) =>
        var changed := items[i := items[i].(quantity := items[i].quantity + 1)];
        assert after.value.items == changed;
        FirstIndexIs(changed, id, i);
      case None =>
        assert after.value.items == items + [NewLine(menu)];
        FirstIndexIs(items + [NewLine(menu)], id, |items|);
    } else {
      assert after.value.items == [NewLine(menu)];
      FirstIndexIs([NewLine(menu)], id, 0);
    }
  }

  /** The cart after `onRemove`: a line of this store's cart loses one, and
    * goes when nothing would be left; anything else leaves the cart. */
  function CartAfterOnRemove(cart: Option<Cart>, menu: MenuItem): Option<Cart>
  {
    if cart.Some? && cart.value.id == menu.storeId && FirstIndex(cart.value.items, menu.menuId).Some? then
      var newQuantity := cart.value.items[FirstIndex(cart.value.items, menu.menuId).value].quantity - 1;
      if newQuantity > 0 then CartAfterQuantityUpdate(cart, menu.menuId, newQuantity)
      else CartAfterRemove(cart, menu.menuId)
    else cart
  }

  lemma OnRemoveQuantity(cart: Option<Cart>, menu: MenuItem)
    ensures var after := CartAfterOnRemove(cart, menu);
      !(cart.Some? && cart.value.id == menu.storeId && FirstIndex(cart.value.items, menu.menuId).Some?) ==>
        after == cart
    ensures var after := CartAfterOnRemove(cart, menu);
      cart.Some? && cart.value.id == menu.storeId && MenuQuantity(cart, menu.menuId) > 1 ==>
        MenuQuantity(after, menu.menuId) == MenuQuantity(cart, menu.menuId) - 1
    ensures var after := CartAfterOnRemove(cart, menu);
      cart.Some? && cart.value.id == menu.storeId && FirstIndex(cart.value.items, menu.menuId).Some? &&
      MenuQuantity(cart, menu.menuId) <= 1 ==>
        after == CartAfterRemove(cart, menu.menuId) && MenuQuantity(after, menu.menuId) == 0
  {
    var after := CartAfterOnRemove(cart, menu);
    var id := menu.menuId;
    if cart.Some? && cart.value.id == menu.storeId && FirstIndex(cart.value.items, id).Some? {
      var items := cart.value.items;
      var i := FirstIndex(items, id).value;
      var q := items[i].quantity;
      if q - 1 > 0 {
        var changed := items[i := items[i].(quantity := q - 1)];
        assert after.value.items == changed;
        FirstIndexIs(changed, id, i);
      } else if after.Some? {
        var rest := after.value.items;
        assert rest == RemoveAll(items, id);
        assert FirstIndex(rest, id).None?;
      }
    }
  }

  /** Where an element first occurs. */
  function FirstPosition(xs: seq<string>, x: string): (k: nat)
    requires x in xs
    ensures k < |xs| && xs[k] == x && forall j :: 0 <= j < k ==> xs[j] != x
  {
    FirstIndexWhere(xs, (y: string) => y == x).value
  }

  lemma FirstPositionInPrefix(xs: seq<string>, n: nat, x: string)
    requires n <= |xs| && x in xs[..n]
    ensures FirstPosition(xs, x) == FirstPosition(xs[..n], x) < n
  {
    var p := FirstPosition(xs[..n], x);
    var q := FirstPosition(xs, x);
    assert xs[p] == x;
    if q < p {
      assert xs[..n][q] == x;
    }
  }

  /** `categories`: the menu categories without repeats. */
  function Distinct(xs: seq<string>): (r: seq<string>)
    ensures forall x :: x in r <==> x in xs
    ensures forall i, j :: 0 <= i < j < |r| ==> r[i] != r[j]
    decreases |xs|
  {
    if xs == [] then []
    else
      var n := |xs| - 1;
      assert xs == xs[..n] + [xs[n]];
      var d := Distinct(xs[..n]);
      if xs[n] in d then d else d + [xs[n]]
  }

  /** The categories appear in the order of their first occurrence. */
  lemma {:induction false} DistinctKeepsFirstOccurrenceOrder(xs: seq<string>)
    ensures forall i, j :: 0 <= i < j < |Distinct(xs)| ==>
      FirstPosition(xs, Distinct(xs)[i]) < FirstPosition(xs, Distinct(xs)[j])
    decreases |xs|
  {
    if xs != [] {
      var n := |xs| - 1;
      var prefix := xs[..n];
      var d := Distinct(prefix);
      var r := Distinct(xs);
      DistinctKeepsFirstOccurrenceOrder(prefix);
      assert r == if xs[n] in d then d else d + [xs[n]];
      forall i, j | 0 <= i < j < |r|
        ensures FirstPosition(xs, r[i]) < FirstPosition(xs, r[j])
      {
        assert r[i] == d[i] && d[i] in d;
        FirstPositionInPrefix(xs, n, r[i]);
        if j < |d| {
          assert r[j] == d[j] && d[j] in d;
          FirstPositionInPrefix(xs, n, r[j]);
          assert FirstPosition(prefix, d[i]) < FirstPosition(prefix, d[j]);
        } else {
          assert r[j] == xs[n] && xs[n] !in prefix;
          assert FirstPosition(xs, r[j]) == n;
        }
      }
    }
  }

  function MenuCategories(menus: seq<MenuItem>): (cs: seq<string>)
    ensures |cs| == |menus|
    ensures forall i :: 0 <= i < |menus| ==> cs[i] == menus[i].category
    decreases |menus|
  {
    if menus == [] then [] else [menus[0].category] + MenuCategories(menus[1..])
  }

  /** Each category of the detail's menu once, in first-occurrence order. */
  function Categories(detail: StoreDetail): (cs: seq<string>)
    ensures forall i :: 0 <= i < |detail.menuList| ==> detail.menuList[i].category in cs
    ensures forall c :: c in cs ==> exists i :: 0 <= i < |detail.menuList| && detail.menuList[i].category == c
    ensures forall i, j :: 0 <= i < j < |cs| ==> cs[i] != cs[j]
  {
    var all := MenuCategories(detail.menuList);
    assert forall i :: 0 <= i < |detail.menuList| ==> all[i] in all;
    Distinct(all)
  }

  /** The sticky cart bar shows only for a cart with lines. */
  function CartBarVisible(cart: Option<Cart>): (visible: bool)
    ensures visible <==> cart.Some? && |cart.value.items| > 0
  {
    match cart
    case None => false
    case Some(c) => c.items != []
  }

  /** The bar's badge: the sum of the line quantities. */
  function CartBadge(cart: Cart): (n: int)
    ensures n == Sum(cart.items, LineQuantity)
    ensures n == TotalQuantity(cart)
  {
    ReduceIsSum(0, cart.items, LineQuantity);
    Reduce(0, cart.items, LineQuantity)
  }

  class StoreDetailScreen {
    const orderModel: OrderModel
    var stepperVisible: map<string, bool>

    constructor(model: OrderModel)
      ensures orderModel == model && stepperVisible == map[]
    {
      orderModel := model;
      stepperVisible := map[];
    }

    function StepperShown(menuId: string): bool
      reads this
    {
      if menuId in stepperVisible then stepperVisible[menuId] else false
    }

    /** `onAdd`; `detailName` is the store detail's name. */
    method OnAdd(menu: MenuItem, detailName: Option<string>)
      modifies this, orderModel
      ensures orderModel.cart == CartAfterOnAdd(old(orderModel.cart), menu, detailName)
      ensures stepperVisible == old(stepperVisible)[menu.menuId := true]
      ensures orderModel.orderList == old(orderModel.orderList)
      ensures orderModel.pendingPayment == old(orderModel.pendingPayment)
      ensures orderModel.paymentResult == old(orderModel.paymentResult)
    {
      var cart := orderModel.cart;
      if cart.Some? && cart.value.id == menu.storeId && FirstIndex(cart.value.items, menu.menuId).Some? {
        var idx := FirstIndex(cart.value.items, menu.menuId).value;
        orderModel.UpdateMenuQuantity(menu.menuId, cart.value.items[idx].quantity + 1);
      } else {
        orderModel.AddMenuToCart(menu.storeId, detailName.UnwrapOr(""), NewLine(menu));
      }
      stepperVisible := stepperVisible[menu.menuId := true];
    }

    /** `onRemove`. */
    method OnRemove(menu: MenuItem)
      modifies this, orderModel
      ensures orderModel.cart == CartAfterOnRemove(old(orderModel.cart), menu)
      ensures stepperVisible == old(stepperVisible)[menu.menuId := true]
      ensures orderModel.orderList == old(orderModel.orderList)
      ensures orderModel.pendingPayment == old(orderModel.pendingPayment)
      ensures orderModel.paymentResult == old(orderModel.paymentResult)
    {
      var cart := orderModel.cart;
      if cart.Some? && cart.value.id == menu.storeId && FirstIndex(cart.value.items, menu.menuId).Some? {
        var idx := FirstIndex(cart.value.items, menu.menuId).value;
        var newQuantity := cart.value.items[idx].quantity - 1;
        if newQuantity > 0 {
          orderModel.UpdateMenuQuantity(menu.menuId, newQuantity);
        } else {
          orderModel.RemoveMenuFromCart(menu.menuId);
        }
      }
      stepperVisible := stepperVisible[menu.menuId := true];
    }

    /** The stepper's three-second timer firing hides it again. */
    method StepperTimerFired(menuId: string)
      modifies this
      ensures stepperVisible == old(stepperVisible)[menuId := false]
      ensures !StepperShown(menuId)
    {
      stepperVisible := stepperVisible[menuId := false];
    }
  }
}
