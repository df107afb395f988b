// The earlier order model: the same one-store cart updates, with no
// payment or history handling.
module LegacyOrderModels {
  import opened Wrappers
  import opened OrderEntities
  import opened OrderModels

  class LegacyOrderModel {
    var cart: Option<Cart>
    var orderList: seq<Order>

    constructor()
      ensures cart.None? && orderList == []
    {
      cart := None;
      orderList := [];
    }

    method AddMenuToCart(storeId: string, storeName: string, menu: CartMenuItem)
      modifies this
      ensures cart == Some(CartAfterAdd(old(cart), storeId, storeName, menu))
      ensures orderList == old(orderList)
    {
      if cart.None? || cart.value.id != storeId {
        cart := Some(Cart(storeId, storeName, [menu]));
      } else {
        var current := cart.value;
        match FirstIndex(current.items, menu.id) {
          case Some(idx) =>
            var item := current.items[idx];
            cart := Some(current.(items := current.items[idx := item.(quantity := item.quantity + menu.quantity)]));
          case None =>
            cart := Some(current.(items := current.items + [menu]));
        }
      }
    }

    method UpdateMenuQuantity(menuId: string, quantity: int)
      modifies this
      ensures cart == CartAfterQuantityUpdate(old(cart), menuId, quantity)
      ensures orderList == old(orderList)
    {
      if cart.None? {
        return;
      }
      var current := cart.value;
      match FirstIndex(current.items, menuId) {
        case Some(idx) =>
          cart := Some(current.(items := current.items[idx := current.items[idx].(quantity := quantity)]));
        case None =>
      }
    }

    method RemoveMenuFromCart(menuId: string)
      modifies this
      ensures cart == CartAfterRemove(old(cart), menuId)
      ensures orderList == old(orderList)
    {
      if cart.None? {
        return;
      }
      var current := cart.value;
      current := current.(items := RemoveAll(current.items, menuId));
      if current.items == [] {
        cart := None;
      } else {
        cart := Some(current);
      }
    }

    method ClearCart()
      modifies this
      ensures cart.None? && orderList == old(orderList)
    {
      cart := None;
    }
  }
}
