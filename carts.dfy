/**
 * The shopping cart of src/modules/cart/cart.controller.ts.
 *
 * A `CartStore` holds the cart table and the cart-item table of the data
 * store. Every handler receives `req.user`, the context `protect` attached,
 * as an optional value; route parameters and body fields the client may
 * leave out are optional too. Quantities are the integers `parseInt`
 * produced.
 */
module Carts {
  import opened Wrappers
  import opened Http
  import opened Middleware

  /** One row of the cart-item table. */
  datatype CartItem = CartItem(cartId: Id, productId: Id, quantity: int)

  /** What `getCart` returns: the cart's id with the rows of its items. */
  datatype CartView = CartView(cartId: Id, items: map<Id, CartItem>)

  const CART_NOT_FOUND := "Cart not found"
  const USER_CART_NOT_FOUND := "User cart not found"
  const MISSING_PRODUCT_OR_QUANTITY := "Missing productId or quantity"
  const ADD_FAILED := "Error adding item to cart"
  const ITEM_ID_REQUIRED := "Item ID is required in URL"
  const INVALID_QUANTITY := "Invalid quantity provided"
  const NO_ITEM_TO_UPDATE := "Cart item not found or you do not have permission to update it."
  const NO_ITEM_TO_DELETE := "Cart item not found or you do not have permission to delete it."
  const ITEM_REMOVED := "Item removed from cart"
  const ITEM_UPDATED := "Cart item updated"

  /** No cart holds two rows for the same product. */
  predicate OneLinePerProduct(items: map<Id, CartItem>)
  {
    forall i, j ::
      (i in items && j in items && items[i].cartId == items[j].cartId && items[i].productId == items[j].productId)
      ==> i == j
  }

  class CartStore {
    /** The cart table, by owner: user id to cart id (a user has at most one cart). */
    var carts: map<Id, Id>
    /** The cart-item table: id to row. */
    var items: map<Id, CartItem>
    var nextCartId: Id
    var nextItemId: Id

    ghost predicate Valid()
      reads this
    {
      && (forall u :: u in carts ==> carts[u] < nextCartId)
      && (forall u, v :: u in carts && v in carts && carts[u] == carts[v] ==> u == v)
      && (forall i :: i in items ==> i < nextItemId)
      && (forall i :: i in items ==> items[i].cartId in carts.Values)
      && OneLinePerProduct(items)
    }

    constructor ()
      ensures Valid() && carts == map[] && items == map[]
    {
      carts := map[];
      items := map[];
      nextCartId := 0;
      nextItemId := 0;
    }

    /** The rows of one cart. */
    function ItemsIn(cartId: Id): (m: map<Id, CartItem>)
      reads this
      ensures forall i :: i in m <==> i in items && items[i].cartId == cartId
      ensures forall i :: i in m ==> m[i] == items[i]
    {
      map i | i in items && items[i].cartId == cartId :: items[i]
    }

    /** The where-clause `{ id: itemId, cart: { userId } }`: the item exists and lies in that user's cart. */
    predicate Owns(userId: Id, itemId: Id)
      reads this
    {
      itemId in items && userId in carts && items[itemId].cartId == carts[userId]
    }

    /** The row of `cartId` for `productId`, if there is one (`cartItem.findFirst`). */
    ghost function LineOf(cartId: Id, productId: Id): (line: Option<Id>)
      reads this
      requires Valid()
      ensures line.Some? ==> line.value in items && items[line.value].cartId == cartId
                             && items[line.value].productId == productId
      ensures line.None? ==> forall i :: i in items ==> items[i].cartId != cartId || items[i].productId != productId
    {
      if exists i :: i in items && items[i].cartId == cartId && items[i].productId == productId then
        var i :| i in items && items[i].cartId == cartId && items[i].productId == productId;
        Some(i)
      else
        None
    }

    /** `getCart`: the caller's cart with its items, or 404 when the caller has none. */
    method GetCart(user: Option<AuthContext>) returns (r: Reply<CartView>)
      ensures user.None? ==> r == Message(401, NOT_AUTHORIZED)
      ensures user.Some? && user.value.id !in carts ==> r == Message(404, CART_NOT_FOUND)
      ensures user.Some? && user.value.id in carts ==>
                && r.Data? && r.status == 200 && r.data.cartId == carts[user.value.id]
                && (forall i :: i in r.data.items <==> Owns(user.value.id, i))
                && (forall i :: i in r.data.items ==> r.data.items[i] == items[i])
    {
      if user.None? {
        return Message(401, NOT_AUTHORIZED);
      }
      if user.value.id !in carts {
        return Message(404, CART_NOT_FOUND);
      }
      var c := carts[user.value.id];
      r := Data(200, CartView(c, ItemsIn(c)));
    }

    /** A new, empty cart for a user who has none (the cart `signup` creates). */
    method CreateCart(userId: Id) returns (cartId: Id)
      requires Valid() && userId !in carts
      modifies this
      ensures Valid()
      ensures cartId == old(nextCartId) && cartId !in old(carts).Values
      ensures carts == old(carts)[userId := cartId] && items == old(items)
      ensures nextItemId == old(nextItemId)
    {
      cartId := nextCartId;
      assert cartId !in carts.Values by {
        forall u | u in carts ensures carts[u] != cartId { }
      }
      ghost var before := carts;
      carts := carts[userId := cartId];
      nextCartId := nextCartId + 1;
      forall i | i in items ensures items[i].cartId in carts.Values {
        var u :| u in before && before[u] == items[i].cartId;
        assert carts[u] == items[i].cartId;
      }
    }

    /**
     * `addToCart`. The body is checked before the caller; a caller without a
     * cart gets 404. A row for the same (cart, product) has its quantity
     * raised by the given amount and no row is added; otherwise one row is
     * inserted, which fails (500, nothing written) when the product does not
     * exist. The cart table never changes, and every cart keeps at most one
     * row per product.
     */
    method AddToCart(user: Option<AuthContext>, productId: Option<Id>, quantity: Option<int>, catalog: set<Id>)
      returns (r: Reply<(Id, CartItem)>)
      requires Valid()
      modifies this
      ensures Valid() && carts == old(carts) && nextCartId == old(nextCartId)
      ensures productId.None? || quantity.None? ==>
                r == Message(400, MISSING_PRODUCT_OR_QUANTITY) && items == old(items)
      ensures productId.Some? && quantity.Some? && user.None? ==>
                r == Message(401, NOT_AUTHORIZED) && items == old(items)
      ensures productId.Some? && quantity.Some? && user.Some? && user.value.id !in carts ==>
                r == Message(404, USER_CART_NOT_FOUND) && items == old(items)
      ensures productId.Some? && quantity.Some? && user.Some? && user.value.id in carts ==>
                var c, p, q := carts[user.value.id], productId.value, quantity.value;
                match old(LineOf(c, p))
                case Some(e) =>
                  var merged := CartItem(c, p, old(items)[e].quantity + q);
                  items == old(items)[e := merged] && r == Data(200, (e, merged))
                case None =>
                  if p in catalog then
                    && old(nextItemId) !in old(items)
                    && items == old(items)[old(nextItemId) := CartItem(c, p, q)]
                    && r == Data(201, (old(nextItemId), CartItem(c, p, q)))
                  else
                    items == old(items) && r == Message(500, ADD_FAILED)
    {
      if productId.None? || quantity.None? {
        return Message(400, MISSING_PRODUCT_OR_QUANTITY);
      }
      if user.None? {
        return Message(401, NOT_AUTHORIZED);
      }
      if user.value.id !in carts {
        return Message(404, USER_CART_NOT_FOUND);
      }
      var c, p, q := carts[user.value.id], productId.value, quantity.value;
      if e :| e in items && items[e].cartId == c && items[e].productId == p {
        assert LineOf(c, p) == Some(e);
        var merged := CartItem(c, p, items[e].quantity + q);
        items := items[e := merged];
        r := Data(200, (e, merged));
      } else if p in catalog {
        var id := nextItemId;
        items := items[id := CartItem(c, p, q)];
        nextItemId := nextItemId + 1;
        r := Data(201, (id, CartItem(c, p, q)));
      } else {
        r := Message(500, ADD_FAILED);
      }
    }

    /**
     * `updateCartItem`: only an item in the caller's own cart is touched.
     * None matching gives 404 and no change; quantity 0 removes the item;
     * a positive quantity becomes its stored quantity. Nothing else changes.
     */
    method UpdateCartItem(user: Option<AuthContext>, itemId: Option<Id>, quantity: Option<int>)
      returns (r: Reply<()>)
      requires Valid()
      modifies this
      ensures Valid() && carts == old(carts) && nextCartId == old(nextCartId) && nextItemId == old(nextItemId)
      ensures user.None? ==> r == Message(401, NOT_AUTHORIZED) && items == old(items)
      ensures user.Some? && itemId.None? ==> r == Message(400, ITEM_ID_REQUIRED) && items == old(items)
      ensures user.Some? && itemId.Some? && (quantity.None? || quantity.value < 0) ==>
                r == Message(400, INVALID_QUANTITY) && items == old(items)
      ensures user.Some? && itemId.Some? && quantity.Some? && quantity.value >= 0 ==>
                var u, i, q := user.value.id, itemId.value, quantity.value;
                if !old(Owns(u, i)) then
                  r == Message(404, NO_ITEM_TO_UPDATE) && items == old(items)
                else if q == 0 then
                  r == Message(200, ITEM_REMOVED) && items == old(items) - {i}
                else
                  r == Message(200, ITEM_UPDATED) && items == old(items)[i := old(items)[i].(quantity := q)]
    {
      if user.None? {
        return Message(401, NOT_AUTHORIZED);
      }
      if itemId.None? {
        return Message(400, ITEM_ID_REQUIRED);
      }
      if quantity.None? || quantity.value < 0 {
        return Message(400, INVALID_QUANTITY);
      }
      var u, i, q := user.value.id, itemId.value, quantity.value;
      // updateMany: the number of rows that match the ownership filter is 0 or 1
      if !Owns(u, i) {
        return Message(404, NO_ITEM_TO_UPDATE);
      }
      items := items[i := items[i].(quantity := q)];
      if q == 0 {
        // deleteMany with the same filter
        items := items - {i};
        return Message(200, ITEM_REMOVED);
      }
      r := Message(200, ITEM_UPDATED);
    }

    /** `removeCartItem`: deletes the item only when it lies in the caller's cart, otherwise 404; nothing else changes. */
    method RemoveCartItem(user: Option<AuthContext>, itemId: Option<Id>) returns (r: Reply<()>)
      requires Valid()
      modifies this
      ensures Valid() && carts == old(carts) && nextCartId == old(nextCartId) && nextItemId == old(nextItemId)
      ensures user.None? ==> r == Message(401, NOT_AUTHORIZED) && items == old(items)
      ensures user.Some? && itemId.None? ==> r == Message(400, ITEM_ID_REQUIRED) && items == old(items)
      ensures user.Some? && itemId.Some? && !old(Owns(user.value.id, itemId.value)) ==>
                r == Message(404, NO_ITEM_TO_DELETE) && items == old(items)
      ensures user.Some? && itemId.Some? && old(Owns(user.value.id, itemId.value)) ==>
                r == Message(200, ITEM_REMOVED) && items == old(items) - {itemId.value}
    {
      if user.None? {
        return Message(401, NOT_AUTHORIZED);
      }
      if itemId.None? {
        return Message(400, ITEM_ID_REQUIRED);
      }
      if !Owns(user.value.id, itemId.value) {
        return Message(404, NO_ITEM_TO_DELETE);
      }
      items := items - {itemId.value};
      r := Message(200, ITEM_REMOVED);
    }
  }
}
