/**
 * Checkout and order visibility of src/modules/order/order.controller.ts.
 *
 * The order table is the sequence `orders` of an `OrderBook`: an order's id
 * is its position, so ids grow in creation order. The product table is read
 * as a map snapshot. The payment gateway's two services are parameters:
 * `hmac(key, text)` is the hex HMAC-SHA256 of RFC 2104 that the gateway
 * signs its callbacks with, and `gateway(request)` is its order-creation
 * call, None where that call throws.
 */
module Orders {
  import opened Wrappers
  import opened Http
  import opened Strings
  import opened Middleware
  import Products

  /** One `{ productId, quantity }` of the client's claim, as supplied. */
  datatype ClaimedItem = ClaimedItem(productId: Id, quantity: int)

  /** The `items` field of the claim: left out (or falsy), some other value, or an array. */
  datatype ItemsField = Absent | NotArray | Items(items: seq<ClaimedItem>)

  /** The body of `verifyPaymentAndCreateOrder`. */
  datatype PaymentClaim = PaymentClaim(orderId: Option<string>, paymentId: Option<string>,
                                       signature: Option<string>, items: ItemsField,
                                       shippingAddress: Option<string>)

  /** A line of an order: the price is the catalog's price when the order was made. */
  datatype OrderItem = OrderItem(productId: Id, quantity: int, price: real)

  datatype Order = Order(userId: Id, totalAmount: real, shippingAddress: string, status: string,
                         paymentId: string, items: seq<OrderItem>)

  /** What `createBuyNowOrder` asks the gateway for: amount in paise, currency, receipt timestamp. */
  datatype GatewayRequest = GatewayRequest(amount: real, currency: string, receiptTime: int)

  /** The 201 body of `createBuyNowOrder`: the gateway's order and the public key id. */
  datatype Checkout = Checkout(gatewayOrder: string, keyId: Option<string>)

  /** How `createBuyNowOrder` ends: its reply, and the gateway call it made, if any. */
  datatype BuyNow = BuyNow(reply: Reply<Checkout>, call: Option<GatewayRequest>)

  const PAID := "PAID"
  const INR := "INR"
  const INVALID_BUY_NOW := "Product ID and a valid quantity are required"
  const BUY_NOW_FAILED := "Error creating Razorpay order"
  const MISSING_PAYMENT_FIELDS := "Missing required fields. Payment details, items, and shipping address are required."
  const INVALID_SIGNATURE := "Invalid payment signature"
  const ORDER_FAILED := "Error processing order"
  const ORDER_ID_REQUIRED := "Order ID is required"
  const ORDER_NOT_FOUND := "Order not found or you do not have permission to view it"

  /**
   * `createBuyNowOrder`: 401 without a caller, 400 without a product id or
   * with a quantity that is missing, zero or negative, 404 for an unknown
   * product; none of these calls the gateway. Otherwise the gateway is asked
   * for price × quantity × 100 paise in INR, and the reply is 201 with its
   * order, or 500 when the call fails.
   */
  function CreateBuyNowOrder(user: Option<AuthContext>, productId: Option<Id>, quantity: Option<int>,
                             catalog: map<Id, Products.Product>, now: int,
                             gateway: GatewayRequest -> Option<string>, keyId: Option<string>): (b: BuyNow)
    ensures b.call.Some? <==>
              user.Some? && productId.Some? && quantity.Some? && quantity.value > 0 && productId.value in catalog
    ensures b.call.Some? ==>
              b.call.value == GatewayRequest(catalog[productId.value].price * quantity.value as real * 100.0, INR, now)
    ensures user.None? ==> b.reply == Message(401, NOT_AUTHORIZED)
    ensures user.Some? && (productId.None? || quantity.None? || quantity.value <= 0) ==>
              b.reply == Message(400, INVALID_BUY_NOW)
    ensures user.Some? && productId.Some? && quantity.Some? && quantity.value > 0 && productId.value !in catalog ==>
              b.reply == Message(404, Products.PRODUCT_NOT_FOUND)
    ensures b.call.Some? ==>
              b.reply == match gateway(b.call.value)
                         case Some(o) => Data(201, Checkout(o, keyId))
                         case None => Message(500, BUY_NOW_FAILED)
  {
    if user.None? then BuyNow(Message(401, NOT_AUTHORIZED), None)
    else if productId.None? || quantity.None? || quantity.value <= 0 then BuyNow(Message(400, INVALID_BUY_NOW), None)
    else if productId.value !in catalog then BuyNow(Message(404, Products.PRODUCT_NOT_FOUND), None)
    else
      var totalAmount := catalog[productId.value].price * quantity.value as real;
      var request := GatewayRequest(totalAmount * 100.0, INR, now);
      match gateway(request)
      case Some(o) => BuyNow(Data(201, Checkout(o, keyId)), Some(request))
      case None => BuyNow(Message(500, BUY_NOW_FAILED), Some(request))
  }

  /** The first check of `verifyPaymentAndCreateOrder`: every field is present and `items` is an array (possibly empty). */
  predicate ClaimComplete(claim: PaymentClaim)
  {
    && Truthy(claim.orderId) && Truthy(claim.paymentId) && Truthy(claim.signature)
    && claim.items.Items? && Truthy(claim.shippingAddress)
  }

  /** The text the gateway signs: the gateway order id and payment id joined by "|". */
  function SignedText(orderId: string, paymentId: string): string
  {
    orderId + "|" + paymentId
  }

  /**
   * For ids without "|", the signed text determines both ids, so a signature
   * over one (order, payment) pair is a signature over no other pair.
   */
  lemma SignedTextUnambiguous(o1: string, p1: string, o2: string, p2: string)
    requires '|' !in o1 && '|' !in p1 && '|' !in o2 && '|' !in p2
    requires SignedText(o1, p1) == SignedText(o2, p2)
    ensures o1 == o2 && p1 == p2
  {
    assert Join([o1, p1], '|') == SignedText(o1, p1);
    assert Join([o2, p2], '|') == SignedText(o2, p2);
    SplitJoin([o1, p1], '|');
    SplitJoin([o2, p2], '|');
  }

  /** The signature gate: the supplied signature equals the HMAC of the signed text under the gateway secret. */
  predicate SignatureValid(claim: PaymentClaim, keySecret: string, hmac: (string, string) -> string)
    requires ClaimComplete(claim)
  {
    hmac(keySecret, SignedText(claim.orderId.value, claim.paymentId.value)) == claim.signature.value
  }

  /** The line a claimed item becomes: its product and quantity as claimed, at the stored price. */
  function Priced(item: ClaimedItem, catalog: map<Id, Products.Product>): (line: OrderItem)
    requires item.productId in catalog
    ensures line.productId == item.productId && line.quantity == item.quantity
    ensures line.price == catalog[item.productId].price
  {
    OrderItem(item.productId, item.quantity, catalog[item.productId].price)
  }

  /**
   * The line items of a claim: one per claimed item, in claim order, with
   * duplicates kept; None when some claimed product is not in the catalog.
   */
  function LineItems(claimed: seq<ClaimedItem>, catalog: map<Id, Products.Product>): (lines: Option<seq<OrderItem>>)
    ensures lines.Some? <==> forall k :: 0 <= k < |claimed| ==> claimed[k].productId in catalog
    ensures lines.Some? ==> |lines.value| == |claimed|
    ensures lines.Some? ==> forall k :: 0 <= k < |claimed| ==> lines.value[k] == Priced(claimed[k], catalog)
  {
    if claimed == [] then Some([])
    else if claimed[0].productId !in catalog then None
    else match LineItems(claimed[1..], catalog)
      case None => None
      case Some(rest) => Some([Priced(claimed[0], catalog)] + rest)
  }

  /** The order total: the sum of price × quantity over the lines. */
  function Total(lines: seq<OrderItem>): real
  {
    if lines == [] then 0.0 else lines[0].price * lines[0].quantity as real + Total(lines[1..])
  }

  /** The total of two runs of lines is the sum of their totals. */
  lemma {:induction false} TotalAppend(a: seq<OrderItem>, b: seq<OrderItem>)
    ensures Total(a + b) == Total(a) + Total(b)
    decreases |a|
  {
    if a == [] {
      assert a + b == b;
    } else {
      assert (a + b)[1..] == a[1..] + b;
      TotalAppend(a[1..], b);
    }
  }

  /** Two units at 100 and three at 50 make 2 × 100 + 3 × 50 = 350. */
  lemma TotalExample()
    ensures var catalog := map[1 := Products.Product("a", "a", 100.0, None), 2 := Products.Product("b", "b", 50.0, None)];
            var lines := LineItems([ClaimedItem(1, 2), ClaimedItem(2, 3)], catalog);
            lines.Some? && Total(lines.value) == 350.0
  {
    var catalog := map[1 := Products.Product("a", "a", 100.0, None), 2 := Products.Product("b", "b", 50.0, None)];
    var claimed := [ClaimedItem(1, 2), ClaimedItem(2, 3)];
    var lines := [OrderItem(1, 2, 100.0), OrderItem(2, 3, 50.0)];
    assert LineItems(claimed, catalog).value == lines;
    assert lines[1..] == [OrderItem(2, 3, 50.0)] && lines[1..][1..] == [];
    assert Total(lines[1..]) == 150.0 + Total([]);
    assert Total(lines) == 200.0 + Total(lines[1..]);
  }

  /**
   * The `items.map` of `verifyPaymentAndCreateOrder`: each claimed item in
   * turn is looked up, priced and added to `totalAmount`; an unknown product
   * aborts the whole computation.
   */
  method PriceItems(claimed: seq<ClaimedItem>, catalog: map<Id, Products.Product>)
    returns (r: Option<(seq<OrderItem>, real)>)
    ensures r.None? <==> exists k :: 0 <= k < |claimed| && claimed[k].productId !in catalog
    ensures r.Some? ==> Some(r.value.0) == LineItems(claimed, catalog) && r.value.1 == Total(r.value.0)
  {
    var totalAmount := 0.0;
    var lines: seq<OrderItem> := [];
    var k := 0;
    while k < |claimed|
      invariant 0 <= k <= |claimed|
      invariant forall j :: 0 <= j < k ==> claimed[j].productId in catalog
      invariant |lines| == k
      invariant forall j :: 0 <= j < k ==> lines[j] == Priced(claimed[j], catalog)
      invariant totalAmount == Total(lines)
    {
      var item := claimed[k];
      if item.productId !in catalog {
        return None;
      }
      var price := catalog[item.productId].price;
      TotalAppend(lines, [OrderItem(item.productId, item.quantity, price)]);
      totalAmount := totalAmount + price * item.quantity as real;
      lines := lines + [OrderItem(item.productId, item.quantity, price)];
      k := k + 1;
    }
    assert lines == LineItems(claimed, catalog).value;
    r := Some((lines, totalAmount));
  }

  /** The where-clause of the order queries: an ADMIN sees every order, anyone else only their own. */
  predicate Sees(ctx: AuthContext, order: Order)
  {
    ctx.role == ADMIN || order.userId == ctx.id
  }

  /**
   * `getOrders` over the first `n` orders: the where-clause keeps the ones
   * the caller sees, `orderBy createdAt desc` puts them newest first.
   */
  function Visible(orders: seq<Order>, n: nat, ctx: AuthContext): seq<(Id, Order)>
    requires n <= |orders|
  {
    if n == 0 then []
    else if Sees(ctx, orders[n - 1]) then [(n - 1, orders[n - 1])] + Visible(orders, n - 1, ctx)
    else Visible(orders, n - 1, ctx)
  }

  /** Every listed order is the stored order under its id, the caller sees it, and ids strictly decrease. */
  lemma {:induction false} VisibleSound(orders: seq<Order>, n: nat, ctx: AuthContext)
    requires n <= |orders|
    ensures forall k :: 0 <= k < |Visible(orders, n, ctx)| ==>
              var (id, order) := Visible(orders, n, ctx)[k];
              id < n && order == orders[id] && Sees(ctx, order)
    ensures forall a, b :: 0 <= a < b < |Visible(orders, n, ctx)| ==>
              Visible(orders, n, ctx)[a].0 > Visible(orders, n, ctx)[b].0
  {
    if n > 0 {
      VisibleSound(orders, n - 1, ctx);
      var rest := Visible(orders, n - 1, ctx);
      if Sees(ctx, orders[n - 1]) {
        var s := [(n - 1, orders[n - 1])] + rest;
        assert Visible(orders, n, ctx) == s;
        assert forall k :: 1 <= k < |s| ==> s[k] == rest[k - 1];
      }
    }
  }

  /** Every order the caller sees is listed. */
  lemma {:induction false} VisibleComplete(orders: seq<Order>, n: nat, ctx: AuthContext, id: nat)
    requires n <= |orders| && id < n && Sees(ctx, orders[id])
    ensures exists k :: 0 <= k < |Visible(orders, n, ctx)| && Visible(orders, n, ctx)[k].0 == id
  {
    var rest := Visible(orders, n - 1, ctx);
    if id == n - 1 {
      assert Visible(orders, n, ctx)[0].0 == id;
    } else {
      VisibleComplete(orders, n - 1, ctx, id);
      var j :| 0 <= j < |rest| && rest[j].0 == id;
      if Sees(ctx, orders[n - 1]) {
        assert Visible(orders, n, ctx)[j + 1].0 == id;
      } else {
        assert Visible(orders, n, ctx)[j].0 == id;
      }
    }
  }

  class OrderBook {
    /** The order table: the order with id `i` is `orders[i]`. */
    var orders: seq<Order>

    constructor ()
      ensures orders == []
    {
      orders := [];
    }

    /**
     * `verifyPaymentAndCreateOrder`. In order: 401 without a caller; 400
     * for a missing field or a non-array `items`; 400 when the signature is
     * not the HMAC of "order id|payment id"; 500 when a claimed product is
     * unknown. None of these writes anything. Otherwise exactly one order is
     * appended: the caller's, with the lines priced from the catalog, their
     * total, the shipping address, status PAID and the payment id.
     */
    method VerifyPaymentAndCreateOrder(user: Option<AuthContext>, claim: PaymentClaim, keySecret: string,
                                       hmac: (string, string) -> string, catalog: map<Id, Products.Product>)
      returns (r: Reply<(Id, Order)>)
      modifies this
      ensures user.None? ==> r == Message(401, NOT_AUTHORIZED) && orders == old(orders)
      ensures user.Some? && !ClaimComplete(claim) ==> r == Message(400, MISSING_PAYMENT_FIELDS) && orders == old(orders)
      ensures user.Some? && ClaimComplete(claim) && !SignatureValid(claim, keySecret, hmac) ==>
                r == Message(400, INVALID_SIGNATURE) && orders == old(orders)
      ensures user.Some? && ClaimComplete(claim) && SignatureValid(claim, keySecret, hmac) ==>
                match LineItems(claim.items.items, catalog)
                case None => r == Message(500, ORDER_FAILED) && orders == old(orders)
                case Some(lines) =>
                  var order := Order(user.value.id, Total(lines), claim.shippingAddress.value, PAID,
                                     claim.paymentId.value, lines);
                  orders == old(orders) + [order] && r == Data(201, (|old(orders)|, order))
    {
      if user.None? {
        return Message(401, NOT_AUTHORIZED);
      }
      if !ClaimComplete(claim) {
        return Message(400, MISSING_PAYMENT_FIELDS);
      }
      var expectedSignature := hmac(keySecret, SignedText(claim.orderId.value, claim.paymentId.value));
      if expectedSignature != claim.signature.value {
        return Message(400, INVALID_SIGNATURE);
      }
      var priced := PriceItems(claim.items.items, catalog);
      if priced.None? {
        return Message(500, ORDER_FAILED);
      }
      var (lines, totalAmount) := priced.value;
      var order := Order(user.value.id, totalAmount, claim.shippingAddress.value, PAID,
                         claim.paymentId.value, lines);
      var id := |orders|;
      orders := orders + [order];
      r := Data(201, (id, order));
    }

    /**
     * `getOrders`: 401 without a caller; otherwise exactly the orders the
     * caller may see (all for an ADMIN, their own for anyone else), each with
     * its id, newest first.
     */
    method GetOrders(user: Option<AuthContext>) returns (r: Reply<seq<(Id, Order)>>)
      ensures user.None? ==> r == Message(401, NOT_AUTHORIZED)
      ensures user.Some? ==> r.Data? && r.status == 200
      ensures user.Some? ==> forall k :: 0 <= k < |r.data| ==>
                r.data[k].0 < |orders| && r.data[k].1 == orders[r.data[k].0] && Sees(user.value, r.data[k].1)
      ensures user.Some? ==> forall id :: 0 <= id < |orders| && Sees(user.value, orders[id]) ==>
                exists k :: 0 <= k < |r.data| && r.data[k].0 == id
      ensures user.Some? ==> forall a, b :: 0 <= a < b < |r.data| ==> r.data[a].0 > r.data[b].0
    {
      if user.None? {
        return Message(401, NOT_AUTHORIZED);
      }
      var listed := Visible(orders, |orders|, user.value);
      VisibleSound(orders, |orders|, user.value);
      forall id | 0 <= id < |orders| && Sees(user.value, orders[id])
        ensures exists k :: 0 <= k < |listed| && listed[k].0 == id
      {
        VisibleComplete(orders, |orders|, user.value, id);
      }
      r := Data(200, listed);
    }

    /**
     * `getOrderInvoice` up to the PDF: 401 without a caller, 400 without an
     * id; the order when it exists and the caller sees it; otherwise one and
     * the same 404, whether the order is missing or someone else's.
     */
    method GetOrderInvoice(user: Option<AuthContext>, id: Option<Id>) returns (r: Reply<(Id, Order)>)
      ensures user.None? ==> r == Message(401, NOT_AUTHORIZED)
      ensures user.Some? && id.None? ==> r == Message(400, ORDER_ID_REQUIRED)
      ensures user.Some? && id.Some? ==>
                if id.value < |orders| && Sees(user.value, orders[id.value]) then r == Data(200, (id.value, orders[id.value]))
                else r == Message(404, ORDER_NOT_FOUND)
    {
      if user.None? {
        return Message(401, NOT_AUTHORIZED);
      }
      if id.None? {
        return Message(400, ORDER_ID_REQUIRED);
      }
      if id.value < |orders| && Sees(user.value, orders[id.value]) {
        r := Data(200, (id.value, orders[id.value]));
      } else {
        r := Message(404, ORDER_NOT_FOUND);
      }
    }
  }
}
