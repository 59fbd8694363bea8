/**
 * Sequences of requests against the store, stated and proved from the
 * handlers' contracts alone: what a client observes when it repeats a call.
 */
module Scenarios {
  import opened Domain
  import opened Stock
  import opened Signature
  import opened Tables
  import opened Shop

  /** A lookup by id sees only the ids, so changing a quantity does not move it. */
  lemma {:induction false} IndexOfLineSeesOnlyIds(a: seq<CartLine>, b: seq<CartLine>, id: Id)
    requires |a| == |b| && forall k :: 0 <= k < |a| ==> a[k].id == b[k].id
    ensures IndexOfLine(a, id) == IndexOfLine(b, id)
  {
    if a != [] {
      IndexOfLineSeesOnlyIds(a[1..], b[1..], id);
    }
  }

  /**
   * With stock 3 and no line yet for the product, adding 2 succeeds and
   * adding 2 more is refused, although each request alone is within stock.
   */
  method AddTwoThenTwo(s: Store, auth: Option<JwtPayload>, p: Id) returns (first: HttpStatus, second: HttpStatus)
    requires s.Valid() && auth.Some?
    requires p in s.products && s.products[p].isActive && s.products[p].stockQty == 3
    requires auth.value.userId in s.carts ==> IndexOfKey(s.cartLines, s.carts[auth.value.userId], p, None).None?
    modifies s
    ensures s.Valid()
    ensures first == Ok && second == BadRequest
  {
    first := s.AddToCart(auth, Some(p), None, Some(2));
    ghost var lines := s.cartLines;
    ghost var n := |lines| - 1;
    assert lines[n].quantity == 2 && lines[n].productId == p && lines[n].variantId.None?;
    second := s.AddToCart(auth, Some(p), None, Some(2));
    ghost var k := IndexOfKey(lines, s.carts[auth.value.userId], p, None);
    assert k.Some?;
    assert k.value == n;
  }

  /**
   * A replayed, correctly signed callback is settled again: both calls
   * answer 200 and the stock of every product drops twice.
   */
  method ReplaySettlement(s: Store, auth: Option<JwtPayload>, gatewayOrderId: string, gatewayPaymentId: string,
                          signature: string, orderId: Option<Id>, hmac: string -> string)
    returns (first: HttpStatus, second: HttpStatus)
    requires s.Valid() && auth.Some?
    requires SignatureMatches(hmac, gatewayOrderId, gatewayPaymentId, signature)
    requires OwnsOrder(s.orders, orderId, auth.value.userId)
    modifies s
    ensures s.Valid()
    ensures first == Ok && second == Ok
    ensures orderId.value in s.orders && s.orders[orderId.value].paymentStatus == PaymentStatus.Completed
    ensures forall pid :: pid in old(s.products) ==>
      pid in s.products
      && s.products[pid].stockQty == old(s.products[pid].stockQty) - 2 * SumQty(old(s.orders[orderId.value].items), pid)
  {
    ghost var items := s.orders[orderId.value].items;
    ghost var start := s.products;
    first := s.VerifyPayment(auth, gatewayOrderId, gatewayPaymentId, signature, orderId, hmac);
    second := s.VerifyPayment(auth, gatewayOrderId, gatewayPaymentId, signature, orderId, hmac);
    forall pid | pid in start
      ensures s.products[pid].stockQty == start[pid].stockQty - 2 * SumQty(items, pid)
    {
      ReplayDecrementsTwice(start, items, pid);
    }
  }

  /**
   * The callback's gateway order id is never compared with the one stored on
   * the order: a signature valid for any gateway order settles it.
   */
  method SettleWithOtherGatewayOrder(s: Store, auth: Option<JwtPayload>, gatewayOrderId: string, gatewayPaymentId: string,
                                     signature: string, orderId: Option<Id>, hmac: string -> string)
    returns (status: HttpStatus)
    requires s.Valid() && auth.Some?
    requires OwnsOrder(s.orders, orderId, auth.value.userId)
    requires s.orders[orderId.value].gatewayOrderId != gatewayOrderId
    requires SignatureMatches(hmac, gatewayOrderId, gatewayPaymentId, signature)
    modifies s
    ensures status == Ok
    ensures orderId.value in s.orders && s.orders[orderId.value].status == OrderStatus.Confirmed
    ensures orderId.value in s.orders && s.orders[orderId.value].gatewayOrderId == old(s.orders[orderId.value].gatewayOrderId)
  {
    status := s.VerifyPayment(auth, gatewayOrderId, gatewayPaymentId, signature, orderId, hmac);
  }

  /** Two GETs of the cart leave the caller with exactly one cart and the same lines. */
  method GetCartTwice(s: Store, auth: Option<JwtPayload>) returns (first: seq<CartLine>, second: seq<CartLine>)
    requires s.Valid() && auth.Some?
    modifies s
    ensures s.Valid()
    ensures s.carts.Keys == old(s.carts.Keys) + {auth.value.userId}
    ensures s.nextId <= old(s.nextId) + 1
    ensures first == second
  {
    var status;
    status, first := s.GetCart(auth);
    status, second := s.GetCart(auth);
  }

  /** Setting a line's quantity twice leaves the cart as setting it once does. */
  method UpdateTwice(s: Store, auth: Option<JwtPayload>, itemId: Option<Id>, quantity: Option<int>)
    returns (first: HttpStatus, second: HttpStatus)
    requires s.Valid()
    modifies s
    ensures s.Valid()
    ensures first == Ok ==> second == Ok
    ensures first == Ok ==> itemId.Some? && IndexOfLine(old(s.cartLines), itemId.value).Some?
    ensures first == Ok ==>
      var k := IndexOfLine(old(s.cartLines), itemId.value).value;
      s.cartLines == old(s.cartLines)[k := old(s.cartLines)[k].(quantity := quantity.GetOr(old(s.cartLines)[k].quantity))]
  {
    ghost var start := s.cartLines;
    first := s.UpdateCartItem(auth, itemId, quantity);
    ghost var mid := s.cartLines;
    if first == Ok {
      IndexOfLineSeesOnlyIds(start, mid, itemId.value);
    }
    second := s.UpdateCartItem(auth, itemId, quantity);
  }

  /** Removing the same line twice: the second request finds nothing. */
  method RemoveTwice(s: Store, auth: Option<JwtPayload>, itemId: Option<Id>) returns (first: HttpStatus, second: HttpStatus)
    requires s.Valid()
    modifies s
    ensures s.Valid()
    ensures first == Ok ==> second == NotFound
  {
    first := s.RemoveCartItem(auth, itemId);
    second := s.RemoveCartItem(auth, itemId);
  }
}
