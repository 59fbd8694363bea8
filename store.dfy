/**
 * The database behind the API routes, as one sequential in-memory store, and
 * the route handlers of the cart, checkout, settlement and address book as
 * its methods. Each handler takes the result of `authenticateRequest` (the
 * verified claims, or `None`), runs its guards in the source's order, and
 * then writes. Ids of new rows come from a counter.
 */
module Shop {
  import opened Domain
  import opened Pricing
  import opened Stock
  import opened Signature
  import opened Tables
  import opened AddressBook

  /** What the create handler sends to the payment gateway's `orders.create`. */
  datatype GatewayRequest = GatewayRequest(amount: real, currency: string, userId: UserId, cartId: Id)

  const Currency: string := "INR"

  /** The cart `cartId` belongs to `userId` (the cart table is keyed by its unique `userId`). */
  predicate OwnsCart(carts: map<UserId, Id>, userId: UserId, cartId: Id) {
    userId in carts && carts[userId] == cartId
  }

  /** `address.findUnique({ where: { id } })`. */
  function FindAddress(addresses: seq<Address>, id: Id): (r: Option<Address>)
    ensures r.Some? ==> r.value in addresses && r.value.id == id
    ensures r.None? ==> forall k :: 0 <= k < |addresses| ==> addresses[k].id != id
  {
    if addresses == [] then None
    else if addresses[0].id == id then Some(addresses[0])
    else FindAddress(addresses[1..], id)
  }

  /** The guards of POST /api/cart/add, before anything is written. */
  function AddRejection(auth: Option<JwtPayload>, productId: Option<Id>, quantity: int, products: map<Id, Product>): (r: Option<HttpStatus>)
    ensures auth.None? ==> r == Some(Unauthorized)
    ensures auth.Some? && productId.None? ==> r == Some(BadRequest)
    ensures auth.Some? && productId.Some? && (productId.value !in products || !products[productId.value].isActive)
      ==> r == Some(NotFound)
    ensures auth.Some? && productId.Some? && productId.value in products && products[productId.value].isActive
            && products[productId.value].stockQty < quantity
      ==> r == Some(BadRequest)
    ensures r.None? <==>
      auth.Some? && productId.Some? && productId.value in products
      && products[productId.value].isActive && quantity <= products[productId.value].stockQty
    ensures r.Some? ==> r.value != Ok
  {
    if auth.None? then Some(Unauthorized)
    else if productId.None? then Some(BadRequest)
    else if productId.value !in products || !products[productId.value].isActive then Some(NotFound)
    else if products[productId.value].stockQty < quantity then Some(BadRequest)
    else None
  }

  /**
   * `quantity` is compared with the stock and nothing else: a zero or negative
   * quantity passes every guard of POST /api/cart/add once it is within stock.
   */
  lemma NonPositiveQuantityAccepted(auth: Option<JwtPayload>, productId: Id, quantity: int, products: map<Id, Product>)
    requires auth.Some? && productId in products && products[productId].isActive
    requires quantity <= 0 && quantity <= products[productId].stockQty
    ensures AddRejection(auth, Some(productId), quantity, products).None?
  {
  }

  /** The guards of PATCH /api/cart/update. A missing quantity passes both numeric checks. */
  function UpdateRejection(auth: Option<JwtPayload>, itemId: Option<Id>, quantity: Option<int>,
                           lines: seq<CartLine>, carts: map<UserId, Id>, products: map<Id, Product>): (r: Option<HttpStatus>)
    requires forall k :: 0 <= k < |lines| ==> lines[k].productId in products
    ensures auth.None? ==> r == Some(Unauthorized)
    ensures auth.Some? && (itemId.None? || (quantity.Some? && quantity.value < 1)) ==> r == Some(BadRequest)
    ensures auth.Some? && itemId.Some? && (quantity.Some? ==> quantity.value >= 1)
            && (IndexOfLine(lines, itemId.value).None?
                || !OwnsCart(carts, auth.value.userId, lines[IndexOfLine(lines, itemId.value).value].cartId))
      ==> r == Some(NotFound)
    ensures auth.Some? && itemId.Some? && quantity.Some? && quantity.value >= 1
            && IndexOfLine(lines, itemId.value).Some?
            && OwnsCart(carts, auth.value.userId, lines[IndexOfLine(lines, itemId.value).value].cartId)
            && products[lines[IndexOfLine(lines, itemId.value).value].productId].stockQty < quantity.value
      ==> r == Some(BadRequest)
    ensures r.None? <==>
      auth.Some? && itemId.Some? && (quantity.Some? ==> quantity.value >= 1)
      && IndexOfLine(lines, itemId.value).Some?
      && OwnsCart(carts, auth.value.userId, lines[IndexOfLine(lines, itemId.value).value].cartId)
      && (quantity.Some? ==>
            quantity.value <= products[lines[IndexOfLine(lines, itemId.value).value].productId].stockQty)
    ensures r.Some? ==> r.value != Ok
  {
    if auth.None? then Some(Unauthorized)
    else if itemId.None? || (quantity.Some? && quantity.value < 1) then Some(BadRequest)
    else
      var k := IndexOfLine(lines, itemId.value);
      if k.None? || !OwnsCart(carts, auth.value.userId, lines[k.value].cartId) then Some(NotFound)
      else if quantity.Some? && products[lines[k.value].productId].stockQty < quantity.value then Some(BadRequest)
      else None
  }

  /** The guards of DELETE /api/cart/remove. */
  function RemoveRejection(auth: Option<JwtPayload>, itemId: Option<Id>, lines: seq<CartLine>, carts: map<UserId, Id>): (r: Option<HttpStatus>)
    ensures auth.None? ==> r == Some(Unauthorized)
    ensures auth.Some? && itemId.None? ==> r == Some(BadRequest)
    ensures r.None? <==>
      auth.Some? && itemId.Some? && IndexOfLine(lines, itemId.value).Some?
      && OwnsCart(carts, auth.value.userId, lines[IndexOfLine(lines, itemId.value).value].cartId)
    ensures auth.Some? && itemId.Some? && r.Some? ==> r == Some(NotFound)
  {
    if auth.None? then Some(Unauthorized)
    else if itemId.None? then Some(BadRequest)
    else
      var k := IndexOfLine(lines, itemId.value);
      if k.None? || !OwnsCart(carts, auth.value.userId, lines[k.value].cartId) then Some(NotFound)
      else None
  }

  /**
   * The guards of POST /api/orders/create: a shipping address id, a cart with
   * at least one line, and an address that exists and belongs to the caller.
   */
  function CheckoutRejection(auth: Option<JwtPayload>, addressId: Option<Id>, carts: map<UserId, Id>,
                             lines: seq<CartLine>, addresses: seq<Address>): (r: Option<HttpStatus>)
    ensures auth.None? ==> r == Some(Unauthorized)
    ensures auth.Some? ==> r.None? || r == Some(BadRequest)
    ensures r.None? <==>
      auth.Some? && addressId.Some?
      && auth.value.userId in carts && LinesOfCart(lines, carts[auth.value.userId]) != []
      && FindAddress(addresses, addressId.value).Some?
      && FindAddress(addresses, addressId.value).value.userId == auth.value.userId
  {
    if auth.None? then Some(Unauthorized)
    else if addressId.None? then Some(BadRequest)
    else if auth.value.userId !in carts || LinesOfCart(lines, carts[auth.value.userId]) == [] then Some(BadRequest)
    else
      var address := FindAddress(addresses, addressId.value);
      if address.None? || address.value.userId != auth.value.userId then Some(BadRequest)
      else None
  }

  /** The order row POST /api/orders/create writes: PENDING, payment PENDING, the gateway's id. */
  function PendingOrder(orderNumber: string, userId: UserId, addressId: Id, couponCode: Option<string>,
                        amounts: Amounts, gatewayOrderId: string, items: seq<OrderItem>): (o: Order)
    ensures o.status == OrderStatus.Pending && o.paymentStatus == PaymentStatus.Pending
    ensures o.gatewayOrderId == gatewayOrderId && o.gatewayPaymentId.None? && o.gatewaySignature.None?
    ensures o.subtotal == amounts.subtotal && o.taxAmount == amounts.tax && o.shippingAmount == amounts.shipping
    ensures o.discountAmount == amounts.discount && o.totalAmount == amounts.total
    ensures o.items == items && o.userId == userId && o.addressId == addressId && o.couponCode == couponCode
    ensures o.orderNumber == orderNumber
  {
    Order(orderNumber, userId, addressId, couponCode, OrderStatus.Pending, PaymentStatus.Pending,
          amounts.subtotal, amounts.tax, amounts.shipping, amounts.discount, amounts.total,
          gatewayOrderId, None, None, items)
  }

  /** The order after a verified callback: whatever it was before, now CONFIRMED and COMPLETED. */
  function Settled(o: Order, gatewayPaymentId: string, signature: string): (r: Order)
    ensures r.status == OrderStatus.Confirmed && r.paymentStatus == PaymentStatus.Completed
    ensures r.gatewayPaymentId == Some(gatewayPaymentId) && r.gatewaySignature == Some(signature)
    ensures r.(status := o.status, paymentStatus := o.paymentStatus,
               gatewayPaymentId := o.gatewayPaymentId, gatewaySignature := o.gatewaySignature) == o
  {
    o.(paymentStatus := PaymentStatus.Completed, status := OrderStatus.Confirmed,
       gatewayPaymentId := Some(gatewayPaymentId), gatewaySignature := Some(signature))
  }

  /** `order.update({ where: { id, userId } })` finds its row. */
  predicate OwnsOrder(orders: map<Id, Order>, orderId: Option<Id>, userId: UserId) {
    orderId.Some? && orderId.value in orders && orders[orderId.value].userId == userId
  }

  /** `cartItem.deleteMany({ where: { cart: { userId } } })`. */
  function ClearUserCart(lines: seq<CartLine>, carts: map<UserId, Id>, userId: UserId): (r: seq<CartLine>)
    ensures forall x :: x in r <==> x in lines && !OwnsCart(carts, userId, x.cartId)
  {
    if userId in carts then WithoutCart(lines, carts[userId]) else lines
  }

  /** A line whose ids are below the counter and whose product and variant rows exist. */
  predicate LineWellFormed(line: CartLine, products: map<Id, Product>, variants: map<Id, Variant>, bound: nat) {
    line.id < bound && line.cartId < bound && Resolves(line, products, variants)
  }

  /** One cart per user (the key), each with its own id below the counter. */
  ghost predicate CartsValid(carts: map<UserId, Id>, bound: nat) {
    && (forall u :: u in carts ==> carts[u] < bound)
    && (forall u, v :: u in carts && v in carts && carts[u] == carts[v] ==> u == v)
  }

  ghost predicate LinesValid(lines: seq<CartLine>, products: map<Id, Product>, variants: map<Id, Variant>, bound: nat) {
    && (forall k :: 0 <= k < |lines| ==> LineWellFormed(lines[k], products, variants, bound))
    && UniqueLineIds(lines)
    && UniqueLineKeys(lines)
  }

  ghost predicate OrdersValid(orders: map<Id, Order>, products: map<Id, Product>, bound: nat) {
    forall o :: o in orders ==> o < bound && ItemsResolve(orders[o].items, products)
  }

  ghost predicate AddressesValid(addresses: seq<Address>, bound: nat) {
    && (forall k :: 0 <= k < |addresses| ==> addresses[k].id < bound)
    && (forall i, j :: 0 <= i < j < |addresses| ==> addresses[i].id != addresses[j].id)
  }

  lemma CartCreated(carts: map<UserId, Id>, u: UserId, bound: nat)
    requires CartsValid(carts, bound) && u !in carts
    ensures CartsValid(carts[u := bound], bound + 1)
  {
  }

  lemma CartsBoundGrows(carts: map<UserId, Id>, bound: nat, bound': nat)
    requires CartsValid(carts, bound) && bound <= bound'
    ensures CartsValid(carts, bound')
  {
  }

  lemma LinesBoundGrows(lines: seq<CartLine>, products: map<Id, Product>, variants: map<Id, Variant>, bound: nat, bound': nat)
    requires LinesValid(lines, products, variants, bound) && bound <= bound'
    ensures LinesValid(lines, products, variants, bound')
  {
  }

  lemma OrdersBoundGrows(orders: map<Id, Order>, products: map<Id, Product>, bound: nat, bound': nat)
    requires OrdersValid(orders, products, bound) && bound <= bound'
    ensures OrdersValid(orders, products, bound')
  {
  }

  lemma AddressesBoundGrows(addresses: seq<Address>, bound: nat, bound': nat)
    requires AddressesValid(addresses, bound) && bound <= bound'
    ensures AddressesValid(addresses, bound')
  {
  }

  lemma LineQuantitySet(lines: seq<CartLine>, products: map<Id, Product>, variants: map<Id, Variant>, bound: nat, k: nat, q: int)
    requires LinesValid(lines, products, variants, bound) && k < |lines|
    ensures LinesValid(lines[k := lines[k].(quantity := q)], products, variants, bound)
  {
    var r := lines[k := lines[k].(quantity := q)];
    forall i, j | 0 <= i < j < |r| ensures r[i].id != r[j].id && !SameKey(r[i], r[j]) {
      assert r[i].id == lines[i].id && SameKey(r[i], lines[i]);
      assert r[j].id == lines[j].id && SameKey(r[j], lines[j]);
    }
  }

  lemma LineInserted(lines: seq<CartLine>, products: map<Id, Product>, variants: map<Id, Variant>, bound: nat, line: CartLine)
    requires LinesValid(lines, products, variants, bound)
    requires line.id == bound && line.cartId < bound && Resolves(line, products, variants)
    requires IndexOfKey(lines, line.cartId, line.productId, line.variantId).None?
    ensures LinesValid(lines + [line], products, variants, bound + 1)
  {
    var r := lines + [line];
    forall i, j | 0 <= i < j < |r| ensures r[i].id != r[j].id && !SameKey(r[i], r[j]) {
      if j == |lines| {
        assert r[i] == lines[i];
      }
    }
  }

  lemma LinesRemoved(lines: seq<CartLine>, products: map<Id, Product>, variants: map<Id, Variant>, bound: nat, k: nat)
    requires LinesValid(lines, products, variants, bound) && k < |lines|
    ensures LinesValid(RemoveAt(lines, k), products, variants, bound)
  {
    RemoveAtKeepsUnique(lines, k);
  }

  lemma LinesCleared(lines: seq<CartLine>, products: map<Id, Product>, variants: map<Id, Variant>, bound: nat, carts: map<UserId, Id>, u: UserId)
    requires LinesValid(lines, products, variants, bound)
    ensures LinesValid(ClearUserCart(lines, carts, u), products, variants, bound)
  {
    if u in carts {
      WithoutCartKeepsUnique(lines, carts[u]);
      var r := ClearUserCart(lines, carts, u);
      forall k | 0 <= k < |r| ensures LineWellFormed(r[k], products, variants, bound) {
        assert r[k] in lines;
      }
    }
  }

  /** Stock changes keep every product row, so every reference into the table still resolves. */
  lemma ProductKeysKept(lines: seq<CartLine>, orders: map<Id, Order>, products: map<Id, Product>, products': map<Id, Product>,
                        variants: map<Id, Variant>, bound: nat)
    requires LinesValid(lines, products, variants, bound) && OrdersValid(orders, products, bound)
    requires products'.Keys == products.Keys
    ensures LinesValid(lines, products', variants, bound) && OrdersValid(orders, products', bound)
  {
    forall k | 0 <= k < |lines| ensures LineWellFormed(lines[k], products', variants, bound) {
      assert LineWellFormed(lines[k], products, variants, bound);
    }
    forall o | o in orders ensures ItemsResolve(orders[o].items, products') {
      assert ItemsResolve(orders[o].items, products);
    }
  }

  lemma LinesOfCartResolve(lines: seq<CartLine>, products: map<Id, Product>, variants: map<Id, Variant>, bound: nat, cartId: Id)
    requires LinesValid(lines, products, variants, bound)
    ensures AllResolve(LinesOfCart(lines, cartId), products, variants)
  {
    var r := LinesOfCart(lines, cartId);
    forall k | 0 <= k < |r| ensures Resolves(r[k], products, variants) {
      assert r[k] in lines;
    }
  }

  lemma OrderInserted(orders: map<Id, Order>, products: map<Id, Product>, bound: nat, o: Order)
    requires OrdersValid(orders, products, bound) && ItemsResolve(o.items, products)
    ensures OrdersValid(orders[bound := o], products, bound + 1)
  {
  }

  lemma SettledOrderValid(orders: map<Id, Order>, products: map<Id, Product>, bound: nat, id: Id, o: Order)
    requires OrdersValid(orders, products, bound) && id in orders && o.items == orders[id].items
    ensures OrdersValid(orders[id := o], products, bound)
  {
  }

  lemma AddressInserted(addresses: seq<Address>, bound: nat, a: Address)
    requires AddressesValid(addresses, bound) && a.id == bound
    ensures AddressesValid(InsertAddress(addresses, a), bound + 1)
  {
    var r := InsertAddress(addresses, a);
    if a.isDefault {
      assert forall k :: 0 <= k < |addresses| ==> r[k].id == addresses[k].id;
    } else {
      assert forall k :: 0 <= k < |addresses| ==> r[k] == addresses[k];
    }
  }

  class Store {
    var products: map<Id, Product>
    var variants: map<Id, Variant>
    var coupons: map<string, Coupon>
    /** The cart table, keyed by its unique `userId`: the id of each user's cart. */
    var carts: map<UserId, Id>
    var cartLines: seq<CartLine>
    var orders: map<Id, Order>
    var addresses: seq<Address>
    var nextId: nat

    /** Ids are fresh and unique, foreign keys resolve, and (cart, product, variant) is unique. */
    ghost predicate Valid()
      reads this
    {
      && CartsValid(carts, nextId)
      && LinesValid(cartLines, products, variants, nextId)
      && OrdersValid(orders, products, nextId)
      && AddressesValid(addresses, nextId)
    }

    /** A store over a seeded catalogue, with no carts, orders or addresses yet. */
    constructor (products: map<Id, Product>, variants: map<Id, Variant>, coupons: map<string, Coupon>)
      ensures Valid()
      ensures this.products == products && this.variants == variants && this.coupons == coupons
      ensures carts == map[] && cartLines == [] && orders == map[] && addresses == []
    {
      this.products := products;
      this.variants := variants;
      this.coupons := coupons;
      carts := map[];
      cartLines := [];
      orders := map[];
      addresses := [];
      nextId := 0;
    }

    /** GET /api/cart: the caller's cart lines, creating an empty cart first when there is none. */
    method GetCart(auth: Option<JwtPayload>) returns (status: HttpStatus, lines: seq<CartLine>)
      requires Valid()
      modifies this
      ensures Valid()
      ensures products == old(products) && variants == old(variants) && coupons == old(coupons)
      ensures cartLines == old(cartLines) && orders == old(orders) && addresses == old(addresses)
      ensures auth.None? ==> status == Unauthorized && lines == [] && unchanged(this)
      ensures auth.Some? ==>
        status == Ok && auth.value.userId in carts && lines == LinesOfCart(cartLines, carts[auth.value.userId])
      ensures auth.Some? && auth.value.userId in old(carts) ==> unchanged(this)
      ensures auth.Some? && auth.value.userId !in old(carts) ==>
        carts == old(carts)[auth.value.userId := old(nextId)] && nextId == old(nextId) + 1 && lines == []
    {
      if auth.None? {
        return Unauthorized, [];
      }
      var u := auth.value.userId;
      if u !in carts {
        CartCreated(carts, u, nextId);
        LinesBoundGrows(cartLines, products, variants, nextId, nextId + 1);
        OrdersBoundGrows(orders, products, nextId, nextId + 1);
        AddressesBoundGrows(addresses, nextId, nextId + 1);
        NoLinesOfCart(cartLines, nextId);
        carts := carts[u := nextId];
        nextId := nextId + 1;
      }
      status, lines := Ok, LinesOfCart(cartLines, carts[u]);
    }

    /** `cart.findUnique({ where: { userId } })`, then `cart.create` when there is none. */
    method GetOrCreateCart(u: UserId) returns (cartId: Id)
      requires Valid()
      modifies this`carts, this`nextId
      ensures Valid()
      ensures carts == (if u in old(carts) then old(carts) else old(carts)[u := old(nextId)])
      ensures nextId == (if u in old(carts) then old(nextId) else old(nextId) + 1)
      ensures cartId == carts[u]
    {
      if u !in carts {
        CartCreated(carts, u, nextId);
        LinesBoundGrows(cartLines, products, variants, nextId, nextId + 1);
        OrdersBoundGrows(orders, products, nextId, nextId + 1);
        AddressesBoundGrows(addresses, nextId, nextId + 1);
        carts := carts[u := nextId];
        nextId := nextId + 1;
      }
      cartId := carts[u];
    }

    /**
     * POST /api/cart/add. `quantity` defaults to 1 and is otherwise not
     * validated. After the guards the caller's cart is created if missing;
     * then an existing (product, variant) line grows if the combined quantity
     * is within stock, or a new line is inserted.
     */
    method AddToCart(auth: Option<JwtPayload>, productId: Option<Id>, variantId: Option<Id>, quantity: Option<int>)
      returns (status: HttpStatus)
      requires Valid()
      modifies this
      ensures Valid()
      ensures products == old(products) && variants == old(variants) && coupons == old(coupons)
      ensures orders == old(orders) && addresses == old(addresses)
      ensures AddRejection(auth, productId, quantity.GetOr(1), old(products)).Some? ==>
        status == AddRejection(auth, productId, quantity.GetOr(1), old(products)).value && unchanged(this)
      ensures AddRejection(auth, productId, quantity.GetOr(1), old(products)).None? ==>
        var u := auth.value.userId;
        var p := productId.value;
        var q := quantity.GetOr(1);
        && carts == (if u in old(carts) then old(carts) else old(carts)[u := old(nextId)])
        && var k := IndexOfKey(old(cartLines), carts[u], p, variantId);
        if k.Some? then
          var grown := old(cartLines)[k.value].quantity + q;
          && nextId == old(nextId) + (if u in old(carts) then 0 else 1)
          && if old(products)[p].stockQty < grown then
            status == BadRequest && cartLines == old(cartLines)
          else
            status == Ok && cartLines == old(cartLines)[k.value := old(cartLines)[k.value].(quantity := grown)]
        else if variantId.Some? && variantId.value !in old(variants) then
          status == InternalError && cartLines == old(cartLines)
          && nextId == old(nextId) + (if u in old(carts) then 0 else 1)
        else
          status == Ok && cartLines == old(cartLines) + [CartLine(nextId - 1, carts[u], p, variantId, q)]
          && nextId == old(nextId) + (if u in old(carts) then 1 else 2)
    {
      var q := quantity.GetOr(1);
      var rejection := AddRejection(auth, productId, q, products);
      if rejection.Some? {
        return rejection.value;
      }
      var u := auth.value.userId;
      var p := productId.value;
      var cartId := GetOrCreateCart(u);
      var k := IndexOfKey(cartLines, cartId, p, variantId);
      if k.Some? {
        var grown := cartLines[k.value].quantity + q;
        if products[p].stockQty < grown {
          return BadRequest;
        }
        LineQuantitySet(cartLines, products, variants, nextId, k.value, grown);
        cartLines := cartLines[k.value := cartLines[k.value].(quantity := grown)];
      } else if variantId.Some? && variantId.value !in variants {
        // The foreign key on the variant rejects the insert; the cart created above stays.
        return InternalError;
      } else {
        var line := CartLine(nextId, cartId, p, variantId, q);
        LineInserted(cartLines, products, variants, nextId, line);
        CartsBoundGrows(carts, nextId, nextId + 1);
        OrdersBoundGrows(orders, products, nextId, nextId + 1);
        AddressesBoundGrows(addresses, nextId, nextId + 1);
        cartLines := cartLines + [line];
        nextId := nextId + 1;
      }
      status := Ok;
    }

    /**
     * PATCH /api/cart/update: sets (does not add to) the quantity of one of
     * the caller's lines, within the product's stock.
     */
    method UpdateCartItem(auth: Option<JwtPayload>, itemId: Option<Id>, quantity: Option<int>)
      returns (status: HttpStatus)
      requires Valid()
      modifies this
      ensures Valid()
      ensures products == old(products) && variants == old(variants) && coupons == old(coupons)
      ensures carts == old(carts) && orders == old(orders) && addresses == old(addresses) && nextId == old(nextId)
      ensures UpdateRejection(auth, itemId, quantity, old(cartLines), carts, products).Some? ==>
        status == UpdateRejection(auth, itemId, quantity, old(cartLines), carts, products).value
        && cartLines == old(cartLines)
      ensures UpdateRejection(auth, itemId, quantity, old(cartLines), carts, products).None? ==>
        var k := IndexOfLine(old(cartLines), itemId.value).value;
        status == Ok
        && cartLines == old(cartLines)[k := old(cartLines)[k].(quantity := quantity.GetOr(old(cartLines)[k].quantity))]
      ensures status == Ok ==>
        itemId.Some? && IndexOfLine(cartLines, itemId.value).Some?
        && var k := IndexOfLine(cartLines, itemId.value).value;
        quantity.Some? ==> 1 <= cartLines[k].quantity == quantity.value <= products[cartLines[k].productId].stockQty
    {
      var rejection := UpdateRejection(auth, itemId, quantity, cartLines, carts, products);
      if rejection.Some? {
        return rejection.value;
      }
      var k := IndexOfLine(cartLines, itemId.value).value;
      if quantity.Some? {
        // Prisma leaves a field given as `undefined` untouched.
        LineQuantitySet(cartLines, products, variants, nextId, k, quantity.value);
        cartLines := cartLines[k := cartLines[k].(quantity := quantity.value)];
        assert cartLines[k].id == itemId.value;
        assert IndexOfLine(cartLines, itemId.value).value == k;
      }
      status := Ok;
    }

    /** DELETE /api/cart/remove: deletes one of the caller's lines. */
    method RemoveCartItem(auth: Option<JwtPayload>, itemId: Option<Id>) returns (status: HttpStatus)
      requires Valid()
      modifies this
      ensures Valid()
      ensures products == old(products) && variants == old(variants) && coupons == old(coupons)
      ensures carts == old(carts) && orders == old(orders) && addresses == old(addresses) && nextId == old(nextId)
      ensures RemoveRejection(auth, itemId, old(cartLines), carts).Some? ==>
        status == RemoveRejection(auth, itemId, old(cartLines), carts).value && cartLines == old(cartLines)
      ensures RemoveRejection(auth, itemId, old(cartLines), carts).None? ==>
        status == Ok && cartLines == RemoveAt(old(cartLines), IndexOfLine(old(cartLines), itemId.value).value)
        && IndexOfLine(cartLines, itemId.value).None?
    {
      var rejection := RemoveRejection(auth, itemId, cartLines, carts);
      if rejection.Some? {
        return rejection.value;
      }
      var k := IndexOfLine(cartLines, itemId.value).value;
      RemovedIdGone(cartLines, k);
      LinesRemoved(cartLines, products, variants, nextId, k);
      cartLines := RemoveAt(cartLines, k);
      status := Ok;
    }

    /**
     * POST /api/orders/create. After the guards, prices the caller's cart
     * lines, asks the gateway for a payment intent for the total, and only if
     * that succeeds writes a PENDING order holding the item snapshot.
     * `sent` is the request made to the gateway, if any.
     */
    method CreateOrder(auth: Option<JwtPayload>, addressId: Option<Id>, couponCode: Option<string>, now: int,
                       orderNumber: string, createIntent: GatewayRequest -> Option<string>)
      returns (status: HttpStatus, orderId: Option<Id>, sent: Option<GatewayRequest>)
      requires Valid()
      modifies this
      ensures Valid()
      ensures products == old(products) && variants == old(variants) && coupons == old(coupons)
      ensures carts == old(carts) && cartLines == old(cartLines) && addresses == old(addresses)
      ensures CheckoutRejection(auth, addressId, carts, cartLines, addresses).Some? ==>
        status == CheckoutRejection(auth, addressId, carts, cartLines, addresses).value
        && orderId.None? && sent.None? && orders == old(orders) && nextId == old(nextId)
      ensures CheckoutRejection(auth, addressId, carts, cartLines, addresses).None? ==>
        var u := auth.value.userId;
        var items := Snapshots(LinesOfCart(cartLines, carts[u]), products, variants);
        var amounts := Quote(SumTotals(items), couponCode, coupons, now);
        && sent == Some(GatewayRequest(amounts.total, Currency, u, carts[u]))
        && (createIntent(sent.value).None? ==>
              status == InternalError && orderId.None? && orders == old(orders) && nextId == old(nextId))
        && (createIntent(sent.value).Some? ==>
              status == Ok && orderId == Some(old(nextId)) && nextId == old(nextId) + 1
              && orders == old(orders)[old(nextId) :=
                   PendingOrder(orderNumber, u, addressId.value, couponCode, amounts, createIntent(sent.value).value, items)])
      ensures status == Ok ==>
        orderId.Some? && orderId.value !in old(orders) && sent.Some?
        && orders[orderId.value].totalAmount == sent.value.amount
        && orders[orderId.value].subtotal == SumTotals(orders[orderId.value].items)
    {
      var rejection := CheckoutRejection(auth, addressId, carts, cartLines, addresses);
      if rejection.Some? {
        return rejection.value, None, None;
      }
      var u := auth.value.userId;
      var cartId := carts[u];
      var lines := LinesOfCart(cartLines, cartId);
      LinesOfCartResolve(cartLines, products, variants, nextId, cartId);
      var subtotal, items := BuildOrderItems(lines, products, variants);
      var amounts := Quote(subtotal, couponCode, coupons, now);
      var request := GatewayRequest(amounts.total, Currency, u, cartId);
      sent := Some(request);
      var intent := createIntent(request);
      if intent.None? {
        return InternalError, None, sent;
      }
      var order := PendingOrder(orderNumber, u, addressId.value, couponCode, amounts, intent.value, items);
      assert ItemsResolve(items, products);
      OrderInserted(orders, products, nextId, order);
      CartsBoundGrows(carts, nextId, nextId + 1);
      LinesBoundGrows(cartLines, products, variants, nextId, nextId + 1);
      AddressesBoundGrows(addresses, nextId, nextId + 1);
      orders := orders[nextId := order];
      orderId := Some(nextId);
      nextId := nextId + 1;
      status := Ok;
    }

    /**
     * POST /api/orders/verify. A callback whose signature matches
     * HMAC(gatewayOrderId + "|" + gatewayPaymentId) settles the caller's order
     * `orderId`, whatever its current status and whichever gateway order the
     * callback names; then the caller's cart is emptied and every item's
     * quantity is taken off its product's stock.
     */
    method VerifyPayment(auth: Option<JwtPayload>, gatewayOrderId: string, gatewayPaymentId: string,
                         signature: string, orderId: Option<Id>, hmac: string -> string)
      returns (status: HttpStatus)
      requires Valid()
      modifies this
      ensures Valid()
      ensures variants == old(variants) && coupons == old(coupons) && carts == old(carts)
      ensures addresses == old(addresses) && nextId == old(nextId)
      ensures auth.None? ==> status == Unauthorized && unchanged(this)
      ensures auth.Some? && !SignatureMatches(hmac, gatewayOrderId, gatewayPaymentId, signature) ==>
        status == BadRequest && unchanged(this)
      ensures auth.Some? && SignatureMatches(hmac, gatewayOrderId, gatewayPaymentId, signature)
              && !OwnsOrder(old(orders), orderId, auth.value.userId) ==>
        status == InternalError && unchanged(this)
      ensures auth.Some? && SignatureMatches(hmac, gatewayOrderId, gatewayPaymentId, signature)
              && OwnsOrder(old(orders), orderId, auth.value.userId) ==>
        var o := old(orders)[orderId.value];
        && status == Ok
        && orders == old(orders)[orderId.value := Settled(o, gatewayPaymentId, signature)]
        && cartLines == ClearUserCart(old(cartLines), carts, auth.value.userId)
        && products == ApplyDecrements(old(products), o.items)
    {
      if auth.None? {
        return Unauthorized;
      }
      var u := auth.value.userId;
      if hmac(SignedMessage(gatewayOrderId, gatewayPaymentId)) != signature {
        return BadRequest;
      }
      if !OwnsOrder(orders, orderId, u) {
        // `order.update` finds no row and throws; the handler answers 500.
        return InternalError;
      }
      var id := orderId.value;
      var o := orders[id];
      orders := orders[id := Settled(o, gatewayPaymentId, signature)];
      LinesCleared(cartLines, products, variants, nextId, carts, u);
      SettledOrderValid(orders, products, nextId, id, Settled(o, gatewayPaymentId, signature));
      cartLines := ClearUserCart(cartLines, carts, u);
      DecrementStock(o.items);
      status := Ok;
    }

    /**
     * The settlement's stock loop: `product.update({ data: { stockQty: { decrement } } })`
     * for each item in turn, with no check against the stock on hand.
     */
    method DecrementStock(items: seq<OrderItem>)
      requires Valid() && ItemsResolve(items, products)
      modifies this`products
      ensures Valid()
      ensures products == ApplyDecrements(old(products), items)
    {
      ghost var before := products;
      for i := 0 to |items|
        invariant ItemsResolve(items[..i], before)
        invariant products == ApplyDecrements(before, items[..i])
      {
        var item := items[i];
        assert items[..i + 1][..i] == items[..i];
        products := products[item.productId := products[item.productId].(stockQty := products[item.productId].stockQty - item.quantity)];
      }
      assert items[..|items|] == items;
      ProductKeysKept(cartLines, orders, before, products, variants, nextId);
    }

    /**
     * POST /api/user/addresses: with every required field present, demotes the
     * caller's defaults when the new address is a default, then appends it.
     */
    method AddAddress(auth: Option<JwtPayload>, input: AddressInput, now: int)
      returns (status: HttpStatus, created: Option<Address>)
      requires Valid()
      modifies this
      ensures Valid()
      ensures products == old(products) && variants == old(variants) && coupons == old(coupons)
      ensures carts == old(carts) && cartLines == old(cartLines) && orders == old(orders)
      ensures auth.None? ==> status == Unauthorized && created.None? && unchanged(this)
      ensures auth.Some? && !HasRequiredFields(input) ==> status == BadRequest && created.None? && unchanged(this)
      ensures auth.Some? && HasRequiredFields(input) ==>
        status == Ok && created == Some(NewAddress(input, old(nextId), auth.value.userId, now))
        && addresses == InsertAddress(old(addresses), created.value) && nextId == old(nextId) + 1
    {
      if auth.None? {
        return Unauthorized, None;
      }
      if !HasRequiredFields(input) {
        return BadRequest, None;
      }
      var a := NewAddress(input, nextId, auth.value.userId, now);
      AddressInserted(addresses, nextId, a);
      CartsBoundGrows(carts, nextId, nextId + 1);
      LinesBoundGrows(cartLines, products, variants, nextId, nextId + 1);
      OrdersBoundGrows(orders, products, nextId, nextId + 1);
      addresses := InsertAddress(addresses, a);
      nextId := nextId + 1;
      status, created := Ok, Some(a);
    }

    /** GET /api/user/addresses: the caller's addresses, defaults first, then newest first. */
    method GetAddresses(auth: Option<JwtPayload>) returns (status: HttpStatus, listed: seq<Address>)
      ensures auth.None? ==> status == Unauthorized && listed == []
      ensures auth.Some? ==> status == Ok && listed == ListAddresses(addresses, auth.value.userId)
      ensures forall b :: b in listed ==> b in addresses && b.userId == auth.value.userId
      ensures Sorted(listed)
    {
      if auth.None? {
        return Unauthorized, [];
      }
      status, listed := Ok, ListAddresses(addresses, auth.value.userId);
    }
  }
}
