/**
 * Entities of the shop's checkout-and-cart pipeline, as stored in its database
 * (records of `src/types/index.ts`), plus the small wrappers the route handlers use.
 * All money is in integer paise, except the coupon discount and the order total,
 * which the source computes as JavaScript numbers and which are therefore `real` here.
 */
module Domain {

  /** Row ids. The database generates them; the model draws them from a counter. */
  type Id = nat

  /** The `userId` carried by a verified session token. */
  type UserId = string

  datatype Option<T> = None | Some(value: T) {
    function GetOr(default: T): T {
      match this
      case Some(v) => v
      case None => default
    }
  }

  /** JavaScript truthiness of an optional string: absent and "" are both falsy. */
  predicate Truthy(s: Option<string>) {
    s.Some? && s.value != ""
  }

  /** The HTTP statuses the route handlers answer with. */
  datatype HttpStatus = Ok | BadRequest | Unauthorized | NotFound | InternalError {
    function Code(): int {
      match this
      case Ok => 200
      case BadRequest => 400
      case Unauthorized => 401
      case NotFound => 404
      case InternalError => 500
    }
  }

  datatype OrderStatus =
    | Pending | Confirmed | Processing | Shipped | Delivered | Cancelled | Refunded

  datatype PaymentStatus =
    | Pending | Processing | Completed | Failed | Refunded

  datatype CouponType = Percentage | FixedAmount

  /** The claims of a verified session token. */
  datatype JwtPayload = JwtPayload(userId: UserId, email: string, isAdmin: bool)

  datatype Product = Product(
    name: string,
    sku: string,
    sellingPrice: int,
    stockQty: int,
    isActive: bool)

  datatype Variant = Variant(productId: Id, priceAdjust: int)

  /** A cart line; (cartId, productId, variantId) is a unique key. */
  datatype CartLine = CartLine(
    id: Id,
    cartId: Id,
    productId: Id,
    variantId: Option<Id>,
    quantity: int)

  datatype Coupon = Coupon(
    kind: CouponType,
    value: int,
    maxDiscount: Option<int>,
    minAmount: Option<int>,
    isActive: bool,
    expiresAt: Option<int>)

  /** The immutable snapshot of one cart line taken when an order is created. */
  datatype OrderItem = OrderItem(
    productId: Id,
    variantId: Option<Id>,
    productName: string,
    productSku: string,
    unitPrice: int,
    quantity: int,
    totalPrice: int)

  datatype Order = Order(
    orderNumber: string,
    userId: UserId,
    addressId: Id,
    couponCode: Option<string>,
    status: OrderStatus,
    paymentStatus: PaymentStatus,
    subtotal: int,
    taxAmount: int,
    shippingAmount: int,
    discountAmount: real,
    totalAmount: real,
    gatewayOrderId: string,
    gatewayPaymentId: Option<string>,
    gatewaySignature: Option<string>,
    items: seq<OrderItem>)

  datatype Address = Address(
    id: Id,
    userId: UserId,
    firstName: string,
    lastName: string,
    company: Option<string>,
    address1: string,
    address2: Option<string>,
    city: string,
    state: string,
    pincode: string,
    country: string,
    phone: Option<string>,
    isDefault: bool,
    createdAt: int)
}
