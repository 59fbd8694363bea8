/**
 * Server-side pricing of an order (POST /api/orders/create): the per-line
 * snapshot and subtotal loop, the flat shipping rule, the coupon discount and
 * the order total. Amounts are paise; the discount and total are `real` because
 * the percentage discount divides by 100 without rounding.
 */
module Pricing {
  import opened Domain

  /** Subtotal (paise) from which shipping is free. */
  const FreeShippingThreshold: int := 299900
  /** Shipping fee (paise) below the threshold. */
  const FlatShippingFee: int := 5000
  /** Tax is a fixed 0 for every order. */
  const TaxAmount: int := 0

  /** A cart line whose product (and variant, if any) exist in the given tables. */
  predicate Resolves(line: CartLine, products: map<Id, Product>, variants: map<Id, Variant>) {
    line.productId in products && (line.variantId.Some? ==> line.variantId.value in variants)
  }

  predicate AllResolve(lines: seq<CartLine>, products: map<Id, Product>, variants: map<Id, Variant>) {
    forall k :: 0 <= k < |lines| ==> Resolves(lines[k], products, variants)
  }

  /** The order item the checkout writes for one cart line. */
  function Snapshot(line: CartLine, products: map<Id, Product>, variants: map<Id, Variant>): (item: OrderItem)
    requires Resolves(line, products, variants)
    ensures item.productId == line.productId && item.variantId == line.variantId
    ensures item.quantity == line.quantity
    ensures item.productName == products[line.productId].name
    ensures item.productSku == products[line.productId].sku
    ensures line.variantId.None? ==> item.unitPrice == products[line.productId].sellingPrice
    ensures line.variantId.Some? ==>
      item.unitPrice == products[line.productId].sellingPrice + variants[line.variantId.value].priceAdjust
    ensures item.totalPrice == item.unitPrice * item.quantity
  {
    var p := products[line.productId];
    // The unit price: selling price, plus the variant's adjustment when there is a variant.
    var unit := if line.variantId.Some? then p.sellingPrice + variants[line.variantId.value].priceAdjust else p.sellingPrice;
    OrderItem(line.productId, line.variantId, p.name, p.sku, unit, line.quantity, unit * line.quantity)
  }

  /** One order item per cart line, in cart order. */
  function Snapshots(lines: seq<CartLine>, products: map<Id, Product>, variants: map<Id, Variant>): (items: seq<OrderItem>)
    requires AllResolve(lines, products, variants)
    ensures |items| == |lines|
    ensures forall k :: 0 <= k < |lines| ==> items[k] == Snapshot(lines[k], products, variants)
  {
    seq(|lines|, k requires 0 <= k < |lines| => Snapshot(lines[k], products, variants))
  }

  /** Sum of the items' `totalPrice`, accumulated left to right. */
  function SumTotals(items: seq<OrderItem>): (r: int)
    ensures (forall k :: 0 <= k < |items| ==> items[k].totalPrice >= 0) ==> r >= 0
    ensures (forall k :: 0 <= k < |items| ==> items[k].totalPrice == 0) ==> r == 0
  {
    if items == [] then 0 else SumTotals(items[..|items| - 1]) + items[|items| - 1].totalPrice
  }

  /** The subtotal of two item lists one after the other is the sum of their subtotals. */
  lemma {:induction false} SumTotalsAppend(a: seq<OrderItem>, b: seq<OrderItem>)
    ensures SumTotals(a + b) == SumTotals(a) + SumTotals(b)
  {
    if b == [] {
      assert a + b == a;
    } else {
      var n := |b| - 1;
      assert (a + b)[..|a + b| - 1] == a + b[..n];
      SumTotalsAppend(a, b[..n]);
    }
  }

  /**
   * The loop of the checkout: one order item per cart line, in cart order,
   * with the subtotal accumulated alongside.
   */
  method BuildOrderItems(lines: seq<CartLine>, products: map<Id, Product>, variants: map<Id, Variant>)
    returns (subtotal: int, items: seq<OrderItem>)
    requires AllResolve(lines, products, variants)
    ensures items == Snapshots(lines, products, variants)
    ensures subtotal == SumTotals(items)
  {
    subtotal := 0;
    items := [];
    for i := 0 to |lines|
      invariant |items| == i
      invariant forall k :: 0 <= k < i ==> items[k] == Snapshot(lines[k], products, variants)
      invariant subtotal == SumTotals(items)
    {
      var item := Snapshot(lines[i], products, variants);
      subtotal := subtotal + item.totalPrice;
      assert (items + [item])[..i] == items;
      items := items + [item];
    }
  }

  /** Shipping is free from the threshold up (inclusive), a flat fee below it. */
  function ShippingFor(subtotal: int): (r: int)
    ensures r == 0 <==> subtotal >= FreeShippingThreshold
    ensures r == 0 || r == FlatShippingFee
  {
    if subtotal >= FreeShippingThreshold then 0 else FlatShippingFee
  }

  /** Active, and either without expiry or expiring strictly after `now`. */
  predicate CouponUsable(c: Coupon, now: int) {
    c.isActive && (c.expiresAt.None? || c.expiresAt.value > now)
  }

  /** `maxDiscount || Infinity`: an absent or zero cap means "no cap". */
  predicate Capped(c: Coupon) {
    c.maxDiscount.Some? && c.maxDiscount.value != 0
  }

  /**
   * The coupon looked up for a checkout, when it applies. A falsy code is not
   * looked up at all; `minAmount` is never consulted.
   */
  function ApplicableCoupon(couponCode: Option<string>, coupons: map<string, Coupon>, now: int): (r: Option<Coupon>)
    ensures r.Some? <==>
      Truthy(couponCode) && couponCode.value in coupons && CouponUsable(coupons[couponCode.value], now)
    ensures r.Some? ==> r.value == coupons[couponCode.value]
  {
    if Truthy(couponCode) && couponCode.value in coupons && CouponUsable(coupons[couponCode.value], now)
    then Some(coupons[couponCode.value])
    else None
  }

  /**
   * The discount one applicable coupon gives: a percentage of the subtotal,
   * as the minimum of that and the cap; or the fixed value, uncapped.
   */
  function CouponDiscount(c: Coupon, subtotal: int): (r: real)
    ensures c.kind == FixedAmount ==> r == c.value as real
    ensures c.kind == Percentage ==> r <= (subtotal * c.value) as real / 100.0
    ensures c.kind == Percentage && Capped(c) ==> r <= c.maxDiscount.value as real
    ensures c.kind == Percentage ==>
      r == (subtotal * c.value) as real / 100.0 || (Capped(c) && r == c.maxDiscount.value as real)
  {
    match c.kind
    case FixedAmount => c.value as real
    case Percentage =>
      var raw := (subtotal * c.value) as real / 100.0;
      if Capped(c) && (c.maxDiscount.value as real) < raw then c.maxDiscount.value as real else raw
  }

  /** The amounts an order records and sends to the payment gateway. */
  datatype Amounts = Amounts(subtotal: int, tax: int, shipping: int, discount: real, total: real)

  function Quote(subtotal: int, couponCode: Option<string>, coupons: map<string, Coupon>, now: int): (q: Amounts)
    ensures q.subtotal == subtotal && q.tax == TaxAmount && q.shipping == ShippingFor(subtotal)
    ensures ApplicableCoupon(couponCode, coupons, now).None? ==> q.discount == 0.0
    ensures ApplicableCoupon(couponCode, coupons, now).Some? ==>
      q.discount == CouponDiscount(ApplicableCoupon(couponCode, coupons, now).value, subtotal)
    ensures q.total == (q.subtotal + q.tax + q.shipping) as real - q.discount
    ensures q.total >= 0.0 <==> q.discount <= (subtotal + q.shipping) as real
  {
    var shipping := ShippingFor(subtotal);
    var discount :=
      match ApplicableCoupon(couponCode, coupons, now)
      case Some(c) => CouponDiscount(c, subtotal)
      case None => 0.0;
    Amounts(subtotal, TaxAmount, shipping, discount, (subtotal + TaxAmount + shipping) as real - discount)
  }

  /** A percentage coupon of at most 100% never makes a non-negative subtotal's total negative. */
  lemma PercentageKeepsTotalNonNegative(subtotal: int, couponCode: Option<string>, coupons: map<string, Coupon>, now: int)
    requires subtotal >= 0
    requires Truthy(couponCode) && couponCode.value in coupons
    requires coupons[couponCode.value].kind == Percentage
    requires 0 <= coupons[couponCode.value].value <= 100
    ensures Quote(subtotal, couponCode, coupons, now).total >= 0.0
  {
    var c := coupons[couponCode.value];
    assert subtotal * c.value <= subtotal * 100 by {
      assert subtotal * (100 - c.value) >= 0;
    }
  }

  /** An expired coupon gives no discount; the checkout still prices the order. */
  lemma ExpiredCouponGivesNoDiscount(subtotal: int, couponCode: Option<string>, coupons: map<string, Coupon>, now: int)
    requires Truthy(couponCode) && couponCode.value in coupons
    requires coupons[couponCode.value].expiresAt.Some? && coupons[couponCode.value].expiresAt.value <= now
    ensures Quote(subtotal, couponCode, coupons, now).discount == 0.0
    ensures Quote(subtotal, couponCode, coupons, now).total == (subtotal + ShippingFor(subtotal)) as real
  {
  }

  /** `new Date('2024-12-31')`, in milliseconds since the epoch. */
  const SeedExpiry: int := 1735603200000

  /** The two coupons the database is seeded with. */
  const SeedCoupons: map<string, Coupon> := map[
    "WELCOME10" := Coupon(Percentage, 10, None, Some(200000), true, Some(SeedExpiry)),
    "SAVE500" := Coupon(FixedAmount, 50000, None, Some(500000), true, Some(SeedExpiry))]

  lemma Welcome10Example(now: int)
    requires now < SeedExpiry
    ensures Quote(349900, Some("WELCOME10"), SeedCoupons, now) == Amounts(349900, 0, 0, 34990.0, 314910.0)
  {
  }

  lemma NoCouponExample(now: int)
    ensures Quote(150000, None, SeedCoupons, now) == Amounts(150000, 0, 5000, 0.0, 155000.0)
  {
  }

  /** `minAmount` is not checked: WELCOME10 requires 200000 yet discounts a 150000 cart. */
  lemma MinAmountIgnored(now: int)
    requires now < SeedExpiry
    ensures 150000 < SeedCoupons["WELCOME10"].minAmount.value
    ensures Quote(150000, Some("WELCOME10"), SeedCoupons, now).discount == 15000.0
  {
  }

  /** A fixed discount is not capped by the order value, so the total can go negative. */
  lemma FixedDiscountCanMakeTotalNegative(now: int)
    requires now < SeedExpiry
    ensures Quote(10000, Some("SAVE500"), SeedCoupons, now).total == -35000.0
  {
  }
}
