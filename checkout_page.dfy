/**
 * The pricing the checkout page (`src/app/checkout/page.tsx`) shows before
 * payment. It works on the cart as GET /api/cart returns it, whose prices
 * have been divided by 100 (rupees), and compares the result against the
 * server's threshold, which is in paise.
 */
module CheckoutPage {
  import opened Domain
  import Pricing

  /** A cart line as the page receives it: prices in rupees. */
  datatype ViewLine = ViewLine(
    id: Id,
    productId: Id,
    variantId: Option<Id>,
    quantity: int,
    sellingPrice: real,
    priceAdjust: Option<real>)

  function ToRupees(paise: int): real {
    paise as real / 100.0
  }

  /**
   * The response of GET /api/cart for an existing cart: the same lines with
   * the same ids, products, variants and quantities; only prices are rescaled.
   */
  function RupeeView(lines: seq<CartLine>, products: map<Id, Product>, variants: map<Id, Variant>): (r: seq<ViewLine>)
    requires Pricing.AllResolve(lines, products, variants)
    ensures |r| == |lines|
    ensures forall k :: 0 <= k < |r| ==>
      r[k].id == lines[k].id && r[k].productId == lines[k].productId
      && r[k].variantId == lines[k].variantId && r[k].quantity == lines[k].quantity
    ensures forall k :: 0 <= k < |r| ==>
      r[k].sellingPrice * 100.0 == products[lines[k].productId].sellingPrice as real
    ensures forall k :: 0 <= k < |r| ==>
      r[k].priceAdjust.Some? == lines[k].variantId.Some?
      && (lines[k].variantId.Some? ==>
            r[k].priceAdjust.value * 100.0 == variants[lines[k].variantId.value].priceAdjust as real)
  {
    seq(|lines|, k requires 0 <= k < |lines| =>
      var line := lines[k];
      ViewLine(line.id, line.productId, line.variantId, line.quantity,
               ToRupees(products[line.productId].sellingPrice),
               if line.variantId.Some? then Some(ToRupees(variants[line.variantId.value].priceAdjust)) else None))
  }

  /** One line's contribution: (selling price, plus the adjustment when there is a variant) times quantity. */
  function LineAmount(item: ViewLine): (r: real)
    ensures item.quantity == 0 ==> r == 0.0
    ensures item.quantity >= 0 && item.sellingPrice >= 0.0 && (item.priceAdjust.Some? ==> item.priceAdjust.value >= 0.0)
      ==> r >= 0.0
  {
    (if item.priceAdjust.Some? then item.sellingPrice + item.priceAdjust.value else item.sellingPrice)
    * item.quantity as real
  }

  /** The `reduce` of `calculateSubtotal`, left to right from 0. */
  function Reduce(items: seq<ViewLine>): (r: real)
    ensures (forall k :: 0 <= k < |items| ==> LineAmount(items[k]) >= 0.0) ==> r >= 0.0
    ensures (forall k :: 0 <= k < |items| ==> items[k].quantity == 0) ==> r == 0.0
  {
    if items == [] then 0.0 else Reduce(items[..|items| - 1]) + LineAmount(items[|items| - 1])
  }

  /** `calculateSubtotal`: 0 without a cart. */
  function CalculateSubtotal(cart: Option<seq<ViewLine>>): (r: real)
    ensures cart.None? ==> r == 0.0
    ensures cart.Some? && cart.value == [] ==> r == 0.0
  {
    match cart
    case None => 0.0
    case Some(items) => Reduce(items)
  }

  /** The page's shipping rule: the server's comparison and threshold, applied to its own subtotal. */
  function CheckoutShipping(subtotal: real): (r: int)
    ensures r == 0 <==> subtotal >= Pricing.FreeShippingThreshold as real
    ensures r == 0 || r == Pricing.FlatShippingFee
  {
    if subtotal >= 299900.0 then 0 else 5000
  }

  /** The total the page shows: subtotal plus shipping, with no tax and no discount. */
  function CheckoutTotal(subtotal: real): (r: real)
    ensures r >= subtotal
    ensures r - subtotal == CheckoutShipping(subtotal) as real
  {
    subtotal + CheckoutShipping(subtotal) as real
  }

  datatype PaymentStart = RefuseEmptyCart | RequestCheckout

  /** `handlePayment` stops with "Cart is empty" before any request when there is no cart or no line. */
  function HandlePaymentGuard(cart: Option<seq<ViewLine>>): (r: PaymentStart)
    ensures r == RequestCheckout <==> cart.Some? && |cart.value| > 0
  {
    if cart.None? || |cart.value| == 0 then RefuseEmptyCart else RequestCheckout
  }

  /** On integer inputs the page's shipping rule is the server's. */
  lemma ShippingRuleMatchesServer(subtotal: int)
    ensures CheckoutShipping(subtotal as real) == Pricing.ShippingFor(subtotal)
  {
  }

  lemma LineAmountInRupees(line: CartLine, products: map<Id, Product>, variants: map<Id, Variant>, view: ViewLine)
    requires Pricing.Resolves(line, products, variants)
    requires view.quantity == line.quantity
    requires view.sellingPrice == ToRupees(products[line.productId].sellingPrice)
    requires view.priceAdjust.Some? == line.variantId.Some?
    requires line.variantId.Some? ==> view.priceAdjust.value == ToRupees(variants[line.variantId.value].priceAdjust)
    ensures LineAmount(view) == ToRupees(Pricing.Snapshot(line, products, variants).totalPrice)
  {
    var item := Pricing.Snapshot(line, products, variants);
    var q := line.quantity as real;
    var unit := if view.priceAdjust.Some? then view.sellingPrice + view.priceAdjust.value else view.sellingPrice;
    assert unit == item.unitPrice as real / 100.0;
    calc {
      LineAmount(view);
      unit * q;
      (item.unitPrice as real / 100.0) * q;
      (item.unitPrice as real * q) / 100.0;
      { assert item.unitPrice as real * q == (item.unitPrice * line.quantity) as real; }
      ToRupees(item.totalPrice);
    }
  }

  /**
   * `calculateSubtotal` on what GET /api/cart returns is the server's subtotal
   * of the same lines, in rupees: the page and the order-creation loop use the
   * same formula.
   */
  lemma {:induction false} SubtotalMatchesServer(lines: seq<CartLine>, products: map<Id, Product>, variants: map<Id, Variant>)
    requires Pricing.AllResolve(lines, products, variants)
    ensures CalculateSubtotal(Some(RupeeView(lines, products, variants)))
         == ToRupees(Pricing.SumTotals(Pricing.Snapshots(lines, products, variants)))
  {
    var view := RupeeView(lines, products, variants);
    var items := Pricing.Snapshots(lines, products, variants);
    if lines != [] {
      var n := |lines| - 1;
      var init := lines[..n];
      assert Pricing.AllResolve(init, products, variants);
      SubtotalMatchesServer(init, products, variants);
      assert RupeeView(init, products, variants) == view[..n];
      assert Pricing.Snapshots(init, products, variants) == items[..n];
      LineAmountInRupees(lines[n], products, variants, view[n]);
    }
  }

  /**
   * The page compares a rupee subtotal with a paise threshold: on every order
   * from 299900 up to but excluding 29990000 paise the server ships free while
   * the page still adds 5000 to its total.
   */
  lemma ThresholdUnitMismatch(serverSubtotal: int)
    requires Pricing.FreeShippingThreshold <= serverSubtotal < 100 * Pricing.FreeShippingThreshold
    ensures Pricing.ShippingFor(serverSubtotal) == 0
    ensures CheckoutShipping(ToRupees(serverSubtotal)) == Pricing.FlatShippingFee
  {
  }

  /** The page shows free shipping exactly when the server subtotal reaches 100 times the threshold. */
  lemma PageFreeShippingBound(serverSubtotal: int)
    ensures CheckoutShipping(ToRupees(serverSubtotal)) == 0 <==> serverSubtotal >= 100 * Pricing.FreeShippingThreshold
  {
  }
}
