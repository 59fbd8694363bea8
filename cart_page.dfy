/**
 * The list helpers of the cart page (`src/app/cart/page.tsx`): the
 * `updateQuantity` state update and the page's subtotal, shipping, GST and total.
 */
module CartPage {
  import Domain
  import Pricing

  /** A line of the page's local cart state. */
  datatype Item = Item(id: string, name: string, price: int, quantity: int)

  /** `items.filter(item => item.id !== id)`. */
  function WithoutId(items: seq<Item>, id: string): (r: seq<Item>)
    ensures forall x :: x in r <==> x in items && x.id != id
    ensures |r| <= |items|
  {
    if items == [] then []
    else if items[0].id == id then WithoutId(items[1..], id)
    else [items[0]] + WithoutId(items[1..], id)
  }

  /** Filtering keeps the relative order: it distributes over concatenation. */
  lemma {:induction false} WithoutIdAppend(a: seq<Item>, b: seq<Item>, id: string)
    ensures WithoutId(a + b, id) == WithoutId(a, id) + WithoutId(b, id)
  {
    if a == [] {
      assert a + b == b;
    } else {
      assert (a + b)[0] == a[0];
      assert (a + b)[1..] == a[1..] + b;
      WithoutIdAppend(a[1..], b, id);
    }
  }

  /** A list without the id is left exactly as it is. */
  lemma {:induction false} WithoutIdAbsent(items: seq<Item>, id: string)
    requires forall k :: 0 <= k < |items| ==> items[k].id != id
    ensures WithoutId(items, id) == items
  {
    if items != [] {
      WithoutIdAbsent(items[1..], id);
    }
  }

  /**
   * `updateQuantity(id, n)`: 0 removes every item with that id; any other
   * value sets that quantity on the matching items and keeps every position.
   */
  function UpdateQuantity(items: seq<Item>, id: string, newQuantity: int): (r: seq<Item>)
    ensures newQuantity == 0 ==> forall x :: x in r <==> x in items && x.id != id
    ensures newQuantity != 0 ==> |r| == |items|
    ensures newQuantity != 0 ==> forall k :: 0 <= k < |r| ==>
      r[k].id == items[k].id && r[k].name == items[k].name && r[k].price == items[k].price
      && r[k].quantity == (if items[k].id == id then newQuantity else items[k].quantity)
  {
    if newQuantity == 0 then WithoutId(items, id)
    else
      seq(|items|, k requires 0 <= k < |items| =>
        if items[k].id == id then items[k].(quantity := newQuantity) else items[k])
  }

  /** Pressing "-" on an item of quantity 1 removes it. */
  lemma MinusAtOneRemoves(items: seq<Item>, k: nat)
    requires k < |items| && items[k].quantity == 1
    ensures forall x :: x in UpdateQuantity(items, items[k].id, items[k].quantity - 1) ==> x.id != items[k].id
  {
  }

  /** Setting a quantity twice is the same as setting it once. */
  lemma UpdateIdempotent(items: seq<Item>, id: string, n: int)
    ensures UpdateQuantity(UpdateQuantity(items, id, n), id, n) == UpdateQuantity(items, id, n)
  {
    var once := UpdateQuantity(items, id, n);
    if n == 0 {
      WithoutIdAbsent(once, id);
    }
  }

  /** `reduce((sum, item) => sum + item.price * item.quantity, 0)`. */
  function PageSubtotal(items: seq<Item>): (r: int)
    ensures (forall k :: 0 <= k < |items| ==> items[k].price >= 0 && items[k].quantity >= 0) ==> r >= 0
    ensures items == [] ==> r == 0
  {
    if items == [] then 0 else PageSubtotal(items[..|items| - 1]) + items[|items| - 1].price * items[|items| - 1].quantity
  }

  lemma {:induction false} PageSubtotalConcat(a: seq<Item>, b: seq<Item>)
    ensures PageSubtotal(a + b) == PageSubtotal(a) + PageSubtotal(b)
  {
    if b == [] {
      assert a + b == a;
    } else {
      var n := |b| - 1;
      assert (a + b)[..|a + b| - 1] == a + b[..n];
      PageSubtotalConcat(a, b[..n]);
    }
  }

  /** Removing an item leaves the others in order and takes exactly its amount off the page subtotal. */
  lemma {:induction false} RemoveLowersSubtotal(a: seq<Item>, x: Item, b: seq<Item>)
    requires forall k :: 0 <= k < |a| ==> a[k].id != x.id
    requires forall k :: 0 <= k < |b| ==> b[k].id != x.id
    ensures UpdateQuantity(a + [x] + b, x.id, 0) == a + b
    ensures PageSubtotal(a + [x] + b) == PageSubtotal(a + b) + x.price * x.quantity
  {
    var ax := a + [x];
    assert a + [x] + b == ax + b;
    WithoutIdAppend(ax, b, x.id);
    WithoutIdAppend(a, [x], x.id);
    WithoutIdAbsent(a, x.id);
    WithoutIdAbsent(b, x.id);
    assert WithoutId([x], x.id) == [];
    assert WithoutId(ax, x.id) == a;
    assert UpdateQuantity(ax + b, x.id, 0) == WithoutId(ax + b, x.id);
    PageSubtotalConcat(ax, b);
    PageSubtotalConcat(a, b);
    assert ax[..|a|] == a;
    assert PageSubtotal(ax) == PageSubtotal(a) + x.price * x.quantity;
  }

  /** The page's rule: free shipping only strictly above the threshold. */
  function PageShipping(subtotal: int): (r: int)
    ensures r == 0 <==> subtotal > Pricing.FreeShippingThreshold
    ensures r == 0 || r == Pricing.FlatShippingFee
  {
    if subtotal > 299900 then 0 else 5000
  }

  /** The page and the server disagree on shipping at exactly one subtotal: the threshold itself. */
  lemma ShippingDiffersOnlyAtThreshold(subtotal: int)
    ensures PageShipping(subtotal) != Pricing.ShippingFor(subtotal) <==> subtotal == Pricing.FreeShippingThreshold
  {
  }

  /**
   * 18% GST rounded to the nearest paisa, halves upwards, as `Math.round`
   * does for the exact product.
   */
  function PageTax(subtotal: int): (r: int)
    ensures 100 * r - 50 <= 18 * subtotal < 100 * r + 50
  {
    (18 * subtotal + 50) / 100
  }

  /** The amount the page shows as payable. */
  function PageTotal(items: seq<Item>): (r: int)
    ensures var s := PageSubtotal(items); s + PageTax(s) <= r <= s + PageTax(s) + Pricing.FlatShippingFee
    ensures var s := PageSubtotal(items); r == s + PageTax(s) <==> s > Pricing.FreeShippingThreshold
    ensures var s := PageSubtotal(items); s <= Pricing.FreeShippingThreshold ==> r == s + PageTax(s) + Pricing.FlatShippingFee
  {
    var s := PageSubtotal(items);
    s + PageShipping(s) + PageTax(s)
  }

  /**
   * The page adds GST that the order route never charges (its tax is 0), so
   * away from the threshold the page's total exceeds what the server would
   * quote without a coupon by exactly the rounded GST.
   */
  lemma PageTotalExceedsQuote(items: seq<Item>, now: int)
    requires PageSubtotal(items) != Pricing.FreeShippingThreshold
    ensures var s := PageSubtotal(items);
      var q := Pricing.Quote(s, Domain.None, map[], now);
      PageTotal(items) as real == q.total + PageTax(s) as real
  {
    ShippingDiffersOnlyAtThreshold(PageSubtotal(items));
  }
}
