/**
 * The stock decrement performed after a payment is settled
 * (POST /api/orders/verify): one `stockQty: { decrement: quantity }` per order
 * item, in item order, with no check against the stock on hand.
 */
module Stock {
  import opened Domain

  predicate ItemsResolve(items: seq<OrderItem>, products: map<Id, Product>) {
    forall k :: 0 <= k < |items| ==> items[k].productId in products
  }

  /** Total quantity of `pid` across the items. */
  function SumQty(items: seq<OrderItem>, pid: Id): int {
    if items == [] then 0
    else SumQty(items[..|items| - 1], pid)
         + (if items[|items| - 1].productId == pid then items[|items| - 1].quantity else 0)
  }

  /** Decrement one product's stock by `qty`; nothing else about it changes. */
  function Decrement(products: map<Id, Product>, pid: Id, qty: int): (r: map<Id, Product>)
    requires pid in products
    ensures r.Keys == products.Keys
    ensures r[pid].stockQty == products[pid].stockQty - qty
    ensures r[pid].(stockQty := products[pid].stockQty) == products[pid]
    ensures forall q :: q in products && q != pid ==> r[q] == products[q]
  {
    products[pid := products[pid].(stockQty := products[pid].stockQty - qty)]
  }

  /** The product table after decrementing every item, first to last. */
  function ApplyDecrements(products: map<Id, Product>, items: seq<OrderItem>): (r: map<Id, Product>)
    requires ItemsResolve(items, products)
    ensures r.Keys == products.Keys
  {
    if items == [] then products
    else
      var last := items[|items| - 1];
      var before := ApplyDecrements(products, items[..|items| - 1]);
      Decrement(before, last.productId, last.quantity)
  }

  /**
   * Each product's stock drops by exactly the summed quantity of the items for
   * it, with no lower bound, and no other field of any product changes.
   */
  lemma {:induction false} ApplyDecrementsEffect(products: map<Id, Product>, items: seq<OrderItem>, pid: Id)
    requires ItemsResolve(items, products)
    requires pid in products
    ensures ApplyDecrements(products, items)[pid]
         == products[pid].(stockQty := products[pid].stockQty - SumQty(items, pid))
  {
    if items != [] {
      var init := items[..|items| - 1];
      assert ItemsResolve(init, products);
      ApplyDecrementsEffect(products, init, pid);
    }
  }

  /** A product no item mentions keeps its row unchanged. */
  lemma {:induction false} UntouchedProduct(products: map<Id, Product>, items: seq<OrderItem>, pid: Id)
    requires ItemsResolve(items, products)
    requires pid in products
    requires forall k :: 0 <= k < |items| ==> items[k].productId != pid
    ensures ApplyDecrements(products, items)[pid] == products[pid]
  {
    SumQtyAbsent(items, pid);
    ApplyDecrementsEffect(products, items, pid);
  }

  lemma {:induction false} SumQtyAbsent(items: seq<OrderItem>, pid: Id)
    requires forall k :: 0 <= k < |items| ==> items[k].productId != pid
    ensures SumQty(items, pid) == 0
  {
    if items != [] {
      SumQtyAbsent(items[..|items| - 1], pid);
    }
  }

  /** Applying the same items twice (a replayed settlement) takes the stock down twice. */
  lemma ReplayDecrementsTwice(products: map<Id, Product>, items: seq<OrderItem>, pid: Id)
    requires ItemsResolve(items, products)
    requires pid in products
    ensures ItemsResolve(items, ApplyDecrements(products, items))
    ensures ApplyDecrements(ApplyDecrements(products, items), items)[pid].stockQty
         == products[pid].stockQty - 2 * SumQty(items, pid)
  {
    var once := ApplyDecrements(products, items);
    assert ItemsResolve(items, once);
    ApplyDecrementsEffect(products, items, pid);
    ApplyDecrementsEffect(once, items, pid);
  }

  /** With stock 1, an item of quantity 2 leaves stock -1: the decrement has no floor. */
  lemma StockCanGoNegative()
    ensures
      var products := map[7 := Product("Wallet", "WL-1", 349900, 1, true)];
      ApplyDecrements(products, [OrderItem(7, None, "Wallet", "WL-1", 349900, 2, 699800)])[7].stockQty == -1
  {
    var products := map[7 := Product("Wallet", "WL-1", 349900, 1, true)];
    var items := [OrderItem(7, None, "Wallet", "WL-1", 349900, 2, 699800)];
    assert items[..0] == [];
  }
}
