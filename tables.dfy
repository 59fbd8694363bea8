/**
 * Lookups and filters over the cart-line table, as the route handlers'
 * queries use them, with the facts about them that the handlers rely on.
 */
module Tables {
  import opened Domain

  predicate SameKey(a: CartLine, b: CartLine) {
    a.cartId == b.cartId && a.productId == b.productId && a.variantId == b.variantId
  }

  predicate UniqueLineIds(lines: seq<CartLine>) {
    forall i, j :: 0 <= i < j < |lines| ==> lines[i].id != lines[j].id
  }

  /** The unique index on (cartId, productId, variantId). */
  predicate UniqueLineKeys(lines: seq<CartLine>) {
    forall i, j :: 0 <= i < j < |lines| ==> !SameKey(lines[i], lines[j])
  }

  /** `cartItem.findUnique({ where: { id } })`. */
  function IndexOfLine(lines: seq<CartLine>, id: Id): (r: Option<nat>)
    ensures r.Some? ==> r.value < |lines| && lines[r.value].id == id
    ensures r.None? <==> forall k :: 0 <= k < |lines| ==> lines[k].id != id
  {
    if lines == [] then None
    else if lines[0].id == id then Some(0)
    else match IndexOfLine(lines[1..], id)
      case Some(k) => Some(k + 1)
      case None => None
  }

  /** `cartItem.findUnique` on the (cartId, productId, variantId) key. */
  function IndexOfKey(lines: seq<CartLine>, cartId: Id, productId: Id, variantId: Option<Id>): (r: Option<nat>)
    ensures r.Some? ==>
      r.value < |lines| && lines[r.value].cartId == cartId
      && lines[r.value].productId == productId && lines[r.value].variantId == variantId
    ensures r.None? <==> forall k :: 0 <= k < |lines| ==>
      !(lines[k].cartId == cartId && lines[k].productId == productId && lines[k].variantId == variantId)
  {
    if lines == [] then None
    else if lines[0].cartId == cartId && lines[0].productId == productId && lines[0].variantId == variantId then Some(0)
    else match IndexOfKey(lines[1..], cartId, productId, variantId)
      case Some(k) => Some(k + 1)
      case None => None
  }

  /** The lines of one cart, in table order. */
  function LinesOfCart(lines: seq<CartLine>, cartId: Id): (r: seq<CartLine>)
    ensures forall x :: x in r <==> x in lines && x.cartId == cartId
    ensures |r| <= |lines|
  {
    if lines == [] then []
    else (if lines[0].cartId == cartId then [lines[0]] else []) + LinesOfCart(lines[1..], cartId)
  }

  /** `cartItem.deleteMany({ where: { cartId } })`: every other line, in table order. */
  function WithoutCart(lines: seq<CartLine>, cartId: Id): (r: seq<CartLine>)
    ensures forall x :: x in r <==> x in lines && x.cartId != cartId
    ensures |r| <= |lines|
  {
    if lines == [] then []
    else (if lines[0].cartId != cartId then [lines[0]] else []) + WithoutCart(lines[1..], cartId)
  }

  /** `cartItem.delete({ where: { id } })` of the line at index k. */
  function RemoveAt(lines: seq<CartLine>, k: nat): (r: seq<CartLine>)
    requires k < |lines|
    ensures |r| == |lines| - 1
    ensures forall i :: 0 <= i < k ==> r[i] == lines[i]
    ensures forall i :: k <= i < |r| ==> r[i] == lines[i + 1]
  {
    lines[..k] + lines[k + 1..]
  }

  /** After a delete by id, no line with that id is left: a second delete finds nothing. */
  lemma RemovedIdGone(lines: seq<CartLine>, k: nat)
    requires k < |lines| && UniqueLineIds(lines)
    ensures IndexOfLine(RemoveAt(lines, k), lines[k].id).None?
  {
    var r := RemoveAt(lines, k);
    forall i | 0 <= i < |r| ensures r[i].id != lines[k].id {
      if i < k {
        assert r[i] == lines[i];
      } else {
        assert r[i] == lines[i + 1];
      }
    }
  }

  lemma RemoveAtKeepsUnique(lines: seq<CartLine>, k: nat)
    requires k < |lines| && UniqueLineIds(lines) && UniqueLineKeys(lines)
    ensures UniqueLineIds(RemoveAt(lines, k)) && UniqueLineKeys(RemoveAt(lines, k))
  {
    var r := RemoveAt(lines, k);
    forall i, j | 0 <= i < j < |r|
      ensures r[i].id != r[j].id && !SameKey(r[i], r[j])
    {
      var i' := if i < k then i else i + 1;
      var j' := if j < k then j else j + 1;
      assert r[i] == lines[i'] && r[j] == lines[j'];
    }
  }

  lemma {:induction false} WithoutCartKeepsUnique(lines: seq<CartLine>, cartId: Id)
    requires UniqueLineIds(lines) && UniqueLineKeys(lines)
    ensures UniqueLineIds(WithoutCart(lines, cartId)) && UniqueLineKeys(WithoutCart(lines, cartId))
  {
    if lines != [] {
      var tail := lines[1..];
      assert UniqueLineIds(tail) && UniqueLineKeys(tail) by {
        forall i, j | 0 <= i < j < |tail| ensures tail[i].id != tail[j].id && !SameKey(tail[i], tail[j]) {
          assert tail[i] == lines[i + 1] && tail[j] == lines[j + 1];
        }
      }
      WithoutCartKeepsUnique(tail, cartId);
      var rest := WithoutCart(tail, cartId);
      if lines[0].cartId != cartId {
        var r := [lines[0]] + rest;
        forall j | 0 < j < |r| ensures lines[0].id != r[j].id && !SameKey(lines[0], r[j]) {
          assert r[j] in rest;
          var m :| 0 <= m < |tail| && tail[m] == r[j];
          assert tail[m] == lines[m + 1];
        }
        forall i, j | 0 <= i < j < |r| ensures r[i].id != r[j].id && !SameKey(r[i], r[j]) {
          if i > 0 {
            assert r[i] == rest[i - 1] && r[j] == rest[j - 1];
          }
        }
      }
    }
  }

  /** After a cart is cleared it has no lines. */
  lemma ClearedCartIsEmpty(lines: seq<CartLine>, cartId: Id)
    ensures LinesOfCart(WithoutCart(lines, cartId), cartId) == []
  {
    var w := WithoutCart(lines, cartId);
    forall k | 0 <= k < |w| ensures w[k].cartId != cartId {
      assert w[k] in w;
    }
    NoLinesOfCart(w, cartId);
  }

  lemma {:induction false} NoLinesOfCart(lines: seq<CartLine>, cartId: Id)
    requires forall k :: 0 <= k < |lines| ==> lines[k].cartId != cartId
    ensures LinesOfCart(lines, cartId) == []
  {
    if lines != [] {
      NoLinesOfCart(lines[1..], cartId);
    }
  }

  /** Clearing one cart leaves every other cart's lines exactly as they were, in order. */
  lemma {:induction false} ClearLeavesOtherCarts(lines: seq<CartLine>, cleared: Id, other: Id)
    requires cleared != other
    ensures LinesOfCart(WithoutCart(lines, cleared), other) == LinesOfCart(lines, other)
  {
    if lines != [] {
      ClearLeavesOtherCarts(lines[1..], cleared, other);
      var head := if lines[0].cartId != cleared then [lines[0]] else [];
      LinesOfCartAppend(head, WithoutCart(lines[1..], cleared), other);
    }
  }

  lemma {:induction false} LinesOfCartAppend(a: seq<CartLine>, b: seq<CartLine>, cartId: Id)
    ensures LinesOfCart(a + b, cartId) == LinesOfCart(a, cartId) + LinesOfCart(b, cartId)
  {
    if a == [] {
      assert a + b == b;
    } else {
      assert (a + b)[0] == a[0];
      assert (a + b)[1..] == a[1..] + b;
      LinesOfCartAppend(a[1..], b, cartId);
    }
  }
}
