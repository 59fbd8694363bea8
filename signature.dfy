/**
 * The payment callback's signed message (POST /api/orders/verify). The HMAC
 * itself is a parameter of the settlement handler: a function from message to
 * hex digest, with the shared secret fixed inside it.
 */
module Signature {

  /** `razorpay_order_id + '|' + razorpay_payment_id`. */
  function SignedMessage(gatewayOrderId: string, gatewayPaymentId: string): (m: string)
    ensures |m| == |gatewayOrderId| + 1 + |gatewayPaymentId|
    ensures m[..|gatewayOrderId|] == gatewayOrderId
    ensures m[|gatewayOrderId|] == '|'
    ensures m[|gatewayOrderId| + 1..] == gatewayPaymentId
  {
    gatewayOrderId + "|" + gatewayPaymentId
  }

  /** The callback is trusted exactly when the recomputed digest equals the supplied signature. */
  predicate SignatureMatches(hmac: string -> string, gatewayOrderId: string, gatewayPaymentId: string, signature: string): (ok: bool)
    ensures ok <==> hmac(gatewayOrderId + "|" + gatewayPaymentId) == signature
  {
    hmac(SignedMessage(gatewayOrderId, gatewayPaymentId)) == signature
  }

  /** When the order id contains no '|', the message determines both ids. */
  lemma SignedMessageInjective(o1: string, p1: string, o2: string, p2: string)
    requires '|' !in o1 && '|' !in o2
    requires SignedMessage(o1, p1) == SignedMessage(o2, p2)
    ensures o1 == o2 && p1 == p2
  {
    if |o1| != |o2| {
      assert false;
    }
  }

  /** Without that restriction two different id pairs sign the same message. */
  lemma SignedMessageAmbiguous()
    ensures SignedMessage("a|", "b") == SignedMessage("a", "|b")
  {
  }
}
