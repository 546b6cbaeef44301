/** The backend's gateway client: the signed parameter map of a hosted
    checkout (its transaction id, the parameters each payment method adds,
    the signing string and the signature), and the parameters of a refund.
    The gateway's reply, the clock, the nonce and HMAC are parameters. */
module CheckoutApi {
  import opened Base
  import opened Text
  import opened Json
  import opened PeachService
  import Store

  /** The service's settings. */
  datatype ServiceConfig = ServiceConfig(baseUrl: string, entityId: string, accessToken: string, secretKey: string)

  /** The variants `initiate_checkout_api` matches on. The backend's
      `PaymentMethod` declares Card, EFT, Voucher and ScanToPay instead, so
      this match does not resolve against it; the model follows the match. */
  datatype CheckoutMethod = CreditCard | DebitCard | BankTransfer | Voucher

  // ---------------------------------------------------------------------------
  // Transaction id
  // ---------------------------------------------------------------------------

  /** A UUID's hyphenated text: 8-4-4-4-12 lower-case hex digits. */
  predicate IsHyphenatedUuid(u: string) {
    && |u| == 36
    && (forall i :: 0 <= i < 36 ==> (u[i] == '-' <==> i in {8, 13, 18, 23}))
    && (forall i :: 0 <= i < 36 && u[i] != '-' ==> IsLowerHex(u[i]))
  }

  /** `"TXN_" + user_id.to_string().replace("-", "")[..8] + "_" + millis`:
      the slice needs eight characters after the dashes are gone, which a
      UUID always has. */
  function CheckoutTxnId(userId: string, millis: int): (t: string)
    requires |RemoveChar(userId, '-')| >= 8
  {
    "TXN_" + RemoveChar(userId, '-')[..8] + "_" + IntToString(millis)
  }

  /** For a UUID the dash removal changes nothing in the part kept: the id is
      "TXN_", the UUID's first eight hex digits, "_" and the millis. */
  lemma CheckoutTxnIdOfUuid(userId: string, millis: int)
    requires IsHyphenatedUuid(userId)
    ensures |RemoveChar(userId, '-')| >= 8
    ensures CheckoutTxnId(userId, millis) == "TXN_" + userId[..8] + "_" + IntToString(millis)
  {
    var head := userId[..8];
    assert '-' !in head by {
      forall i | 0 <= i < 8 ensures head[i] != '-' {
        assert userId[i] != '-';
      }
    }
    RemoveCharAbsent(head, '-');
    assert userId == head + userId[8..];
    RemoveCharAppend(head, userId[8..], '-');
    assert RemoveChar(userId, '-')[..8] == head;
  }

  /** A checkout id built here never equals a merchant transaction id the
      store gives a payment: the character after twelve is "_" here and a
      hex digit there. */
  lemma CheckoutTxnIdNeverStored(userId: string, millis: int, uuid: string)
    requires IsHyphenatedUuid(userId) && Store.IsSimpleUuid(uuid)
    ensures |RemoveChar(userId, '-')| >= 8
    ensures CheckoutTxnId(userId, millis) != Store.MerchantTxnId(uuid)
  {
    CheckoutTxnIdOfUuid(userId, millis);
    var t := CheckoutTxnId(userId, millis);
    assert t[12] == '_';
    assert IsUpperHex(Store.MerchantTxnId(uuid)[12]);
  }

  // ---------------------------------------------------------------------------
  // Parameters
  // ---------------------------------------------------------------------------

  /** The `defaultPaymentMethod` a method asks for; bank transfers leave it
      out. Vouchers never get this far. */
  function DefaultPaymentMethod(m: CheckoutMethod): (r: Option<string>)
    requires m != Voucher
    ensures r.Some? <==> m.CreditCard? || m.DebitCard?
    ensures r.Some? ==> r.value == "CARD"
  {
    if m == BankTransfer then None else Some("CARD")
  }

  const BASE_KEYS: set<string> := {"amount", "authentication.entityId", "currency", "merchantTransactionId",
    "nonce", "notificationUrl", "paymentType", "shopperResultUrl"}

  const TEST_MODE_KEY: string := "customParameters[enableTestMode]"

  /** The keys signed for a method. */
  function SignedKeys(m: CheckoutMethod): (keys: set<string>)
    ensures BASE_KEYS <= keys && "signature" !in keys
    ensures TEST_MODE_KEY in keys <==> m == BankTransfer
    ensures "defaultPaymentMethod" in keys <==> m.CreditCard? || m.DebitCard?
  {
    if m == BankTransfer then BASE_KEYS + {TEST_MODE_KEY}
    else if m == Voucher then BASE_KEYS
    else BASE_KEYS + {"defaultPaymentMethod"}
  }

  /** `params_for_signature`: the fixed parameters, then the test-mode flag
      for bank transfers and the default method for cards. */
  function SignedParams(config: ServiceConfig, amount: string, txn: string, nonce: string, m: CheckoutMethod): (p: map<string, string>)
    requires m != Voucher
    ensures p.Keys == SignedKeys(m)
    ensures m == BankTransfer ==> TEST_MODE_KEY in p && p[TEST_MODE_KEY] == "true"
    ensures m != BankTransfer ==> "defaultPaymentMethod" in p && p["defaultPaymentMethod"] == "CARD"
  {
    var fixed := map[
      "amount" := amount,
      "authentication.entityId" := config.entityId,
      "currency" := "ZAR",
      "merchantTransactionId" := txn,
      "nonce" := nonce,
      "notificationUrl" := "",
      "paymentType" := "DB",
      "shopperResultUrl" := config.baseUrl + "/api/v1/payments/callback"];
    var withTestMode := if m == BankTransfer then fixed[TEST_MODE_KEY := "true"] else fixed;
    var default := DefaultPaymentMethod(m);
    if default.Some? then withTestMode["defaultPaymentMethod" := default.value] else withTestMode
  }

  /** Every signed checkout is a debit ("DB") of the amount in rand for the
      configured entity. */
  lemma SignedParamsCharge(config: ServiceConfig, amount: string, txn: string, nonce: string, m: CheckoutMethod)
    requires m != Voucher
    ensures var p := SignedParams(config, amount, txn, nonce, m);
      && "amount" in p && p["amount"] == amount
      && "authentication.entityId" in p && p["authentication.entityId"] == config.entityId
      && "currency" in p && p["currency"] == "ZAR"
      && "paymentType" in p && p["paymentType"] == "DB"
  {
  }

  /** Every signed checkout carries the transaction id and the nonce, an
      empty notification URL and the backend's own callback as the return
      address. */
  lemma SignedParamsTracking(config: ServiceConfig, amount: string, txn: string, nonce: string, m: CheckoutMethod)
    requires m != Voucher
    ensures var p := SignedParams(config, amount, txn, nonce, m);
      && "merchantTransactionId" in p && p["merchantTransactionId"] == txn
      && "nonce" in p && p["nonce"] == nonce
      && "notificationUrl" in p && p["notificationUrl"] == ""
      && "shopperResultUrl" in p && p["shopperResultUrl"] == config.baseUrl + "/api/v1/payments/callback"
  {
  }

  /** The reply a voucher gets without any request being made. */
  function VoucherApplied(): (j: Json)
    ensures ResultCode(j) == Some("000.000.000")
  {
    JObject(map["result" := JObject(map["code" := JString("000.000.000"), "description" := JString("Voucher applied")])])
  }

  /** `initiate_checkout_api`. `order` is the order in which iterating over
      the parameter map visits its keys; `millis`, `nonce` and `mac` stand
      for the clock, the fresh UUID and HMAC-SHA256 in hex; `reply` is what
      the gateway answered. Returns the result, the map sent (None when
      nothing was sent) and the string that was signed. */
  method InitiateCheckout(config: ServiceConfig, userId: string, amount: string, m: CheckoutMethod,
                          millis: int, nonce: string, order: seq<string>, mac: Mac, reply: Reply)
    returns (r: Result<Json, string>, sent: Option<map<string, string>>, signed: string)
    requires IsHyphenatedUuid(userId)
    requires m != Voucher ==> IsOrderOf(order, SignedKeys(m))
    ensures m == Voucher ==> sent == None && r == Ok(VoucherApplied())
    ensures m != Voucher ==> |RemoveChar(userId, '-')| >= 8
    ensures m != Voucher ==>
      var params := Table(SignedParams(config, amount, CheckoutTxnId(userId, millis), nonce, m), order);
      && signed == SigningString(params)
      && sent == Some(params.contents["signature" := mac(config.secretKey, signed)])
    ensures m != Voucher ==> (r.Ok? <==> reply.Body?)
    ensures m != Voucher && reply.Body? ==> r == Ok(reply.json)
    ensures m != Voucher && reply.Failed? ==> r == Err("Peach API error: " + reply.text)
  {
    if m == Voucher {
      return Ok(VoucherApplied()), None, "";
    }
    CheckoutTxnIdOfUuid(userId, millis);
    var txn := CheckoutTxnId(userId, millis);
    var params: StrMap := Table(SignedParams(config, amount, txn, nonce, m), order);
    var sorted := SortByKey(Entries(params));
    signed := "";
    for i := 0 to |sorted|
      invariant signed == ConcatPairs(sorted[..i])
    {
      ConcatPairsAppend(sorted[..i], sorted[i]);
      PrefixSnoc(sorted, i);
      signed := signed + sorted[i].0 + sorted[i].1;
    }
    assert sorted[..|sorted|] == sorted;
    SortedListing(Entries(params), params.contents);
    var signature := mac(config.secretKey, signed);
    sent := Some(params.contents["signature" := signature]);
    r := match reply
      case Failed(text) => Err("Peach API error: " + text)
      case Body(json) => Ok(json);
  }

  /** The sent map is the signed map plus exactly one key, `signature`. */
  lemma SentAddsOnlySignature(params: map<string, string>, signature: string, m: CheckoutMethod)
    requires params.Keys == SignedKeys(m)
    ensures params["signature" := signature].Keys == SignedKeys(m) + {"signature"}
    ensures forall k :: k in params ==> params["signature" := signature][k] == params[k]
  {
  }

  /** `process_refund`'s parameters: a refund ("RF") in rand of the given
      amount, authenticated by entity id and access token. */
  function RefundParams(config: ServiceConfig, amount: string): (p: map<string, string>)
    ensures p.Keys == {"authentication.entityId", "authentication.accessToken", "amount", "currency", "paymentType"}
    ensures p["paymentType"] == "RF" && p["currency"] == "ZAR" && p["amount"] == amount
    ensures p["authentication.entityId"] == config.entityId && p["authentication.accessToken"] == config.accessToken
  {
    map["authentication.entityId" := config.entityId,
        "authentication.accessToken" := config.accessToken,
        "amount" := amount,
        "currency" := "ZAR",
        "paymentType" := "RF"]
  }
}
