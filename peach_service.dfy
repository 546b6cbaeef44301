/** The gateway client of the application crate: the cached OAuth access
    token, the checkout request it builds, the webhook signature check and the
    registration-token lookup. Every reply of the gateway is a parameter. */
module PeachService {
  import opened Base
  import opened Text
  import opened Json
  import opened Common
  import opened Config
  import opened Payments

  /** Keyed HMAC-SHA256 of a message, hex-encoded: (key, message) -> digest. */
  type Mac = (string, string) -> string

  datatype AccessToken = AccessToken(token: string, expiresAt: int)

  /** A cached token is reused only while it has more than five minutes left. */
  const REFRESH_MARGIN: int := 300

  /** The token lifetime assumed when the reply gives none. */
  const DEFAULT_EXPIRES_IN: u64 := 3600

  predicate IsFresh(t: AccessToken, now: int) {
    t.expiresAt > now + REFRESH_MARGIN
  }

  /** What the token endpoint did: fail (transport error or a non-success
      status, with its text) or answer with a JSON body. */
  datatype Reply = Failed(text: string) | Body(json: Json)

  /** `expires_in as i64`: a u64 above the signed range wraps to a negative. */
  function AsI64(n: u64): (r: int)
    ensures n < 0x8000_0000_0000_0000 ==> r == n
    ensures n >= 0x8000_0000_0000_0000 ==> r < 0 && r + U64_LIMIT == n
  {
    if n < 0x8000_0000_0000_0000 then n else n - U64_LIMIT
  }

  /** The result of `authenticate` and the cache it leaves, from the cache it
      found, the clock and the endpoint's reply (consulted only on a miss). */
  function AuthOutcome(cache: Option<AccessToken>, now: int, reply: Reply): (out: (Result<string, string>, Option<AccessToken>))
    ensures cache.Some? && IsFresh(cache.value, now) ==> out == (Ok(cache.value.token), cache)
    ensures out.0.Err? ==> out.1 == cache
    ensures out.1 != cache ==> out.1.Some? && out.0 == Ok(out.1.value.token)
    ensures !(cache.Some? && IsFresh(cache.value, now)) ==>
      (out.0.Ok? <==> reply.Body? && StrField(reply.json, "access_token").Some?)
    ensures !(cache.Some? && IsFresh(cache.value, now)) && reply.Body? && StrField(reply.json, "access_token").Some? ==>
      var token := StrField(reply.json, "access_token").value;
      out == (Ok(token), Some(AccessToken(token, now + AsI64(U64Field(reply.json, "expires_in").GetOr(DEFAULT_EXPIRES_IN)))))
    ensures !(cache.Some? && IsFresh(cache.value, now)) && reply.Failed? ==>
      out == (Err("Authentication failed: " + reply.text), cache)
    ensures !(cache.Some? && IsFresh(cache.value, now)) && reply.Body? && StrField(reply.json, "access_token").None? ==>
      out == (Err("No access_token in response"), cache)
  {
    if cache.Some? && IsFresh(cache.value, now) then (Ok(cache.value.token), cache)
    else match reply
      case Failed(text) => (Err("Authentication failed: " + text), cache)
      case Body(json) =>
        match StrField(json, "access_token")
        case None => (Err("No access_token in response"), cache)
        case Some(token) =>
          var expiresIn := U64Field(json, "expires_in").GetOr(DEFAULT_EXPIRES_IN);
          (Ok(token), Some(AccessToken(token, now + AsI64(expiresIn))))
  }

  /** A token obtained without a lifetime is reused for the next 55 minutes
      and refreshed from then on. */
  lemma DefaultLifetimeReuse(cache: Option<AccessToken>, now: int, token: string, later: int)
    requires !(cache.Some? && IsFresh(cache.value, now))
    ensures var body := JObject(map["access_token" := JString(token)]);
      var (r, stored) := AuthOutcome(cache, now, Body(body));
      && r == Ok(token) && stored == Some(AccessToken(token, now + 3600))
      && (IsFresh(stored.value, later) <==> later < now + 3300)
  {
    var body := JObject(map["access_token" := JString(token)]);
    assert Field(body, "expires_in") == JNull;
  }

  datatype EmbedConfig = EmbedConfig(entityId: string, checkoutId: string, scriptUrl: string)

  datatype InitiatePaymentResponse = InitiatePaymentResponse(
    paymentId: string,
    merchantTransactionId: string,
    checkoutId: string,
    checkoutUrl: Option<string>,
    embedConfig: Option<EmbedConfig>)

  const SCRIPT_URL: string := "https://sandbox-checkout.peachpayments.com/js/checkout.js"

  /** Every field name the checkout request can carry. */
  const CHECKOUT_KEYS: set<string> := {"entityId", "amount", "currency", "paymentType", "merchantTransactionId",
    "nonce", "notificationUrl", "shopperResultUrl", "createRegistration", "paymentBrand", "customParameters"}

  /** The body of the checkout request: fixed fields, then the fields of the
      payment method, then the metadata as `customParameters`. `amountText`
      is the decimal amount as the source renders it. */
  function CheckoutPayload(config: PeachConfig, request: InitiatePaymentRequest, amountText: string,
                           merchantTransactionId: string, nonce: string): (p: map<string, Json>)
    ensures "createRegistration" in p <==> request.paymentMethod == Card && request.enableRecurring.GetOr(false)
    ensures "createRegistration" in p ==> p["createRegistration"] == JBool(true)
    ensures "paymentBrand" in p <==> request.paymentMethod != Card
    ensures "paymentBrand" in p ==> p["paymentBrand"] == JString(MethodText(request.paymentMethod))
    ensures "customParameters" in p <==> request.metadata.Some?
    ensures "customParameters" in p ==> p["customParameters"] == request.metadata.value
    ensures p.Keys <= CHECKOUT_KEYS
  {
    var fixed := map[
      "entityId" := JString(config.entityId),
      "amount" := JString(amountText),
      "currency" := JString(request.currency.GetOr("ZAR")),
      "paymentType" := JString("DB"),
      "merchantTransactionId" := JString(merchantTransactionId),
      "nonce" := JString(nonce),
      "notificationUrl" := JString(config.notificationUrl),
      "shopperResultUrl" := JString(config.shopperResultUrl)];
    var withMethod :=
      match request.paymentMethod
      case Card => if request.enableRecurring.GetOr(false) then fixed["createRegistration" := JBool(true)] else fixed
      case Eft => fixed["paymentBrand" := JString("EFT")]
      case OneVoucher => fixed["paymentBrand" := JString("1VOUCHER")]
      case ScanToPay => fixed["paymentBrand" := JString("SCAN_TO_PAY")];
    if request.metadata.Some? then withMethod["customParameters" := request.metadata.value] else withMethod
  }

  /** Every checkout request is a debit ("DB") of the amount, in the
      requested currency or rand, for the configured entity. */
  lemma CheckoutPayloadCharge(config: PeachConfig, request: InitiatePaymentRequest, amountText: string,
                              merchantTransactionId: string, nonce: string)
    ensures var p := CheckoutPayload(config, request, amountText, merchantTransactionId, nonce);
      && "paymentType" in p && p["paymentType"] == JString("DB")
      && "amount" in p && p["amount"] == JString(amountText)
      && "currency" in p && p["currency"] == JString(request.currency.GetOr("ZAR"))
      && "entityId" in p && p["entityId"] == JString(config.entityId)
  {
  }

  /** Every checkout request carries the transaction id, the nonce and the
      two configured URLs. */
  lemma CheckoutPayloadTracking(config: PeachConfig, request: InitiatePaymentRequest, amountText: string,
                                merchantTransactionId: string, nonce: string)
    ensures var p := CheckoutPayload(config, request, amountText, merchantTransactionId, nonce);
      && "merchantTransactionId" in p && p["merchantTransactionId"] == JString(merchantTransactionId)
      && "nonce" in p && p["nonce"] == JString(nonce)
      && "notificationUrl" in p && p["notificationUrl"] == JString(config.notificationUrl)
      && "shopperResultUrl" in p && p["shopperResultUrl"] == JString(config.shopperResultUrl)
  {
  }

  /** `validate_webhook_signature`: the hex HMAC of the payload under the
      webhook secret must equal the provided signature exactly. */
  function ValidWebhookSignature(mac: Mac, secret: string, payload: string, signature: string): (ok: bool)
    ensures ok ==> signature == mac(secret, payload)
    ensures signature == mac(secret, payload) ==> ok
  {
    mac(secret, payload) == signature
  }

  /** The crate's signature test: when the digest is lowercase hex, its own
      digest is accepted, "invalid_signature" is not, and neither is the
      digest in capitals when it has a letter. */
  lemma WebhookSignatureExamples(mac: Mac, secret: string, payload: string, i: nat)
    requires forall k :: 0 <= k < |mac(secret, payload)| ==> IsLowerHex(mac(secret, payload)[k])
    requires i < |mac(secret, payload)| && 'a' <= mac(secret, payload)[i] <= 'f'
    ensures ValidWebhookSignature(mac, secret, payload, mac(secret, payload))
    ensures !ValidWebhookSignature(mac, secret, payload, "invalid_signature")
    ensures !ValidWebhookSignature(mac, secret, payload, ToUpper(mac(secret, payload)))
  {
    var digest := mac(secret, payload);
    assert "invalid_signature"[0] == 'i';
    assert |digest| > 0 ==> IsLowerHex(digest[0]);
    assert ToUpper(digest)[i] != digest[i];
  }

  /** `extract_registration_token`: the `registrationId` string of a reply. */
  function ExtractRegistrationToken(reply: Json): (token: Option<string>)
    ensures token.Some? <==> Field(reply, "registrationId").JString?
    ensures token.Some? ==> Field(reply, "registrationId") == JString(token.value)
  {
    StrField(reply, "registrationId")
  }

  /** The crate's extraction test, and a non-string id yields nothing. */
  lemma RegistrationTokenExamples()
    ensures ExtractRegistrationToken(JObject(map["id" := JString("payment_123"),
      "registrationId" := JString("reg_456"), "status" := JString("completed")])) == Some("reg_456")
    ensures ExtractRegistrationToken(JObject(map["id" := JString("payment_123"),
      "status" := JString("completed")])) == None
    ensures ExtractRegistrationToken(JObject(map["registrationId" := JNumber(456)])) == None
  {
  }

  class PeachPaymentService {
    const config: PeachConfig
    var accessToken: Option<AccessToken>

    constructor (config: PeachConfig)
      ensures this.config == config && accessToken == None
    {
      this.config := config;
      accessToken := None;
    }

    /** `authenticate`: the cached token while it is fresh, else a new token
        from the reply, which replaces the cache. */
    method Authenticate(now: int, reply: Reply) returns (r: Result<string, string>)
      modifies this
      ensures (r, accessToken) == AuthOutcome(old(accessToken), now, reply)
    {
      if accessToken.Some? && accessToken.value.expiresAt > now + REFRESH_MARGIN {
        return Ok(accessToken.value.token);
      }
      if reply.Failed? {
        return Err("Authentication failed: " + reply.text);
      }
      var token := StrField(reply.json, "access_token");
      if token.None? {
        return Err("No access_token in response");
      }
      var expiresIn := U64Field(reply.json, "expires_in").GetOr(DEFAULT_EXPIRES_IN);
      var expiresAt := now + AsI64(expiresIn);
      accessToken := Some(AccessToken(token.value, expiresAt));
      r := Ok(token.value);
    }

    /** `create_checkout`: authenticate, build the payload, send it, and read
        the checkout id from the reply. `uuidHex` stands for the simple form of
        a fresh UUID; `sent` is the payload, when one was sent. */
    method CreateCheckout(request: InitiatePaymentRequest, amountText: string, now: int, authReply: Reply,
                          nonce: string, uuidHex: string, checkoutReply: Reply)
      returns (r: Result<InitiatePaymentResponse, string>, sent: Option<map<string, Json>>)
      modifies this
      ensures accessToken == AuthOutcome(old(accessToken), now, authReply).1
      ensures sent.Some? <==> AuthOutcome(old(accessToken), now, authReply).0.Ok?
      ensures sent.Some? ==> sent.value == CheckoutPayload(config, request, amountText, "TXN_" + uuidHex, nonce)
      ensures r.Ok? <==> sent.Some? && checkoutReply.Body? && StrField(checkoutReply.json, "checkoutId").Some?
      ensures r.Ok? ==> r.value == InitiatePaymentResponse(
        request.userId, "TXN_" + uuidHex, StrField(checkoutReply.json, "checkoutId").value,
        Some(config.checkoutEndpoint + "/v2/checkout/" + StrField(checkoutReply.json, "checkoutId").value),
        Some(EmbedConfig(config.entityId, StrField(checkoutReply.json, "checkoutId").value, SCRIPT_URL)))
    {
      var token := Authenticate(now, authReply);
      sent := None;
      if token.Err? {
        return Err(token.error), sent;
      }
      var merchantTransactionId := "TXN_" + uuidHex;
      var payload := CheckoutPayload(config, request, amountText, merchantTransactionId, nonce);
      sent := Some(payload);
      if checkoutReply.Failed? {
        return Err("Checkout creation failed: " + checkoutReply.text), sent;
      }
      var checkoutId := StrField(checkoutReply.json, "checkoutId");
      if checkoutId.None? {
        return Err("No checkoutId in response"), sent;
      }
      r := Ok(InitiatePaymentResponse(
        request.userId, merchantTransactionId, checkoutId.value,
        Some(config.checkoutEndpoint + "/v2/checkout/" + checkoutId.value),
        Some(EmbedConfig(config.entityId, checkoutId.value, SCRIPT_URL))));
    }
  }

  /** Two calls in a row: the second is served from the cache, without
      consulting its reply, while the first token is fresh. */
  method AuthenticateTwice(config: PeachConfig, now: int, token: string, later: int, secondReply: Reply)
    returns (first: Result<string, string>, second: Result<string, string>)
    requires now <= later < now + 3300
    ensures first == Ok(token) && second == Ok(token)
  {
    var service := new PeachPaymentService(config);
    var body := JObject(map["access_token" := JString(token)]);
    assert Field(body, "expires_in") == JNull;
    first := service.Authenticate(now, Body(body));
    second := service.Authenticate(later, secondReply);
  }
}
