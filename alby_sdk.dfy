/**
  The SDK singleton: the first `initialize` records the brand and the
  application context and starts the background page; the purchase pixel
  and the add-to-cart event refuse to run before that; requests are
  checked for a supported method before they are sent; the add-to-cart
  event carries a fixed-shape JSON payload.
 */
module AlbySdk {
  import opened Wrappers
  import opened Text
  import opened Cookies
  import opened QueryString
  import opened Http
  import opened PurchasePixel

  const AnalyticsEndpoint: string := "https://eks.alby.com/analytics-service/v1/api/track"
  const WarmupPage: string := "https://cdn.alby.com/assets/alby_widget.html?brandId="

  datatype SdkError =
    | NotInitialized
    | MissingBrandId
    | PostWithoutBody
    | UnsupportedMethod(verb: string)

  // ---------------------------------------------------------------------
  // Initialization

  /**
    The singleton's fields: the brand, whether `initialize` has run, the
    application context (an opaque handle), and the page the background
    web view was told to load.
   */
  datatype SdkModel = SdkModel(brandId: Option<string>, isInitialized: bool, context: Option<nat>, warmupUrl: Option<string>)

  const Uninitialized: SdkModel := SdkModel(None, false, None, None)

  /** `initialize`: only the first call has an effect. */
  function AfterInitialize(s: SdkModel, brandId: string, applicationContext: nat): (r: SdkModel)
    ensures s.isInitialized ==> r == s
    ensures !s.isInitialized ==>
      r == SdkModel(Some(brandId), true, Some(applicationContext), Some(WarmupPage + brandId))
  {
    if s.isInitialized then s
    else SdkModel(Some(brandId), true, Some(applicationContext), Some(WarmupPage + brandId))
  }

  /** `ensureInitialized`: not initialized is reported first, then a missing brand. */
  function Guard(s: SdkModel): (o: Outcome<SdkError>)
    ensures o.Pass? <==> s.isInitialized && s.brandId.Some?
    ensures !s.isInitialized ==> o == Fail(NotInitialized)
    ensures s.isInitialized && s.brandId.None? ==> o == Fail(MissingBrandId)
  {
    if !s.isInitialized then Fail(NotInitialized)
    else if s.brandId.None? then Fail(MissingBrandId)
    else Pass
  }

  /** The singleton is initialized exactly when it has a brand. */
  predicate Valid(s: SdkModel) {
    s.isInitialized <==> s.brandId.Some?
  }

  /** Every state the singleton can reach keeps `Valid`, so the missing-brand failure never occurs. */
  lemma InitializeKeepsValid(s: SdkModel, brandId: string, applicationContext: nat)
    ensures Valid(Uninitialized)
    ensures Valid(s) ==> Valid(AfterInitialize(s, brandId, applicationContext))
    ensures Valid(s) ==> Guard(s) != Fail(MissingBrandId)
  {
  }

  /** A second `initialize` changes nothing: the first brand and context stay. */
  lemma FirstInitializeWins(s: SdkModel, b1: string, c1: nat, b2: string, c2: nat)
    ensures var once := AfterInitialize(s, b1, c1);
      AfterInitialize(once, b2, c2) == once
    ensures !s.isInitialized ==> AfterInitialize(AfterInitialize(s, b1, c1), b2, c2).brandId == Some(b1)
  {
  }

  /** Before `initialize` every guarded call fails as not initialized; after it, every one passes. */
  lemma GuardAroundInitialize(brandId: string, applicationContext: nat)
    ensures Guard(Uninitialized) == Fail(NotInitialized)
    ensures Guard(AfterInitialize(Uninitialized, brandId, applicationContext)) == Pass
  {
  }

  // ---------------------------------------------------------------------
  // performRequest's method check

  /**
    The request `performRequest` builds: the method is compared in upper
    case; a POST needs a body, a GET ignores it, and any other method is
    refused, naming the method as given.
   */
  function PrepareRequest(url: string, verb: string, requestBody: Option<string>): (r: Result<HttpRequest, SdkError>)
    ensures r.Success? <==> Upper(verb) == "GET" || (Upper(verb) == "POST" && requestBody.Some?)
    ensures Upper(verb) == "POST" && requestBody.Some? ==> r == Success(HttpRequest(url, Post, requestBody))
    ensures Upper(verb) == "POST" && requestBody.None? ==> r == Failure(PostWithoutBody)
    ensures Upper(verb) == "GET" ==> r == Success(HttpRequest(url, Get, None))
    ensures Upper(verb) != "GET" && Upper(verb) != "POST" ==> r == Failure(UnsupportedMethod(verb))
  {
    var normalized := Upper(verb);
    if normalized == "POST" then
      match requestBody
      case None => Failure(PostWithoutBody)
      case Some(body) => Success(HttpRequest(url, Post, Some(body)))
    else if normalized == "GET" then Success(HttpRequest(url, Get, None))
    else Failure(UnsupportedMethod(verb))
  }

  lemma {:induction false} UpperIdempotent(s: string)
    ensures Upper(Upper(s)) == Upper(s)
  {
    if s != [] {
      UpperIdempotent(s[1..]);
      assert UpperChar(UpperChar(s[0])) == UpperChar(s[0]);
    }
  }

  /** The method's case does not matter: a request that is accepted is the same in any case. */
  lemma MethodCaseInsensitive(url: string, verb: string, requestBody: Option<string>)
    ensures PrepareRequest(url, verb, requestBody).Success? ==>
      PrepareRequest(url, Upper(verb), requestBody) == PrepareRequest(url, verb, requestBody)
    ensures PrepareRequest(url, "get", None) == Success(HttpRequest(url, Get, None))
  {
    UpperIdempotent(verb);
    assert Upper("get") == "GET";
  }

  /** The two requests the SDK makes are always accepted: a GET, and a POST with a body. */
  lemma SdkRequestsAccepted(url: string, body: string)
    ensures PrepareRequest(url, "GET", None) == Success(HttpRequest(url, Get, None))
    ensures PrepareRequest(url, "POST", Some(body)) == Success(HttpRequest(url, Post, Some(body)))
  {
    assert Upper("GET") == "GET";
    assert Upper("POST") == "POST";
  }

  // ---------------------------------------------------------------------
  // The add-to-cart payload

  /** A JSON value, as far as the payload needs one. */
  datatype Json = JString(s: string) | JNumber(n: real) | JObject(fields: map<string, Json>)

  /** `JSONObject.put(key, value)`: a null value removes the key. */
  function Put(obj: map<string, Json>, key: string, value: Option<Json>): (r: map<string, Json>)
    ensures value.Some? ==> r == obj[key := value.value]
    ensures value.None? ==> key !in r && r == obj - {key}
  {
    match value
    case Some(v) => obj[key := v]
    case None => obj - {key}
  }

  function StringOrNull(s: Option<string>): Option<Json> {
    match s
    case Some(v) => Some(JString(v))
    case None => None
  }

  /** The `properties` object of the add-to-cart event. */
  function CartProperties(price: string, variantId: string, currency: string, quantity: string): (p: map<string, Json>)
    ensures p.Keys == {"price", "variant_id", "currency", "quantity"}
    ensures p["price"] == JString(price) && p["variant_id"] == JString(variantId)
    ensures p["currency"] == JString(currency) && p["quantity"] == JString(quantity)
  {
    var p := Put(map[], "price", Some(JString(price)));
    var p := Put(p, "variant_id", Some(JString(variantId)));
    var p := Put(p, "currency", Some(JString(currency)));
    Put(p, "quantity", Some(JString(quantity)))
  }

  /** The `context` object: locale and source are fixed; the user agent is absent when unknown. */
  function CartContext(userAgent: Option<string>): (c: map<string, Json>)
    ensures "locale" in c && c["locale"] == JString("en-US")
    ensures "source" in c && c["source"] == JString("android-sdk")
    ensures "userAgent" in c <==> userAgent.Some?
    ensures userAgent.Some? ==> c["userAgent"] == JString(userAgent.value)
    ensures c.Keys <= {"locale", "userAgent", "source"}
  {
    var c := Put(map[], "locale", Some(JString("en-US")));
    var c := Put(c, "userAgent", StringOrNull(userAgent));
    Put(c, "source", Some(JString("android-sdk")))
  }

  /**
    The add-to-cart payload: the brand, the fixed event type, the visitor id
    when known, the cart properties, the context, and the time in seconds.
   */
  function AddToCartPayload(brandId: string, userId: Option<string>, properties: map<string, Json>,
                            context: map<string, Json>, millis: int)
    : (p: map<string, Json>)
    ensures "brand_id" in p && p["brand_id"] == JString(brandId)
    ensures "event_type" in p && p["event_type"] == JString("Click:AddToCart")
    ensures "user_id" in p <==> userId.Some?
    ensures userId.Some? ==> p["user_id"] == JString(userId.value)
    ensures "properties" in p && p["properties"] == JObject(properties)
    ensures "context" in p && p["context"] == JObject(context)
    ensures "event_timestamp" in p && p["event_timestamp"] == JNumber(millis as real / 1000.0)
    ensures p.Keys <= {"brand_id", "event_type", "user_id", "properties", "context", "event_timestamp"}
  {
    var p := Put(map[], "brand_id", Some(JString(brandId)));
    var p := Put(p, "event_type", Some(JString("Click:AddToCart")));
    var p := Put(p, "user_id", StringOrNull(userId));
    var p := Put(p, "properties", Some(JObject(properties)));
    var p := Put(p, "context", Some(JObject(context)));
    Put(p, "event_timestamp", Some(JNumber(millis as real / 1000.0)))
  }

  /** Whatever the inputs, the event is an add-to-cart click from the Android SDK. */
  lemma PayloadAlwaysTagged(brandId: string, userId: Option<string>, price: string, variantId: string,
                            currency: string, quantity: string, userAgent: Option<string>, millis: int)
    ensures var p := AddToCartPayload(brandId, userId, CartProperties(price, variantId, currency, quantity),
                                      CartContext(userAgent), millis);
      && p["event_type"] == JString("Click:AddToCart")
      && p["context"].JObject? && "source" in p["context"].fields
      && p["context"].fields["source"] == JString("android-sdk")
  {
  }

  // ---------------------------------------------------------------------
  // The singleton

  /** `AlbySDK`: the mutable fields of the singleton object. */
  class Sdk {
    var brandId: Option<string>
    var isInitialized: bool
    var context: Option<nat>
    var warmupUrl: Option<string>

    function Model(): SdkModel
      reads this
    {
      SdkModel(brandId, isInitialized, context, warmupUrl)
    }

    constructor ()
      ensures Model() == Uninitialized
    {
      brandId := None;
      isInitialized := false;
      context := None;
      warmupUrl := None;
    }

    /**
      `initialize(brandId, context)`: a no-op once initialized; otherwise
      records the brand and the application context and points the
      background web view at the widget page for the brand.
     */
    method Initialize(brandId: string, applicationContext: nat)
      modifies this
      ensures Model() == AfterInitialize(old(Model()), brandId, applicationContext)
    {
      if isInitialized {
        return;
      }
      this.brandId := Some(brandId);
      this.context := Some(applicationContext);
      warmupUrl := Some(WarmupPage + brandId);
      isInitialized := true;
    }

    /**
      `sendPurchasePixel`: fails before `initialize`; otherwise a GET of the
      pixel URL with the variant ids and the visitor id from the cookies.
     */
    method SendPurchasePixel(encode: string -> string, orderId: string, orderTotal: string,
                             variantIds: seq<string>, currency: string, cookies: Option<string>)
      returns (r: Result<HttpRequest, SdkError>)
      ensures Guard(Model()).Fail? ==> r == Failure(Guard(Model()).error)
      ensures Guard(Model()).Pass? ==> r == Success(HttpRequest(
        PixelUrl(encode, OrderInfo(brandId.value, orderId, orderTotal, VariantIdsKey, variantIds, currency), UserId(cookies)),
        Get, None))
    {
      var guard := Guard(Model());
      if guard.Fail? {
        return Failure(guard.error);
      }
      var orderInfo := OrderInfo(brandId.value, orderId, orderTotal, VariantIdsKey, variantIds, currency);
      var queryString := Query(encode, orderInfo);
      var userId := UserId(cookies);
      var finalUrl := PixelEndpoint + queryString;
      if userId.Some? {
        finalUrl := finalUrl + UserIdEntry + userId.value;
      }
      SdkRequestsAccepted(finalUrl, "");
      r := PrepareRequest(finalUrl, "GET", None);
    }

    /**
      `sendAddToCartEvent`: fails before `initialize`; otherwise a POST of
      the serialized payload to the analytics endpoint.
     */
    method SendAddToCartEvent(serialize: Json -> string, price: string, variantId: string, currency: string,
                              quantity: string, userAgent: Option<string>, millis: int, cookies: Option<string>)
      returns (r: Result<HttpRequest, SdkError>)
      ensures Guard(Model()).Fail? ==> r == Failure(Guard(Model()).error)
      ensures Guard(Model()).Pass? ==> r == Success(HttpRequest(AnalyticsEndpoint, Post, Some(serialize(JObject(
        AddToCartPayload(brandId.value, UserId(cookies), CartProperties(price, variantId, currency, quantity),
                         CartContext(userAgent), millis))))))
    {
      var guard := Guard(Model());
      if guard.Fail? {
        return Failure(guard.error);
      }
      var properties := CartProperties(price, variantId, currency, quantity);
      var context := CartContext(userAgent);
      var payload := AddToCartPayload(brandId.value, UserId(cookies), properties, context, millis);
      var body := serialize(JObject(payload));
      SdkRequestsAccepted(AnalyticsEndpoint, body);
      r := PrepareRequest(AnalyticsEndpoint, "POST", Some(body));
    }
  }
}
