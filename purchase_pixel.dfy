/**
  The purchase pixel: a GET to the tracking endpoint whose query lists the
  brand, the order, its total, the ids of the bought items and the
  currency, followed by the visitor id when the visitor cookie is set.
  The standalone pixel sends product ids and takes the brand as an
  argument; the SDK's pixel sends variant ids under its own key and the
  brand it was initialized with.
 */
module PurchasePixel {
  import opened Wrappers
  import opened Text
  import opened Cookies
  import opened QueryString
  import opened Http

  const PixelEndpoint: string := "https://tr.alby.com/p?"
  const UserIdKey: string := "user_id="
  const UserIdEntry: string := "&" + UserIdKey

  lemma UserIdKeyHasNoAmpersand()
    ensures '&' !in UserIdKey
  {
  }

  /** The key of the id list: the standalone pixel's and the SDK's. */
  const ProductIdsKey: string := "product_ids"
  const VariantIdsKey: string := "variant_ids"

  /** The pixel's entries (`orderInfo`), in the order they are sent. */
  function OrderInfo(brandId: string, orderId: string, orderTotal: string, idsKey: string, ids: seq<string>, currency: string)
    : (info: seq<(string, string)>)
    ensures |info| == 5
    ensures info[0] == ("brand_id", brandId) && info[1] == ("order_id", orderId)
    ensures info[2] == ("order_total", orderTotal) && info[3] == (idsKey, CommaList(ids))
    ensures info[4] == ("currency", currency)
  {
    [("brand_id", brandId), ("order_id", orderId), ("order_total", orderTotal),
     (idsKey, CommaList(ids)), ("currency", currency)]
  }

  /**
    The pixel URL: the endpoint, the encoded query, and the visitor id,
    unencoded, exactly when there is one.
   */
  function PixelUrl(encode: string -> string, info: seq<(string, string)>, userId: Option<string>): (url: string)
    ensures userId.None? ==> url == PixelEndpoint + Query(encode, info)
    ensures userId.Some? ==> url == PixelEndpoint + Query(encode, info) + UserIdEntry + userId.value
  {
    var base := PixelEndpoint + Query(encode, info);
    match userId
    case None => base
    case Some(id) => base + UserIdEntry + id
  }

  /**
    `AlbyPurchasePixel.sendPurchasePixel`: builds the URL step by step and
    issues a GET for it; there is no initialization to check.
   */
  method SendPurchasePixel(encode: string -> string, brandId: string, orderId: string, orderTotal: string,
                           productIds: seq<string>, currency: string, cookies: Option<string>)
    returns (request: HttpRequest)
    ensures request == HttpRequest(
      PixelUrl(encode, OrderInfo(brandId, orderId, orderTotal, ProductIdsKey, productIds, currency), UserId(cookies)),
      Get, None)
  {
    var orderInfo := OrderInfo(brandId, orderId, orderTotal, ProductIdsKey, productIds, currency);
    var queryString := Query(encode, orderInfo);
    var cookieMap := ParseCookies(cookies);
    var finalUrl := PixelEndpoint + queryString;
    if UserCookie in cookieMap {
      finalUrl := finalUrl + UserIdEntry + cookieMap[UserCookie];
    }
    request := HttpRequest(finalUrl, Get, None);
  }

  lemma {:induction false} JoinAppend(parts: seq<string>, last: string, sep: string)
    requires |parts| >= 1
    ensures Join(parts + [last], sep) == Join(parts, sep) + sep + last
    decreases |parts|
  {
    if |parts| == 1 {
      assert (parts + [last])[1..] == [last];
    } else {
      assert (parts + [last])[1..] == parts[1..] + [last];
      JoinAppend(parts[1..], last, sep);
    }
  }

  /** An entry appended after a `&` is cut off as one more piece. */
  lemma AppendedEntrySplits(parts: seq<string>, last: string)
    requires |parts| >= 1
    requires forall i :: 0 <= i < |parts| ==> '&' !in parts[i]
    requires '&' !in last
    ensures Split(Join(parts, "&") + "&" + last, '&') == parts + [last]
  {
    JoinAppend(parts, last, "&");
    assert forall i :: 0 <= i < |parts + [last]| ==> '&' !in (parts + [last])[i];
    SplitJoin(parts + [last], '&');
  }

  /** The pixel URL starts with the endpoint; without a visitor id the rest is the encoded query. */
  lemma PixelUrlParts(encode: string -> string, info: seq<(string, string)>, userId: Option<string>)
    ensures PixelUrl(encode, info, userId)[..|PixelEndpoint|] == PixelEndpoint
    ensures userId.None? ==> PixelUrl(encode, info, userId)[|PixelEndpoint|..] == Query(encode, info)
  {
    var query := Query(encode, info);
    match userId
    case None =>
      assert (PixelEndpoint + query)[..|PixelEndpoint|] == PixelEndpoint;
    case Some(id) =>
      var url := PixelEndpoint + query + UserIdEntry + id;
      assert url == PixelEndpoint + (query + UserIdEntry + id);
  }

  /** With a visitor id, the URL's query is the encoded query, `&`, and the raw `user_id` entry. */
  lemma QueryWithUserId(encode: string -> string, info: seq<(string, string)>, id: string)
    ensures PixelUrl(encode, info, Some(id))[|PixelEndpoint|..] == Query(encode, info) + "&" + (UserIdKey + id)
  {
    var query := Query(encode, info);
    var url := PixelEndpoint + query + UserIdEntry + id;
    assert url == PixelEndpoint + (query + UserIdEntry + id);
    assert url[|PixelEndpoint|..] == query + UserIdEntry + id;
  }

  /** The raw `user_id` entry holds no `&` when the id holds none. */
  lemma UserIdEntryHasNoAmpersand(id: string)
    requires '&' !in id
    ensures '&' !in UserIdKey + id
  {
    UserIdKeyHasNoAmpersand();
  }

  /** Encoded entries never hold `&`. */
  lemma EntriesHaveNoAmpersand(encode: string -> string, decode: string -> string, info: seq<(string, string)>)
    requires EscapesDelimiters(encode)
    requires forall s :: decode(encode(s)) == s
    ensures forall i :: 0 <= i < |info| ==> '&' !in Entries(encode, info)[i]
  {
    var parts := Entries(encode, info);
    forall i | 0 <= i < |parts| ensures '&' !in parts[i] {
      EntryReadsBack(encode, decode, info[i].0, info[i].1);
    }
  }

  /**
    The query of the pixel URL reads back as the order entries in order
    and then, when there is a visitor id free of `&`, the visitor id as one
    more raw entry.
   */
  lemma PixelQueryReadsBack(encode: string -> string, decode: string -> string, info: seq<(string, string)>, userId: Option<string>)
    requires EscapesDelimiters(encode)
    requires forall s :: decode(encode(s)) == s
    requires |info| >= 1
    requires userId.Some? ==> '&' !in userId.value
    ensures var url := PixelUrl(encode, info, userId);
      && url[..|PixelEndpoint|] == PixelEndpoint
      && (userId.None? ==> ParseQuery(decode, url[|PixelEndpoint|..]) == info)
      && (userId.Some? ==> Split(url[|PixelEndpoint|..], '&') == Entries(encode, info) + [UserIdKey + userId.value])
  {
    PixelUrlParts(encode, info, userId);
    match userId
    case None =>
      QueryRoundTrip(encode, decode, info);
    case Some(id) =>
      QueryWithUserId(encode, info, id);
      UserIdEntryHasNoAmpersand(id);
      EntriesHaveNoAmpersand(encode, decode, info);
      AppendedEntrySplits(Entries(encode, info), UserIdKey + id);
  }
}
