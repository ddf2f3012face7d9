/** The Bitly client: it fixes up a long URL, builds the API request URL
    for it, and classifies the decoded JSON response into a value or one of
    three exceptions. */
module BitlyApi {
  import opened Wrappers
  import opened PhpStrings
  import opened UrlEncoding

  /** The API version used when the caller names none (`Bitly::V3`). */
  const V3: PhpString := "v3"

  const DefaultHost: PhpString := "api-ssl.bitly.com"

  /** The message `shorten` raises for an empty long URL. */
  const EmptyUrlMessage: PhpString := "The URL is empty!"

  /** The exceptions of the client: BitlyRateLimitException,
      BitlyAuthException and BitlyErrorException with its message. */
  datatype BitlyException =
    | RateLimitException
    | AuthException
    | ErrorException(message: PhpString)

  /** What `json_decode($raw, true)` gives, reduced to the keys the client
      reads. `NotAnArray` stands for every value that is not an array: null
      for a body that is not JSON, and any JSON scalar. A key that is absent
      or holds null is `None`; `shortUrl` is `data.url`. */
  datatype Decoded =
    | NotAnArray
    | Array(statusCode: Option<int>, statusTxt: Option<PhpString>, shortUrl: Option<PhpString>)

  /** What `handleResponse` returns: the body as it was passed in, or the
      decoded array. The source passes the response's body stream; the model
      passes the text that stream holds. */
  datatype Handled = RawBody(raw: PhpString) | DecodedBody(data: Decoded)

  /** `isset($data['status_code'])` */
  predicate HasStatusCode(data: Decoded)
  {
    data.Array? && data.statusCode.Some?
  }

  predicate IsSuccessCode(code: int)
  {
    200 <= code < 300
  }

  /** The exception `handleResponse` raises for an error status text. An
      absent status text compares unequal to both names and becomes the
      empty message. */
  function ExceptionFor(statusTxt: Option<PhpString>): BitlyException
  {
    match statusTxt
    case Some("RATE_LIMIT_EXCEEDED") => RateLimitException
    case Some("INVALID_LOGIN") => AuthException
    case Some(txt) => ErrorException(txt)
    case None => ErrorException("")
  }

  /** `handleResponse`, given the raw body and what `json_decode` made of it. */
  function HandleResponse(raw: PhpString, data: Decoded): (r: Result<Handled, BitlyException>)
    ensures r == Success(RawBody(raw)) <==> !HasStatusCode(data)
    ensures r.Failure? <==> HasStatusCode(data) && !IsSuccessCode(data.statusCode.value)
    ensures r.Success? && HasStatusCode(data) ==> r.value == DecodedBody(data)
    ensures r.Failure? ==> (r.error == RateLimitException <==> data.statusTxt == Some("RATE_LIMIT_EXCEEDED"))
    ensures r.Failure? ==> (r.error == AuthException <==> data.statusTxt == Some("INVALID_LOGIN"))
    ensures r.Failure? && r.error.ErrorException? ==>
              data.statusTxt == Some(r.error.message) || (data.statusTxt.None? && r.error.message == "")
  {
    if !HasStatusCode(data) then Success(RawBody(raw))
    else if !IsSuccessCode(data.statusCode.value) then Failure(ExceptionFor(data.statusTxt))
    else Success(DecodedBody(data))
  }

  /** `$data['data']['url']`: the short URL of a success envelope. Anything
      else (the raw body, an envelope without `data.url`) is `None`. */
  function ShortUrlOf(h: Handled): (r: Option<PhpString>)
    ensures r.Some? <==> h.DecodedBody? && h.data.Array? && h.data.shortUrl.Some?
    ensures r.Some? ==> r.value == h.data.shortUrl.value
  {
    match h
    case DecodedBody(Array(_, _, Some(url))) => Some(url)
    case _ => None
  }

  /** The state `shorten`'s promise ends in. */
  datatype PromiseState = Resolved(value: Option<PhpString>) | Rejected(error: BitlyException) | Pending

  /** How the source settles `shorten`'s promise from the outcome of
      `handleResponse`: a decoded array resolves it with `data.url` (null
      where that entry is missing). An exception is thrown inside the
      transport's `then` callback, where neither Deferred is rejected, so the
      promise stays pending. So does the body returned as it is: it is the
      response's body stream, and indexing it with `['data']` throws inside
      the `done` callback, which runs within that same `then` callback. */
  function SettleAsWritten(handled: Result<Handled, BitlyException>): (p: PromiseState)
    ensures p == Pending <==> handled.Failure? || handled.value.RawBody?
    ensures handled.Success? && handled.value.DecodedBody? ==> p == Resolved(ShortUrlOf(handled.value))
  {
    match handled
    case Success(DecodedBody(data)) => Resolved(ShortUrlOf(DecodedBody(data)))
    case Success(RawBody(_)) => Pending
    case Failure(_) => Pending
  }

  /** The intended settlement: an exception from `handleResponse` reaches the
      caller, and a value yields its `data.url`. */
  function Settle(handled: Result<Handled, BitlyException>): (r: Result<Option<PhpString>, BitlyException>)
    ensures r.Failure? <==> handled.Failure?
    ensures handled.Failure? ==> r.error == handled.error
    ensures handled.Success? ==> r.value == ShortUrlOf(handled.value)
  {
    match handled
    case Success(h) => Success(ShortUrlOf(h))
    case Failure(e) => Failure(e)
  }

  /** The two settlements agree on every decoded array; on every exception,
      and on a body returned as it is, the source leaves the promise pending.
      For a rate-limit envelope the caller never learns of the rate limit. */
  lemma SettleAsWrittenLosesErrors(raw: PhpString, handled: Result<Handled, BitlyException>)
    ensures Settle(handled).Failure? ==> SettleAsWritten(handled) == Pending
    ensures SettleAsWritten(handled) == Pending <==> Settle(handled).Failure? || handled.value.RawBody?
    ensures Settle(handled).Success? && handled.value.DecodedBody? ==>
              SettleAsWritten(handled) == Resolved(Settle(handled).value)
    ensures var h := HandleResponse(raw, Array(Some(500), Some("RATE_LIMIT_EXCEEDED"), None));
            SettleAsWritten(h) == Pending && Settle(h) == Failure(RateLimitException)
    ensures var h := HandleResponse(raw, Array(None, None, Some("x")));
            SettleAsWritten(h) == Pending && Settle(h) == Success(None)
  {
  }

  /** The first step of `fixUrl`: "http://" is put in front unless the URL
      already starts with "http" (`strpos` gives 0 exactly then). */
  function WithScheme(url: PhpString): (r: PhpString)
    ensures StartsWith(r, "http")
    ensures r == url <==> StartsWith(url, "http")
    ensures r == url || r == "http://" + url
  {
    if StartsWith(url, "http") then url else "http://" + url
  }

  /** What `fixUrl` computes: the scheme comes first, the encoding second. */
  function FixedUrl(url: PhpString, encode: bool): (r: PhpString)
  {
    var withScheme := WithScheme(url);
    if encode then UrlEncode(withScheme) else withScheme
  }

  /** Without encoding, fixing a URL twice is fixing it once. */
  lemma WithSchemeIdempotent(url: PhpString)
    ensures WithScheme(WithScheme(url)) == WithScheme(url)
  {
  }

  /** A fixed URL starts with "http", encoded or not. */
  lemma FixedUrlStartsWithHttp(url: PhpString, encode: bool)
    ensures StartsWith(FixedUrl(url, encode), "http")
  {
    if encode {
      UrlEncodeKeepsHttp(WithScheme(url));
    }
  }

  /** An encoded fixed URL decodes back to the URL with its scheme, and holds
      no query delimiter. */
  lemma FixedUrlDecodes(url: PhpString)
    ensures FormDecode(FixedUrl(url, true)) == WithScheme(url)
    ensures '&' !in FixedUrl(url, true) && '#' !in FixedUrl(url, true)
  {
    FormDecodeUrlEncode(WithScheme(url));
    UrlEncodeHasNoDelimiter(WithScheme(url));
  }

  /** The client. Its host, API version and token are set by the
      constructor and only read afterwards. */
  class Bitly {
    const host: PhpString
    const version: PhpString
    const token: PhpString

    constructor (token: PhpString, version: PhpString := V3, host: PhpString := DefaultHost)
      ensures this.token == token && this.version == version && this.host == host
    {
      this.token := token;
      this.version := version;
      this.host := host;
    }

    /** The part of the request URL in front of the long URL. */
    function RequestPrefix(action: PhpString): PhpString
    {
      "https://" + host + "/" + version + "/" + action + "?access_token=" + token + "&format=json&longUrl="
    }

    /** `buildRequestUrl`: the long URL is the last query parameter. */
    function RequestUrl(url: PhpString, action: PhpString := "shorten"): (r: PhpString)
      ensures StartsWith(r, "https://" + host + "/" + version + "/" + action + "?access_token=" + token)
      ensures StartsWith(r, RequestPrefix(action)) && r[|RequestPrefix(action)|..] == url
    {
      RequestPrefix(action) + url
    }

    /** `fixUrl`: the URL is reassigned in two steps. */
    method FixUrl(url: PhpString, encode: bool) returns (r: PhpString)
      ensures r == FixedUrl(url, encode)
    {
      r := url;
      if !StartsWith(r, "http") {
        r := "http://" + r;
      }
      if encode {
        r := UrlEncode(r);
      }
    }

    /** `shorten`, with the HTTP round trip as parameters: `transport` gives
        the body the server answers to a request URL and `jsonDecode` what
        `json_decode` makes of a body. `requests` lists the request URLs sent;
        the result is the short URL (`None` where there is no `data.url`) or
        the exception raised, settled as intended by `Settle`. */
    method Shorten(url: PhpString, transport: PhpString -> PhpString, jsonDecode: PhpString -> Decoded,
                   encode: bool := true)
      returns (r: Result<Option<PhpString>, BitlyException>, requests: seq<PhpString>)
      ensures requests == [] <==> IsEmpty(url)
      ensures IsEmpty(url) ==> r == Failure(ErrorException(EmptyUrlMessage))
      ensures !IsEmpty(url) ==> requests == [RequestUrl(FixedUrl(url, encode))]
      ensures !IsEmpty(url) ==>
                var body := transport(requests[0]);
                match HandleResponse(body, jsonDecode(body))
                case Failure(e) => r == Failure(e)
                case Success(h) => r == Success(ShortUrlOf(h))
    {
      if IsEmpty(url) {
        return Failure(ErrorException(EmptyUrlMessage)), [];
      }
      var fixedUrl := FixUrl(url, encode);
      var request := RequestUrl(fixedUrl);
      requests := [request];
      var body := transport(request);
      var handled := HandleResponse(body, jsonDecode(body));
      r := Settle(handled);
    }
  }

  /** Different long URLs give different request URLs. */
  lemma RequestUrlInjective(client: Bitly, u1: PhpString, u2: PhpString, action: PhpString)
    requires client.RequestUrl(u1, action) == client.RequestUrl(u2, action)
    ensures u1 == u2
  {
    var r1, r2 := client.RequestUrl(u1, action), client.RequestUrl(u2, action);
    var n := |client.RequestPrefix(action)|;
    assert u1 == r1[n..] == r2[n..] == u2;
  }

  /** With encoding, the `longUrl` value of the request is the form encoding
      of the URL with its scheme: the server's decoding gives that URL back,
      and no `&` in it can start another parameter. */
  lemma RequestUrlCarriesLongUrl(client: Bitly, url: PhpString, action: PhpString)
    ensures var r := client.RequestUrl(FixedUrl(url, true), action);
            var longUrl := r[|client.RequestPrefix(action)|..];
            FormDecode(longUrl) == WithScheme(url) && '&' !in longUrl
  {
    FixedUrlDecodes(url);
  }

  /** Worked cases: a 200 envelope yields its `data.url`; on error codes the
      status texts RATE_LIMIT_EXCEEDED, INVALID_LOGIN and MALFORMED_URL raise
      the rate-limit, auth and generic exceptions; a body without a status
      code, or one that is not an array, comes back as it is. */
  lemma HandleResponseExamples(raw: PhpString)
    ensures var ok := Array(Some(200), Some("OK"), Some("http://bit.ly/abc"));
            var h := HandleResponse(raw, ok);
            h.Success? && ShortUrlOf(h.value) == Some("http://bit.ly/abc")
    ensures HandleResponse(raw, Array(Some(500), Some("RATE_LIMIT_EXCEEDED"), None)) == Failure(RateLimitException)
    ensures HandleResponse(raw, Array(Some(403), Some("INVALID_LOGIN"), None)) == Failure(AuthException)
    ensures HandleResponse(raw, Array(Some(400), Some("MALFORMED_URL"), None)) == Failure(ErrorException("MALFORMED_URL"))
    ensures HandleResponse(raw, Array(None, Some("OK"), None)) == Success(RawBody(raw))
    ensures HandleResponse(raw, NotAnArray) == Success(RawBody(raw))
  {
  }

  /** Worked cases: the scheme is added to a bare host, and `urlencode`
      turns `:` and `/` into `%3A` and `%2F`, a space into `+` and keeps
      letters. */
  lemma FixedUrlExample()
    ensures FixedUrl("bit.ly/a b", false) == "http://bit.ly/a b"
    ensures FixedUrl("http://x", false) == "http://x"
    ensures UrlEncode(":") == "%3A" && UrlEncode("/") == "%2F"
    ensures UrlEncode(" ") == "+" && UrlEncode("~") == "%7E"
  {
    assert "bit.ly/a b"[0] == 'b';
    UrlEncodeSingle(':');
    UrlEncodeSingle('/');
    UrlEncodeSingle(' ');
    UrlEncodeSingle('~');
  }
}
