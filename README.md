# php-bitly client core, modelled in Dafny

This project models the `Bitly` client class of php-bitly: a small client for
the Bitly URL-shortening API. Given a long URL, the client

1. rejects it when PHP's `empty()` holds (for a string: `""` and `"0"`) by
   raising `BitlyErrorException("The URL is empty!")` before anything else;
2. fixes it up (`fixUrl`): `"http://"` is put in front unless the URL already
   starts with `"http"`, and then, by default, the result is form-urlencoded
   with PHP's `urlencode`;
3. builds the request URL (`buildRequestUrl`)
   `https://{host}/{version}/{action}?access_token={token}&format=json&longUrl={url}`
   with `action` defaulting to `shorten`;
4. sends one GET request and classifies the response (`handleResponse`): no
   `status_code` gives the body back as it was passed in, a code outside [200, 300) raises by
   `status_txt` (rate limit, invalid login, or a generic error carrying the
   text), anything else gives the decoded data back;
5. resolves with `data.url` of the decoded data.

Files:

- `wrappers.dfy`: `Option` and `Result`.
- `php_strings.dfy`: PHP strings as byte strings (`PhpString`), prefix test,
  `empty()` on strings.
- `url_encoding.dfy`: `urlencode` (letters, digits and `-_.` kept, space to
  `+`, every other byte to `%XX` with upper-case hex, as in section 17.13.4.1
  of HTML 4.01) and its partner `urldecode`; the round trip, injectivity, the
  output alphabet, and how encoding treats concatenation and a kept prefix.
- `bitly.dfy`: the exceptions, the decoded response, `handleResponse`, the
  `data.url` extraction, `fixUrl` and its specification, and the `Bitly`
  class with its constructor, `buildRequestUrl`, `fixUrl` and `shorten`.

The HTTP round trip is a parameter of `Shorten`: `transport` maps a request
URL to the response body and `jsonDecode` stands for `json_decode($raw, true)`.
`Shorten` also returns the list of request URLs it sent, so that "no request
for an empty URL" is a statement about its result.

Facts about the client that the model keeps:

- The client raises `BitlyErrorException` for an empty URL, the same class as
  its generic API error (`ErrorException("The URL is empty!")`); `"0"` counts
  as empty as well as `""`.
- A response without a `status_code` yields the response's body as passed
  at line 136 of src/Bitly.php (the body stream), not the decoded structure;
  the model passes the body's text.
- The access token is not checked for being non-empty.
- An exception from `handleResponse` never reaches the caller: it is thrown
  inside the transport's `then` callback and `shorten`'s promise stays
  pending. A body without a `status_code` ends the same way: reading
  `['data']['url']` from the body stream throws inside the same callback.
  `SettleAsWritten` models both; `Shorten` uses the intended
  settlement `Settle`, under which the exception reaches the caller (see
  "## Findings").

## Model

| member | source | states |
|---|---|---|
| `BitlyApi.Bitly.constructor` | src/Bitly.php:27-33 | stores the token, the version (default `v3`) and the host (default `api-ssl.bitly.com`); the fields are constants, so no method can change them |
| `BitlyApi.Bitly.Shorten` | src/Bitly.php:35-49 | sends no request exactly when the URL is `""` or `"0"`, and then raises `ErrorException("The URL is empty!")`; otherwise sends exactly one request, built from the fixed URL, and, settled as intended, raises what `handleResponse` raises or yields the `data.url` of what it returns |
| `BitlyApi.HandleResponse` | src/Bitly.php:56-79 | returns the raw body unchanged exactly when there is no non-null `status_code` (non-JSON bodies included); raises exactly when the code is outside [200, 300); the rate-limit exception exactly for `RATE_LIMIT_EXCEEDED`, the auth exception exactly for `INVALID_LOGIN`, otherwise an error whose message is `status_txt`; on a success code returns the decoded data unchanged, whatever `status_txt` is |
| `BitlyApi.HandleResponseExamples` | src/Bitly.php:56-79 | worked cases: a 200 envelope with `data.url` yields that URL; 500 `RATE_LIMIT_EXCEEDED`, 403 `INVALID_LOGIN` and 400 `MALFORMED_URL` raise the matching exceptions; a body without a status code, or not an array, comes back raw |
| `PhpStrings.IsEmpty` | src/Bitly.php:37 | PHP's `empty()` on a string holds exactly for strings of at most one byte, all of them `0`: that is, `""` and `"0"` |
| `UrlEncoding.UrlEncode` | src/Bitly.php:93 | PHP's `urlencode`, byte by byte: letters, digits and `-_.` kept, space to `+`, every other byte to `%XX` in upper-case hex; the output is between one and three times as long as the input (the byte rules themselves are stated by `UrlEncodeSingle` and `UrlEncodeAppend`) |
| `BitlyApi.ShortUrlOf` | src/Bitly.php:45 | yields a value exactly when the handled response is a decoded array holding `data.url`, and then that value |
| `BitlyApi.SettleAsWritten` | src/Bitly.php:44-47 | as the source settles `shorten`'s promise: it stays pending exactly when `handleResponse` raised (line 136 throws before `$deferred->resolve`, and no Deferred is ever rejected) or returned the body as it is (line 45 indexes the body stream that line 60 returns); for a decoded array it resolves with `data.url` |
| `BitlyApi.Settle` | src/Bitly.php:44-47 | as intended: the call fails exactly when `handleResponse` raised, with that exception, and otherwise yields `data.url` |
| `BitlyApi.SettleAsWrittenLosesErrors` | src/Bitly.php:132-139 | every exception leaves the source's promise pending where the intended settlement fails with it; the source's promise is pending exactly for exceptions and bodies without a status code; on decoded arrays the two agree; a 500 `RATE_LIMIT_EXCEEDED` envelope and a body `{"data":{"url":"x"}}` without status code are pending cases |
| `BitlyApi.WithScheme` | src/Bitly.php:88-90 | the result starts with `http`; it equals the input exactly when the input starts with `http`; otherwise it is `http://` followed by the input |
| `BitlyApi.WithSchemeIdempotent` | src/Bitly.php:88-90 | fixing a URL without encoding twice is the same as fixing it once |
| `BitlyApi.Bitly.FixUrl` | src/Bitly.php:87-97 | the step-by-step reassignment computes the scheme first and the encoding second: the result is `urlencode` applied once to the URL with its scheme, or that URL itself when not encoding |
| `BitlyApi.FixedUrlStartsWithHttp` | src/Bitly.php:87-97 | a fixed URL starts with `http`, whether encoded or not |
| `BitlyApi.FixedUrlDecodes` | src/Bitly.php:92-94 | decoding an encoded fixed URL gives back the URL with its scheme, and the encoded form holds no `&` or `#` |
| `BitlyApi.FixedUrlExample` | src/Bitly.php:87-97 | a bare host gets `http://`, a URL starting with `http` is untouched, and `:`, `/`, space and `~` encode to `%3A`, `%2F`, `+` and `%7E` |
| `BitlyApi.Bitly.RequestUrl` | src/Bitly.php:105-107 | the request URL starts with `https://{host}/{version}/{action}?access_token={token}`, followed by `&format=json&longUrl=` and then exactly the given URL; the action defaults to `shorten` |
| `BitlyApi.RequestUrlInjective` | src/Bitly.php:105-107 | two different long URLs never give the same request URL |
| `BitlyApi.RequestUrlCarriesLongUrl` | src/Bitly.php:92-94 | with encoding, the `longUrl` value in the request decodes back to the URL with its scheme and contains no `&` that could start another parameter |
| `UrlEncoding.FormDecodeUrlEncode` | src/Bitly.php:93 | `urldecode(urlencode(s)) == s` for every byte string |
| `UrlEncoding.FormDecodeEncodeByte` | src/Bitly.php:93 | decoding one encoded byte in front of any text yields that byte followed by the decoding of the text |
| `UrlEncoding.UrlEncodeInjective` | src/Bitly.php:93 | different byte strings have different encodings |
| `UrlEncoding.UrlEncodeIsFormSafe` | src/Bitly.php:93 | every byte of an encoding is a letter, a digit, `-`, `_`, `.`, `%` or `+` |
| `UrlEncoding.UrlEncodeHasNoDelimiter` | src/Bitly.php:93 | an encoding holds no `&`, `=`, `#`, `?` or space |
| `UrlEncoding.UrlEncodeSingle` | src/Bitly.php:93 | one byte encodes to itself if kept, `+` if a space, `%XX` otherwise |
| `UrlEncoding.UrlEncodeAppend` | src/Bitly.php:93 | the encoding of a concatenation is the concatenation of the encodings |
| `UrlEncoding.UrlEncodeKeptPrefix` | src/Bitly.php:93 | a prefix of only kept bytes passes through encoding unchanged |
| `UrlEncoding.UrlEncodeKeepsHttp` | src/Bitly.php:88-93 | a URL starting with `http` still starts with `http` once encoded |

## Left out

- `exec` and `getRequest` (src/Bitly.php:113-140): building the Guzzle client over the ReactPHP loop and the asynchronous GET are I/O; `Shorten` takes the server's answer as the `transport` parameter instead, and transport failures are not modelled.
- The `Deferred`/promise chaining in `shorten`: the model returns the settled outcome directly; `SettleAsWritten` records which state the source's promise ends in, pending for exceptions and for bodies without a status code.
- BitlyApi.Bitly.Shorten: its failure outcomes follow the intended behaviour; in the source, the exceptions of `handleResponse` never reach `shorten`'s promise, which stays pending (see "## Findings").
- The constructor's `$loop` and `$client` arguments: they only serve the left-out transport.
- `json_decode`: its result is an input (`Decoded`) reduced to `status_code`, `status_txt` and `data.url`; a `status_code` that decodes to a float, a boolean or a numeric string, and PHP's loose comparisons on such values, are not modelled (codes are integers, status texts strings).
- `BitlyApi.Bitly.Shorten`: `empty()` is modelled for string arguments only; PHP also treats `null`, `false`, `0` and `[]` as empty.
- `BitlyApi.ShortUrlOf`: where PHP reads `['data']['url']` from something that has no such entry (the raw body, or an envelope without `data.url`), PHP emits a warning or raises an error depending on the value and version; the model yields `None` for all of these.
- `BitlyApi.HandleResponse`: an absent `status_txt` on an error code is modelled as an error with the empty message, which is what PHP's null-to-string conversion gives; the warning PHP emits for the missing key is not modelled.

## Findings

| source | as written | input that shows it | evidently intended | confidence | as-written member | corrected member |
|---|---|---|---|---|---|---|
| src/Bitly.php:44-47 | `handleResponse` throws inside the `then` callback of exec (line 136) before `$deferred->resolve`; no Deferred is rejected and `done` at line 44 has no rejection handler, so `shorten`'s promise stays pending | URL `example.com`, server body `{"status_code":500,"status_txt":"RATE_LIMIT_EXCEEDED"}` | the promise is rejected with `BitlyRateLimitException` | high, not executed | `BitlyApi.SettleAsWrittenLosesErrors` | `BitlyApi.Bitly.Shorten` |
