# Firecrawl v2 SDK HTTP layer, in Dafny

This project models the HTTP layer of the Firecrawl Python SDK (v2). That layer has two clients.

The blocking `HttpClient` resolves an endpoint string against the configured API URL. If the
endpoint names a host of its own, the request still goes to the API's scheme and host. The client
attaches the API key as a bearer token only when the endpoint is on the API's host, and it adds the
idempotency key whenever one is given. For `post`, it stamps `origin = "python-sdk@<version>"` into
the caller's body. It retries HTTP 502 responses and `requests.RequestException`s with exponential
backoff (`backoff * 2^attempt` seconds).

The async `AsyncHttpClient` makes a single attempt. It hands the endpoint to its transport as
given. It sends the API key whenever the key is usable, with no host check, and merges the caller's
headers over its own. For `post`, it stamps `origin` into a copy of the body.

The project has these modules:

- `Text` (`text.dfy`): Python string operations. The client calls `startswith`, `endswith`,
  `strip`, `rstrip` and ASCII `lower`. The `urllib.parse` model is written with `find`, `rfind`, `split`
  and `partition`.
- `Urls` (`urls.dfy`): `urlparse`, `urlunparse` and `urljoin` of CPython's `urllib.parse`, and the
  `hostname` attribute of a parse result. `None` stands for the `ValueError` the parser raises on an
  authority with unbalanced or misplaced brackets.
- `Transport` (`transport.dfy`): requests, responses and faults, and the JSON body. The body is a
  `JsonObject` class, because `post` updates the caller's dict in place. This module also holds the
  request-shaping pieces both clients share: the `origin` stamp, the usable-key test and the bearer
  token.
- `Retry` (`retry.dfy`): the retry policy as a specification function `Run`. The transport is a
  parameter `replies: nat -> Outcome`: attempt `k` meets `replies(k)`.
- `BlockingClient` (`http_client.dfy`): the class `HttpClient`. Its `Dispatch` method holds the
  attempt loop and is proved against `Retry.Run`. `Post`, `Get` and `Delete` are its callers.
- `AsyncClient` (`http_client_async.dfy`): `AsyncHttpClient` as a value with one function per call.
  It also proves lemmas comparing the two clients.

The central result is `BlockingClient.HttpClient.BuildUrlStaysOnApiHost`. Take an API URL whose
scheme `urljoin` resolves against (such as `https`). Then every URL the blocking client builds
parses back to the API's own authority or to none. An endpoint that names an authority, or starts
with `//`, always goes to the API's scheme and authority. The proof rests on two lemmas:

- `Urls.ParseUnparse` (printing components and parsing them again gives back the scheme,
  authority, query and fragment);
- `Urls.JoinKeepsBaseAuthority` (`urljoin` of a reference without an authority keeps the base's
  authority).

The transport, the clock and the SDK version are parameters:

- The transport's outcomes are the `replies` function, or the `reply` argument for the async
  client.
- Sleeping is recorded as the list of durations asked for.
- `get_version()` becomes the `version` argument of the constructor.

Some behaviour of the code is easy to miss, and the model keeps it:

- Trailing dots on a host name. `rstrip(".")` drops every trailing dot, not just one
  (`http_client.py:66-67`).
- Which faults are retried. Only `requests.RequestException` is retried; any other exception
  propagates at once (`http_client.py:123`).
- Async URL and header rules. The async client hands the endpoint to httpx unchanged and attaches
  the key with no host check (`http_client_async.py:22-31`). `AsyncClient.AsyncSendsKeyToOtherHost`
  states the difference from the blocking client.
- Explicit headers. The blocking client uses the caller's headers instead of the built ones
  (`http_client.py:98-99`). The async client merges them over its own headers
  (`http_client_async.py:45`).
- Default arguments. `post`, `get` and `delete` default to `headers=None`, `timeout=None`,
  `retries=3` and `backoff_factor=0.5` (`http_client.py:92-95`, `135-138`, `175-178`). The methods
  of the model have the same defaults, and `Retry.DefaultPolicy` states what they give.

The script `test_security_fix.py` calls `_headers(endpoint)`, which makes the endpoint the
idempotency key. Its expectations at lines 42-58 and 82-88 do not match the code. Line 82 also
passes `idempotency_key` twice, which Python rejects with a `TypeError`.

## Model

| member | source | states |
|---|---|---|
| Text.Lower | apps/python-sdk/firecrawl/v2/utils/http_client.py:66-67 | case folding keeps the length and maps each character through `LowerChar`: an ASCII capital becomes the letter 32 code points above it, and every other character is kept |
| Text.RStripChar | apps/python-sdk/firecrawl/v2/utils/http_client.py:66-67 | `rstrip('.')` returns a prefix of the input that does not end in `.`, and everything it removed was a `.` |
| Text.Strip | apps/python-sdk/firecrawl/v2/utils/http_client.py:80-81 | `strip()` returns text whose first and last characters are not whitespace, and it is empty exactly when the input is all whitespace |
| Text.StripCutsWhitespace | apps/python-sdk/firecrawl/v2/utils/http_client.py:80-81 | `strip()` returns a contiguous slice of its input, and everything it cut off at either end is whitespace |
| Text.RStripCharSuffix | apps/python-sdk/firecrawl/v2/utils/http_client.py:66 | any run of trailing dots after a host name that does not end in a dot is removed, and nothing more |
| Text.RStripCharLower | apps/python-sdk/firecrawl/v2/utils/http_client.py:66-67 | stripping dots and folding case commute |
| Urls.Parse | apps/python-sdk/firecrawl/v2/utils/http_client.py:21-22 | `urlparse`: scheme, authority, path, params, query and fragment, or `None` for the `ValueError` it raises; its properties are stated by `ParseWellFormed`, `ParseDefaultScheme`, `ParseUnparse` and `ParseWithSchemePrefix` |
| Urls.Unparse | apps/python-sdk/firecrawl/v2/utils/http_client.py:29 | `urlunparse`: the components put back together; stated by `ParseUnparse` |
| Urls.Join | apps/python-sdk/firecrawl/v2/utils/http_client.py:40 | `urljoin`; stated by `JoinKeepsBaseAuthority` |
| Urls.Hostname | apps/python-sdk/firecrawl/v2/utils/http_client.py:66-67 | the `hostname` attribute; stated by `BlockingClient.HostnameOfHostPort` |
| Urls.Sanitize | apps/python-sdk/firecrawl/v2/utils/http_client.py:21-22 | the cleaned URL contains no tab, CR or LF |
| Urls.ParseWellFormed | apps/python-sdk/firecrawl/v2/utils/http_client.py:21-22 | every parse result has an authority free of `/?#`, a path and params free of `?#`, a query free of `#`, and a lower-case scheme or the default |
| Urls.ParseUnparse | apps/python-sdk/firecrawl/v2/utils/http_client.py:29 | `urlunparse` followed by `urlparse` gives back the scheme, authority, query and fragment of well-formed components |
| Urls.ParseDefaultScheme | apps/python-sdk/firecrawl/v2/utils/http_client.py:22 | whether a URL parses, and the authority it finds, do not depend on the default scheme |
| Urls.ResolveWellFormed | apps/python-sdk/firecrawl/v2/utils/http_client.py:40 | resolving a reference without an authority gives well-formed components with the base's authority and the reference's scheme |
| Urls.MergePathAvoids | apps/python-sdk/firecrawl/v2/utils/http_client.py:40 | merging and dot-removal introduce no character other than `/` |
| Urls.JoinKeepsBaseAuthority | apps/python-sdk/firecrawl/v2/utils/http_client.py:40 | `urljoin` of a reference without an authority parses to the base's authority or none, and to the base's scheme and authority when the reference has no other scheme |
| Urls.JoinDefined | apps/python-sdk/firecrawl/v2/utils/http_client.py:40 | `urljoin` of a base and a reference that both parse does not raise |
| Urls.ParseAppendSlash | apps/python-sdk/firecrawl/v2/utils/http_client.py:34 | appending `/` to the API URL keeps it parseable with the same scheme and authority |
| Urls.ParseWithSchemePrefix | apps/python-sdk/firecrawl/v2/utils/http_client.py:36-38 | for a URL starting with `//`, prefixing a scheme that has params (such as `https:`) changes only the scheme of the parse: both parse or neither, with the same authority, path, params, query and fragment |
| Urls.ParsePathRooted | apps/python-sdk/firecrawl/v2/utils/http_client.py:27 | the path of a URL that has an authority, or starts with `//`, is empty or starts with `/` |
| Transport.Final | apps/python-sdk/firecrawl/v2/utils/http_client.py:121-126 | a response is returned and a fault raised, unchanged |
| Transport.WithOrigin | apps/python-sdk/firecrawl/v2/utils/http_client.py:101 | the body gains `origin = "python-sdk@<version>"`, overwriting any `origin` the caller gave, and keeps every other member |
| Transport.UsableKey | apps/python-sdk/firecrawl/v2/utils/http_client.py:80 | `self.api_key and self.api_key.strip()`: a key that is present, not empty and not blank; stated by `UsableKeyIff` |
| Transport.UsableKeyIff | apps/python-sdk/firecrawl/v2/utils/http_client_async.py:26 | a key is usable exactly when it is present and has a character that is not whitespace |
| Transport.BearerToken | apps/python-sdk/firecrawl/v2/utils/http_client.py:81 | the header value is `Bearer ` followed by the stripped key, which is non-empty exactly for a usable key and neither starts nor ends with whitespace |
| Retry.RunFromShape | apps/python-sdk/firecrawl/v2/utils/http_client.py:107-127 | from attempt `a` the call makes between `a+1` and `retries` calls; every earlier outcome was retryable; the final outcome is passed on; the sleeps are `backoff * 2^k` |
| Retry.RunCallBudget | apps/python-sdk/firecrawl/v2/utils/http_client.py:107-130 | with `retries <= 0` no call is made and the generic "Unexpected error in <VERB> request" is raised; otherwise 1 to `retries` calls, with fewer sleeps than calls |
| Retry.RunEndsOnDecisiveOutcome | apps/python-sdk/firecrawl/v2/utils/http_client.py:116-127 | the call ends on the first non-retryable outcome or on the last attempt, and passes that outcome on: a final 502 is returned, a final `RequestException` raised |
| Retry.RunBackoffSchedule | apps/python-sdk/firecrawl/v2/utils/http_client.py:116-127 | one sleep before each retry, `backoff * 2^k` after attempt `k`, with no jitter and no cap |
| Retry.RunFromStopsAt | apps/python-sdk/firecrawl/v2/utils/http_client.py:116-127 | conversely, retryable outcomes up to attempt `n` and a decisive one at `n` end the call at `n` |
| Retry.RunStopsAtFirstDecisiveOutcome | apps/python-sdk/firecrawl/v2/utils/http_client.py:121-123 | a non-502 response or a fault that is not a `RequestException` ends the call at once with that outcome |
| Retry.RunNegativeBackoff | apps/python-sdk/firecrawl/v2/utils/http_client.py:116-127 | a negative backoff makes the first retry's `time.sleep` raise after one call |
| Retry.ScenarioTwoGatewayErrorsThenSuccess | apps/python-sdk/firecrawl/v2/utils/http_client.py:107-121 | 502, 502, 200 with three attempts returns the 200 after three calls and sleeps `backoff`, `2*backoff` |
| Retry.ScenarioGatewayErrorExhausted | apps/python-sdk/firecrawl/v2/utils/http_client.py:116-121 | 502 on every attempt with two attempts returns the last 502 after two calls |
| Retry.ScenarioTransportFaultExhausted | apps/python-sdk/firecrawl/v2/utils/http_client.py:163-167 | a transport fault on every attempt with two attempts is raised after two calls and one sleep of `backoff` |
| Retry.Run | apps/python-sdk/firecrawl/v2/utils/http_client.py:105-130 | the retry loop of `post`, `get` and `delete` as a function of the transport's outcomes; stated by the `Run...` lemmas above |
| Retry.RunFrom | apps/python-sdk/firecrawl/v2/utils/http_client.py:107-127 | the attempts from a given one onward; stated by `RunFromShape` and `RunFromStopsAt` |
| Retry.IsRetryable | apps/python-sdk/firecrawl/v2/utils/http_client.py:116-127 | the outcomes retried while attempts remain: a 502 response or a `RequestException`; stated by `RunStopsAtFirstDecisiveOutcome` and `RunEndsOnDecisiveOutcome` |
| Retry.DefaultPolicy | apps/python-sdk/firecrawl/v2/utils/http_client.py:94-95 | with the default `retries=3` and `backoff_factor=0.5`, a call makes 1 to 3 attempts and sleeps 0.5 then 1.0 seconds between them |
| BlockingClient.HostKey | apps/python-sdk/firecrawl/v2/utils/http_client.py:66-67 | the compared host name is the host with its trailing dots cut off (everything cut was a `.`, and the result does not end in one) and each remaining character lower-cased |
| BlockingClient.HttpClient.constructor | apps/python-sdk/firecrawl/v2/utils/http_client.py:16-18 | the client keeps the API key and API URL it is given |
| BlockingClient.HttpClient.JoinBase | apps/python-sdk/firecrawl/v2/utils/http_client.py:34 | the join base is the API URL with one `/` appended unless it already ends in `/` |
| BlockingClient.HttpClient.BuildUrl | apps/python-sdk/firecrawl/v2/utils/http_client.py:20-40 | a URL is built exactly when the API URL and the endpoint both parse: `urljoin` and the `https:` re-parse raise nothing more |
| BlockingClient.HttpClient.IsSameHost | apps/python-sdk/firecrawl/v2/utils/http_client.py:42-71 | an endpoint without an `http://` or `https://` prefix is on the API's host; an `http(s)` endpoint is not when either URL fails to parse |
| BlockingClient.HttpClient.PrepareHeaders | apps/python-sdk/firecrawl/v2/utils/http_client.py:73-86 | JSON content type always; `Authorization` iff the key is usable and the endpoint is on the API's host, carrying the stripped key; `x-idempotency-key` iff a non-empty key is given, whatever the host |
| BlockingClient.HttpClient.CallHeaders | apps/python-sdk/firecrawl/v2/utils/http_client.py:98-99 | the caller's headers are used as given; without them the built headers, with the JSON content type, `Authorization` iff the key is usable and the endpoint is on the API's host, and no idempotency key |
| BlockingClient.HttpClient.Dispatch | apps/python-sdk/firecrawl/v2/utils/http_client.py:105-130 | the attempt loop's result, the requests it sends and the sleeps it asks for are exactly those of `Retry.Run` |
| BlockingClient.HttpClient.Post | apps/python-sdk/firecrawl/v2/utils/http_client.py:88-130 | the caller's body is stamped with `origin` even when the URL fails to build; then it fails with `ValueError`, or sends the stamped body to the built URL under the retry policy; `headers`, `timeout`, `retries` and `backoff` default to `None`, `None`, 3 and 0.5 |
| BlockingClient.HttpClient.Get | apps/python-sdk/firecrawl/v2/utils/http_client.py:132-170 | `ValueError` for an unparseable URL; otherwise the built URL and headers, no body, under the retry policy; same defaults as `Post` |
| BlockingClient.HttpClient.Delete | apps/python-sdk/firecrawl/v2/utils/http_client.py:172-210 | as `Get`, with the DELETE method |
| BlockingClient.HttpClient.BuildUrlStaysOnApiHost | apps/python-sdk/firecrawl/v2/utils/http_client.py:20-40 | every built URL names the API's authority or none; endpoints with an authority or a leading `//` go to the API's scheme and authority with their own query (for `//` the query of `urlparse("https:" + endpoint)`); relative endpoints without another scheme go to the API's authority |
| BlockingClient.HttpClient.BuildUrlIgnoresEndpointAuthority | apps/python-sdk/firecrawl/v2/utils/http_client.py:25-31 | the host an endpoint names never changes the URL: both branches build the same URL from the path and query alone |
| BlockingClient.HttpClient.BuildUrlForcedText | apps/python-sdk/firecrawl/v2/utils/http_client.py:24-39 | for an API URL with an authority and an endpoint with one, or starting with `//`, the built URL is `<scheme or https>://<API authority><endpoint path or />` followed by `?<query>` when the query is not empty |
| BlockingClient.HttpClient.UnparseableEndpointGetsNoKey | apps/python-sdk/firecrawl/v2/utils/http_client.py:64-71 | an `http(s)` endpoint gets no `Authorization` header when it or the API URL fails to parse |
| BlockingClient.ForcedUrlOnBase | apps/python-sdk/firecrawl/v2/utils/http_client.py:27-39 | the forced URL parses back to the API's scheme (`https` when the API URL has none), the API's authority, the endpoint's query and no fragment |
| BlockingClient.ForcedUrlText | apps/python-sdk/firecrawl/v2/utils/http_client.py:27-39 | the text of the forced URL: scheme or `https`, `://`, the API's authority, the path or `/`, and the query when there is one |
| BlockingClient.ForcedUrl | apps/python-sdk/firecrawl/v2/utils/http_client.py:29-39 | the URL both forced branches print; stated by `ForcedUrlText` and `ForcedUrlOnBase` |
| BlockingClient.HttpClient.SameHostByHostName | apps/python-sdk/firecrawl/v2/utils/http_client.py:42-71 | for a plain host name, same host iff the host keys agree, whatever the port |
| BlockingClient.HostnameOfHostPort | apps/python-sdk/firecrawl/v2/utils/http_client.py:65-66 | the `hostname` of `host:port` is the lower-cased host |
| BlockingClient.HttpClient.ApiHostKey | apps/python-sdk/firecrawl/v2/utils/http_client.py:67 | an API URL `scheme://host[:port][/path]` parses and its host key is that of `host` |
| BlockingClient.HttpClient.SameHostIgnoresPortAndTrailingDots | apps/python-sdk/firecrawl/v2/utils/test_http_client.py:31-35 | the API's host with any port and any number of trailing dots is the same host |
| BlockingClient.HttpClient.SameHostRejectsExtendedHost | apps/python-sdk/firecrawl/v2/utils/test_http_client.py:37-40 | the API's host extended by further labels (`api.firecrawl.dev.evil.com`) is another host: no suffix or prefix matching |
| BlockingClient.HttpClient.SameHostRejectsOtherHost | apps/python-sdk/firecrawl/v2/utils/test_http_client.py:37-41 | any other lower-case DNS name is another host, whatever the port (the general comparison is `SameHostByHostName`) |
| BlockingClient.HttpClient.SameHostIgnoresCase | apps/python-sdk/firecrawl/v2/utils/http_client.py:66-67 | the API's host written with any mix of upper- and lower-case letters, with any port, is the same host |
| AsyncClient.AsyncHttpClient.Headers | apps/python-sdk/firecrawl/v2/utils/http_client_async.py:22-31 | `Authorization` iff the key is usable, with no host check; `x-idempotency-key` iff a non-empty key is given |
| AsyncClient.AsyncHttpClient.CallHeaders | apps/python-sdk/firecrawl/v2/utils/http_client_async.py:42-67 | the client's headers merged with the caller's, with the caller's value winning on every shared key |
| AsyncClient.AsyncHttpClient.Post | apps/python-sdk/firecrawl/v2/utils/http_client_async.py:33-47 | one POST of a stamped copy of the body (the caller's body is only read) to the endpoint as given; the outcome is passed on |
| AsyncClient.AsyncHttpClient.Get | apps/python-sdk/firecrawl/v2/utils/http_client_async.py:49-57 | one GET with the merged headers; the outcome is passed on |
| AsyncClient.AsyncHttpClient.Delete | apps/python-sdk/firecrawl/v2/utils/http_client_async.py:59-67 | one DELETE with the merged headers; the outcome is passed on |
| AsyncClient.AsyncIsBlockingWithOneAttempt | apps/python-sdk/firecrawl/v2/utils/http_client_async.py:49-67 | the async client treats an outcome as the blocking client does with one attempt: a 502 is returned, a fault raised, no sleep |
| AsyncClient.HeadersAgreeExceptHostCheck | apps/python-sdk/firecrawl/v2/utils/http_client_async.py:22-31 | from the same key, the blocking headers are the async headers plus the content type, without `Authorization` for an endpoint on another host |
| AsyncClient.AsyncSendsKeyToOtherHost | apps/python-sdk/firecrawl/v2/utils/http_client_async.py:26-27 | for an absolute endpoint on another host, the async client sends the bearer token while the blocking client with the same API URL withholds it |

## Left out

- Network I/O, the `requests` and `httpx` libraries, and JSON encoding of the body are left out. The transport is the `replies` function (or `reply`). A request records the body as a JSON map.
- `time.sleep` is only recorded as the durations asked for. Its `ValueError` on a negative duration is the `NegativeSleep` fault.
- The async client's `httpx.AsyncClient` is left out. That means the merge of the endpoint with `base_url`, the default `Content-Type` header it adds, its connection limits, and `close()`. The async request records the endpoint and the per-call headers as the client passes them. `close()` only releases the connection pool.
- `async`/`await` scheduling is left out: each async call is one step.
- `get_version()` is left out; the version is a constructor argument.
- Floating-point arithmetic is modelled with exact reals. `backoff * 2**attempt` never overflows or rounds here, and `timeout` is carried unchanged.
- The transport's exceptions are reduced to two: a `requests.RequestException` (`RequestError`) and any other exception (`OtherError`). The model also keeps the `ValueError` from `urlparse` (`InvalidUrl`), the `ValueError` from `time.sleep` (`NegativeSleep`) and the generic `Exception` raised when no attempt is allowed (`Unexpected`).
- Urls.Parse: does not reject what `urlsplit` rejects through `ipaddress` validation of a bracketed host, or through its NFKC check on non-ASCII authorities. Bracket balance and placement are checked. URLs given as bytes are left out.
- Text.Lower: folds ASCII letters only. Python's `str.lower()` also folds non-ASCII letters, so the host comparison is modelled for ASCII host names.
- Argument types other than `str` and `None` (such as a non-string API key) are left out.
- The parser follows CPython 3.13. Earlier versions of `urlunsplit` print a path that starts with `//` differently.
