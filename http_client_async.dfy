/**
 * The cooperative (async) HTTP client of the v2 SDK. Each call is a single request handed to the
 * transport together with the endpoint; the headers carry the API key whenever it is usable,
 * whatever the endpoint, merged with the caller's own headers, which win on a clash.
 */
module AsyncClient {
  import opened Wrappers
  import opened Text
  import opened Transport
  import Retry
  import Urls
  import BlockingClient

  /** A call: the request handed to the transport and what the call does with its outcome. */
  datatype Exchange = Exchange(request: Request, result: CallResult)

  datatype AsyncHttpClient = AsyncHttpClient(apiKey: Option<string>, apiUrl: string, version: string) {

    /** The client's own headers: the API key as a bearer token when usable, the idempotency key when given. */
    function Headers(idempotencyKey: Option<string>): (h: map<string, string>)
      ensures h.Keys <= {"Authorization", "x-idempotency-key"}
      ensures "Authorization" in h <==> UsableKey(apiKey)
      ensures "Authorization" in h ==> h["Authorization"] == BearerToken(apiKey.value)
      ensures "x-idempotency-key" in h <==> idempotencyKey.Some? && idempotencyKey.value != ""
      ensures "x-idempotency-key" in h ==> h["x-idempotency-key"] == idempotencyKey.value
    {
      var withAuth := if UsableKey(apiKey) then map["Authorization" := BearerToken(apiKey.value)] else map[];
      if idempotencyKey.Some? && idempotencyKey.value != "" then withAuth["x-idempotency-key" := idempotencyKey.value] else withAuth
    }

    /** The headers a call sends: the client's own, overridden and extended by the caller's. */
    function CallHeaders(headers: Option<map<string, string>>): (h: map<string, string>)
      ensures headers.Some? ==> h.Keys == Headers(None).Keys + headers.value.Keys
      ensures headers.None? ==> h == Headers(None)
      ensures forall k :: k in h ==>
        h[k] == if headers.Some? && k in headers.value then headers.value[k] else Headers(None)[k]
    {
      Headers(None) + headers.GetOr(map[])
    }

    /** `post`: one request with a copy of the caller's body stamped with `origin`; the caller's body is not changed. */
    function Post(endpoint: string, data: JsonObject, reply: Outcome,
                  headers: Option<map<string, string>> := None, timeout: Option<real> := None): (e: Exchange)
      reads data
      ensures e.request.verb == Verb.Post && e.request.url == endpoint && e.request.timeout == timeout
      ensures e.request.headers == CallHeaders(headers)
      ensures e.request.body == Some(WithOrigin(data.members, version))
      ensures e.result == Final(reply)
    {
      Exchange(Request(Verb.Post, endpoint, CallHeaders(headers), Some(WithOrigin(data.members, version)), timeout), Final(reply))
    }

    /** `get`: one request without a body. */
    function Get(endpoint: string, reply: Outcome,
                 headers: Option<map<string, string>> := None, timeout: Option<real> := None): (e: Exchange)
      ensures e.request == Request(Verb.Get, endpoint, CallHeaders(headers), None, timeout)
      ensures e.result == Final(reply)
    {
      Exchange(Request(Verb.Get, endpoint, CallHeaders(headers), None, timeout), Final(reply))
    }

    /** `delete`: one request without a body. */
    function Delete(endpoint: string, reply: Outcome,
                    headers: Option<map<string, string>> := None, timeout: Option<real> := None): (e: Exchange)
      ensures e.request == Request(Verb.Delete, endpoint, CallHeaders(headers), None, timeout)
      ensures e.result == Final(reply)
    {
      Exchange(Request(Verb.Delete, endpoint, CallHeaders(headers), None, timeout), Final(reply))
    }
  }

  /**
   * The async client makes one attempt: what it does with an outcome is what the blocking client
   * does when allowed a single attempt, so a 502 is returned and a transport fault is raised.
   */
  lemma AsyncIsBlockingWithOneAttempt(a: AsyncHttpClient, endpoint: string, headers: Option<map<string, string>>,
                                      timeout: Option<real>, replies: nat -> Outcome, backoff: real)
    ensures var t := Retry.Run(replies, 1, backoff, Verb.Get);
      a.Get(endpoint, replies(0), headers, timeout).result == t.result && t.calls == 1 && t.sleeps == []
    ensures var t := Retry.Run(replies, 1, backoff, Verb.Delete);
      a.Delete(endpoint, replies(0), headers, timeout).result == t.result && t.calls == 1 && t.sleeps == []
  {
    Retry.RunCallBudget(replies, 1, backoff, Verb.Get);
    Retry.RunCallBudget(replies, 1, backoff, Verb.Delete);
  }

  /**
   * Both clients build the same headers from the same API key, except that the blocking client
   * adds the content type and drops the credential for an endpoint on another host.
   */
  lemma HeadersAgreeExceptHostCheck(c: BlockingClient.HttpClient, a: AsyncHttpClient, endpoint: string, idempotencyKey: Option<string>)
    requires c.apiKey == a.apiKey
    ensures c.IsSameHost(endpoint) ==>
      c.PrepareHeaders(endpoint, idempotencyKey) == a.Headers(idempotencyKey)["Content-Type" := "application/json"]
    ensures !c.IsSameHost(endpoint) ==>
      c.PrepareHeaders(endpoint, idempotencyKey) == (a.Headers(idempotencyKey) - {"Authorization"})["Content-Type" := "application/json"]
  {
    var blocking := c.PrepareHeaders(endpoint, idempotencyKey);
    var own := a.Headers(idempotencyKey);
    if c.IsSameHost(endpoint) {
      assert blocking.Keys == own["Content-Type" := "application/json"].Keys;
    } else {
      assert blocking.Keys == (own - {"Authorization"})["Content-Type" := "application/json"].Keys;
    }
  }

  /**
   * The async client sends a usable API key with every request that does not override it,
   * including one for an absolute endpoint on another host, for which the blocking client with the
   * same API URL withholds it.
   */
  lemma AsyncSendsKeyToOtherHost(c: BlockingClient.HttpClient, a: AsyncHttpClient, h: string, scheme: string,
                                 other: string, path: string, timeout: Option<real>, reply: Outcome)
    requires c.apiKey == a.apiKey && UsableKey(a.apiKey)
    requires c.ApiHostIs(h)
    requires scheme == "http" || scheme == "https"
    requires BlockingClient.IsLowerDnsName(other) && other[|other| - 1] != '.' && other != h
    requires Avoids(path, Urls.Unsafe + {'?', '#'}) && (path == "" || path[0] == '/')
    ensures var endpoint := scheme + "://" + other + "" + path;
      && a.Get(endpoint, reply, None, timeout).request.headers["Authorization"] == BearerToken(a.apiKey.value)
      && "Authorization" !in c.PrepareHeaders(endpoint, None)
  {
    c.SameHostRejectsOtherHost(h, scheme, other, "", path);
  }
}
