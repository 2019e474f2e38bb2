/**
 * The blocking HTTP client of the v2 SDK: it resolves an endpoint against the configured API URL,
 * attaches the API key only for endpoints on the API's own host, and retries gateway errors and
 * transport faults with exponential backoff.
 */
module BlockingClient {
  import opened Wrappers
  import opened Text
  import opened Urls
  import opened Transport
  import opened Retry

  /** A host name as the client compares it: trailing dots dropped, lower-cased. */
  function HostKey(host: string): (k: string)
    ensures |k| <= |host| && forall i :: 0 <= i < |k| ==> !IsAsciiUpper(k[i])
    ensures k == [] || k[|k| - 1] != '.'
    ensures forall i :: 0 <= i < |k| ==> k[i] == LowerChar(host[i])
    ensures forall i :: |k| <= i < |host| ==> host[i] == '.'
  {
    Lower(RStripChar(host, '.'))
  }

  /** The URL every request is sent to when the endpoint names an authority: the API's scheme and host, the endpoint's path and query. */
  function ForcedUrl(base: Url, ep: Url): string {
    Unparse(ForcedParts(base, ep))
  }

  /** The components of the forced URL: params and fragment are dropped, an empty path becomes `/`. */
  function ForcedParts(base: Url, ep: Url): Url {
    Url(if base.scheme != "" then base.scheme else "https", base.netloc,
        if ep.path != "" then ep.path else "/", "", ep.query, "")
  }

  class HttpClient {
    const apiKey: Option<string>
    const apiUrl: string
    /** The SDK version reported in the `origin` field of every POST body. */
    const version: string

    constructor (apiKey: Option<string>, apiUrl: string, version: string)
      ensures this.apiKey == apiKey && this.apiUrl == apiUrl && this.version == version
    {
      this.apiKey := apiKey;
      this.apiUrl := apiUrl;
      this.version := version;
    }

    /** The API URL with a `/` appended unless it already ends in one. */
    function JoinBase(): (r: string)
      ensures EndsWith(r, "/")
      ensures EndsWith(apiUrl, "/") ==> r == apiUrl
      ensures !EndsWith(apiUrl, "/") ==> r == apiUrl + "/"
    {
      if EndsWith(apiUrl, "/") then apiUrl else apiUrl + "/"
    }

    /**
     * The URL a request for `endpoint` goes to: an endpoint naming an authority (or starting with
     * `//`) keeps only its path and query and is sent to the API's scheme and host; any other
     * endpoint is resolved relative to the API URL. `None` when a URL does not parse.
     */
    function BuildUrl(endpoint: string): (r: Option<string>)
      ensures r.Some? <==> Parse(apiUrl, "").Some? && Parse(endpoint, "").Some?
    {
      match Parse(apiUrl, "")
      case None => None
      case Some(base) =>
        match Parse(endpoint, "")
        case None => None
        case Some(ep) =>
          if ep.netloc != "" then Some(ForcedUrl(base, ep))
          else if StartsWith(endpoint, "//") then
            HttpsPrefixParse(endpoint);
            match Parse("https:" + endpoint, "")
            case None => None
            case Some(ep2) => Some(ForcedUrl(base, ep2))
          else
            JoinBaseParses();
            JoinDefined(JoinBase(), endpoint);
            Join(JoinBase(), endpoint)
    }

    /** The join base parses whenever the API URL does. */
    lemma JoinBaseParses()
      requires Parse(apiUrl, "").Some?
      ensures Parse(JoinBase(), "").Some?
    {
      if !EndsWith(apiUrl, "/") {
        ParseAppendSlash(apiUrl);
      }
    }

    /** The API URL has a scheme the resolver works relative to, such as `https`. */
    predicate BaseUsable() {
      && Parse(apiUrl, "").Some?
      && ValidScheme(Parse(apiUrl, "").value.scheme)
      && Parse(apiUrl, "").value.scheme in UsesRelative
    }

    /**
     * Whether `endpoint` is on the API's host: an endpoint not starting with `http://` or
     * `https://` is relative and always is; otherwise the host names are compared, ignoring
     * ports, case and trailing dots. A URL that does not parse is on another host.
     */
    predicate IsSameHost(endpoint: string): (b: bool)
      ensures !StartsWith(endpoint, "http://") && !StartsWith(endpoint, "https://") ==> b
      ensures ((StartsWith(endpoint, "http://") || StartsWith(endpoint, "https://"))
               && (Parse(endpoint, "").None? || Parse(apiUrl, "").None?)) ==> !b
    {
      if !StartsWith(endpoint, "http://") && !StartsWith(endpoint, "https://") then true
      else
        var target, base := Parse(endpoint, ""), Parse(apiUrl, "");
        && target.Some? && base.Some?
        && HostKey(Hostname(target.value.netloc).GetOr("")) == HostKey(Hostname(base.value.netloc).GetOr(""))
    }

    /**
     * The headers of a request for `endpoint`: JSON content type, the API key as a bearer token
     * only for an endpoint on the API's host, and the idempotency key when one is given.
     */
    function PrepareHeaders(endpoint: string, idempotencyKey: Option<string>): (h: map<string, string>)
      ensures h.Keys <= {"Content-Type", "Authorization", "x-idempotency-key"}
      ensures "Content-Type" in h && h["Content-Type"] == "application/json"
      ensures "Authorization" in h <==> UsableKey(apiKey) && IsSameHost(endpoint)
      ensures "Authorization" in h ==> h["Authorization"] == BearerToken(apiKey.value)
      ensures "x-idempotency-key" in h <==> idempotencyKey.Some? && idempotencyKey.value != ""
      ensures "x-idempotency-key" in h ==> h["x-idempotency-key"] == idempotencyKey.value
    {
      var plain := map["Content-Type" := "application/json"];
      var withAuth := if UsableKey(apiKey) && IsSameHost(endpoint) then plain["Authorization" := BearerToken(apiKey.value)] else plain;
      if idempotencyKey.Some? && idempotencyKey.value != "" then withAuth["x-idempotency-key" := idempotencyKey.value] else withAuth
    }

    /** The headers a call sends: the caller's own mapping when it gives one, the prepared ones otherwise. */
    function CallHeaders(endpoint: string, headers: Option<map<string, string>>): (h: map<string, string>)
      ensures headers.Some? ==> h == headers.value
      ensures headers.None? ==> && "Content-Type" in h && "x-idempotency-key" !in h
                                && ("Authorization" in h <==> UsableKey(apiKey) && IsSameHost(endpoint))
    {
      if headers.Some? then headers.value else PrepareHeaders(endpoint, None)
    }

    /**
     * The attempt loop: `request` is sent up to `retries` times; attempt `k` meets `replies(k)`.
     * A 502 with attempts remaining, or a `RequestException` before the last attempt, is followed
     * by a sleep of `backoff * 2^k` seconds and another attempt.
     */
    method Dispatch(request: Request, replies: nat -> Outcome, retries: int, backoff: real)
      returns (r: CallResult, sent: seq<Request>, slept: seq<real>)
      ensures var t := Run(replies, retries, backoff, request.verb);
        && r == t.result && slept == t.sleeps
        && |sent| == t.calls && forall i :: 0 <= i < |sent| ==> sent[i] == request
    {
      sent, slept := [], [];
      var lastException: Option<Fault> := None;
      var attempt: nat := 0;
      while attempt < retries
        invariant retries > 0 ==> attempt < retries
        invariant retries <= 0 ==> attempt == 0 && slept == [] && lastException == None
        invariant |sent| == attempt && forall i :: 0 <= i < |sent| ==> sent[i] == request
        invariant retries > 0 ==> RunsOnFrom(replies, retries, backoff, request.verb, attempt, slept)
        decreases retries - attempt
      {
        var outcome := replies(attempt);
        sent := sent + [request];
        if outcome.Replied? {
          if outcome.response.status == 502 && attempt < retries - 1 {
            var pause := Backoff(backoff, attempt);
            if pause < 0.0 {
              RunsOnFromNegative(replies, retries, backoff, request.verb, attempt, slept);
              r := Raised(NegativeSleep);
              return;
            }
            RunsOnFromNext(replies, retries, backoff, request.verb, attempt, slept);
            slept := slept + [pause];
            attempt := attempt + 1;
            continue;
          }
          RunsOnFromFinal(replies, retries, backoff, request.verb, attempt, slept);
          r := Returned(outcome.response);
          return;
        }
        if !outcome.fault.RequestError? || attempt == retries - 1 {
          RunsOnFromFinal(replies, retries, backoff, request.verb, attempt, slept);
          r := Raised(outcome.fault);
          return;
        }
        lastException := Some(outcome.fault);
        var pause := Backoff(backoff, attempt);
        if pause < 0.0 {
          RunsOnFromNegative(replies, retries, backoff, request.verb, attempt, slept);
          r := Raised(NegativeSleep);
          return;
        }
        RunsOnFromNext(replies, retries, backoff, request.verb, attempt, slept);
        slept := slept + [pause];
        attempt := attempt + 1;
      }
      r := Raised(lastException.GetOr(Unexpected("Unexpected error in " + request.verb.Name() + " request")));
    }

    /**
     * `post`: writes the SDK's `origin` into the caller's body (before the URL is built, so also
     * when that fails), then sends the body with the retry policy.
     */
    method Post(endpoint: string, data: JsonObject, replies: nat -> Outcome,
                headers: Option<map<string, string>> := None, timeout: Option<real> := None,
                retries: int := DefaultRetries, backoff: real := DefaultBackoff)
      returns (r: CallResult, sent: seq<Request>, slept: seq<real>)
      modifies data
      ensures data.members == WithOrigin(old(data.members), version)
      ensures BuildUrl(endpoint).None? ==> r == Raised(InvalidUrl) && sent == [] && slept == []
      ensures BuildUrl(endpoint).Some? ==>
        var t := Run(replies, retries, backoff, Verb.Post);
        && r == t.result && slept == t.sleeps
        && |sent| == t.calls
        && forall i :: 0 <= i < |sent| ==>
             sent[i] == Request(Verb.Post, BuildUrl(endpoint).value, CallHeaders(endpoint, headers), Some(data.members), timeout)
    {
      var h := CallHeaders(endpoint, headers);
      data.members := WithOrigin(data.members, version);
      var url := BuildUrl(endpoint);
      if url.None? {
        r, sent, slept := Raised(InvalidUrl), [], [];
        return;
      }
      r, sent, slept := Dispatch(Request(Verb.Post, url.value, h, Some(data.members), timeout), replies, retries, backoff);
    }

    /** `get`: no body, the same retry policy. */
    method Get(endpoint: string, replies: nat -> Outcome,
               headers: Option<map<string, string>> := None, timeout: Option<real> := None,
               retries: int := DefaultRetries, backoff: real := DefaultBackoff)
      returns (r: CallResult, sent: seq<Request>, slept: seq<real>)
      ensures BuildUrl(endpoint).None? ==> r == Raised(InvalidUrl) && sent == [] && slept == []
      ensures BuildUrl(endpoint).Some? ==>
        var t := Run(replies, retries, backoff, Verb.Get);
        && r == t.result && slept == t.sleeps
        && |sent| == t.calls
        && forall i :: 0 <= i < |sent| ==> sent[i] == Request(Verb.Get, BuildUrl(endpoint).value, CallHeaders(endpoint, headers), None, timeout)
    {
      var h := CallHeaders(endpoint, headers);
      var url := BuildUrl(endpoint);
      if url.None? {
        r, sent, slept := Raised(InvalidUrl), [], [];
        return;
      }
      r, sent, slept := Dispatch(Request(Verb.Get, url.value, h, None, timeout), replies, retries, backoff);
    }

    /** `delete`: no body, the same retry policy. */
    method Delete(endpoint: string, replies: nat -> Outcome,
                  headers: Option<map<string, string>> := None, timeout: Option<real> := None,
                  retries: int := DefaultRetries, backoff: real := DefaultBackoff)
      returns (r: CallResult, sent: seq<Request>, slept: seq<real>)
      ensures BuildUrl(endpoint).None? ==> r == Raised(InvalidUrl) && sent == [] && slept == []
      ensures BuildUrl(endpoint).Some? ==>
        var t := Run(replies, retries, backoff, Verb.Delete);
        && r == t.result && slept == t.sleeps
        && |sent| == t.calls
        && forall i :: 0 <= i < |sent| ==> sent[i] == Request(Verb.Delete, BuildUrl(endpoint).value, CallHeaders(endpoint, headers), None, timeout)
    {
      var h := CallHeaders(endpoint, headers);
      var url := BuildUrl(endpoint);
      if url.None? {
        r, sent, slept := Raised(InvalidUrl), [], [];
        return;
      }
      r, sent, slept := Dispatch(Request(Verb.Delete, url.value, h, None, timeout), replies, retries, backoff);
    }

    /**
     * Where a request goes: for an API URL with a usable scheme, every URL the client builds names
     * the API's own authority or none at all. An endpoint that names an authority, or starts with
     * `//`, is sent to the API's scheme and authority with its own query; a relative endpoint with
     * no scheme of its own, or with the API's scheme, is sent to the API's authority too.
     */
    lemma BuildUrlStaysOnApiHost(endpoint: string)
      requires BaseUsable() && BuildUrl(endpoint).Some?
      ensures Parse(BuildUrl(endpoint).value, "").Some?
      ensures var base, sent := Parse(apiUrl, "").value, Parse(BuildUrl(endpoint).value, "").value;
        && (sent.netloc == base.netloc || sent.netloc == "")
        && (Parse(endpoint, "").value.netloc != "" || StartsWith(endpoint, "//") ==>
              sent.scheme == base.scheme && sent.netloc == base.netloc && sent.fragment == "")
        && (Parse(endpoint, "").value.netloc != "" || StartsWith(endpoint, "//") ==> sent.query == Parse(endpoint, "").value.query)
        && (Parse(endpoint, "").value.scheme in {"", base.scheme} ==> sent.scheme == base.scheme && sent.netloc == base.netloc)
    {
      var base := Parse(apiUrl, "").value;
      ParseWellFormed(apiUrl, "");
      var ep := Parse(endpoint, "").value;
      ParseWellFormed(endpoint, "");
      if ep.netloc != "" {
        ForcedUrlOnBase(base, ep);
      } else if StartsWith(endpoint, "//") {
        var ep2 := Parse("https:" + endpoint, "").value;
        ParseWellFormed("https:" + endpoint, "");
        ForcedUrlOnBase(base, ep2);
        HttpsPrefixParse(endpoint);
      } else {
        ParseAppendSlash(apiUrl);
        assert Parse(JoinBase(), "").value.scheme == base.scheme;
        assert Parse(JoinBase(), "").value.netloc == base.netloc;
        JoinKeepsBaseAuthority(JoinBase(), endpoint);
      }
    }

    /**
     * An endpoint's own authority never matters: two endpoints that name authorities and share
     * their path and query are sent to the same URL, whichever hosts they name.
     */
    lemma BuildUrlIgnoresEndpointAuthority(e1: string, e2: string)
      requires Parse(e1, "").Some? && Parse(e2, "").Some?
      requires Parse(e1, "").value.netloc != "" && Parse(e2, "").value.netloc != ""
      requires Parse(e1, "").value.path == Parse(e2, "").value.path
      requires Parse(e1, "").value.query == Parse(e2, "").value.query
      ensures BuildUrl(e1) == BuildUrl(e2)
    {
    }

    /**
     * The text sent for an endpoint that names an authority or starts with `//`, when the API URL
     * has an authority: the API's scheme (`https` when it has none) and authority, the endpoint's
     * path (`/` when it has none) and the endpoint's query; its params and fragment are dropped.
     */
    lemma BuildUrlForcedText(endpoint: string)
      requires Parse(apiUrl, "").Some? && Parse(apiUrl, "").value.netloc != ""
      requires Parse(endpoint, "").Some?
      requires Parse(endpoint, "").value.netloc != "" || StartsWith(endpoint, "//")
      ensures var base, ep := Parse(apiUrl, "").value, Parse(endpoint, "").value;
        BuildUrl(endpoint) == Some((if base.scheme != "" then base.scheme else "https") + "://" + base.netloc
                                   + (if ep.path != "" then ep.path else "/")
                                   + (if ep.query != "" then "?" + ep.query else ""))
    {
      var base, ep := Parse(apiUrl, "").value, Parse(endpoint, "").value;
      BuildUrlForced(endpoint);
      ParsePathRooted(endpoint, "");
      ForcedUrlText(base, ep);
    }

    /** Both forcing branches send the forced URL built from the endpoint's own parse. */
    lemma BuildUrlForced(endpoint: string)
      requires Parse(apiUrl, "").Some? && Parse(endpoint, "").Some?
      requires Parse(endpoint, "").value.netloc != "" || StartsWith(endpoint, "//")
      ensures BuildUrl(endpoint) == Some(ForcedUrl(Parse(apiUrl, "").value, Parse(endpoint, "").value))
    {
      if Parse(endpoint, "").value.netloc == "" {
        HttpsPrefixParse(endpoint);
        BuildUrlOfSlashes(endpoint, Parse(apiUrl, "").value, Parse(endpoint, "").value);
      }
    }

    lemma BuildUrlOfSlashes(endpoint: string, base: Url, ep: Url)
      requires Parse(apiUrl, "") == Some(base) && Parse(endpoint, "") == Some(ep)
      requires ep.netloc == "" && StartsWith(endpoint, "//")
      requires Parse("https:" + endpoint, "") == Some(ep.(scheme := "https"))
      ensures BuildUrl(endpoint) == Some(ForcedUrl(base, ep))
    {
      assert ForcedUrl(base, ep.(scheme := "https")) == ForcedUrl(base, ep);
    }

    /**
     * An absolute `http` or `https` endpoint that does not parse, or any absolute endpoint when
     * the API URL does not parse, is sent without the API key: the host check fails closed.
     */
    lemma UnparseableEndpointGetsNoKey(endpoint: string, idempotencyKey: Option<string>)
      requires StartsWith(endpoint, "http://") || StartsWith(endpoint, "https://")
      requires Parse(endpoint, "").None? || Parse(apiUrl, "").None?
      ensures "Authorization" !in PrepareHeaders(endpoint, idempotencyKey)
      ensures "Authorization" !in CallHeaders(endpoint, None)
    {
    }

    /**
     * The host comparison for an absolute `http` or `https` endpoint with a plain host name: it
     * holds exactly when the host names agree once trailing dots are dropped and case is folded,
     * whatever the port; an endpoint whose host merely starts or ends with the API's host is
     * another host.
     */
    lemma SameHostByHostName(scheme: string, host: string, port: string, path: string)
      requires scheme == "http" || scheme == "https"
      requires host != "" && Avoids(host, Unsafe + NetlocEnd + {'@', '[', ']', ':', '%'})
      requires port == "" || (port[0] == ':' && Avoids(port, Unsafe + NetlocEnd + {'@', '[', ']'}))
      requires Avoids(path, Unsafe + {'?', '#'}) && (path == "" || path[0] == '/')
      ensures IsSameHost(scheme + "://" + host + port + path) <==>
        Parse(apiUrl, "").Some? && HostKey(host) == HostKey(Hostname(Parse(apiUrl, "").value.netloc).GetOr(""))
    {
      var e := scheme + "://" + host + port + path;
      assert e == scheme + "://" + (host + port) + path;
      assert Avoids(host + port, Unsafe + NetlocEnd + {'[', ']'});
      PlainUrlParses(scheme, host + port, path);
      HttpPrefix(scheme, host + port, path);
      var target := Parse(e, "").value;
      HostnameOfHostPort(host, port);
      HostKeyOfLower(host);
      assert HostKey(Hostname(target.netloc).GetOr("")) == HostKey(host);
    }

    /** The host key of an API URL with a plain host name. */
    lemma ApiHostKey(scheme: string, host: string, port: string, path: string)
      requires apiUrl == scheme + "://" + host + port + path
      requires scheme == "http" || scheme == "https"
      requires host != "" && Avoids(host, Unsafe + NetlocEnd + {'@', '[', ']', ':', '%'})
      requires port == "" || (port[0] == ':' && Avoids(port, Unsafe + NetlocEnd + {'@', '[', ']'}))
      requires Avoids(path, Unsafe + {'?', '#'}) && (path == "" || path[0] == '/')
      ensures Parse(apiUrl, "").Some?
      ensures HostKey(Hostname(Parse(apiUrl, "").value.netloc).GetOr("")) == HostKey(host)
    {
      assert apiUrl == scheme + "://" + (host + port) + path;
      assert Avoids(host + port, Unsafe + NetlocEnd + {'[', ']'});
      PlainUrlParses(scheme, host + port, path);
      HostnameOfHostPort(host, port);
      HostKeyOfLower(host);
    }

    /** The API URL parses and its host, compared as the client compares hosts, is `h`. */
    predicate ApiHostIs(h: string) {
      Parse(apiUrl, "").Some? && HostKey(Hostname(Parse(apiUrl, "").value.netloc).GetOr("")) == h
    }

    /** An endpoint on the API's host is on the API's host whatever its port and however many trailing dots its host has. */
    lemma SameHostIgnoresPortAndTrailingDots(h: string, scheme: string, dots: string, port: string, path: string)
      requires ApiHostIs(h) && IsLowerDnsName(h) && h[|h| - 1] != '.'
      requires scheme == "http" || scheme == "https"
      requires forall i :: 0 <= i < |dots| ==> dots[i] == '.'
      requires port == "" || (port[0] == ':' && Avoids(port, Unsafe + NetlocEnd + {'@', '[', ']'}))
      requires Avoids(path, Unsafe + {'?', '#'}) && (path == "" || path[0] == '/')
      ensures IsSameHost(scheme + "://" + (h + dots) + port + path)
    {
      DnsNameIsPlainHost(h);
      DnsNameWithDots(h, dots);
      DnsNameIsPlainHost(h + dots);
      SameHostByHostName(scheme, h + dots, port, path);
      RStripCharSuffix(h, dots, '.');
    }

    /** A host name that extends the API's host by further labels is another host. */
    lemma SameHostRejectsExtendedHost(h: string, scheme: string, extra: string, port: string, path: string)
      requires ApiHostIs(h) && IsLowerDnsName(h) && h[|h| - 1] != '.'
      requires scheme == "http" || scheme == "https"
      requires IsLowerDnsName(extra) && extra[|extra| - 1] != '.'
      requires port == "" || (port[0] == ':' && Avoids(port, Unsafe + NetlocEnd + {'@', '[', ']'}))
      requires Avoids(path, Unsafe + {'?', '#'}) && (path == "" || path[0] == '/')
      ensures !IsSameHost(scheme + "://" + (h + "." + extra) + port + path)
    {
      var longer := h + "." + extra;
      DnsNameJoin(h, extra);
      DnsNameIsPlainHost(longer);
      SameHostByHostName(scheme, longer, port, path);
      RStripCharKeeps(longer, '.');
      assert HostKey(longer) == longer;
      assert |longer| > |h|;
    }

    /** A host name other than the API's is another host. */
    lemma SameHostRejectsOtherHost(h: string, scheme: string, other: string, port: string, path: string)
      requires ApiHostIs(h)
      requires scheme == "http" || scheme == "https"
      requires IsLowerDnsName(other) && other[|other| - 1] != '.' && other != h
      requires port == "" || (port[0] == ':' && Avoids(port, Unsafe + NetlocEnd + {'@', '[', ']'}))
      requires Avoids(path, Unsafe + {'?', '#'}) && (path == "" || path[0] == '/')
      ensures !IsSameHost(scheme + "://" + other + port + path)
    {
      DnsNameIsPlainHost(other);
      SameHostByHostName(scheme, other, port, path);
      RStripCharKeeps(other, '.');
    }

    /** The API's host written with any mix of upper- and lower-case letters is the same host. */
    lemma SameHostIgnoresCase(h: string, scheme: string, variant: string, port: string, path: string)
      requires ApiHostIs(h) && IsLowerDnsName(h) && h[|h| - 1] != '.'
      requires scheme == "http" || scheme == "https"
      requires Lower(variant) == h
      requires port == "" || (port[0] == ':' && Avoids(port, Unsafe + NetlocEnd + {'@', '[', ']'}))
      requires Avoids(path, Unsafe + {'?', '#'}) && (path == "" || path[0] == '/')
      ensures IsSameHost(scheme + "://" + variant + port + path)
    {
      CaseVariantIsPlainHost(h, variant);
      SameHostByHostName(scheme, variant, port, path);
      RStripCharLower(variant, '.');
      RStripCharKeeps(h, '.');
      DnsNameIsPlainHost(h);
    }
  }

  /** The host a netloc without user information, brackets or zone names. */
  lemma HostnameOfHostPort(host: string, port: string)
    requires host != "" && Avoids(host, {'@', '[', ':', '%'})
    requires port == "" || (port[0] == ':' && Avoids(port, {'@', '['}))
    ensures Hostname(host + port) == Some(Lower(host))
  {
    var netloc := host + port;
    assert '@' !in netloc && '[' !in netloc;
    var hostInfo := AfterLast(netloc, '@');
    assert hostInfo == netloc;
    assert IndexOf(hostInfo, '[') == |hostInfo|;
    IndexOfAnyAppend(host, port, {':'});
    assert IndexOf(netloc, ':') == |host|;
    assert netloc[..|host|] == host;
    assert Before(hostInfo, ':') == host;
    assert IndexOf(host, '%') == |host|;
    assert Lower(host[..|host|]) + host[|host|..] == Lower(host);
  }

  /** An `http` or `https` URL with an authority and a path parses back to that authority. */
  lemma PlainUrlParses(scheme: string, netloc: string, path: string)
    requires scheme == "http" || scheme == "https"
    requires netloc != "" && Avoids(netloc, Unsafe + NetlocEnd + {'[', ']'})
    requires Avoids(path, Unsafe + {'?', '#'}) && (path == "" || path[0] == '/')
    ensures Parse(scheme + "://" + netloc + path, "").Some?
    ensures Parse(scheme + "://" + netloc + path, "").value.netloc == netloc
  {
    var u := Url(scheme, netloc, path, "", "", "");
    UnparsePlain(scheme, netloc, path);
    assert WellFormed(u) by {
      assert '[' !in netloc && ']' !in netloc;
    }
    assert ValidScheme(scheme);
    ParseUnparse(u, "");
  }

  lemma UnparsePlain(scheme: string, netloc: string, path: string)
    requires scheme != "" && netloc != ""
    requires path == "" || path[0] == '/'
    ensures Unparse(Url(scheme, netloc, path, "", "", "")) == scheme + "://" + netloc + path
  {
    assert WithParams(path, "") == path;
    var hier := HierPart(scheme, netloc, path);
    assert hier == "//" + netloc + path;
    assert scheme + ":" + hier == scheme + "://" + netloc + path;
  }

  /** The printed form of components with an authority, a rooted path and a query. */
  lemma UnparseRooted(scheme: string, netloc: string, path: string, query: string)
    requires scheme != "" && netloc != "" && path != "" && path[0] == '/'
    ensures Unparse(Url(scheme, netloc, path, "", query, ""))
            == scheme + "://" + netloc + path + (if query != "" then "?" + query else "")
  {
    UnparsePlain(scheme, netloc, path);
    var plain := Unparse(Url(scheme, netloc, path, "", "", ""));
    assert Unparse(Url(scheme, netloc, path, "", query, "")) == plain + (if query != "" then "?" + query else "");
  }

  lemma HttpPrefix(scheme: string, netloc: string, path: string)
    requires scheme == "http" || scheme == "https"
    ensures var e := scheme + "://" + netloc + path; StartsWith(e, "http://") || StartsWith(e, "https://")
  {
    assert scheme + "://" + netloc + path == (scheme + "://") + (netloc + path);
    StartsWithAppend(scheme + "://", netloc + path);
    if scheme == "http" {
      assert scheme + "://" == "http://";
    } else {
      assert scheme + "://" == "https://";
    }
  }

  /** A lower-case DNS name: letters, digits, `-` and `.`. */
  predicate IsLowerDnsName(h: string) {
    h != [] && forall i :: 0 <= i < |h| ==> 'a' <= h[i] <= 'z' || '0' <= h[i] <= '9' || h[i] == '-' || h[i] == '.'
  }

  lemma DnsNameJoin(a: string, b: string)
    requires IsLowerDnsName(a) && IsLowerDnsName(b)
    ensures IsLowerDnsName(a + "." + b)
    ensures (a + "." + b)[|a + "." + b| - 1] == b[|b| - 1]
  {
    var ab := a + "." + b;
    forall i | 0 <= i < |ab|
      ensures 'a' <= ab[i] <= 'z' || '0' <= ab[i] <= '9' || ab[i] == '-' || ab[i] == '.'
    {
      if i < |a| {
        assert ab[i] == a[i];
      } else if i > |a| {
        assert ab[i] == b[i - |a| - 1];
      }
    }
  }

  lemma DnsNameWithDots(h: string, dots: string)
    requires IsLowerDnsName(h) && forall i :: 0 <= i < |dots| ==> dots[i] == '.'
    ensures IsLowerDnsName(h + dots)
  {
    var hd := h + dots;
    forall i | 0 <= i < |hd|
      ensures 'a' <= hd[i] <= 'z' || '0' <= hd[i] <= '9' || hd[i] == '-' || hd[i] == '.'
    {
      if i < |h| {
        assert hd[i] == h[i];
      } else {
        assert hd[i] == dots[i - |h|];
      }
    }
  }

  lemma DnsNameIsPlainHost(h: string)
    requires IsLowerDnsName(h)
    ensures Avoids(h, Unsafe + NetlocEnd + {'@', '[', ']', ':', '%'})
    ensures Lower(h) == h
  {
    LowerOfLower(h);
  }

  /** Case folding the host first does not change its key. */
  lemma HostKeyOfLower(host: string)
    ensures HostKey(Lower(host)) == HostKey(host)
  {
    RStripCharLower(host, '.');
    LowerOfLower(Lower(RStripChar(host, '.')));
  }

  /**
   * The forced URL parses back to the API's scheme (`https` when the API URL has none) and
   * authority, with the endpoint's query and no fragment.
   */
  lemma ForcedUrlOnBase(base: Url, ep: Url)
    requires WellFormed(base) && (base.scheme == "" || ValidScheme(base.scheme)) && WellFormed(ep)
    ensures Parse(ForcedUrl(base, ep), "").Some?
    ensures var u := Parse(ForcedUrl(base, ep), "").value;
      && u.scheme == (if base.scheme != "" then base.scheme else "https")
      && u.netloc == base.netloc && u.query == ep.query && u.fragment == ""
  {
    ForcedPartsWellFormed(base, ep);
    ParseUnparse(ForcedParts(base, ep), "");
  }

  lemma ForcedPartsWellFormed(base: Url, ep: Url)
    requires WellFormed(base) && (base.scheme == "" || ValidScheme(base.scheme)) && WellFormed(ep)
    ensures WellFormed(ForcedParts(base, ep)) && ValidScheme(ForcedParts(base, ep).scheme)
  {
    if base.scheme == "" {
      HttpsScheme();
    }
    if ep.path == "" {
      RootAvoids();
    }
  }

  lemma RootAvoids()
    ensures Avoids("/", Unsafe + {'?', '#'})
  {
  }

  /** A host whose case folding is a lower-case DNS name is a plain host name too. */
  lemma CaseVariantIsPlainHost(h: string, variant: string)
    requires IsLowerDnsName(h) && Lower(variant) == h
    ensures variant != "" && Avoids(variant, Unsafe + NetlocEnd + {'@', '[', ']', ':', '%'})
  {
    forall c | c in variant ensures c !in Unsafe + NetlocEnd + {'@', '[', ']', ':', '%'} {
      var k :| 0 <= k < |variant| && variant[k] == c;
      assert LowerChar(variant[k]) == h[k];
    }
  }

  /** The text of a forced URL when the API URL has an authority and the endpoint's path is rooted. */
  lemma ForcedUrlText(base: Url, ep: Url)
    requires base.netloc != "" && (ep.path == "" || ep.path[0] == '/')
    ensures ForcedUrl(base, ep) == (if base.scheme != "" then base.scheme else "https") + "://" + base.netloc
                                   + (if ep.path != "" then ep.path else "/")
                                   + (if ep.query != "" then "?" + ep.query else "")
  {
    var scheme := if base.scheme != "" then base.scheme else "https";
    var path := if ep.path != "" then ep.path else "/";
    var q := if ep.query != "" then "?" + ep.query else "";
    UnparseRooted(scheme, base.netloc, path, ep.query);
  }

  lemma HttpsScheme()
    ensures ValidScheme("https") && "https" in UsesParams
  {
    var https := "https";
    assert forall i :: 0 <= i < |https| ==> https[i] in {'h', 't', 'p', 's'};
  }

  /**
   * `urlparse("https:" + endpoint)` for an endpoint that starts with `//` finds what
   * `urlparse(endpoint)` finds, with the scheme `https`.
   */
  lemma HttpsPrefixParse(endpoint: string)
    requires StartsWith(endpoint, "//")
    ensures Parse("https:" + endpoint, "").Some? <==> Parse(endpoint, "").Some?
    ensures Parse(endpoint, "").Some? ==> Parse("https:" + endpoint, "").value == Parse(endpoint, "").value.(scheme := "https")
  {
    HttpsScheme();
    HttpsColon(endpoint);
    ParseWithSchemePrefix("https", endpoint);
  }

  lemma HttpsColon(endpoint: string)
    ensures "https" + ([':'] + endpoint) == "https:" + endpoint
  {
  }
}