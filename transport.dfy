/**
 * What the HTTP client exchanges with the transport library: requests, responses, faults, and the
 * JSON body a caller hands to `post`.
 */
module Transport {
  import opened Wrappers
  import opened Text

  /** JSON values a request body may hold. */
  datatype Json =
    | JNull
    | JBool(b: bool)
    | JNumber(n: real)
    | JString(s: string)
    | JArray(items: seq<Json>)
    | JObject(members: map<string, Json>)

  /** A dictionary owned by the caller, who sees any update made to it in place. */
  class JsonObject {
    var members: map<string, Json>

    constructor (members: map<string, Json>)
      ensures this.members == members
    {
      this.members := members;
    }
  }

  datatype Verb = Get | Post | Delete {
    /** The name the client uses in its error message. */
    function Name(): string {
      match this
      case Get => "GET"
      case Post => "POST"
      case Delete => "DELETE"
    }
  }

  /** One call into the transport: method, dispatched URL, headers, JSON body, timeout in seconds. */
  datatype Request = Request(verb: Verb, url: string, headers: map<string, string>, body: Option<map<string, Json>>, timeout: Option<real>)

  /** A response; only the status code matters to the client. */
  datatype Response = Response(status: int, body: string)

  datatype Fault =
    | RequestError(kind: string)   // a `requests.RequestException`: connection error, timeout, ...
    | OtherError(kind: string)     // any other exception raised by the transport
    | InvalidUrl                   // the `ValueError` the URL parser raises
    | NegativeSleep                // the `ValueError` `time.sleep` raises for a negative duration
    | Unexpected(message: string)  // the generic exception raised when no attempt was made

  /** What one transport call does: return a response or raise. */
  datatype Outcome = Replied(response: Response) | Failed(fault: Fault)

  /** What a client call does: return a response to its caller or raise. */
  datatype CallResult = Returned(response: Response) | Raised(fault: Fault)

  /** A transport call's outcome passed on to the caller unchanged. */
  function Final(o: Outcome): (r: CallResult)
    ensures r.Returned? <==> o.Replied?
    ensures r.Returned? ==> r.response == o.response
    ensures r.Raised? ==> r.fault == o.fault
  {
    match o
    case Replied(response) => Returned(response)
    case Failed(fault) => Raised(fault)
  }

  /** The SDK's identification, written into every POST body under `origin`. */
  function WithOrigin(members: map<string, Json>, version: string): (m: map<string, Json>)
    ensures m.Keys == members.Keys + {"origin"}
    ensures m["origin"] == JString("python-sdk@" + version)
    ensures forall k :: k in members && k != "origin" ==> m[k] == members[k]
  {
    members["origin" := JString("python-sdk@" + version)]
  }

  /** An API key that is present and not blank; only such a key is ever sent. */
  predicate UsableKey(apiKey: Option<string>) {
    apiKey.Some? && apiKey.value != "" && Strip(apiKey.value) != ""
  }

  /** The `Authorization` value for a key: the key without surrounding whitespace, as a bearer token. */
  function BearerToken(key: string): (t: string)
    ensures |t| >= 7 && t[..7] == "Bearer "
    ensures |t| > 7 <==> UsableKey(Some(key))
    ensures |t| > 7 ==> !IsPyWhitespace(t[7]) && !IsPyWhitespace(t[|t| - 1])
  {
    "Bearer " + Strip(key)
  }

  /** A key is usable exactly when it has a character that is not whitespace. */
  lemma UsableKeyIff(apiKey: Option<string>)
    ensures UsableKey(apiKey) <==>
      apiKey.Some? && exists i :: 0 <= i < |apiKey.value| && !IsPyWhitespace(apiKey.value[i])
  {
  }
}
