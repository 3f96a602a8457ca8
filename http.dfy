/** What the handlers answer, what they send to the providers, and what comes back: the values
  * of the HTTP exchanges around the cookie jar. Requests to the providers are recorded, and their
  * answers are parameters of the handlers. */
module Http {
  import opened Base
  import opened Jar

  /** One `key=value` pair of a query string, before percent-encoding. */
  datatype Param = Param(key: string, value: string)

  /** The JSON bodies the handlers answer with. */
  datatype Body =
    | ErrorBody(error: string)                                         // `{ error }`
    | SuccessBody                                                      // `{ success: true }`
    | AuthBody(authenticated: bool, message: Option<string>, user: Option<UserInfo>)
    | StatusBody(twitch: bool, youtube: bool, tiktok: bool, twitter: bool) // `{ authenticated: {…} }`

  /** A handler's answer: a redirect to `location` with the decoded query pairs, or JSON. */
  datatype Outcome = Redirect(location: string, query: seq<Param>) | Json(status: int, body: Body)

  /** The fields of a provider's error body that the handlers read. */
  datatype ErrorData = ErrorData(message: Option<string>, errorDescription: Option<string>)

  /** Why a call threw: an HTTP error answer (axios sets `error.response`), or an exception
    * without a response (a network error, an `Error` the handler throws, a `TypeError`). */
  datatype Failure = Responded(status: int, data: ErrorData) | NoResponse

  /** The answer of a provider's token endpoint. */
  datatype TokenResult =
    | Tokens(accessToken: Option<string>, refreshToken: Option<string>, expiresIn: int)
    | TokenFailed(failure: Failure)

  /** The answer of a provider's profile endpoint: the list `data` (Twitch) or `items` (YouTube). */
  datatype ProfileResult = Profiles(items: seq<Profile>) | ProfileFailed(failure: Failure)

  /** The two grants of the token endpoint (RFC 6749, sections 4.1.3 and 6). */
  datatype TokenRequest =
    | CodeGrant(clientId: string, clientSecret: string, code: string, redirectUri: string)
    | RefreshGrant(clientId: string, clientSecret: string, refreshToken: string)
  {
    /** The `grant_type` parameter the request carries. */
    function GrantType(): string {
      if CodeGrant? then "authorization_code" else "refresh_token"
    }
  }

  /** A request a handler sends to a provider. */
  datatype Call = TokenCall(request: TokenRequest) | ProfileCall(bearer: string)

  /** The configuration a handler reads from `process.env`: `NEXT_PUBLIC_BASE_URL` and the
    * provider's client id and secret. */
  datatype Env = Env(baseUrl: Option<string>, clientId: string, clientSecret: string)

  /** The callback's query parameters (`searchParams.get` gives `null` for a missing one). */
  datatype Query = Query(code: Option<string>, state: Option<string>, error: Option<string>, errorDescription: Option<string>)

  /** What a run of a handler produced: the answer, the jar afterwards, the requests sent. */
  datatype Trace = Trace(outcome: Outcome, cookies: Cookies, sent: seq<Call>)

  const MethodNotAllowed: Outcome := Json(405, ErrorBody("Method not allowed"))

  /** `url.searchParams` of a `URL` under construction. */
  class SearchParams {
    var pairs: seq<Param>

    constructor ()
      ensures pairs == []
    {
      pairs := [];
    }

    /** `searchParams.append(key, value)`: the pair goes last. */
    method Append(key: string, value: string)
      modifies this
      ensures pairs == old(pairs) + [Param(key, value)]
    {
      pairs := pairs + [Param(key, value)];
    }
  }

  /** The value of the first pair with `key`, as `searchParams.get(key)` reads it. */
  function GetParam(ps: seq<Param>, key: string): (r: Option<string>)
    ensures r.Some? ==> exists i :: 0 <= i < |ps| && ps[i] == Param(key, r.value)
    ensures r.None? ==> forall i :: 0 <= i < |ps| ==> ps[i].key != key
  {
    if ps == [] then None
    else if ps[0].key == key then Some(ps[0].value)
    else
      var r := GetParam(ps[1..], key);
      assert forall i :: 0 < i < |ps| ==> ps[i] == ps[1..][i - 1];
      r
  }

  /** `get` finds the first pair with the key. */
  lemma {:induction false} GetParamFirst(ps: seq<Param>, key: string, i: nat)
    requires i < |ps| && ps[i].key == key
    requires forall j :: 0 <= j < i ==> ps[j].key != key
    ensures GetParam(ps, key) == Some(ps[i].value)
  {
    if i > 0 {
      GetParamFirst(ps[1..], key, i - 1);
    }
  }

  /** Pairs appended after a key's first pair do not change what `get` reads. */
  lemma {:induction false} GetParamPrefix(a: seq<Param>, b: seq<Param>, key: string)
    requires GetParam(a, key).Some?
    ensures GetParam(a + b, key) == GetParam(a, key)
  {
    if a[0].key != key {
      assert (a + b)[1..] == a[1..] + b;
      GetParamPrefix(a[1..], b, key);
    }
  }

  /** The first pair of `a` with `key` is what `get` reads from `a + b`. */
  lemma GetParamAt(a: seq<Param>, b: seq<Param>, key: string, i: nat)
    requires i < |a| && a[i].key == key
    requires forall j :: 0 <= j < i ==> a[j].key != key
    ensures GetParam(a + b, key) == Some(a[i].value)
  {
    GetParamFirst(a, key, i);
    GetParamPrefix(a, b, key);
  }
}
