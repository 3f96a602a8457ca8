/** The authorization-code callback shared, with small differences, by the three callback
  * handlers (RFC 6749, section 4.1.2 to 4.1.4): the provider-error guard, the `state` check
  * against the stored nonce (section 10.12), the consumption of the state cookie, the missing-code
  * guard, the code exchange, the profile fetch, the cookie writes and the final redirect, with
  * every exception mapped to an error text by its HTTP status. */
module AuthCallback {
  import opened Base
  import opened Jar
  import opened Http
  import opened Providers

  /** What tells the three copies of the callback apart. */
  datatype Flavor = Flavor(
    provider: Provider,
    /** Redirects are relative (`/auth/error…`) rather than prefixed with the request origin. */
    relative: bool,
    /** The text for a provider `error`; `None` means `error_description || "Authentication failed"`. */
    providerErrorText: Option<string>,
    /** The `maxAge` written when the state cookie is cleared. */
    clearMaxAge: int,
    /** A 400 answer is explained by its `error_description` field rather than its `message`. */
    badRequestReadsDescription: bool,
    /** The text of every failure no HTTP status explains. */
    genericFailure: string,
    successPath: string,
    successQuery: seq<Param>,
    /** The base of `redirect_uri` when `NEXT_PUBLIC_BASE_URL` is unset; `None` is the request origin. */
    redirectFallback: Option<string>)

  const InvalidState: string := "Invalid authentication state"
  const NoCode: string := "No authorization code received"
  const Unauthorized: string := "Unauthorized: Invalid client credentials"

  /** The prefix of every redirect location. */
  function Site(f: Flavor, origin: string): string {
    if f.relative then "" else origin
  }

  /** A redirect to the error page carrying `message`. */
  function ErrorRedirect(f: Flavor, origin: string, message: string): (o: Outcome)
    ensures o.Redirect? && o.location == Site(f, origin) + "/auth/error" && o.query == [Param("message", message)]
  {
    Redirect(Site(f, origin) + "/auth/error", [Param("message", message)])
  }

  /** The redirect of a completed login. */
  function SuccessRedirect(f: Flavor, origin: string): Outcome {
    Redirect(Site(f, origin) + f.successPath, f.successQuery)
  }

  /** The text shown for an `error` the provider sent back. */
  function ProviderErrorMessage(f: Flavor, q: Query): (msg: string)
  {
    if f.providerErrorText.Some? then f.providerErrorText.value else OrElse(q.errorDescription, "Authentication failed")
  }

  /** The `redirect_uri` the code exchange sends. */
  function ExchangeRedirectUri(f: Flavor, origin: string, env: Env): string {
    RedirectUri(f.provider, env.baseUrl, f.redirectFallback.GetOr(origin))
  }

  /** The `catch` block: the generic text, unless the failure carries an HTTP answer with status
    * 401 or 400. */
  function ErrorMessage(f: Flavor, failure: Failure): string {
    if failure.Responded? && failure.status == 401 then Unauthorized
    else if failure.Responded? && failure.status == 400 then
      "Bad request: " + OrElse(if f.badRequestReadsDescription then failure.data.errorDescription else failure.data.message, "Invalid parameters")
    else f.genericFailure
  }

  /** The three kinds of error text are told apart: a page showing the generic text means the
    * failure carried no 400 or 401 answer, and the reverse. */
  lemma ErrorMessageKinds(f: Flavor, failure: Failure)
    requires |f.genericFailure| > 0 && f.genericFailure[0] != 'U' && f.genericFailure[0] != 'B'
    ensures ErrorMessage(f, failure) == f.genericFailure <==> !(failure.Responded? && (failure.status == 401 || failure.status == 400))
    ensures ErrorMessage(f, failure) == Unauthorized <==> failure.Responded? && failure.status == 401
  {
    var msg := ErrorMessage(f, failure);
    if failure.Responded? && failure.status == 400 {
      assert msg[0] == 'B';
    }
  }

  /** The user record written after a successful login: the first profile of the list and an
    * expiry `expires_in` seconds after `now` (milliseconds). */
  function UserCookieFor(profile: Profile, now: int, expiresIn: int): Cookie {
    Cookie(User(UserInfo(profile, now + expiresIn * 1000)), Some(expiresIn), false, true, RootPath)
  }

  /** The stored nonce matches: both the query's `state` and the cookie are non-empty and equal. */
  predicate StateMatches(f: Flavor, q: Query, m: Cookies) {
    Truthy(q.state) && Truthy(TextOf(m, f.provider.StateCookie())) && q.state.value == TextOf(m, f.provider.StateCookie()).value
  }

  /** Reference definition of one run of the callback on jar `m`, given what the token endpoint
    * (`token`) and the profile endpoint (`profile`) would answer and the clock `now`. */
  function Callback(f: Flavor, q: Query, origin: string, env: Env, token: TokenResult, profile: ProfileResult, now: int, m: Cookies): Trace {
    if Truthy(q.error) then Trace(ErrorRedirect(f, origin, ProviderErrorMessage(f, q)), m, [])
    else if !StateMatches(f, q, m) then Trace(ErrorRedirect(f, origin, InvalidState), m, [])
    else
      var consumed := m[f.provider.StateCookie() := Cleared(f.clearMaxAge)];
      if !Truthy(q.code) then Trace(ErrorRedirect(f, origin, NoCode), consumed, [])
      else Exchange(f, q.code.value, origin, env, token, profile, now, consumed)
  }

  /** The `try` block of the callback, from the code exchange on. */
  function Exchange(f: Flavor, code: string, origin: string, env: Env, token: TokenResult, profile: ProfileResult, now: int, m: Cookies): Trace {
    var tokenCall := TokenCall(CodeGrant(env.clientId, env.clientSecret, code, ExchangeRedirectUri(f, origin, env)));
    match token
    case TokenFailed(failure) => Trace(ErrorRedirect(f, origin, ErrorMessage(f, failure)), m, [tokenCall])
    case Tokens(access, refresh, expiresIn) =>
      if !Truthy(access) then Trace(ErrorRedirect(f, origin, ErrorMessage(f, NoResponse)), m, [tokenCall])
      else AfterTokens(f, origin, access.value, refresh, expiresIn, profile, now, m, [tokenCall, ProfileCall(access.value)])
  }

  /** The rest of the `try` block once an access token came: the profile fetch, which `sent`
    * already records, the cookie writes and the redirect. */
  function AfterTokens(f: Flavor, origin: string, access: string, refresh: Option<string>, expiresIn: int,
                       profile: ProfileResult, now: int, m: Cookies, sent: seq<Call>): Trace {
    match profile
    case ProfileFailed(failure) => Trace(ErrorRedirect(f, origin, ErrorMessage(f, failure)), m, sent)
    case Profiles(items) =>
      var stored := StoreTokens(f.provider, m, access, refresh, expiresIn);
      if items == [] then Trace(ErrorRedirect(f, origin, ErrorMessage(f, NoResponse)), stored, sent)
      else Trace(SuccessRedirect(f, origin), stored[f.provider.UserCookie() := UserCookieFor(items[0], now, expiresIn)], sent)
  }

  /** The callback handler, step by step on the jar. */
  method Run(jar: CookieJar, f: Flavor, q: Query, origin: string, env: Env, token: TokenResult, profile: ProfileResult, now: int)
    returns (outcome: Outcome, sent: seq<Call>)
    requires jar.Valid()
    modifies jar
    ensures jar.Valid()
    ensures Trace(outcome, jar.cookies, sent) == Callback(f, q, origin, env, token, profile, now, old(jar.cookies))
  {
    var p := f.provider;
    CookieNames(p);
    sent := [];
    if Truthy(q.error) {
      return ErrorRedirect(f, origin, ProviderErrorMessage(f, q)), sent;
    }
    var storedState := TextOf(jar.cookies, p.StateCookie());
    if !Truthy(q.state) || !Truthy(storedState) || q.state.value != storedState.value {
      return ErrorRedirect(f, origin, InvalidState), sent;
    }
    jar.Set(p.StateCookie(), Cleared(f.clearMaxAge));
    if !Truthy(q.code) {
      return ErrorRedirect(f, origin, NoCode), sent;
    }
    outcome, sent := RunExchange(jar, f, q.code.value, origin, env, token, profile, now);
  }

  /** The `try` and `catch` blocks of the handler, on the jar whose state cookie was consumed. */
  method RunExchange(jar: CookieJar, f: Flavor, code: string, origin: string, env: Env, token: TokenResult, profile: ProfileResult, now: int)
    returns (outcome: Outcome, sent: seq<Call>)
    requires jar.Valid()
    modifies jar
    ensures jar.Valid()
    ensures Trace(outcome, jar.cookies, sent) == Exchange(f, code, origin, env, token, profile, now, old(jar.cookies))
  {
    // try
    sent := [TokenCall(CodeGrant(env.clientId, env.clientSecret, code, ExchangeRedirectUri(f, origin, env)))];
    if token.TokenFailed? {
      var errorMessage := CatchMessage(f, token.failure);
      return ErrorRedirect(f, origin, errorMessage), sent;
    } else if !Truthy(token.accessToken) {
      // `throw new Error("No access token received …")`
      var errorMessage := CatchMessage(f, NoResponse);
      return ErrorRedirect(f, origin, errorMessage), sent;
    }
    sent := sent + [ProfileCall(token.accessToken.value)];
    outcome := RunProfile(jar, f, origin, token.accessToken.value, token.refreshToken, token.expiresIn, profile, now, sent);
  }

  /** The profile fetch and what follows it, with the `catch` block for its failures. */
  method RunProfile(jar: CookieJar, f: Flavor, origin: string, access: string, refresh: Option<string>, expiresIn: int,
                    profile: ProfileResult, now: int, ghost sent: seq<Call>)
    returns (outcome: Outcome)
    requires jar.Valid()
    modifies jar
    ensures jar.Valid()
    ensures Trace(outcome, jar.cookies, sent) == AfterTokens(f, origin, access, refresh, expiresIn, profile, now, old(jar.cookies), sent)
  {
    var p := f.provider;
    CookieNames(p);
    var failure: Failure;
    if profile.ProfileFailed? {
      failure := profile.failure;
    } else {
      WriteTokens(jar, p, access, refresh, expiresIn);
      if profile.items == [] {
        failure := NoResponse;  // the `TypeError` of reading `id` of `undefined`
      } else {
        jar.Set(p.UserCookie(), UserCookieFor(profile.items[0], now, expiresIn));
        return SuccessRedirect(f, origin);
      }
    }
    // catch
    var errorMessage := CatchMessage(f, failure);
    outcome := ErrorRedirect(f, origin, errorMessage);
  }

  /** The `catch` block's `errorMessage`, refined step by step from the generic text. */
  method CatchMessage(f: Flavor, failure: Failure) returns (errorMessage: string)
    ensures errorMessage == ErrorMessage(f, failure)
  {
    errorMessage := f.genericFailure;
    if failure.Responded? {
      if failure.status == 401 {
        errorMessage := Unauthorized;
      } else if failure.status == 400 {
        var detail := if f.badRequestReadsDescription then failure.data.errorDescription else failure.data.message;
        errorMessage := "Bad request: " + OrElse(detail, "Invalid parameters");
      }
    }
  }

  // ---------------------------------------------------------------------------------------------
  // Properties of the callback

  /** `a` and `b` hold the same cookies under every name outside `names`. */
  ghost predicate SameExcept(a: Cookies, b: Cookies, names: set<string>) {
    forall n :: n !in names ==> (n in a <==> n in b) && (n in a ==> a[n] == b[n])
  }

  /** The four cookie names of the provider. */
  function AuthCookies(p: Provider): set<string> {
    {p.StateCookie(), p.AccessCookie(), p.RefreshCookie(), p.UserCookie()}
  }

  /** The guards before the exchange all pass: no provider error, the state matches, a code came. */
  predicate ReachesExchange(f: Flavor, q: Query, m: Cookies) {
    !Truthy(q.error) && StateMatches(f, q, m) && Truthy(q.code)
  }

  /** A provider error is answered before anything else: no cookie changes, nothing is sent. */
  lemma ProviderErrorFirst(f: Flavor, q: Query, origin: string, env: Env, token: TokenResult, profile: ProfileResult, now: int, m: Cookies)
    requires Truthy(q.error)
    ensures Callback(f, q, origin, env, token, profile, now, m) == Trace(ErrorRedirect(f, origin, ProviderErrorMessage(f, q)), m, [])
  {
  }

  /** A missing, empty or different `state`, or a missing stored nonce, is rejected as a possible
    * cross-site request forgery: the state cookie is not consumed, no token cookie is written and
    * nothing is sent. */
  lemma StateMismatchRejected(f: Flavor, q: Query, origin: string, env: Env, token: TokenResult, profile: ProfileResult, now: int, m: Cookies)
    requires !Truthy(q.error) && !StateMatches(f, q, m)
    ensures Callback(f, q, origin, env, token, profile, now, m) == Trace(ErrorRedirect(f, origin, InvalidState), m, [])
  {
  }

  /** Once the state matched, the state cookie ends up cleared on every path: missing code,
    * failed exchange, failed profile fetch and success alike. */
  lemma StateConsumed(f: Flavor, q: Query, origin: string, env: Env, token: TokenResult, profile: ProfileResult, now: int, m: Cookies)
    requires !Truthy(q.error) && StateMatches(f, q, m)
    ensures var r := Callback(f, q, origin, env, token, profile, now, m);
      f.provider.StateCookie() in r.cookies && r.cookies[f.provider.StateCookie()] == Cleared(f.clearMaxAge)
      && !Present(r.cookies, f.provider.StateCookie())
  {
    CookieNames(f.provider);
  }

  /** A missing code ends the run with the state consumed and nothing sent. */
  lemma MissingCodeConsumesState(f: Flavor, q: Query, origin: string, env: Env, token: TokenResult, profile: ProfileResult, now: int, m: Cookies)
    requires !Truthy(q.error) && StateMatches(f, q, m) && !Truthy(q.code)
    ensures Callback(f, q, origin, env, token, profile, now, m)
         == Trace(ErrorRedirect(f, origin, NoCode), m[f.provider.StateCookie() := Cleared(f.clearMaxAge)], [])
  {
  }

  /** The callback writes no cookie but the provider's four. */
  lemma CallbackFrame(f: Flavor, q: Query, origin: string, env: Env, token: TokenResult, profile: ProfileResult, now: int, m: Cookies)
    ensures SameExcept(Callback(f, q, origin, env, token, profile, now, m).cookies, m, AuthCookies(f.provider))
  {
    var p := f.provider;
    var r := Callback(f, q, origin, env, token, profile, now, m);
    if ReachesExchange(f, q, m) && token.Tokens? && Truthy(token.accessToken) && profile.Profiles? {
      var consumed := m[p.StateCookie() := Cleared(f.clearMaxAge)];
      var stored := StoreTokens(p, consumed, token.accessToken.value, token.refreshToken, token.expiresIn);
      assert SameExcept(stored, m, AuthCookies(p));
      assert r.cookies == stored || r.cookies == stored[p.UserCookie() := UserCookieFor(profile.items[0], now, token.expiresIn)];
    } else {
      TokensNeedExchange(f, q, origin, env, token, profile, now, m);
    }
  }

  /** Token and user cookies change only after every guard passed, the provider issued an access
    * token and the profile endpoint answered with a list; otherwise at most the state cookie
    * changes. */
  lemma TokensNeedExchange(f: Flavor, q: Query, origin: string, env: Env, token: TokenResult, profile: ProfileResult, now: int, m: Cookies)
    requires !(ReachesExchange(f, q, m) && token.Tokens? && Truthy(token.accessToken) && profile.Profiles?)
    ensures SameExcept(Callback(f, q, origin, env, token, profile, now, m).cookies, m, {f.provider.StateCookie()})
  {
  }

  /** An empty profile list fails only after the token cookies were written: the user lands on
    * the error page with the generic text, holding fresh tokens but no new user record. */
  lemma EmptyProfileKeepsTokens(f: Flavor, q: Query, origin: string, env: Env, access: string, refresh: Option<string>, expiresIn: int, now: int, m: Cookies)
    requires ReachesExchange(f, q, m) && access != ""
    ensures var r := Callback(f, q, origin, env, Tokens(Some(access), refresh, expiresIn), Profiles([]), now, m);
      && r.outcome == ErrorRedirect(f, origin, f.genericFailure)
      && f.provider.AccessCookie() in r.cookies && r.cookies[f.provider.AccessCookie()] == AccessTokenCookie(access, expiresIn)
      && (Truthy(refresh) ==> f.provider.RefreshCookie() in r.cookies && r.cookies[f.provider.RefreshCookie()] == RefreshTokenCookie(refresh.value))
      && (f.provider.UserCookie() in r.cookies <==> f.provider.UserCookie() in m)
      && (f.provider.UserCookie() in m ==> r.cookies[f.provider.UserCookie()] == m[f.provider.UserCookie()])
  {
    CookieNames(f.provider);
  }

  /** A completed login writes the access token, the refresh token when one was issued, and the
    * user record of the first profile, then redirects to the dashboard. */
  lemma SuccessWrites(f: Flavor, q: Query, origin: string, env: Env, access: string, refresh: Option<string>, expiresIn: int, items: seq<Profile>, now: int, m: Cookies)
    requires ReachesExchange(f, q, m) && access != "" && items != []
    ensures var r := Callback(f, q, origin, env, Tokens(Some(access), refresh, expiresIn), Profiles(items), now, m);
      && r.outcome == SuccessRedirect(f, origin)
      && f.provider.AccessCookie() in r.cookies && r.cookies[f.provider.AccessCookie()] == AccessTokenCookie(access, expiresIn)
      && (Truthy(refresh) ==> f.provider.RefreshCookie() in r.cookies && r.cookies[f.provider.RefreshCookie()] == RefreshTokenCookie(refresh.value))
      && (!Truthy(refresh) ==> (f.provider.RefreshCookie() in r.cookies <==> f.provider.RefreshCookie() in m))
      && (!Truthy(refresh) && f.provider.RefreshCookie() in m ==> r.cookies[f.provider.RefreshCookie()] == m[f.provider.RefreshCookie()])
      && f.provider.UserCookie() in r.cookies && r.cookies[f.provider.UserCookie()] == UserCookieFor(items[0], now, expiresIn)
      && r.sent == [TokenCall(CodeGrant(env.clientId, env.clientSecret, q.code.value, ExchangeRedirectUri(f, origin, env))), ProfileCall(access)]
  {
    CookieNames(f.provider);
  }

  /** Nothing is sent before every guard passed; then the code is exchanged first, as an
    * `authorization_code` grant with the received code and the callback's own `redirect_uri`,
    * and the profile is fetched with the issued access token. */
  lemma ExchangeRequests(f: Flavor, q: Query, origin: string, env: Env, token: TokenResult, profile: ProfileResult, now: int, m: Cookies)
    ensures var r := Callback(f, q, origin, env, token, profile, now, m);
      && (!ReachesExchange(f, q, m) <==> r.sent == [])
      && (r.sent != [] ==>
            r.sent[0].TokenCall? && r.sent[0].request.GrantType() == "authorization_code"
            && r.sent[0].request.code == q.code.value && r.sent[0].request.redirectUri == ExchangeRedirectUri(f, origin, env))
      && (|r.sent| == 2 <==> ReachesExchange(f, q, m) && token.Tokens? && Truthy(token.accessToken))
      && (|r.sent| == 2 ==> r.sent[1] == ProfileCall(token.accessToken.value))
      && |r.sent| <= 2
  {
  }
  /** A token answer without `access_token` is thrown as a plain `Error`: the user sees the
    * generic text, only the token request went out, and the jar keeps nothing but the spent
    * nonce. */
  lemma NoAccessTokenFails(f: Flavor, q: Query, origin: string, env: Env, access: Option<string>, refresh: Option<string>, expiresIn: int,
                           profile: ProfileResult, now: int, m: Cookies)
    requires ReachesExchange(f, q, m) && !Truthy(access)
    ensures Callback(f, q, origin, env, Tokens(access, refresh, expiresIn), profile, now, m)
      == Trace(ErrorRedirect(f, origin, f.genericFailure), m[f.provider.StateCookie() := Cleared(f.clearMaxAge)],
               [TokenCall(CodeGrant(env.clientId, env.clientSecret, q.code.value, ExchangeRedirectUri(f, origin, env)))])
  {
  }

  /** The token request and the profile request fail through the same `catch`: a failed profile
    * request after a good token answer shows the text a failed token request with the same
    * failure would, and writes no cookie of its own. */
  lemma FailureMappingShared(f: Flavor, q: Query, origin: string, env: Env, access: string, refresh: Option<string>, expiresIn: int,
                             failure: Failure, now: int, m: Cookies)
    requires ReachesExchange(f, q, m) && access != ""
    ensures var viaToken := Callback(f, q, origin, env, TokenFailed(failure), Profiles([]), now, m);
      var viaProfile := Callback(f, q, origin, env, Tokens(Some(access), refresh, expiresIn), ProfileFailed(failure), now, m);
      && viaProfile.outcome == viaToken.outcome
      && viaProfile.cookies == viaToken.cookies
      && viaProfile.sent == viaToken.sent + [ProfileCall(access)]
  {
  }
}
