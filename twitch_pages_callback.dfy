/** `pages/api/auth/twitch/callback.ts` of the pages router: the Twitch callback `handler` and
  * `initTwitchAuth`, which begins the login. */
module TwitchPagesCallback {
  import opened Base
  import opened Jar
  import opened Http
  import opened Providers
  import opened AuthCallback

  /** The default base of `redirect_uri` when `NEXT_PUBLIC_BASE_URL` is unset. */
  const LocalBase: string := "http://localhost:3000"

  /** Relative redirects; a provider error shows its `error_description`; the state cookie is
    * cleared with `maxAge: 0`; a 400 is explained by `message`; success goes to plain
    * `/dashboard`; `redirect_uri` falls back to `http://localhost:3000`. */
  const Route: Flavor := Flavor(Twitch, true, None, 0, false, "Failed to authenticate with Twitch",
                                "/dashboard", [], Some(LocalBase))

  /** The handler: anything but `GET` is refused before the jar is looked at. */
  method Handler(jar: CookieJar, requestMethod: string, q: Query, env: Env, token: TokenResult, profile: ProfileResult, now: int)
    returns (outcome: Outcome, sent: seq<Call>)
    requires jar.Valid()
    modifies jar
    ensures jar.Valid()
    ensures requestMethod != "GET" ==> outcome == MethodNotAllowed && sent == [] && jar.cookies == old(jar.cookies)
    ensures requestMethod == "GET" ==>
      Trace(outcome, jar.cookies, sent) == Callback(Route, q, "", env, token, profile, now, old(jar.cookies))
  {
    if requestMethod != "GET" {
      return MethodNotAllowed, [];
    }
    outcome, sent := Run(jar, Route, q, "", env, token, profile, now);
  }

  /** The texts of this handler, those of the app-router Twitch callback. */
  lemma Messages(q: Query, failure: Failure)
    ensures ProviderErrorMessage(Route, q) == OrElse(q.errorDescription, "Authentication failed")
    ensures failure.Responded? && failure.status == 400 ==>
      ErrorMessage(Route, failure) == "Bad request: " + OrElse(failure.data.message, "Invalid parameters")
    ensures ErrorMessage(Route, failure) == "Failed to authenticate with Twitch" <==>
      !(failure.Responded? && (failure.status == 401 || failure.status == 400))
  {
    ErrorMessageKinds(Route, failure);
  }

  /** `initTwitchAuth`: store the nonce in the state cookie, then redirect to the authorization
    * URL, built pair by pair, whose `redirect_uri` falls back to `http://localhost:3000`. */
  method InitTwitchAuth(jar: CookieJar, env: Env, state: string) returns (outcome: Outcome)
    requires jar.Valid()
    modifies jar
    ensures jar.Valid()
    ensures jar.cookies == old(jar.cookies)[Twitch.StateCookie() := StateCookieFor(state)]
    ensures outcome == Redirect(AuthorizeEndpoint(Twitch), AuthorizeQuery(Twitch, env.clientId, RedirectUri(Twitch, env.baseUrl, LocalBase), state))
  {
    jar.Set("twitch_auth_state", StateCookieFor(state));
    var authUrl := new SearchParams();
    authUrl.Append("client_id", env.clientId);
    authUrl.Append("redirect_uri", OrElse(env.baseUrl, "http://localhost:3000") + "/api/auth/twitch/callback");
    authUrl.Append("response_type", "code");
    authUrl.Append("scope", "user:read:email user:read:follows channel:read:subscriptions moderator:read:followers");
    authUrl.Append("state", state);
    outcome := Redirect("https://id.twitch.tv/oauth2/authorize", authUrl.pairs);
  }
}
