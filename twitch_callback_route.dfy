/** `GET /api/auth/twitch/callback` of the app router. */
module TwitchCallbackRoute {
  import opened Base
  import opened Jar
  import opened Http
  import opened Providers
  import opened AuthCallback

  /** Origin-prefixed redirects; a provider error shows its `error_description`; the state cookie
    * is cleared with `maxAge: -1`; a 400 is explained by `message`; success goes to
    * `/dashboard?auth=success`; `redirect_uri` falls back to the request origin. */
  const Route: Flavor := Flavor(Twitch, false, None, -1, false, "Failed to authenticate with Twitch",
                                "/dashboard", [Param("auth", "success")], None)

  method Get(jar: CookieJar, q: Query, origin: string, env: Env, token: TokenResult, profile: ProfileResult, now: int)
    returns (outcome: Outcome, sent: seq<Call>)
    requires jar.Valid()
    modifies jar
    ensures jar.Valid()
    ensures Trace(outcome, jar.cookies, sent) == Callback(Route, q, origin, env, token, profile, now, old(jar.cookies))
  {
    outcome, sent := Run(jar, Route, q, origin, env, token, profile, now);
  }

  /** The texts of this handler: the provider's description or "Authentication failed"; for a
    * thrown failure, 401 and 400 answers get their own texts and everything else the generic one. */
  lemma Messages(q: Query, failure: Failure)
    ensures ProviderErrorMessage(Route, q) == OrElse(q.errorDescription, "Authentication failed")
    ensures failure.Responded? && failure.status == 400 ==>
      ErrorMessage(Route, failure) == "Bad request: " + OrElse(failure.data.message, "Invalid parameters")
    ensures ErrorMessage(Route, failure) == "Failed to authenticate with Twitch" <==>
      !(failure.Responded? && (failure.status == 401 || failure.status == 400))
  {
    ErrorMessageKinds(Route, failure);
  }
}
