/** `GET /api/auth/youtube/callback` of the app router. */
module YouTubeCallbackRoute {
  import opened Base
  import opened Jar
  import opened Http
  import opened Providers
  import opened AuthCallback

  /** Origin-prefixed redirects; a provider error always shows one fixed text; the state cookie
    * is cleared with `maxAge: -1`; a 400 is explained by `error_description`; success goes to
    * `/dashboard?auth=success&platform=youtube`; `redirect_uri` falls back to the request origin. */
  const Route: Flavor := Flavor(YouTube, false, Some("YouTube authentication failed"), -1, true,
                                "Failed to authenticate with YouTube", "/dashboard",
                                [Param("auth", "success"), Param("platform", "youtube")], None)

  method Get(jar: CookieJar, q: Query, origin: string, env: Env, token: TokenResult, profile: ProfileResult, now: int)
    returns (outcome: Outcome, sent: seq<Call>)
    requires jar.Valid()
    modifies jar
    ensures jar.Valid()
    ensures Trace(outcome, jar.cookies, sent) == Callback(Route, q, origin, env, token, profile, now, old(jar.cookies))
  {
    outcome, sent := Run(jar, Route, q, origin, env, token, profile, now);
  }

  /** The texts of this handler: a provider error shows the fixed text whatever its description;
    * a 400 is explained by `error_description`, not `message`. */
  lemma Messages(q: Query, failure: Failure)
    ensures ProviderErrorMessage(Route, q) == "YouTube authentication failed"
    ensures failure.Responded? && failure.status == 400 ==>
      ErrorMessage(Route, failure) == "Bad request: " + OrElse(failure.data.errorDescription, "Invalid parameters")
    ensures ErrorMessage(Route, failure) == "Failed to authenticate with YouTube" <==>
      !(failure.Responded? && (failure.status == 401 || failure.status == 400))
  {
    ErrorMessageKinds(Route, failure);
  }
}
