/** `GET /api/auth/twitch/refresh`: trade the stored refresh token for a new access token
  * (RFC 6749, section 6). */
module TwitchRefreshRoute {
  import opened Base
  import opened Jar
  import opened Http
  import opened Providers

  const NoRefreshToken: Outcome := Json(401, ErrorBody("No refresh token available"))
  const Refreshed: Outcome := Json(200, SuccessBody)
  const RefreshFailed: Outcome := Json(401, ErrorBody("Failed to refresh token"))

  /** The names the failure path deletes. `twitch_user_id` is never written by any handler, and
    * the `twitch_user` record is not among them. */
  const Deleted: set<string> := {"twitch_access_token", "twitch_refresh_token", "twitch_user_id"}

  /** The refresh grant built from the stored refresh token. */
  function Grant(env: Env, refreshToken: string): Call {
    TokenCall(RefreshGrant(env.clientId, env.clientSecret, refreshToken))
  }

  /** Reference definition of the route on jar `m`, given what the token endpoint would answer.
    * A missing `access_token` in a successful answer is written as the empty value. */
  function Refresh(env: Env, token: TokenResult, m: Cookies): Trace {
    var stored := TextOf(m, Twitch.RefreshCookie());
    if !Truthy(stored) then Trace(NoRefreshToken, m, [])
    else
      match token
      case TokenFailed(_) => Trace(RefreshFailed, m - Deleted, [Grant(env, stored.value)])
      case Tokens(access, refresh, expiresIn) =>
        Trace(Refreshed, StoreTokens(Twitch, m, access.GetOr(""), refresh, expiresIn), [Grant(env, stored.value)])
  }

  method Get(jar: CookieJar, env: Env, token: TokenResult) returns (outcome: Outcome, sent: seq<Call>)
    requires jar.Valid()
    modifies jar
    ensures jar.Valid()
    ensures Trace(outcome, jar.cookies, sent) == Refresh(env, token, old(jar.cookies))
  {
    var refreshToken := TextOf(jar.cookies, "twitch_refresh_token");
    if !Truthy(refreshToken) {
      return NoRefreshToken, [];
    }
    sent := [Grant(env, refreshToken.value)];
    if token.TokenFailed? {
      jar.Delete("twitch_access_token");
      jar.Delete("twitch_refresh_token");
      jar.Delete("twitch_user_id");
      assert jar.cookies == old(jar.cookies) - Deleted;
      return RefreshFailed, sent;
    }
    WriteTokens(jar, Twitch, token.accessToken.GetOr(""), token.refreshToken, token.expiresIn);
    outcome := Refreshed;
  }

  /** Without a stored refresh token the route answers 401 at once: nothing sent, nothing changed. */
  lemma NoRefreshTokenRefused(env: Env, token: TokenResult, m: Cookies)
    requires !Truthy(TextOf(m, "twitch_refresh_token"))
    ensures Refresh(env, token, m) == Trace(NoRefreshToken, m, [])
  {
  }

  /** With one, exactly one request goes out: a `refresh_token` grant carrying the stored token. */
  lemma RefreshGrantSent(env: Env, token: TokenResult, m: Cookies)
    requires Truthy(TextOf(m, "twitch_refresh_token"))
    ensures var r := Refresh(env, token, m);
      && |r.sent| == 1 && r.sent[0].TokenCall?
      && r.sent[0].request.GrantType() == "refresh_token"
      && r.sent[0].request == RefreshGrant(env.clientId, env.clientSecret, TextOf(m, "twitch_refresh_token").value)
  {
  }

  /** Success answers `{success: true}`, replaces the access cookie (httpOnly, path `/`, living
    * `expires_in` seconds), replaces the refresh cookie only when a new refresh token came, and
    * leaves every other cookie, the `twitch_user` record included, as it was. */
  lemma RefreshSuccess(env: Env, access: Option<string>, refresh: Option<string>, expiresIn: int, m: Cookies)
    requires Truthy(TextOf(m, "twitch_refresh_token"))
    ensures var r := Refresh(env, Tokens(access, refresh, expiresIn), m);
      && r.outcome == Refreshed
      && "twitch_access_token" in r.cookies
      && r.cookies["twitch_access_token"] == Cookie(Text(access.GetOr("")), Some(expiresIn), true, true, "/")
      && "twitch_refresh_token" in r.cookies
      && r.cookies["twitch_refresh_token"] == (if Truthy(refresh) then RefreshTokenCookie(refresh.value) else m["twitch_refresh_token"])
      && (forall n :: n != "twitch_access_token" && n != "twitch_refresh_token" ==> (n in r.cookies <==> n in m))
      && (forall n :: n != "twitch_access_token" && n != "twitch_refresh_token" && n in m ==> r.cookies[n] == m[n])
  {
  }

  /** Failure answers 401 and deletes the three names; the `twitch_user` record survives. */
  lemma RefreshFailure(env: Env, failure: Failure, m: Cookies)
    requires Truthy(TextOf(m, "twitch_refresh_token"))
    ensures var r := Refresh(env, TokenFailed(failure), m);
      && r.outcome == RefreshFailed
      && "twitch_access_token" !in r.cookies && "twitch_refresh_token" !in r.cookies && "twitch_user_id" !in r.cookies
      && ("twitch_user" in r.cookies <==> "twitch_user" in m)
      && ("twitch_user" in m ==> r.cookies["twitch_user"] == m["twitch_user"])
  {
  }
}
