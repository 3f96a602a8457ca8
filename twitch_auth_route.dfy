/** `GET /api/auth/twitch`: begin the Twitch login. */
module TwitchAuthRoute {
  import opened Base
  import opened Jar
  import opened Http
  import opened Providers

  /** Store the `state` nonce (from `nanoid()`) in its cookie, then build the authorization URL
    * by appending its query pairs one by one. The redirect URI is based on `NEXT_PUBLIC_BASE_URL`,
    * or on the request's `origin` when that is unset. */
  method Get(jar: CookieJar, origin: string, env: Env, state: string) returns (outcome: Outcome)
    requires jar.Valid()
    modifies jar
    ensures jar.Valid()
    ensures jar.cookies == old(jar.cookies)[Twitch.StateCookie() := StateCookieFor(state)]
    ensures outcome == Redirect(AuthorizeEndpoint(Twitch), AuthorizeQuery(Twitch, env.clientId, RedirectUri(Twitch, env.baseUrl, origin), state))
  {
    jar.Set("twitch_auth_state", StateCookieFor(state));
    var authUrl := new SearchParams();
    authUrl.Append("client_id", env.clientId);
    authUrl.Append("redirect_uri", OrElse(env.baseUrl, origin) + "/api/auth/twitch/callback");
    authUrl.Append("response_type", "code");
    authUrl.Append("scope", "user:read:email user:read:follows channel:read:subscriptions moderator:read:followers");
    authUrl.Append("state", state);
    outcome := Redirect("https://id.twitch.tv/oauth2/authorize", authUrl.pairs);
  }
}
