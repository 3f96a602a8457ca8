/** `GET /api/auth/youtube`: begin the YouTube (Google) login. */
module YouTubeAuthRoute {
  import opened Base
  import opened Jar
  import opened Http
  import opened Providers

  /** Store the `state` nonce (from `nanoid()`) in its cookie, then build the authorization URL
    * by appending its seven query pairs one by one. */
  method Get(jar: CookieJar, origin: string, env: Env, state: string) returns (outcome: Outcome)
    requires jar.Valid()
    modifies jar
    ensures jar.Valid()
    ensures jar.cookies == old(jar.cookies)[YouTube.StateCookie() := StateCookieFor(state)]
    ensures outcome == Redirect(AuthorizeEndpoint(YouTube), AuthorizeQuery(YouTube, env.clientId, RedirectUri(YouTube, env.baseUrl, origin), state))
  {
    jar.Set("youtube_auth_state", StateCookieFor(state));
    var authUrl := new SearchParams();
    authUrl.Append("client_id", env.clientId);
    authUrl.Append("redirect_uri", OrElse(env.baseUrl, origin) + "/api/auth/youtube/callback");
    authUrl.Append("response_type", "code");
    authUrl.Append("scope", "https://www.googleapis.com/auth/youtube.readonly");
    authUrl.Append("state", state);
    authUrl.Append("access_type", "offline");
    authUrl.Append("prompt", "consent");
    outcome := Redirect("https://accounts.google.com/o/oauth2/v2/auth", authUrl.pairs);
  }
}
