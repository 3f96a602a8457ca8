/** The two OAuth 2.0 providers and the names and constants the handlers use for each. */
module Providers {
  import opened Base
  import opened Jar
  import opened Http

  datatype Provider = Twitch | YouTube {
    /** The cookie holding the `state` nonce between begin-auth and callback. */
    function StateCookie(): string {
      if Twitch? then "twitch_auth_state" else "youtube_auth_state"
    }

    function AccessCookie(): string {
      if Twitch? then "twitch_access_token" else "youtube_access_token"
    }

    function RefreshCookie(): string {
      if Twitch? then "twitch_refresh_token" else "youtube_refresh_token"
    }

    /** The readable cookie holding the user record. */
    function UserCookie(): string {
      if Twitch? then "twitch_user" else "youtube_user"
    }

    /** The path of the provider's callback handler, the suffix of every `redirect_uri`. */
    function CallbackPath(): string {
      if Twitch? then "/api/auth/twitch/callback" else "/api/auth/youtube/callback"
    }
  }

  /** `maxAge` of the state cookie: ten minutes. */
  const StateMaxAge: int := 10 * 60

  /** `maxAge` of a refresh-token cookie: thirty days. */
  const RefreshMaxAge: int := 30 * 24 * 60 * 60

  /** The cookie names of a provider: of these only the user cookie may hold a user record, and
    * the four names are pairwise different. */
  lemma CookieNames(p: Provider)
    ensures IsUserCookieName(p.UserCookie())
    ensures !IsUserCookieName(p.StateCookie()) && !IsUserCookieName(p.AccessCookie()) && !IsUserCookieName(p.RefreshCookie())
    ensures p.StateCookie() != p.AccessCookie() && p.StateCookie() != p.RefreshCookie() && p.StateCookie() != p.UserCookie()
    ensures p.AccessCookie() != p.RefreshCookie() && p.AccessCookie() != p.UserCookie() && p.RefreshCookie() != p.UserCookie()
  {
    assert p.StateCookie()[|p.StateCookie()| - 1] != p.UserCookie()[|p.UserCookie()| - 1];
    assert p.AccessCookie()[|p.AccessCookie()| - 1] != p.UserCookie()[|p.UserCookie()| - 1];
    assert p.RefreshCookie()[|p.RefreshCookie()| - 1] != p.UserCookie()[|p.UserCookie()| - 1];
    assert p.StateCookie()[|p.StateCookie()| - 1] != p.AccessCookie()[|p.AccessCookie()| - 1];
  }

  /** The state cookie begin-auth writes: the nonce, httpOnly, lax, living ten minutes. */
  function StateCookieFor(state: string): Cookie {
    Cookie(Text(state), Some(StateMaxAge), true, true, RootPath)
  }

  /** The provider's authorization endpoint (RFC 6749, section 3.1). */
  function AuthorizeEndpoint(p: Provider): string {
    if p.Twitch? then "https://id.twitch.tv/oauth2/authorize" else "https://accounts.google.com/o/oauth2/v2/auth"
  }

  /** The scopes the dashboard asks for: four Twitch scopes, or read-only access to YouTube. */
  function Scope(p: Provider): string {
    if p.Twitch? then "user:read:email user:read:follows channel:read:subscriptions moderator:read:followers"
    else "https://www.googleapis.com/auth/youtube.readonly"
  }

  /** The five pairs every authorization request starts with (RFC 6749, section 4.1.1). */
  function CodeRequest(clientId: string, redirectUri: string, scope: string, state: string): seq<Param> {
    [Param("client_id", clientId), Param("redirect_uri", redirectUri), Param("response_type", "code"),
     Param("scope", scope), Param("state", state)]
  }

  /** The query of the authorization request, in the order the pairs are appended: five pairs
    * for Twitch; for YouTube two more asking for offline access and a consent prompt, so that
    * Google returns a refresh token. */
  function AuthorizeQuery(p: Provider, clientId: string, redirectUri: string, state: string): seq<Param> {
    CodeRequest(clientId, redirectUri, Scope(p), state)
    + (if p.Twitch? then [] else [Param("access_type", "offline"), Param("prompt", "consent")])
  }

  /** Each of the five pairs is read under its own key. */
  lemma CodeRequestReads(clientId: string, redirectUri: string, scope: string, state: string, b: seq<Param>)
    ensures GetParam(CodeRequest(clientId, redirectUri, scope, state) + b, "client_id") == Some(clientId)
    ensures GetParam(CodeRequest(clientId, redirectUri, scope, state) + b, "redirect_uri") == Some(redirectUri)
    ensures GetParam(CodeRequest(clientId, redirectUri, scope, state) + b, "response_type") == Some("code")
    ensures GetParam(CodeRequest(clientId, redirectUri, scope, state) + b, "scope") == Some(scope)
    ensures GetParam(CodeRequest(clientId, redirectUri, scope, state) + b, "state") == Some(state)
  {
    var a := CodeRequest(clientId, redirectUri, scope, state);
    GetParamAt(a, b, "client_id", 0);
    GetParamAt(a, b, "redirect_uri", 1);
    GetParamAt(a, b, "response_type", 2);
    GetParamAt(a, b, "scope", 3);
    GetParamAt(a, b, "state", 4);
  }

  /** The authorization request asks for a code (RFC 6749, section 4.1.1) and carries the client
    * id, the redirect URI and the state nonce under their own keys. */
  lemma AuthorizeQueryReads(p: Provider, clientId: string, redirectUri: string, state: string)
    ensures |AuthorizeQuery(p, clientId, redirectUri, state)| == if p.Twitch? then 5 else 7
    ensures GetParam(AuthorizeQuery(p, clientId, redirectUri, state), "client_id") == Some(clientId)
    ensures GetParam(AuthorizeQuery(p, clientId, redirectUri, state), "redirect_uri") == Some(redirectUri)
    ensures GetParam(AuthorizeQuery(p, clientId, redirectUri, state), "response_type") == Some("code")
    ensures GetParam(AuthorizeQuery(p, clientId, redirectUri, state), "scope") == Some(Scope(p))
    ensures GetParam(AuthorizeQuery(p, clientId, redirectUri, state), "state") == Some(state)
  {
    CodeRequestReads(clientId, redirectUri, Scope(p), state, if p.Twitch? then [] else [Param("access_type", "offline"), Param("prompt", "consent")]);
  }

  /** `${base || fallback}/api/auth/<provider>/callback`: the `redirect_uri` of both the
    * authorization request and the code exchange. */
  function RedirectUri(p: Provider, base: Option<string>, fallback: string): (r: string)
  {
    OrElse(base, fallback) + p.CallbackPath()
  }

  /** The access-token cookie: httpOnly, lax, living `expiresIn` seconds. */
  function AccessTokenCookie(token: string, expiresIn: int): Cookie {
    Cookie(Text(token), Some(expiresIn), true, true, RootPath)
  }

  /** The refresh-token cookie: httpOnly, lax, living thirty days. */
  function RefreshTokenCookie(token: string): Cookie {
    Cookie(Text(token), Some(RefreshMaxAge), true, true, RootPath)
  }

  /** The token writes shared by the callbacks, the refresh route and validate: the access token
    * always, the refresh token only when the provider returned a non-empty one. */
  function StoreTokens(p: Provider, m: Cookies, access: string, refresh: Option<string>, expiresIn: int): (r: Cookies)
    ensures p.AccessCookie() in r && r[p.AccessCookie()] == AccessTokenCookie(access, expiresIn)
    ensures Truthy(refresh) ==> p.RefreshCookie() in r && r[p.RefreshCookie()] == RefreshTokenCookie(refresh.value)
    ensures !Truthy(refresh) ==> (p.RefreshCookie() in r <==> p.RefreshCookie() in m)
    ensures !Truthy(refresh) && p.RefreshCookie() in m ==> r[p.RefreshCookie()] == m[p.RefreshCookie()]
    ensures forall n :: n != p.AccessCookie() && n != p.RefreshCookie() ==> (n in r <==> n in m)
    ensures forall n :: n != p.AccessCookie() && n != p.RefreshCookie() && n in m ==> r[n] == m[n]
    ensures WellFormed(m) ==> WellFormed(r)
  {
    CookieNames(p);
    var m1 := m[p.AccessCookie() := AccessTokenCookie(access, expiresIn)];
    if Truthy(refresh) then m1[p.RefreshCookie() := RefreshTokenCookie(refresh.value)] else m1
  }

  /** The token writes on the jar: `cookies().set` of the access token, then of the refresh token
    * when there is one. */
  method WriteTokens(jar: CookieJar, p: Provider, access: string, refresh: Option<string>, expiresIn: int)
    requires jar.Valid()
    modifies jar
    ensures jar.Valid()
    ensures jar.cookies == StoreTokens(p, old(jar.cookies), access, refresh, expiresIn)
  {
    CookieNames(p);
    jar.Set(p.AccessCookie(), AccessTokenCookie(access, expiresIn));
    if Truthy(refresh) {
      jar.Set(p.RefreshCookie(), RefreshTokenCookie(refresh.value));
    }
  }
}
