/** Whole logins: begin-auth followed by the provider's redirect back to the callback. The
  * provider echoes the `state` of the authorization request in its redirect (RFC 6749,
  * section 4.1.2), and the code exchange must repeat the authorization request's `redirect_uri`
  * (section 4.1.3). */
module Flows {
  import opened Base
  import opened Jar
  import opened Http
  import opened Providers
  import opened AuthCallback
  import TwitchAuthRoute
  import YouTubeAuthRoute
  import TwitchCallbackRoute
  import YouTubeCallbackRoute
  import TwitchPagesCallback

  /** The callback query as the provider sends it back after the user approved: the code, and the
    * `state` read from the authorization request. */
  function ApprovedQuery(authorize: seq<Param>, code: string): Query {
    Query(Some(code), GetParam(authorize, "state"), None, None)
  }

  /** A login whose begin-auth wrote `state` and asked for `beginUri`, and whose callback uses the
    * same `redirect_uri`, completes: the exchange repeats that URI, the dashboard is reached and
    * the nonce is spent. */
  lemma LoginRoundTrip(f: Flavor, m: Cookies, origin: string, env: Env, beginUri: string, state: string,
                       code: string, access: string, refresh: Option<string>, expiresIn: int, items: seq<Profile>, now: int)
    requires beginUri == ExchangeRedirectUri(f, origin, env)
    requires state != "" && code != "" && access != "" && items != []
    ensures var authorize := AuthorizeQuery(f.provider, env.clientId, beginUri, state);
      var r := Callback(f, ApprovedQuery(authorize, code), origin, env, Tokens(Some(access), refresh, expiresIn), Profiles(items), now,
                        m[f.provider.StateCookie() := StateCookieFor(state)]);
      && r.outcome == SuccessRedirect(f, origin)
      && |r.sent| == 2 && r.sent[0].TokenCall? && Some(r.sent[0].request.redirectUri) == GetParam(authorize, "redirect_uri")
      && !Present(r.cookies, f.provider.StateCookie())
  {
    var authorize := AuthorizeQuery(f.provider, env.clientId, beginUri, state);
    var started := m[f.provider.StateCookie() := StateCookieFor(state)];
    var q := ApprovedQuery(authorize, code);
    assert q.state == Some(state) && GetParam(authorize, "redirect_uri") == Some(beginUri) by {
      AuthorizeQueryReads(f.provider, env.clientId, beginUri, state);
    }
    assert ReachesExchange(f, q, started) by {
      assert TextOf(started, f.provider.StateCookie()) == Some(state);
    }
    var token := Tokens(Some(access), refresh, expiresIn);
    var r := Callback(f, q, origin, env, token, Profiles(items), now, started);
    assert r.outcome == SuccessRedirect(f, origin) && r.sent[0] == TokenCall(CodeGrant(env.clientId, env.clientSecret, code, beginUri)) && |r.sent| == 2 by {
      SuccessWrites(f, q, origin, env, access, refresh, expiresIn, items, now, started);
    }
    assert !Present(r.cookies, f.provider.StateCookie()) by {
      StateConsumed(f, q, origin, env, token, Profiles(items), now, started);
    }
  }

  /** The app-router Twitch routes build `redirect_uri` alike, so the code grant repeats the one
    * the authorization request carried, and the login reaches the dashboard. */
  lemma TwitchLogin(m: Cookies, origin: string, env: Env, state: string, code: string, access: string,
                    refresh: Option<string>, expiresIn: int, items: seq<Profile>, now: int)
    requires state != "" && code != "" && access != "" && items != []
    ensures var authorize := AuthorizeQuery(Twitch, env.clientId, RedirectUri(Twitch, env.baseUrl, origin), state);
      var r := Callback(TwitchCallbackRoute.Route, ApprovedQuery(authorize, code), origin, env, Tokens(Some(access), refresh, expiresIn),
                        Profiles(items), now, m[Twitch.StateCookie() := StateCookieFor(state)]);
      && r.sent != [] && r.sent[0].TokenCall? && Some(r.sent[0].request.redirectUri) == GetParam(authorize, "redirect_uri")
      && r.outcome == Redirect(origin + "/dashboard", [Param("auth", "success")])
  {
    assert ExchangeRedirectUri(TwitchCallbackRoute.Route, origin, env) == RedirectUri(Twitch, env.baseUrl, origin);
    assert SuccessRedirect(TwitchCallbackRoute.Route, origin) == Redirect(origin + "/dashboard", [Param("auth", "success")]);
    LoginRoundTrip(TwitchCallbackRoute.Route, m, origin, env, RedirectUri(Twitch, env.baseUrl, origin), state, code, access, refresh, expiresIn, items, now);
  }

  /** The YouTube routes build `redirect_uri` alike, so the code grant repeats the one the
    * authorization request carried, and the login reaches the dashboard. */
  lemma YouTubeLogin(m: Cookies, origin: string, env: Env, state: string, code: string, access: string,
                     refresh: Option<string>, expiresIn: int, items: seq<Profile>, now: int)
    requires state != "" && code != "" && access != "" && items != []
    ensures var authorize := AuthorizeQuery(YouTube, env.clientId, RedirectUri(YouTube, env.baseUrl, origin), state);
      var r := Callback(YouTubeCallbackRoute.Route, ApprovedQuery(authorize, code), origin, env, Tokens(Some(access), refresh, expiresIn),
                        Profiles(items), now, m[YouTube.StateCookie() := StateCookieFor(state)]);
      && r.sent != [] && r.sent[0].TokenCall? && Some(r.sent[0].request.redirectUri) == GetParam(authorize, "redirect_uri")
      && r.outcome == Redirect(origin + "/dashboard", [Param("auth", "success"), Param("platform", "youtube")])
  {
    assert ExchangeRedirectUri(YouTubeCallbackRoute.Route, origin, env) == RedirectUri(YouTube, env.baseUrl, origin);
    assert SuccessRedirect(YouTubeCallbackRoute.Route, origin) == Redirect(origin + "/dashboard", [Param("auth", "success"), Param("platform", "youtube")]);
    LoginRoundTrip(YouTubeCallbackRoute.Route, m, origin, env, RedirectUri(YouTube, env.baseUrl, origin), state, code, access, refresh, expiresIn, items, now);
  }

  /** `initTwitchAuth` and the pages-router callback share the `http://localhost:3000` default,
    * so the code grant repeats the authorization request's `redirect_uri` here too. */
  lemma PagesLogin(m: Cookies, env: Env, state: string, code: string, access: string,
                   refresh: Option<string>, expiresIn: int, items: seq<Profile>, now: int)
    requires state != "" && code != "" && access != "" && items != []
    ensures var authorize := AuthorizeQuery(Twitch, env.clientId, RedirectUri(Twitch, env.baseUrl, TwitchPagesCallback.LocalBase), state);
      var r := Callback(TwitchPagesCallback.Route, ApprovedQuery(authorize, code), "", env, Tokens(Some(access), refresh, expiresIn),
                        Profiles(items), now, m[Twitch.StateCookie() := StateCookieFor(state)]);
      && r.sent != [] && r.sent[0].TokenCall? && Some(r.sent[0].request.redirectUri) == GetParam(authorize, "redirect_uri")
      && r.outcome == Redirect("/dashboard", [])
  {
    assert ExchangeRedirectUri(TwitchPagesCallback.Route, "", env) == RedirectUri(Twitch, env.baseUrl, TwitchPagesCallback.LocalBase);
    assert SuccessRedirect(TwitchPagesCallback.Route, "") == Redirect("/dashboard", []);
    LoginRoundTrip(TwitchPagesCallback.Route, m, "", env, RedirectUri(Twitch, env.baseUrl, TwitchPagesCallback.LocalBase), state, code, access, refresh, expiresIn, items, now);
  }

  /** A nonce serves once: replaying a callback whose state matched, whatever became of it, is
    * rejected as an invalid state, and the replay changes nothing and sends nothing. */
  lemma ReplayRejected(f: Flavor, q: Query, origin: string, env: Env, token: TokenResult, profile: ProfileResult, now: int, m: Cookies,
                       token2: TokenResult, profile2: ProfileResult, now2: int)
    requires !Truthy(q.error) && StateMatches(f, q, m)
    ensures var first := Callback(f, q, origin, env, token, profile, now, m);
      Callback(f, q, origin, env, token2, profile2, now2, first.cookies) == Trace(ErrorRedirect(f, origin, InvalidState), first.cookies, [])
  {
    var first := Callback(f, q, origin, env, token, profile, now, m);
    StateConsumed(f, q, origin, env, token, profile, now, m);
    assert !StateMatches(f, q, first.cookies);
  }

  /** The Twitch app-router login run on one jar, handler after handler. */
  method TwitchLoginScenario(jar: CookieJar, origin: string, env: Env, state: string, code: string, access: string,
                             refresh: Option<string>, expiresIn: int, items: seq<Profile>, now: int)
    returns (outcome: Outcome)
    requires jar.Valid()
    requires state != "" && code != "" && access != "" && items != []
    modifies jar
    ensures jar.Valid()
    ensures outcome == Redirect(origin + "/dashboard", [Param("auth", "success")])
    ensures !Present(jar.cookies, "twitch_auth_state") && Present(jar.cookies, "twitch_access_token") && Present(jar.cookies, "twitch_user")
  {
    ghost var m := jar.cookies;
    var authorization := TwitchAuthRoute.Get(jar, origin, env, state);
    var q := ApprovedQuery(authorization.query, code);
    var sent;
    ghost var started := jar.cookies;
    outcome, sent := TwitchCallbackRoute.Get(jar, q, origin, env, Tokens(Some(access), refresh, expiresIn), Profiles(items), now);
    LoginRoundTrip(TwitchCallbackRoute.Route, m, origin, env, RedirectUri(Twitch, env.baseUrl, origin), state, code, access, refresh, expiresIn, items, now);
    SuccessWrites(TwitchCallbackRoute.Route, q, origin, env, access, refresh, expiresIn, items, now, started);
  }
}
