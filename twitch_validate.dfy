/** `pages/api/auth/twitch/validate.ts`: check the stored Twitch access token against the users
  * endpoint, refresh it on a 401 and run the whole handler again, or clear the session cookies.
  *
  * The handler re-invokes itself after every successful refresh, with no bound. The answers of the
  * profile and token endpoints for the successive runs are given as a sequence of probes; when the
  * probes run out while the handler is still going, the result has no outcome. */
module TwitchValidate {
  import opened Base
  import opened Jar
  import opened Http
  import opened Providers

  /** What the two endpoints answer during one run: the profile fetch, and the refresh grant
    * should the run need one. */
  datatype Probe = Probe(profile: ProfileResult, refresh: TokenResult)

  /** A prefix of the handler's run: its outcome if it finished within the probes, the jar, and
    * the requests sent. */
  datatype Partial = Partial(outcome: Option<Outcome>, cookies: Cookies, sent: seq<Call>)

  const NoTokenMessage: string := "No Twitch access token found. Please authenticate first."
  const InvalidMessage: string := "Invalid or expired Twitch authentication. Please re-authenticate."
  const NoToken: Outcome := Json(401, AuthBody(false, Some(NoTokenMessage), None))
  const Invalid: Outcome := Json(401, AuthBody(false, Some(InvalidMessage), None))

  /** `expires_at` of the refreshed user record: an hour from now (milliseconds) without a user
    * cookie, the stored record's own expiry with one, and `None` when the cookie holds text that
    * `JSON.parse` rejects. */
  function StoredExpiry(m: Cookies, now: int): (r: Option<int>)
  {
    if !Present(m, "twitch_user") then Some(now + 3600 * 1000)
    else if m["twitch_user"].value.User? then Some(m["twitch_user"].value.info.expiresAt)
    else None
  }

  /** The refreshed user record: written without `maxAge` and readable by scripts. */
  function SessionUserCookie(info: UserInfo): Cookie {
    Cookie(User(info), None, false, true, RootPath)
  }

  /** Names cleared when the refresh fails, and when there is nothing to refresh with. */
  const ClearedOnRefreshFailure: seq<string> := ["twitch_access_token", "twitch_refresh_token", "twitch_user"]
  const ClearedWithoutRefresh: seq<string> := ["twitch_access_token", "twitch_user"]

  /** Reference definition of the handler on jar `m`. */
  function Validate(env: Env, now: int, requestMethod: string, m: Cookies, probes: seq<Probe>): Partial
    decreases |probes|
  {
    if requestMethod != "GET" then Partial(Some(MethodNotAllowed), m, [])
    else
      var access := TextOf(m, "twitch_access_token");
      if !Truthy(access) then Partial(Some(NoToken), m, [])
      else if probes == [] then Partial(None, m, [])
      else
        var probe := probes[0];
        var fetch := ProfileCall(access.value);
        match probe.profile
        case Profiles(items) =>
          if items == [] then Partial(Some(Invalid), m, [fetch])
          else
            var expiresAt := StoredExpiry(m, now);
            if expiresAt.None? then Partial(Some(Invalid), m, [fetch])
            else
              var info := UserInfo(items[0], expiresAt.value);
              Partial(Some(Json(200, AuthBody(true, None, Some(info)))), m["twitch_user" := SessionUserCookie(info)], [fetch])
        case ProfileFailed(failure) =>
          if !(failure.Responded? && failure.status == 401) then Partial(Some(Invalid), m, [fetch])
          else
            var refresh := TextOf(m, "twitch_refresh_token");
            if !Truthy(refresh) then Partial(Some(Invalid), ClearedAll(m, ClearedWithoutRefresh, 0), [fetch])
            else
              var grant := TokenCall(RefreshGrant(env.clientId, env.clientSecret, refresh.value));
              match probe.refresh
              case TokenFailed(_) => Partial(Some(Invalid), ClearedAll(m, ClearedOnRefreshFailure, 0), [fetch, grant])
              case Tokens(newAccess, newRefresh, expiresIn) =>
                var again := Validate(env, now, requestMethod, StoreTokens(Twitch, m, newAccess.GetOr(""), newRefresh, expiresIn), probes[1..]);
                Partial(again.outcome, again.cookies, [fetch, grant] + again.sent)
  }

  /** The handler, step by step on the jar, calling itself after a refresh. */
  method Handler(jar: CookieJar, requestMethod: string, env: Env, now: int, probes: seq<Probe>)
    returns (outcome: Option<Outcome>, sent: seq<Call>)
    requires jar.Valid()
    modifies jar
    ensures jar.Valid()
    ensures Partial(outcome, jar.cookies, sent) == Validate(env, now, requestMethod, old(jar.cookies), probes)
    decreases |probes|
  {
    if requestMethod != "GET" {
      return Some(MethodNotAllowed), [];
    }
    var accessToken := TextOf(jar.cookies, "twitch_access_token");
    if !Truthy(accessToken) {
      return Some(NoToken), [];
    }
    if probes == [] {
      return None, [];
    }
    ghost var m0 := jar.cookies;
    var probe := probes[0];
    sent := [ProfileCall(accessToken.value)];
    // try
    var failure: Failure;
    match probe.profile {
      case Profiles(items) =>
        if items == [] {
          failure := NoResponse;  // the `TypeError` of reading `id` of `undefined`
        } else {
          var expiresAt := StoredExpiry(jar.cookies, now);
          if expiresAt.None? {
            failure := NoResponse;  // the `SyntaxError` of `JSON.parse`
          } else {
            var userInfo := UserInfo(items[0], expiresAt.value);
            jar.Set("twitch_user", SessionUserCookie(userInfo));
            return Some(Json(200, AuthBody(true, None, Some(userInfo)))), sent;
          }
        }
      case ProfileFailed(x) =>
        failure := x;
    }
    // catch
    if failure.Responded? && failure.status == 401 {
      var refreshToken := TextOf(jar.cookies, "twitch_refresh_token");
      if Truthy(refreshToken) {
        sent := sent + [TokenCall(RefreshGrant(env.clientId, env.clientSecret, refreshToken.value))];
        if probe.refresh.Tokens? {
          WriteTokens(jar, Twitch, probe.refresh.accessToken.GetOr(""), probe.refresh.refreshToken, probe.refresh.expiresIn);
          ghost var m1 := jar.cookies;
          var more;
          outcome, more := Handler(jar, requestMethod, env, now, probes[1..]);
          ghost var again := Validate(env, now, requestMethod, m1, probes[1..]);
          assert Validate(env, now, requestMethod, m0, probes) == Partial(again.outcome, again.cookies, sent + again.sent);
          sent := sent + more;
          return;
        }
        jar.ClearEach(ClearedOnRefreshFailure, 0);
      } else {
        jar.ClearEach(ClearedWithoutRefresh, 0);
      }
    }
    outcome := Some(Invalid);
  }

  // ---------------------------------------------------------------------------------------------
  // Properties of the handler

  /** Anything but `GET` is refused with 405 before the jar is looked at. */
  lemma NotGetRefused(env: Env, now: int, requestMethod: string, m: Cookies, probes: seq<Probe>)
    requires requestMethod != "GET"
    ensures Validate(env, now, requestMethod, m, probes) == Partial(Some(MethodNotAllowed), m, [])
  {
  }

  /** Without an access token the handler answers 401 at once: nothing sent, nothing changed. */
  lemma NoTokenNoCall(env: Env, now: int, m: Cookies, probes: seq<Probe>)
    requires !Truthy(TextOf(m, "twitch_access_token"))
    ensures Validate(env, now, "GET", m, probes) == Partial(Some(NoToken), m, [])
  {
  }

  /** A valid token rewrites the user record with the fresh profile and the stored record's
    * expiry (or an hour from now without a user cookie), leaves every other cookie as it was, and
    * answers 200 with that record. */
  lemma SuccessRefreshesUser(env: Env, now: int, m: Cookies, probes: seq<Probe>)
    requires Truthy(TextOf(m, "twitch_access_token")) && probes != []
    requires probes[0].profile.Profiles? && probes[0].profile.items != []
    requires !Present(m, "twitch_user") || m["twitch_user"].value.User?
    ensures var r := Validate(env, now, "GET", m, probes);
      var expiresAt := if Present(m, "twitch_user") then m["twitch_user"].value.info.expiresAt else now + 3600 * 1000;
      var info := UserInfo(probes[0].profile.items[0], expiresAt);
      && r.outcome == Some(Json(200, AuthBody(true, None, Some(info))))
      && r.cookies == m["twitch_user" := SessionUserCookie(info)]
      && r.sent == [ProfileCall(TextOf(m, "twitch_access_token").value)]
  {
  }

  /** Any failure but a 401 answer answers 401 and clears nothing: an empty profile list, a
    * `twitch_user` text that `JSON.parse` rejects, or a failed fetch without a 401. */
  lemma OtherFailureKeepsJar(env: Env, now: int, m: Cookies, probes: seq<Probe>)
    requires Truthy(TextOf(m, "twitch_access_token")) && probes != []
    requires || probes[0].profile == Profiles([])
             || (probes[0].profile.Profiles? && Present(m, "twitch_user") && m["twitch_user"].value.Text?)
             || (probes[0].profile.ProfileFailed? && !(probes[0].profile.failure.Responded? && probes[0].profile.failure.status == 401))
    ensures Validate(env, now, "GET", m, probes) == Partial(Some(Invalid), m, [ProfileCall(TextOf(m, "twitch_access_token").value)])
  {
  }

  /** A 401 with a refresh token whose refresh fails clears the access, refresh and user cookies
    * (empty value, `maxAge: 0`) and answers 401; nothing else changes. */
  lemma RefreshFailureClearsThree(env: Env, now: int, m: Cookies, probes: seq<Probe>)
    requires Truthy(TextOf(m, "twitch_access_token")) && Truthy(TextOf(m, "twitch_refresh_token")) && probes != []
    requires probes[0].profile.ProfileFailed? && probes[0].profile.failure.Responded? && probes[0].profile.failure.status == 401
    requires probes[0].refresh.TokenFailed?
    ensures var r := Validate(env, now, "GET", m, probes);
      && r.outcome == Some(Invalid)
      && |r.sent| == 2 && r.sent[1].TokenCall? && r.sent[1].request.GrantType() == "refresh_token"
      && (forall n :: n in ClearedOnRefreshFailure ==> n in r.cookies && r.cookies[n] == Cleared(0) && !Present(r.cookies, n))
      && (forall n :: n !in ClearedOnRefreshFailure ==> (n in r.cookies <==> n in m) && (n in m ==> r.cookies[n] == m[n]))
  {
    ClearedAllSpec(m, ClearedOnRefreshFailure, 0);
  }

  /** A 401 without a refresh token clears only the access and user cookies and answers 401; the
    * refresh cookie, whatever it holds, is left alone. */
  lemma NoRefreshClearsTwo(env: Env, now: int, m: Cookies, probes: seq<Probe>)
    requires Truthy(TextOf(m, "twitch_access_token")) && !Truthy(TextOf(m, "twitch_refresh_token")) && probes != []
    requires probes[0].profile.ProfileFailed? && probes[0].profile.failure.Responded? && probes[0].profile.failure.status == 401
    ensures var r := Validate(env, now, "GET", m, probes);
      && r.outcome == Some(Invalid)
      && |r.sent| == 1
      && (forall n :: n in ClearedWithoutRefresh ==> n in r.cookies && r.cookies[n] == Cleared(0))
      && (forall n :: n !in ClearedWithoutRefresh ==> (n in r.cookies <==> n in m) && (n in m ==> r.cookies[n] == m[n]))
  {
    ClearedAllSpec(m, ClearedWithoutRefresh, 0);
  }

  /** A probe on which the stored token is rejected with 401 and the refresh then succeeds with a
    * non-empty access token. */
  predicate Refreshes(p: Probe) {
    && p.profile.ProfileFailed? && p.profile.failure.Responded? && p.profile.failure.status == 401
    && p.refresh.Tokens? && Truthy(p.refresh.accessToken)
  }

  /** A refresh leaves both token cookies truthy: the access token is the new one, and the
    * refresh token is the new one or, without one, the old one. */
  lemma RefreshKeepsTokens(m: Cookies, access: string, refresh: Option<string>, expiresIn: int)
    requires Truthy(TextOf(m, "twitch_refresh_token")) && access != ""
    ensures var m' := StoreTokens(Twitch, m, access, refresh, expiresIn);
      TextOf(m', "twitch_access_token") == Some(access) && Truthy(TextOf(m', "twitch_refresh_token"))
  {
  }

  /** No retry bound: as long as every run is rejected with 401 and every refresh succeeds, the
    * handler keeps calling itself, sending a profile fetch and a refresh grant per run, and does
    * not finish within any number of probes. */
  lemma {:induction false} UnboundedRetry(env: Env, now: int, m: Cookies, probes: seq<Probe>)
    requires Truthy(TextOf(m, "twitch_access_token")) && Truthy(TextOf(m, "twitch_refresh_token"))
    requires forall i :: 0 <= i < |probes| ==> Refreshes(probes[i])
    ensures var r := Validate(env, now, "GET", m, probes);
      r.outcome.None? && |r.sent| == 2 * |probes|
    decreases |probes|
  {
    if probes != [] {
      var t := probes[0].refresh;
      var m' := StoreTokens(Twitch, m, t.accessToken.GetOr(""), t.refreshToken, t.expiresIn);
      RefreshKeepsTokens(m, t.accessToken.value, t.refreshToken, t.expiresIn);
      assert forall i :: 0 <= i < |probes[1..]| ==> Refreshes(probes[1..][i]) by {
        forall i | 0 <= i < |probes[1..]| ensures Refreshes(probes[1..][i]) {
          assert probes[1..][i] == probes[i + 1];
        }
      }
      UnboundedRetry(env, now, m', probes[1..]);
    }
  }

  /** After a successful refresh the second run sees the new access token: it probes the profile
    * with it, and a valid answer then completes the validation. */
  lemma RetrySeesNewToken(env: Env, now: int, m: Cookies, first: Probe, second: Probe)
    requires Truthy(TextOf(m, "twitch_access_token")) && Truthy(TextOf(m, "twitch_refresh_token"))
    requires Refreshes(first) && second.profile.Profiles? && second.profile.items != []
    requires !Present(m, "twitch_user") || m["twitch_user"].value.User?
    ensures var r := Validate(env, now, "GET", m, [first, second]);
      && r.outcome.Some? && r.outcome.value.Json? && r.outcome.value.status == 200
      && |r.sent| == 3 && r.sent[2] == ProfileCall(first.refresh.accessToken.value)
  {
    var t := first.refresh;
    var m' := StoreTokens(Twitch, m, t.accessToken.value, t.refreshToken, t.expiresIn);
    RefreshKeepsTokens(m, t.accessToken.value, t.refreshToken, t.expiresIn);
    assert "twitch_user" in m' <==> "twitch_user" in m;
    assert "twitch_user" in m ==> m'["twitch_user"] == m["twitch_user"];
    assert [first, second][1..] == [second];
    SuccessRefreshesUser(env, now, m', [second]);
  }
}
