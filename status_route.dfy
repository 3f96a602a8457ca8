/** `GET /api/auth/status`: which providers the session holds a token for. */
module StatusRoute {
  import opened Base
  import opened Jar
  import opened Http

  /** The answer is a function of the jar alone, so the route changes nothing and two calls on the
    * same jar answer the same. Only Twitch is ever reported: the YouTube, TikTok and Twitter flags
    * are constant `false`. */
  function Get(m: Cookies): (o: Outcome)
  {
    Json(200, StatusBody(Truthy(TextOf(m, "twitch_access_token")), false, false, false))
  }

  /** A YouTube login does not show: the flag stays `false` whatever the YouTube cookies hold,
    * and only the Twitch access token decides the answer. */
  lemma YouTubeNotReported(m: Cookies, name: string, c: Cookie)
    requires name != "twitch_access_token"
    ensures Get(m[name := c]) == Get(m)
  {
    assert TextOf(m[name := c], "twitch_access_token") == TextOf(m, "twitch_access_token");
  }

  /** The access-token text is all the route reads: two jars that agree on it answer the same,
    * whatever else they hold. */
  lemma ReadsOnlyAccessToken(m1: Cookies, m2: Cookies)
    requires TextOf(m1, "twitch_access_token") == TextOf(m2, "twitch_access_token")
    ensures Get(m1) == Get(m2)
  {
  }
}
