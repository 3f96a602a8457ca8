/** The cookie jar every handler reads and writes: the request's cookies together with the
  * `Set-Cookie` writes of the response (a later write of a name replaces the earlier one). In the
  * app router it is `cookies()` from `next/headers` or a response's `cookies`; in the pages router
  * it is `req.cookies`, which `setCookie` from cookies-next updates as it writes the header. */
module Jar {
  import opened Base

  /** The profile record a handler copies into its `*_user` cookie: `data[0]` of the Twitch users
    * endpoint, or the fields of `items[0]` of the YouTube channels endpoint. */
  datatype Profile =
    | TwitchProfile(id: string, login: string, displayName: string, profileImageUrl: string)
    | YouTubeChannel(id: string, title: string, customUrl: string, thumbnail: string,
                     subscriberCount: string, viewCount: string, videoCount: string)

  /** The JSON object of a `*_user` cookie: the profile fields, `authenticated: true`, and
    * `expires_at`, kept here as an instant in milliseconds since the epoch. */
  datatype UserInfo = UserInfo(profile: Profile, expiresAt: int)

  /** What a cookie holds: plain text (a state nonce, a token, `""` once cleared), or the JSON text
    * of a user record, kept structured. */
  datatype CookieValue = Text(text: string) | User(info: UserInfo)

  /** A cookie with the attributes the handlers set. `maxAge` is in seconds; `None` writes a
    * session cookie. The `secure` attribute depends on `NODE_ENV` and is not modelled. */
  datatype Cookie = Cookie(value: CookieValue, maxAge: Option<int>, httpOnly: bool, sameSiteLax: bool, path: string)

  type Cookies = map<string, Cookie>

  /** Both cookie libraries write path `/` when none is given. */
  const RootPath: string := "/"

  /** Names of the cookies that hold a user record. */
  predicate IsUserCookieName(name: string) {
    |name| >= 5 && name[|name| - 5..] == "_user"
  }

  /** The jar invariant: user records are only ever stored under `*_user` names. */
  predicate WellFormed(m: Cookies) {
    forall name :: name in m && m[name].value.User? ==> IsUserCookieName(name)
  }

  /** `cookies.get(name)?.value` is truthy: the cookie is there and not the empty string. */
  predicate Present(m: Cookies, name: string) {
    name in m && (m[name].value.User? || m[name].value.text != "")
  }

  /** `cookies.get(name)?.value` as text, when the cookie holds text. */
  function TextOf(m: Cookies, name: string): (r: Option<string>)
    ensures r.Some? <==> name in m && m[name].value.Text?
    ensures r.Some? ==> r.value == m[name].value.text
    ensures Truthy(r) ==> Present(m, name)
  {
    if name in m && m[name].value.Text? then Some(m[name].value.text) else None
  }

  /** The cookie a handler writes to clear `name`: empty text and the given `maxAge`. */
  function Cleared(maxAge: int): (c: Cookie)
  {
    Cookie(Text(""), Some(maxAge), false, false, RootPath)
  }

  /** A cleared cookie reads as missing. */
  lemma ClearedIsAbsent(m: Cookies, name: string, maxAge: int)
    ensures !Present(m[name := Cleared(maxAge)], name)
  {
  }

  /** The jar after each of `names` in turn was cleared with `maxAge`. */
  function ClearedAll(m: Cookies, names: seq<string>, maxAge: int): Cookies
    decreases |names|
  {
    if names == [] then m else ClearedAll(m[names[0] := Cleared(maxAge)], names[1..], maxAge)
  }

  /** Clearing a list of names clears exactly those names and leaves every other cookie alone. */
  lemma {:induction false} ClearedAllSpec(m: Cookies, names: seq<string>, maxAge: int)
    ensures forall n :: n in names ==> n in ClearedAll(m, names, maxAge) && ClearedAll(m, names, maxAge)[n] == Cleared(maxAge)
    ensures forall n :: n !in names ==> (n in ClearedAll(m, names, maxAge) <==> n in m)
    ensures forall n :: n !in names && n in m ==> ClearedAll(m, names, maxAge)[n] == m[n]
    decreases |names|
  {
    if names != [] {
      var m' := m[names[0] := Cleared(maxAge)];
      ClearedAllSpec(m', names[1..], maxAge);
      assert forall n :: n in names <==> n == names[0] || n in names[1..];
    }
  }

  /** Clearing keeps the jar invariant: a cleared cookie holds text. */
  lemma {:induction false} ClearedAllWellFormed(m: Cookies, names: seq<string>, maxAge: int)
    requires WellFormed(m)
    ensures WellFormed(ClearedAll(m, names, maxAge))
    decreases |names|
  {
    if names != [] {
      ClearedAllWellFormed(m[names[0] := Cleared(maxAge)], names[1..], maxAge);
    }
  }

  class CookieJar {
    var cookies: Cookies

    ghost predicate Valid()
      reads this
    {
      WellFormed(cookies)
    }

    constructor (initial: Cookies)
      requires WellFormed(initial)
      ensures Valid() && cookies == initial
    {
      cookies := initial;
    }

    /** `set(name, value, options)`: the cookie of that name is replaced. */
    method Set(name: string, c: Cookie)
      requires Valid()
      requires c.value.User? ==> IsUserCookieName(name)
      modifies this
      ensures Valid()
      ensures cookies == old(cookies)[name := c]
    {
      cookies := cookies[name := c];
    }

    /** `ResponseCookies.delete(name)`: the browser drops the cookie (an expired `Set-Cookie`). */
    method Delete(name: string)
      requires Valid()
      modifies this
      ensures Valid()
      ensures cookies == old(cookies) - {name}
    {
      cookies := cookies - {name};
    }

    /** `names.forEach((cookie) => setCookie(cookie, "", { req, res, maxAge }))`. */
    method ClearEach(names: seq<string>, maxAge: int)
      requires Valid()
      modifies this
      ensures Valid()
      ensures cookies == ClearedAll(old(cookies), names, maxAge)
    {
      ghost var start := cookies;
      for i := 0 to |names|
        invariant Valid()
        invariant ClearedAll(start, names, maxAge) == ClearedAll(cookies, names[i..], maxAge)
      {
        assert names[i..][1..] == names[i + 1..];
        Set(names[i], Cleared(maxAge));
      }
    }
  }
}
