# social-dashboard authentication core, modelled in Dafny

This project models the OAuth 2.0 authorization-code login of the social-dashboard Next.js app
for Twitch and YouTube (Google), and proves properties of that model. It covers five pieces:

- **Begin-auth routes.** They store a `state` nonce in a cookie and redirect to the provider's
  authorization endpoint.
- **Callback handlers.** There are three: the Twitch and YouTube app-router routes, and the
  Twitch pages-router handler. Each one:
  - checks the provider error and the `state` nonce;
  - consumes the nonce;
  - exchanges the code;
  - fetches the profile;
  - writes the token and user cookies;
  - redirects, mapping every exception to an error text.
- **Twitch refresh route, Twitch validate handler and status route.**
- **Client-side helpers of the two client API modules.** These are the `document.cookie` token
  getters, the month window of the follower and subscriber histories, and the ISO 8601 duration
  formatter.

Every handler works on one cookie jar, `Jar.CookieJar`. The jar holds the request's cookies
together with the `Set-Cookie` writes of the response.

The handlers that change the jar are imperative methods. Each one is proved equal to a
reference function over the old jar, such as `AuthCallback.Callback`, `TwitchRefreshRoute.Refresh`
or `TwitchValidate.Validate`. Lemmas then state what the source promises about those functions:
- the CSRF check;
- consumption of the nonce;
- which cookies change;
- the requests sent;
- the error texts.

Answers from the network are parameters of the handlers:
- the token grant (`TokenResult`);
- the profile fetch (`ProfileResult`);
- for the validate handler, one `Probe` per run.

The requests a handler sends are returned as a list of `Call`s.

The three callbacks are one shared model, `AuthCallback.Run`. A `Flavor` holds what tells the
three copies apart:
- the error texts;
- which field explains a 400;
- the `maxAge` used to clear the state cookie;
- relative or origin-prefixed redirects;
- the success query;
- the `redirect_uri` fallback.

Module `Flows` composes begin-auth with the callback. For each pair of routes it proves that
the code grant repeats, byte for byte, the `redirect_uri` of the authorization request (RFC 6749,
section 4.1.3), and that the approved login reaches the dashboard. It also proves that the nonce
serves only once.

## Where the code and the intended behaviour differ

The model follows the code in each case below. Each bullet first states what the handlers are
meant to do, then what the code does.

- **Profile-fetch failure.** A failed profile fetch should not lose the login: the tokens should
  be kept and the user sent on. In the code it is fatal. A failed profile fetch throws before any
  token cookie is written, and the user lands on the error page. An empty profile list throws
  only after the token cookies were written, so the user sees the error page while holding fresh
  tokens (`AuthCallback.EmptyProfileKeepsTokens`).
- **Refresh failure.** A failed refresh should clear every token and profile cookie of the
  provider; the validate handler's own comment says "Clear all cookies since the refresh
  failed" (src/app/api/auth/twitch/validate.ts:116). The refresh route deletes
  `twitch_access_token`, `twitch_refresh_token` and `twitch_user_id`. No handler ever writes
  `twitch_user_id`. The `twitch_user` record survives (`TwitchRefreshRoute.RefreshFailure`).
- **Refresh and retry.** A 401 should lead to at most one refresh and one retry. The validate
  handler calls itself after every successful refresh, with no bound
  (`TwitchValidate.UnboundedRetry`).
- **Status route.** The status route should report every provider the session is logged in to.
  It reports only Twitch. The YouTube flag is always `false`, even after a YouTube login
  (`StatusRoute.YouTubeNotReported`).
- **Timeouts.** The outbound calls should give up after a bounded time. The code sets no
  timeout, beyond what the HTTP client does.

## Model

| member | source | states |
|---|---|---|
| Base.JsRem | src/lib/api/twitch.ts:148 | JavaScript `%`: for a non-negative dividend it is the ordinary remainder below the divisor; for a negative dividend `a` it lies in `(-b, 0]` and is `-((-a) % b)`, the remainder truncated toward zero |
| Base.JsRemOdd | src/lib/api/twitch.ts:148 | negating the dividend negates the remainder, so `(m - 4) % 12` for a month before April is the negated remainder of `4 - m` |
| Strings.Trim | src/lib/api/twitch.ts:19 | `trim()` gives a slice `s[i..j]` of its input with only white space before `i` and after `j`, that neither starts nor ends with white space; a string whose ends are not white space comes back unchanged |
| Strings.TrimIdempotent | src/lib/api/twitch.ts:19 | trimming twice is trimming once |
| Strings.TrimLeading | src/lib/api/twitch.ts:19 | white space in front of a text whose ends are not white space is cut off, leaving exactly that text |
| Strings.TrimKeepsOut | src/lib/api/twitch.ts:19-20 | trimming never brings in a character the input lacked, so a piece without `=` still has none |
| Strings.Split | src/lib/api/twitch.ts:18-19 | `split(c)` yields at least one piece, and no piece contains the separator |
| Strings.JoinSplit | src/lib/api/twitch.ts:18-19 | joining the pieces of a split with the separator gives back the original string |
| Strings.SplitJoin | src/lib/api/twitch.ts:18-19 | splitting a join of separator-free pieces gives back the pieces |
| Strings.Show | src/lib/api/youtube.ts:235-239 | `n.toString()` is a non-empty numeral of decimal digits with no leading zero |
| Strings.DigitsValueShow | src/lib/api/youtube.ts:230-232 | `parseInt` reads back the value that `toString` writes |
| DocumentCookies.EntryOfPiece | src/lib/api/twitch.ts:19-20 | any piece that trims to `key=value` (possibly followed by a further `=`), spaces at its ends included, is read as the trimmed key with exactly the text between the first and the second `=` as its value |
| DocumentCookies.SpacedPieceEntry | src/lib/api/twitch.ts:18-20 | a piece ` name=value` as it follows `; ` in `document.cookie` is read as `name` with value `value`: the leading space is dropped |
| DocumentCookies.EntryWithoutValue | src/lib/api/twitch.ts:19-20 | a piece without `=` yields an entry whose value is `undefined` |
| DocumentCookies.LastEntryIsLastOccurrence | src/lib/api/twitch.ts:18-22 | the reference lookup returns the value of the last entry carrying the key |
| DocumentCookies.LastEntryAbsent | src/lib/api/twitch.ts:18-22 | the reference lookup finds nothing exactly when no entry carries the key |
| DocumentCookies.RecordIsLastEntry | src/lib/api/twitch.ts:18-22 | the record built by assigning each entry in turn holds, under every key, the last entry's value, and holds exactly the keys that occur |
| DocumentCookies.Parse | src/lib/api/twitch.ts:18-22 | the `reduce` loop yields a record whose keys and values are those of the last entry for each key |
| DocumentCookies.GetToken | src/lib/api/twitch.ts:15-25 | `null` without a document; otherwise `cookies[name] \|\| null` on the entries of the `;`-pieces: a token exactly when the last entry under the name carries a non-empty value, and then that value; a returned token is never empty |
| TwitchClient.GetTwitchToken | src/lib/api/twitch.ts:15-25 | the token getter reads `twitch_access_token` as above |
| YouTubeClient.GetYouTubeToken | src/lib/api/youtube.ts:15-25 | the token getter reads `youtube_access_token` as above |
| MonthHistory.LastFiveMonths | src/lib/api/twitch.ts:146-150 | five labels, oldest first, for months `currentMonth-4 … currentMonth` taken modulo 12, ending at the current month |
| MonthHistory.MonthIndex | src/lib/api/twitch.ts:148 | adding 12 before `%` keeps the dividend non-negative, so the index is the month `i` back, wrapping around the year |
| MonthHistory.WindowIsDistinct | src/lib/api/twitch.ts:146-150 | the five labels of a window are pairwise distinct months |
| MonthHistory.GenerateHistory | src/lib/api/twitch.ts:146-165 | five points; point `i` carries the month label `i` of the window and the count for exponent `4 - i` |
| TwitchClient.GenerateFollowerHistory | src/lib/api/twitch.ts:124-168 | the follower history is five points labelled by the months ending at the current one, with the count for exponent `4 - i` |
| YouTubeClient.GenerateSubscriberHistory | src/lib/api/youtube.ts:144-188 | the same for the subscriber history |
| YouTubeClient.FindPT | src/lib/api/youtube.ts:226 | the unanchored expression starts at the first "PT": the position found holds "PT" and no earlier one does; none is found only when "PT" never occurs |
| YouTubeClient.DigitRun | src/lib/api/youtube.ts:226 | greedy `\d+`: a run of digits that is followed by a non-digit or by the end of the text |
| YouTubeClient.PadStart2 | src/lib/api/youtube.ts:235-239 | `padStart(2, "0")` is at least two characters long, ends with the input unchanged, and is padded with zeros only |
| YouTubeClient.FormatDuration | src/lib/api/youtube.ts:222-241 | the empty string gives "Unknown"; a text with no "PT" comes back unchanged; a text holding "PT" anywhere gives a clock reading (digits and colons, a digit at either end), however much of the time part is missing |
| YouTubeClient.RenderComponents | src/lib/api/youtube.ts:226-232 | the three optional groups read back the hour, minute and second components of the time text, a missing group counting as 0 |
| YouTubeClient.FormatDesignator | src/lib/api/youtube.ts:222-241 | round trip: formatting `PT[h H][m M][s S]` renders exactly `h`, `m` and `s`, missing components as 0 |
| YouTubeClient.RenderWithHours | src/lib/api/youtube.ts:234-237 | with hours the shape is `H:MM:SS`, a one-digit minute count gets a leading zero, and wider counts are not cut |
| YouTubeClient.RenderIsClock | src/lib/api/youtube.ts:234-240 | both output shapes are clock readings: digits and colons only, at least one colon, a digit first and last |
| YouTubeClient.ExampleMinutes | src/lib/api/youtube.ts:222-241 | `PT5M3S` is formatted as `5:03` |
| YouTubeClient.ExampleNoCarry | src/lib/api/youtube.ts:222-241 | `PT90S` is formatted as `0:90`: seconds are not carried into minutes |
| YouTubeClient.ExampleHours | src/lib/api/youtube.ts:222-241 | `PT1H2M3S` is formatted as `1:02:03` |
| YouTubeClient.ExampleZero | src/lib/api/youtube.ts:222-241 | `PT0S` is formatted as `0:00` |
| YouTubeClient.ExampleEdges | src/lib/api/youtube.ts:224-228 | the empty string is `Unknown`, and `P1D` (no time part) is returned as is |
| Jar.TextOf | src/app/api/auth/twitch/callback/route.ts:30 | `get(name)?.value` yields text exactly when the cookie holds text, and then the cookie's own text; a truthy one means the cookie is present |
| Jar.ClearedIsAbsent | src/app/api/auth/twitch/callback/route.ts:40 | clearing a cookie (empty value, the given `maxAge`) makes it read as absent |
| Jar.ClearedAllSpec | src/app/api/auth/twitch/validate.ts:117-127 | clearing a list of names clears exactly those names and leaves every other cookie as it was |
| Jar.ClearedAllWellFormed | src/app/api/auth/twitch/validate.ts:117-127 | clearing preserves the jar invariant that user records sit only under `*_user` names |
| Jar.CookieJar.constructor | src/app/api/auth/twitch/callback/route.ts:27 | the jar starts as the request's cookies |
| Jar.CookieJar.Set | src/app/api/auth/twitch/callback/route.ts:40 | `set` replaces the cookie of that name and nothing else, keeping the invariant |
| Jar.CookieJar.Delete | src/app/api/auth/twitch/refresh/route.ts:68-70 | `delete` removes that name and nothing else |
| Jar.CookieJar.ClearEach | src/app/api/auth/twitch/validate.ts:117-127 | the `forEach` loop leaves the jar equal to having cleared each name in turn |
| Http.SearchParams.constructor | src/app/api/auth/twitch/route.ts:20 | a new URL has no query pairs |
| Http.SearchParams.Append | src/app/api/auth/twitch/route.ts:21-34 | `append` adds a pair last and keeps the others |
| Http.GetParam | src/app/api/auth/twitch/callback/route.ts:11-14 | `searchParams.get` finds a pair with the key, or `null` only when no pair has it |
| Http.GetParamFirst | src/app/api/auth/twitch/callback/route.ts:11-14 | `get` returns the first pair with the key |
| Providers.CookieNames | src/app/api/auth/twitch/callback/route.ts:99-130 | the state, access, refresh and user cookie names of a provider are pairwise different, and only the user cookie has a `*_user` name |
| Providers.AuthorizeQueryReads | src/app/api/auth/twitch/route.ts:20-34 | the authorization query has five pairs (seven for YouTube) and carries `client_id`, `redirect_uri`, `response_type=code`, `scope` and `state` under their own keys |
| Providers.StoreTokens | src/app/api/auth/twitch/callback/route.ts:98-114 | the access cookie is written; the refresh cookie only when a non-empty refresh token came; every other cookie stays as it was; the invariant holds |
| Providers.WriteTokens | src/app/api/auth/twitch/callback/route.ts:98-114 | the two `set` calls leave exactly the jar of `StoreTokens` |
| AuthCallback.ErrorRedirect | src/app/api/auth/twitch/callback/route.ts:154-156 | every failure redirects to `<site>/auth/error` with the message as its only query pair |
| AuthCallback.ErrorMessageKinds | src/app/api/auth/twitch/callback/route.ts:140-152 | the generic text appears exactly when the failure carried no 401 or 400 answer; the credentials text appears exactly for a 401 |
| AuthCallback.CatchMessage | src/app/api/auth/twitch/callback/route.ts:140-152 | the mutable `errorMessage` of the `catch` block ends as the reference error text |
| AuthCallback.Run | src/app/api/auth/twitch/callback/route.ts:8-158 | the handler's answer, new jar and requests are those of the reference callback on the old jar, and the invariant holds |
| AuthCallback.RunExchange | src/app/api/auth/twitch/callback/route.ts:49-157 | the `try`/`catch` blocks match the reference exchange on the jar whose nonce was consumed |
| AuthCallback.RunProfile | src/app/api/auth/twitch/callback/route.ts:82-157 | from the profile fetch on, the answer and the new jar are those of the reference continuation: token cookies written before the first profile is read, the user record only on success |
| AuthCallback.ProviderErrorFirst | src/app/api/auth/twitch/callback/route.ts:16-24 | a provider error is answered first: no cookie changes, nothing is sent |
| AuthCallback.StateMismatchRejected | src/app/api/auth/twitch/callback/route.ts:29-37 | a missing, empty or different `state`, or no stored nonce, is rejected with "Invalid authentication state"; the jar is unchanged and nothing is sent |
| AuthCallback.StateConsumed | src/app/api/auth/twitch/callback/route.ts:39-47 | once the state matched, the state cookie ends cleared on every path |
| AuthCallback.MissingCodeConsumesState | src/app/api/auth/twitch/callback/route.ts:39-47 | a missing code answers "No authorization code received" with only the nonce consumed and nothing sent |
| AuthCallback.CallbackFrame | src/app/api/auth/twitch/callback/route.ts:95-130 | the callback changes no cookie other than the provider's four |
| AuthCallback.TokensNeedExchange | src/app/api/auth/twitch/callback/route.ts:59-130 | unless every guard passed, an access token was issued and the profile endpoint answered, only the state cookie may change |
| AuthCallback.EmptyProfileKeepsTokens | src/app/api/auth/twitch/callback/route.ts:93-124 | an empty profile list ends on the generic error page after the token cookies were written; the user cookie keeps whatever it held before |
| AuthCallback.SuccessWrites | src/app/api/auth/twitch/callback/route.ts:98-133 | a completed login writes the access token, the refresh token when one was issued (otherwise the old refresh cookie stays as it was), and the first profile's user record; it redirects to the dashboard after exactly the code grant and the profile fetch |
| AuthCallback.ExchangeRequests | src/app/api/auth/twitch/callback/route.ts:59-91 | nothing is sent unless every guard passed; the first request is the `authorization_code` grant with the received code and the callback's `redirect_uri`; the profile fetch follows exactly when an access token came, with that token |
| AuthCallback.NoAccessTokenFails | src/app/api/auth/twitch/callback/route.ts:76-80 | a token answer without an access token ends on the generic error page after the token request alone, with nothing written but the cleared nonce |
| AuthCallback.FailureMappingShared | src/app/api/auth/twitch/callback/route.ts:134-157 | a failed profile request gives the same page and jar as a failed token request with the same failure, and differs only by the extra request sent |
| TwitchAuthRoute.Get | src/app/api/auth/twitch/route.ts:5-37 | the nonce cookie (httpOnly, lax, ten minutes) is written and nothing else; the redirect goes to the Twitch authorization endpoint with the five query pairs in order |
| YouTubeAuthRoute.Get | src/app/api/auth/youtube/route.ts:5-41 | the same for Google, with `access_type=offline` and `prompt=consent` appended |
| TwitchCallbackRoute.Get | src/app/api/auth/twitch/callback/route.ts:8-158 | the app-router Twitch callback is the shared callback with this route's flavour |
| TwitchCallbackRoute.Messages | src/app/api/auth/twitch/callback/route.ts:17-152 | this route's texts: a provider error shows `error_description \|\| "Authentication failed"`, a 400 explained by `message`, and the generic Twitch text exactly for failures without a 401 or 400 answer |
| YouTubeCallbackRoute.Get | src/app/api/auth/youtube/callback/route.ts:44-199 | the YouTube callback is the shared callback with this route's flavour |
| YouTubeCallbackRoute.Messages | src/app/api/auth/youtube/callback/route.ts:52-193 | a fixed text for a provider error; a 400 explained by `error_description`; the generic YouTube text exactly for failures without a 401 or 400 answer |
| TwitchPagesCallback.Handler | src/app/api/auth/twitch/callback.ts:12-163 | a method other than GET gets 405 with nothing changed or sent; a GET runs the shared callback with relative redirects |
| TwitchPagesCallback.Messages | src/app/api/auth/twitch/callback.ts:30-159 | the pages-router texts, the provider error's `error_description \|\| "Authentication failed"` included, equal the app-router Twitch texts |
| TwitchPagesCallback.InitTwitchAuth | src/app/api/auth/twitch/callback.ts:169-206 | the nonce cookie is written; the authorization redirect's `redirect_uri` falls back to `http://localhost:3000` |
| TwitchRefreshRoute.Get | src/app/api/auth/twitch/refresh/route.ts:4-74 | the route's answer, jar and requests are those of the reference refresh on the old jar, and the invariant holds |
| TwitchRefreshRoute.NoRefreshTokenRefused | src/app/api/auth/twitch/refresh/route.ts:5-13 | without a refresh token the answer is 401, with nothing sent or changed |
| TwitchRefreshRoute.RefreshGrantSent | src/app/api/auth/twitch/refresh/route.ts:15-28 | with one, exactly one `refresh_token` grant carrying the stored token is sent |
| TwitchRefreshRoute.RefreshSuccess | src/app/api/auth/twitch/refresh/route.ts:30-58 | success writes the new access cookie; it replaces the refresh cookie only when a new one came; every other cookie is kept |
| TwitchRefreshRoute.RefreshFailure | src/app/api/auth/twitch/refresh/route.ts:59-73 | failure answers 401 and deletes the three names, keeping the `twitch_user` record |
| TwitchValidate.Handler | src/app/api/auth/twitch/validate.ts:7-137 | the recursive handler's outcome, jar and requests are those of the reference validation on the old jar, and the invariant holds |
| TwitchValidate.NotGetRefused | src/app/api/auth/twitch/validate.ts:11-13 | a method other than GET gets 405 before the jar is read |
| TwitchValidate.NoTokenNoCall | src/app/api/auth/twitch/validate.ts:15-23 | without an access token the answer is 401, with nothing sent or changed |
| TwitchValidate.SuccessRefreshesUser | src/app/api/auth/twitch/validate.ts:25-62 | a valid token rewrites only the user record with the fresh profile and an `expires_at` that is the stored record's own, or an hour from now without a user cookie, and answers 200 with it, after one profile fetch |
| TwitchValidate.OtherFailureKeepsJar | src/app/api/auth/twitch/validate.ts:46-135 | a failure other than a 401 answer answers 401 and clears nothing: an empty profile list, a `twitch_user` text that `JSON.parse` rejects, or a failed fetch without a 401 |
| TwitchValidate.RefreshFailureClearsThree | src/app/api/auth/twitch/validate.ts:111-122 | a 401 followed by a failed refresh clears the access, refresh and user cookies and nothing else |
| TwitchValidate.NoRefreshClearsTwo | src/app/api/auth/twitch/validate.ts:123-128 | a 401 without a refresh token clears only the access and user cookies |
| TwitchValidate.RefreshKeepsTokens | src/app/api/auth/twitch/validate.ts:88-107 | after a refresh both token cookies are truthy, and the access token is the new one |
| TwitchValidate.UnboundedRetry | src/app/api/auth/twitch/validate.ts:67-110 | while every run gets 401 and every refresh succeeds, the handler does not finish within any number of runs and sends two requests per run |
| TwitchValidate.RetrySeesNewToken | src/app/api/auth/twitch/validate.ts:109-110 | the run after a refresh fetches the profile with the new access token and can complete with 200 |
| StatusRoute.ReadsOnlyAccessToken | src/app/api/auth/status/route.ts:4-15 | two jars with the same Twitch access-token text get the same answer, whatever else they hold |
| StatusRoute.YouTubeNotReported | src/app/api/auth/status/route.ts:5-14 | no cookie other than the Twitch access token changes the answer |
| Flows.LoginRoundTrip | src/app/api/auth/twitch/callback/route.ts:29-133 | begin-auth followed by an approved callback completes when both use one `redirect_uri`: the code grant repeats it, the dashboard is reached and the nonce is spent |
| Flows.TwitchLogin | src/app/api/auth/twitch/route.ts:25-28 | the app-router Twitch routes both build `redirect_uri` as `NEXT_PUBLIC_BASE_URL \|\| origin` followed by the callback path, so the code grant repeats the authorization request's `redirect_uri`; the approved login redirects to `/dashboard?auth=success` |
| Flows.YouTubeLogin | src/app/api/auth/youtube/callback/route.ts:102-104 | the YouTube code grant repeats the `redirect_uri` of the YouTube authorization request; the approved login redirects to `/dashboard?auth=success&platform=youtube` |
| Flows.PagesLogin | src/app/api/auth/twitch/callback.ts:68-70 | the pages-router code grant repeats the `redirect_uri` of `initTwitchAuth`'s authorization request, both falling back to `http://localhost:3000`; the approved login redirects to `/dashboard` |
| Flows.ReplayRejected | src/app/api/auth/twitch/callback/route.ts:30-40 | replaying a callback whose state matched is rejected as an invalid state, with nothing changed or sent |
| Flows.TwitchLoginScenario | src/app/api/auth/twitch/route.ts:5-37 | begin-auth and then the callback, run on one jar, end on the dashboard with the nonce spent and the token and user cookies written |

## Left out

- **Network and TLS.** The network calls are not performed: their answers are parameters and
  the requests are recorded. The development-only TLS agent and the request headers other than
  the bearer token are not modelled.
- **Nonce and clock.** `nanoid()` and `Date.now()` are parameters (`state`, `now`). The validate
  handler's recursive runs all see the same `now`, while each run of the source calls
  `Date.now()` again; only the hour added without a user cookie depends on it.
  `new Date().getMonth()` is the `currentMonth` parameter of the history generators.
- **Floating point in the histories.** The counts are rounded floating-point values. They are
  the `countAt` parameter, so the growth factors 1.05 and 1.08 and `Math.round` are not
  modelled.
- **Dates and JSON.** The user record's `expires_at` is kept as milliseconds, not as the
  `toISOString` text. `JSON.stringify` and `JSON.parse` are not modelled: the record is stored
  structured, and text under `twitch_user` stands for JSON that `JSON.parse` rejects. Nothing
  models JSON that parses but lacks `expires_at`.
- **Secure flag.** The `secure` cookie attribute depends on `NODE_ENV` and is not modelled.
- **Percent-encoding.** Query strings are pairs of decoded strings. The error page's literal
  `Invalid+authentication+state` appears as its decoded text.
- **Token answers.** A successful token answer is assumed to carry `expires_in`. A missing
  `access_token` in a refresh answer is written as the empty value.
- **Cookie deletion.** `ResponseCookies.delete` is modelled as removing the cookie from the jar.
  The model leaves out the expired `Set-Cookie` header it sends.
- **parseInt range.** `parseInt` is exact on digit strings. Precision loss beyond 2^53 is not
  modelled.
- Strings.Show and YouTubeClient.FormatDuration: hold only for counts below 10^21. From there
  on JavaScript's `toString` switches to exponent form (`"1e+21"`), and `parseInt` of about 309
  or more digits gives `Infinity`, so `PT1000000000000000000000S` formats as `0:1e+21`, which is
  not a clock reading. YouTube durations stay far below that bound.
- **Pages-router query arrays.** Parameters repeated in the query arrive as arrays there; the
  model takes them as single values.
- **Unbounded recursion.** `TwitchValidate.Validate` and `TwitchValidate.Handler` run
  for at most as many runs as there are probes. When the probes run out, the outcome is
  `None`, so a run that never ends is modelled only up to any finite bound.
- **Other modules.** These are not part of this model: the UI pages and components, `useAuth`,
  the profile and channel fetch wrappers of the client modules (network calls),
  `src/app/api/auth/twitch/index.ts`, and `src/app/api/auth/error.tsx`.
- **Client-side connect page.** `src/app/connect/twitch/page.tsx` builds its own authorization
  URL and keeps its nonce in `localStorage`, not in the `twitch_auth_state` cookie, so the
  callbacks' state check would reject its logins. The page is not part of this model.
- **Logging.** The `console.error` calls are left out.
