/** The pure parts of the Twitch client API module: the token getter over `document.cookie` and
  * the month window of the follower history. */
module TwitchClient {
  import opened Base
  import DocumentCookies
  import MonthHistory

  /** `getTwitchToken`: `null` without a document, otherwise the last `twitch_access_token` value
    * of `document.cookie` when it is a non-empty string. */
  method GetTwitchToken(document: Option<string>) returns (token: Option<string>)
    ensures document.None? ==> token == None
    ensures document.Some? ==>
      token == DocumentCookies.TruthyEntry(DocumentCookies.LastEntry(DocumentCookies.Entries(document.value), "twitch_access_token"))
  {
    token := DocumentCookies.GetToken(document, "twitch_access_token");
  }

  /** The integer skeleton of `generateFollowerHistory`: five points, labelled with the months
    * ending at `currentMonth` (from `new Date().getMonth()`), oldest first. */
  method GenerateFollowerHistory(currentMonth: int, countAt: int -> int) returns (points: seq<MonthHistory.DataPoint>)
    requires 0 <= currentMonth < 12
    ensures |points| == 5
    ensures forall i :: 0 <= i < 5 ==>
      points[i] == MonthHistory.DataPoint(MonthHistory.MonthNames[(currentMonth - 4 + i) % 12], countAt(4 - i))
  {
    points := MonthHistory.GenerateHistory(currentMonth, countAt);
  }
}
