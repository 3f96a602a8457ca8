/** The pure parts of the YouTube client API module: the duration formatter, the token getter
  * over `document.cookie`, and the month window of the subscriber history. */
module YouTubeClient {
  import opened Base
  import opened Strings
  import DocumentCookies
  import MonthHistory

  // ---------------------------------------------------------------------------------------------
  // formatYouTubeDuration: the regular expression /PT(?:(\d+)H)?(?:(\d+)M)?(?:(\d+)S)?/, which
  // reads the time-designator part of an ISO 8601 duration (section 4.4.3.2 of ISO 8601:2004).

  /** `s` holds "PT" at index `i`. */
  predicate HasPTAt(s: string, i: int) {
    0 <= i && i + 1 < |s| && s[i] == 'P' && s[i + 1] == 'T'
  }

  /** Where the unanchored expression starts matching: the first "PT" at or after `from`. */
  function FindPT(s: string, from: nat): (r: Option<nat>)
    requires from <= |s|
    ensures r.Some? ==> from <= r.value && HasPTAt(s, r.value)
    ensures r.Some? ==> forall j :: from <= j < r.value ==> !HasPTAt(s, j)
    ensures r.None? ==> forall j :: from <= j ==> !HasPTAt(s, j)
    decreases |s| - from
  {
    if from + 1 >= |s| then None
    else if s[from] == 'P' && s[from + 1] == 'T' then Some(from)
    else FindPT(s, from + 1)
  }

  /** Length of the run of ASCII digits (`\d`) at the start of `s`. */
  function DigitRun(s: string): (n: nat)
    ensures n <= |s|
    ensures forall j :: 0 <= j < n ==> IsDigit(s[j])
    ensures n == |s| || !IsDigit(s[n])
  {
    if s != [] && IsDigit(s[0]) then 1 + DigitRun(s[1..]) else 0
  }

  /** The result of one optional group `(?:(\d+)U)?`: its number, if it matched, and the text
    * the match goes on with. */
  datatype Group = Group(value: Option<nat>, rest: string)

  /** The optional group `(?:(\d+)U)?` tried at the start of `s`. `\d+` is greedy and a shorter
    * run of digits is followed by a digit, never by `unit`, so the group matches exactly when the
    * whole run of leading digits is non-empty and followed by `unit`; otherwise it matches empty. */
  function ReadGroup(s: string, unit: char): (g: Group)
    requires !IsDigit(unit)
    ensures |g.rest| <= |s|
  {
    var n := DigitRun(s);
    if n > 0 && n < |s| && s[n] == unit then
      assert AllDigits(s[..n]);
      Group(Some(DigitsValue(s[..n])), s[n + 1..])
    else Group(None, s)
  }

  /** `x.padStart(2, "0")`. */
  function PadStart2(x: string): (r: string)
    ensures |r| == if |x| >= 2 then |x| else 2
    ensures r[|r| - |x|..] == x
    ensures forall i :: 0 <= i < |r| - |x| ==> r[i] == '0'
  {
    if |x| >= 2 then x else seq(2 - |x|, _ => '0') + x
  }

  /** The two output shapes: `H:MM:SS` when there are hours, `M:SS` otherwise. */
  function Render(hours: nat, minutes: nat, seconds: nat): string {
    if hours > 0 then Show(hours) + ":" + PadStart2(Show(minutes)) + ":" + PadStart2(Show(seconds))
    else Show(minutes) + ":" + PadStart2(Show(seconds))
  }

  /** `formatYouTubeDuration`. */
  function FormatDuration(duration: string): (r: string)
    ensures duration == "" ==> r == "Unknown"
    ensures duration != "" && (forall i :: !HasPTAt(duration, i)) ==> r == duration
    ensures (exists i :: HasPTAt(duration, i)) ==> ClockText(r)
  {
    if duration == "" then "Unknown"
    else
      match FindPT(duration, 0)
      case None => duration
      case Some(p) =>
        var t := duration[p + 2..];
        RenderTimeIsClock(t);
        RenderTime(t)
  }

  /** The three groups read in turn from the text after "PT", rendered, a group that matched
    * empty counting as zero (`parseInt(match[k] || "0")`). */
  function RenderTime(t: string): string {
    var h := ReadGroup(t, 'H');
    var m := ReadGroup(h.rest, 'M');
    var s := ReadGroup(m.rest, 'S');
    Render(h.value.GetOr(0), m.value.GetOr(0), s.value.GetOr(0))
  }

  /** One component of a duration written in the time-designator form: `<n><unit>` or nothing. */
  function Component(n: Option<nat>, unit: char): string {
    if n.Some? then Show(n.value) + [unit] else ""
  }

  /** The canonical time-designator text `PT[<h>H][<m>M][<s>S]`. */
  function Designator(h: Option<nat>, m: Option<nat>, s: Option<nat>): string {
    "PT" + Component(h, 'H') + Component(m, 'M') + Component(s, 'S')
  }

  /** The group tried on text that starts with the numeral of `n` followed by `v`. */
  lemma {:induction false} ReadShown(n: nat, v: char, rest: string, unit: char)
    requires !IsDigit(v) && !IsDigit(unit)
    ensures ReadGroup(Show(n) + [v] + rest, unit) ==
      if v == unit then Group(Some(n), rest) else Group(None, Show(n) + [v] + rest)
  {
    var s := Show(n) + [v] + rest;
    var k := |Show(n)|;
    RunLength(s, k);
    assert s[..k] == Show(n);
    assert s[k + 1..] == rest;
    DigitsValueShow(n);
  }

  /** A run of `k` leading digits not followed by a digit has length `k`. */
  lemma {:induction false} RunLength(s: string, k: nat)
    requires k <= |s|
    requires forall j :: 0 <= j < k ==> IsDigit(s[j])
    requires k == |s| || !IsDigit(s[k])
    ensures DigitRun(s) == k
  {
    if k > 0 {
      RunLength(s[1..], k - 1);
    }
  }

  /** A group whose component is missing matches empty, whatever other component follows. */
  lemma ReadMissing(m: Option<nat>, v: char, rest: string, unit: char)
    requires !IsDigit(v) && !IsDigit(unit) && v != unit
    ensures ReadGroup(Component(m, v) + rest, unit).value.None? || Component(m, v) == ""
    ensures Component(m, v) != "" ==> ReadGroup(Component(m, v) + rest, unit) == Group(None, Component(m, v) + rest)
  {
    if m.Some? {
      ReadShown(m.value, v, rest, unit);
      assert Component(m, v) + rest == Show(m.value) + [v] + rest;
    }
  }

  /** The group for `unit` on the text of its own component followed by `rest`. */
  lemma ReadPresent(n: nat, unit: char, rest: string)
    requires !IsDigit(unit)
    ensures ReadGroup(Component(Some(n), unit) + rest, unit) == Group(Some(n), rest)
  {
    ReadShown(n, unit, rest, unit);
    assert Component(Some(n), unit) + rest == Show(n) + [unit] + rest;
  }

  /** The three groups read back the components of the canonical time text. */
  lemma {:induction false} RenderComponents(h: Option<nat>, m: Option<nat>, s: Option<nat>)
    ensures RenderTime(Component(h, 'H') + (Component(m, 'M') + Component(s, 'S')))
         == Render(h.GetOr(0), m.GetOr(0), s.GetOr(0))
  {
    HourGroup(h, m, s);
    MinuteGroup(m, s);
    SecondGroup(s);
  }

  /** The hour group takes the hour component, if any, and leaves the rest. */
  lemma HourGroup(h: Option<nat>, m: Option<nat>, s: Option<nat>)
    ensures ReadGroup(Component(h, 'H') + (Component(m, 'M') + Component(s, 'S')), 'H')
         == Group(h, Component(m, 'M') + Component(s, 'S'))
  {
    var M, S := Component(m, 'M'), Component(s, 'S');
    if h.Some? {
      ReadPresent(h.value, 'H', M + S);
    } else if m.Some? {
      ReadMissing(m, 'M', S, 'H');
    } else if s.Some? {
      ReadMissing(s, 'S', [], 'H');
      assert M + S == S + [];
    }
  }

  /** The minute group takes the minute component, if any, and leaves the seconds. */
  lemma MinuteGroup(m: Option<nat>, s: Option<nat>)
    ensures ReadGroup(Component(m, 'M') + Component(s, 'S'), 'M') == Group(m, Component(s, 'S'))
  {
    var S := Component(s, 'S');
    if m.Some? {
      ReadPresent(m.value, 'M', S);
    } else if s.Some? {
      ReadMissing(s, 'S', [], 'M');
      assert S == S + [];
    }
  }

  /** The second group takes the second component, if any. */
  lemma SecondGroup(s: Option<nat>)
    ensures ReadGroup(Component(s, 'S'), 'S').value == s
  {
    if s.Some? {
      ReadPresent(s.value, 'S', []);
      assert Component(s, 'S') == Component(s, 'S') + [];
    }
  }

  /** Round trip: formatting the canonical text of a duration renders exactly its components,
    * a missing component counting as zero. */
  lemma {:induction false} FormatDesignator(h: Option<nat>, m: Option<nat>, s: Option<nat>)
    ensures FormatDuration(Designator(h, m, s)) == Render(h.GetOr(0), m.GetOr(0), s.GetOr(0))
  {
    var t := Component(h, 'H') + (Component(m, 'M') + Component(s, 'S'));
    assert Designator(h, m, s) == "PT" + t;
    FormatFromStart(t);
    RenderComponents(h, m, s);
  }

  /** A text that starts with "PT" is formatted from the time part right after it. */
  lemma FormatFromStart(t: string)
    ensures FormatDuration("PT" + t) == RenderTime(t)
  {
    var d := "PT" + t;
    assert FindPT(d, 0) == Some(0);
    assert d[2..] == t;
  }

  /** Hours present: `H:MM:SS`; minutes and seconds padded to at least two digits and never cut. */
  lemma RenderWithHours(hours: nat, minutes: nat, seconds: nat)
    requires hours > 0
    ensures Render(hours, minutes, seconds) == Show(hours) + ":" + PadStart2(Show(minutes)) + ":" + PadStart2(Show(seconds))
    ensures minutes < 10 ==> PadStart2(Show(minutes)) == "0" + Show(minutes)
    ensures minutes >= 10 ==> PadStart2(Show(minutes)) == Show(minutes)
  {
  }

  /** A clock reading: digits and colons, at least one colon, a digit at either end. */
  predicate ClockText(r: string) {
    && |r| >= 3 && ':' in r && IsDigit(r[0]) && IsDigit(r[|r| - 1])
    && forall i :: 0 <= i < |r| ==> IsDigit(r[i]) || r[i] == ':'
  }

  /** Padding a numeral keeps it a numeral. */
  lemma PaddedDigits(x: string)
    requires AllDigits(x)
    ensures AllDigits(PadStart2(x))
  {
    var r := PadStart2(x);
    forall i | 0 <= i < |r|
      ensures IsDigit(r[i])
    {
      if i >= |r| - |x| {
        assert r[i] == r[|r| - |x|..][i - (|r| - |x|)];
      }
    }
  }

  /** Both output shapes are clock readings. */
  lemma RenderIsClock(hours: nat, minutes: nat, seconds: nat)
    ensures ClockText(Render(hours, minutes, seconds))
  {
    PaddedDigits(Show(minutes));
    PaddedDigits(Show(seconds));
    var tail := PadStart2(Show(seconds));
    if hours > 0 {
      var mid := PadStart2(Show(minutes));
      ClockJoin(Show(hours), mid);
      ClockJoin(Show(hours) + ":" + mid, tail);
    } else {
      ClockJoin(Show(minutes), tail);
    }
  }

  /** Two readings or numerals joined by a colon make a clock reading. */
  lemma ClockJoin(a: string, b: string)
    requires |a| >= 1 && |b| >= 1 && IsDigit(a[0]) && IsDigit(b[|b| - 1])
    requires forall i :: 0 <= i < |a| ==> IsDigit(a[i]) || a[i] == ':'
    requires forall i :: 0 <= i < |b| ==> IsDigit(b[i]) || b[i] == ':'
    ensures ClockText(a + ":" + b)
  {
    var r := a + ":" + b;
    assert r[|a|] == ':';
    assert forall i :: 0 <= i < |b| ==> r[|a| + 1 + i] == b[i];
  }

  /** Whatever follows "PT", the three groups render as a clock reading. */
  lemma RenderTimeIsClock(t: string)
    ensures ClockText(RenderTime(t))
  {
    var h := ReadGroup(t, 'H');
    var m := ReadGroup(h.rest, 'M');
    var s := ReadGroup(m.rest, 'S');
    RenderIsClock(h.value.GetOr(0), m.value.GetOr(0), s.value.GetOr(0));
  }

  /** A one-digit numeral padded to two digits. */
  lemma PadOneDigit(d: nat)
    requires d < 10
    ensures PadStart2(Show(d)) == ['0', DigitChar(d)]
  {
    assert seq(1, _ => '0') == ['0'];
  }

  /** Minutes and seconds: `PT5M3S` is `5:03`. */
  lemma ExampleMinutes()
    ensures FormatDuration("PT5M3S") == "5:03"
  {
    var d := Designator(None, Some(5), Some(3));
    assert d == "PT5M3S" by {
      assert Component(Some(5), 'M') == "5M";
      assert Component(Some(3), 'S') == "3S";
    }
    assert Render(0, 5, 3) == "5:03" by {
      PadOneDigit(3);
    }
    FormatDesignator(None, Some(5), Some(3));
  }

  /** No carry: `PT90S` is `0:90`, not `1:30`. */
  lemma ExampleNoCarry()
    ensures FormatDuration("PT90S") == "0:90"
  {
    var d := Designator(None, None, Some(90));
    assert Show(90) == "90" by {
      assert Show(9) == "9";
    }
    assert d == "PT90S" by {
      assert Component(Some(90), 'S') == "90S";
    }
    assert Render(0, 0, 90) == "0:90" by {
      assert PadStart2("90") == "90";
    }
    FormatDesignator(None, None, Some(90));
  }

  /** Hours: `PT1H2M3S` is `1:02:03`. */
  lemma ExampleHours()
    ensures FormatDuration("PT1H2M3S") == "1:02:03"
  {
    var d := Designator(Some(1), Some(2), Some(3));
    assert d == "PT1H2M3S" by {
      assert Component(Some(1), 'H') == "1H";
      assert Component(Some(2), 'M') == "2M";
      assert Component(Some(3), 'S') == "3S";
    }
    assert Render(1, 2, 3) == "1:02:03" by {
      PadOneDigit(2);
      PadOneDigit(3);
    }
    FormatDesignator(Some(1), Some(2), Some(3));
  }

  /** Zero: `PT0S` is `0:00`. */
  lemma ExampleZero()
    ensures FormatDuration("PT0S") == "0:00"
  {
    var d := Designator(None, None, Some(0));
    assert d == "PT0S" by {
      assert Component(Some(0), 'S') == "0S";
    }
    assert Render(0, 0, 0) == "0:00" by {
      PadOneDigit(0);
    }
    FormatDesignator(None, None, Some(0));
  }

  /** Edge cases: the empty string is `Unknown`, and text without a time designator such as
    * `P1D` comes back unchanged. */
  lemma ExampleEdges()
    ensures FormatDuration("") == "Unknown"
    ensures FormatDuration("P1D") == "P1D"
  {
    assert !HasPTAt("P1D", 0) && !HasPTAt("P1D", 1);
  }

  // ---------------------------------------------------------------------------------------------
  // getYouTubeToken and generateSubscriberHistory

  /** `getYouTubeToken`: `null` without a document, otherwise the last `youtube_access_token`
    * value of `document.cookie` when it is a non-empty string. */
  method GetYouTubeToken(document: Option<string>) returns (token: Option<string>)
    ensures document.None? ==> token == None
    ensures document.Some? ==>
      token == DocumentCookies.TruthyEntry(DocumentCookies.LastEntry(DocumentCookies.Entries(document.value), "youtube_access_token"))
  {
    token := DocumentCookies.GetToken(document, "youtube_access_token");
  }

  /** The integer skeleton of `generateSubscriberHistory`: five points, labelled with the months
    * ending at `currentMonth` (from `new Date().getMonth()`), oldest first. */
  method GenerateSubscriberHistory(currentMonth: int, countAt: int -> int) returns (points: seq<MonthHistory.DataPoint>)
    requires 0 <= currentMonth < 12
    ensures |points| == 5
    ensures forall i :: 0 <= i < 5 ==>
      points[i] == MonthHistory.DataPoint(MonthHistory.MonthNames[(currentMonth - 4 + i) % 12], countAt(4 - i))
  {
    points := MonthHistory.GenerateHistory(currentMonth, countAt);
  }
}
