/** The integer part of the history generators shared by both client modules: the labels of the
  * five months ending at the current one, and one data point per label. */
module MonthHistory {
  import opened Base

  const MonthNames: seq<string> :=
    ["Jan", "Feb", "Mar", "Apr", "May", "Jun", "Jul", "Aug", "Sep", "Oct", "Nov", "Dec"]

  /** A chart point: a month label and the count shown for it. */
  datatype DataPoint = DataPoint(name: string, count: int)

  /** The first loop of the generators: for `i` from 4 down to 0, push the name of month
    * `(currentMonth - i + 12) % 12`. The result is the five months ending at the current month,
    * oldest first, wrapping around the year. */
  method LastFiveMonths(currentMonth: int) returns (months: seq<string>)
    requires 0 <= currentMonth < 12
    ensures |months| == 5
    ensures months[4] == MonthNames[currentMonth]
    ensures forall k :: 0 <= k < 5 ==> months[k] == MonthNames[(currentMonth - 4 + k) % 12]
  {
    months := [];
    var i := 4;
    while i >= 0
      invariant -1 <= i <= 4
      invariant |months| == 4 - i
      invariant forall k :: 0 <= k < |months| ==> months[k] == MonthNames[(currentMonth - 4 + k) % 12]
    {
      var monthIndex := JsRem(currentMonth - i + 12, 12);
      MonthIndex(currentMonth, i);
      assert currentMonth - 4 + |months| == currentMonth - i;
      months := months + [MonthNames[monthIndex]];
      i := i - 1;
    }
    assert (currentMonth - 4 + 4) % 12 == currentMonth;
  }

  /** Adding 12 before taking the remainder keeps the dividend non-negative, so the index is the
    * month `i` months back, wrapping around the year. */
  lemma MonthIndex(currentMonth: int, i: int)
    requires 0 <= currentMonth < 12 && 0 <= i <= 4
    ensures JsRem(currentMonth - i + 12, 12) == (currentMonth - i) % 12
  {
    var d := currentMonth - i;
    if d >= 0 {
      assert (d + 12) % 12 == d && d % 12 == d;
    } else {
      assert (d + 12) % 12 == d + 12 && d % 12 == d + 12;
    }
  }

  /** The five labels of a window are five different months. */
  lemma {:induction false} WindowIsDistinct(currentMonth: int, j: int, k: int)
    requires 0 <= currentMonth < 12 && 0 <= j < k < 5
    ensures MonthNames[(currentMonth - 4 + j) % 12] != MonthNames[(currentMonth - 4 + k) % 12]
  {
    var a, b := (currentMonth - 4 + j) % 12, (currentMonth - 4 + k) % 12;
    assert a != b;
    assert MonthNames[a][0] != MonthNames[b][0] || MonthNames[a][1] != MonthNames[b][1] || MonthNames[a][2] != MonthNames[b][2];
  }

  /** Both generators: the month window, then for `i` from 0 to 4 a point labelled `months[i]`.
    * `countAt(e)` stands for the rounded floating-point value `Math.round(total / (1 + growth)^e)`
    * that the source computes for exponent `e = 4 - i`. */
  method GenerateHistory(currentMonth: int, countAt: int -> int) returns (points: seq<DataPoint>)
    requires 0 <= currentMonth < 12
    ensures |points| == 5
    ensures points[4] == DataPoint(MonthNames[currentMonth], countAt(0))
    ensures forall i :: 0 <= i < 5 ==>
      points[i] == DataPoint(MonthNames[(currentMonth - 4 + i) % 12], countAt(4 - i))
  {
    var months := LastFiveMonths(currentMonth);
    points := [];
    for i := 0 to 5
      invariant |points| == i
      invariant forall j :: 0 <= j < i ==> points[j] == DataPoint(months[j], countAt(4 - j))
    {
      points := points + [DataPoint(months[i], countAt(4 - i))];
    }
  }
}
