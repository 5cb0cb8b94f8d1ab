/**
 * The activity heatmap card: the calendar values, the colour scale relative to the
 * busiest day, the click that opens a date, and the trend of the last fourteen days.
 */
module AttendanceHeatmap {
  import opened Wrappers
  import opened Numeric
  import opened AttendanceReport

  /** `calendarData`: the report's calendar, `[]` without one. */
  function CalendarData(report: Option<Report>): (values: seq<CalendarDay>)
    ensures report.Some? && report.value.calendar.Some? ==> values == report.value.calendar.value
    ensures report.None? || report.value.calendar.None? ==> values == []
  {
    if report.Some? && report.value.calendar.Some? then report.value.calendar.value else []
  }

  /** `Math.max(...counts, 1)`: at least 1 and at least every count. */
  function MaxCount(values: seq<CalendarDay>): (m: nat)
    ensures m >= 1
    ensures forall k :: 0 <= k < |values| ==> Count(values[k]) <= m
    ensures m == 1 || exists k :: 0 <= k < |values| && Count(values[k]) == m
  {
    if values == [] then 1
    else
      var rest := MaxCount(values[1..]);
      assert forall k :: 1 <= k < |values| ==> values[k] == values[1..][k - 1];
      if Count(values[0]) > rest then Count(values[0]) else rest
  }

  datatype Shade = ColorEmpty | Scale1 | Scale2 | Scale3 | Scale4

  function ShadeRank(s: Shade): nat {
    match s
    case ColorEmpty => 0
    case Scale1 => 1
    case Scale2 => 2
    case Scale3 => 3
    case Scale4 => 4
  }

  /**
   * `classForValue`: empty for a missing cell or a missing or zero count, otherwise the
   * quarter of the busiest day's count the cell reaches.
   */
  function ClassForValue(value: Option<CalendarDay>, maxCount: nat): (s: Shade)
    requires maxCount >= 1
    ensures s == ColorEmpty <==> value.None? || Count(value.value) == 0
    ensures s == Scale4 <==> value.Some? && Count(value.value) > 0 && 4 * Count(value.value) >= 3 * maxCount
    ensures s == Scale3 <==> value.Some? && Count(value.value) > 0 && 2 * Count(value.value) >= maxCount && 4 * Count(value.value) < 3 * maxCount
    ensures s == Scale2 <==> value.Some? && 4 * Count(value.value) >= maxCount && 2 * Count(value.value) < maxCount
    ensures s == Scale1 <==> value.Some? && Count(value.value) > 0 && 4 * Count(value.value) < maxCount
  {
    if value.None? || Count(value.value) == 0 then ColorEmpty
    else
      var ratio := Count(value.value) as real / maxCount as real;
      var m, c := maxCount as real, Count(value.value) as real;
      assert ratio * m == c;
      assert (ratio - 0.75) * m == c - 0.75 * m && (ratio - 0.25) * m == c - 0.25 * m;
      assert (ratio - 0.5) * m == c - 0.5 * m;
      ScaledSign(ratio - 0.75, m);
      ScaledSign(ratio - 0.5, m);
      ScaledSign(ratio - 0.25, m);
      if ratio >= 0.75 then Scale4
      else if ratio >= 0.5 then Scale3
      else if ratio >= 0.25 then Scale2
      else Scale1
  }

  /** A cell with more sessions is never lighter than one with fewer. */
  lemma ClassForValueMonotone(a: CalendarDay, b: CalendarDay, maxCount: nat)
    requires maxCount >= 1 && Count(a) <= Count(b)
    ensures ShadeRank(ClassForValue(Some(a), maxCount)) <= ShadeRank(ClassForValue(Some(b), maxCount))
  {
    var m := maxCount as real;
    var x, y := Count(a) as real / m, Count(b) as real / m;
    assert x * m == Count(a) as real && y * m == Count(b) as real;
    assert (y - x) * m == Count(b) as real - Count(a) as real;
    ScaledSign(y - x, m);
  }

  /** The busiest day of the calendar is shaded darkest. */
  lemma BusiestDayDarkest(values: seq<CalendarDay>, k: nat)
    requires k < |values| && Count(values[k]) > 0
    requires forall j :: 0 <= j < |values| ==> Count(values[j]) <= Count(values[k])
    ensures ClassForValue(Some(values[k]), MaxCount(values)) == Scale4
  {
  }

  /** The heatmap's click: the cell's date when it has one, otherwise nothing happens. */
  function OnClick(value: Option<CalendarDay>): (date: Option<string>)
    ensures date.Some? <==> value.Some? && Present(value.value.date)
    ensures date.Some? ==> date == value.value.date
  {
    if value.Some? && Present(value.value.date) then value.value.date else None
  }

  datatype TrendPoint = TrendPoint(date: Option<string>, sessions: nat)

  /** `trendData`: the last fourteen calendar days with their counts, `[]` without a calendar. */
  function TrendData(calendar: Option<seq<CalendarDay>>): (r: seq<TrendPoint>)
    ensures calendar.None? ==> r == []
    ensures calendar.Some? ==> |r| == if |calendar.value| <= 14 then |calendar.value| else 14
    ensures calendar.Some? ==>
              forall k :: 0 <= k < |r| ==>
                r[k] == TrendPoint(calendar.value[|calendar.value| - |r| + k].date, Count(calendar.value[|calendar.value| - |r| + k]))
  {
    if calendar.None? || |calendar.value| == 0 then []
    else
      var days := calendar.value;
      var start := if |days| <= 14 then 0 else |days| - 14;
      seq(|days| - start, k requires 0 <= k < |days| - start => TrendPoint(days[start + k].date, Count(days[start + k])))
  }
}
