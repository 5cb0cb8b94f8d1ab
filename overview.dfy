/**
 * The session overview card: the average sessions per day, the peak day, the number of
 * active days and the average sessions per athlete, with the summary totals below.
 * Values shown with one decimal (`toFixed(1)`) are whole numbers of tenths.
 */
module SessionOverview {
  import opened Wrappers
  import opened Numeric
  import opened Seqs
  import opened AttendanceReport

  /** The calendar the card is given, `[]` when it is missing. */
  function Days(calendar: Option<seq<CalendarDay>>): seq<CalendarDay> {
    calendar.GetOr([])
  }

  /** The sum of the day counts, a missing count read as 0. */
  function TotalCount(days: seq<CalendarDay>): nat {
    if days == [] then 0 else Count(days[0]) + TotalCount(days[1..])
  }

  lemma {:induction false} TotalCountBounded(days: seq<CalendarDay>, most: nat)
    requires forall k :: 0 <= k < |days| ==> Count(days[k]) <= most
    ensures TotalCount(days) <= |days| * most
  {
    if days != [] {
      TotalCountBounded(days[1..], most);
    }
  }

  /** `avgDaily`: the mean sessions per calendar day in tenths, 0 for an empty calendar. */
  function AvgDaily(calendar: Option<seq<CalendarDay>>): (tenths: int)
    ensures tenths >= 0
    ensures Days(calendar) == [] ==> tenths == 0
    ensures Days(calendar) != [] ==>
              tenths as real - 0.5 <= 10.0 * (TotalCount(Days(calendar)) as real / |Days(calendar)| as real) < tenths as real + 0.5
  {
    var days := Days(calendar);
    if |days| == 0 then 0 else Tenths(TotalCount(days) as real / |days| as real)
  }

  /** No day above `most` sessions keeps the daily average at or below `most`. */
  lemma AvgDailyBounded(calendar: Option<seq<CalendarDay>>, most: nat)
    requires forall k :: 0 <= k < |Days(calendar)| ==> Count(Days(calendar)[k]) <= most
    ensures AvgDaily(calendar) <= 10 * most
  {
    var days := Days(calendar);
    if days != [] {
      TotalCountBounded(days, most);
      MeanAtMost(TotalCount(days), |days|, most);
      TenthsAtMost(TotalCount(days) as real / |days| as real, most);
    }
  }

  lemma MeanAtMost(total: nat, n: nat, most: nat)
    requires n > 0 && total <= n * most
    ensures total as real / n as real <= most as real
  {
    assert (n * most) as real == n as real * most as real;
    QuotientBetween(total as real, n as real, 0.0, most as real);
  }

  lemma TenthsAtMost(x: real, most: nat)
    requires 0.0 <= x <= most as real
    ensures Tenths(x) <= 10 * most
  {
    RoundMonotone(10.0 * x, 10.0 * most as real);
    RoundOfInteger(10 * most);
  }

  /** `a.count > b.count`, false when either count is missing. */
  predicate Greater(a: CalendarDay, b: CalendarDay) {
    a.count.Some? && b.count.Some? && a.count.value > b.count.value
  }

  /** The position `reduce((a, b) => (a.count > b.count ? a : b))` ends on. */
  function PeakIndex(days: seq<CalendarDay>): (p: nat)
    requires days != []
    ensures p < |days|
  {
    if |days| == 1 then 0
    else
      var best := PeakIndex(days[..|days| - 1]);
      if Greater(days[best], days[|days| - 1]) then best else |days| - 1
  }

  /**
   * With every count present, the peak day has the largest count, and every later day has a
   * smaller one: of several days with the largest count, the last one is the peak.
   */
  lemma {:induction false} PeakIndexIsLastMaximum(days: seq<CalendarDay>)
    requires days != [] && forall k :: 0 <= k < |days| ==> days[k].count.Some?
    ensures forall k :: 0 <= k < |days| ==> Count(days[k]) <= Count(days[PeakIndex(days)])
    ensures forall k :: PeakIndex(days) < k < |days| ==> Count(days[k]) < Count(days[PeakIndex(days)])
  {
    if |days| > 1 {
      var init := days[..|days| - 1];
      PeakIndexIsLastMaximum(init);
      assert forall k :: 0 <= k < |init| ==> init[k] == days[k];
    }
  }

  /** `peakDay`: the peak entry, none for an empty calendar. */
  function PeakDay(calendar: Option<seq<CalendarDay>>): (peak: Option<CalendarDay>)
    ensures peak.None? <==> Days(calendar) == []
    ensures peak.Some? ==> peak.value in Days(calendar)
  {
    var days := Days(calendar);
    if |days| == 0 then None else Some(days[PeakIndex(days)])
  }

  /**
   * With every count present, the peak is a calendar day with the largest count, and every
   * later day has a smaller one: of several days with the largest count, the last one wins.
   */
  lemma PeakDayIsLastMaximum(calendar: Option<seq<CalendarDay>>)
    requires forall k :: 0 <= k < |Days(calendar)| ==> Days(calendar)[k].count.Some?
    ensures PeakDay(calendar).Some? ==>
              exists p :: 0 <= p < |Days(calendar)| && PeakDay(calendar).value == Days(calendar)[p] &&
                (forall k :: 0 <= k < |Days(calendar)| ==> Count(Days(calendar)[k]) <= Count(Days(calendar)[p])) &&
                (forall k :: p < k < |Days(calendar)| ==> Count(Days(calendar)[k]) < Count(Days(calendar)[p]))
  {
    var days := Days(calendar);
    if days != [] {
      PeakIndexIsLastMaximum(days);
      assert PeakDay(calendar).value == days[PeakIndex(days)];
    }
  }

  predicate Active(d: CalendarDay) {
    Count(d) > 0
  }

  /** `totalDays`: the days with at least one session; never more than the calendar has. */
  function TotalDays(calendar: Option<seq<CalendarDay>>): (n: nat)
    ensures n <= |Days(calendar)|
    ensures n == 0 <==> forall k :: 0 <= k < |Days(calendar)| ==> Count(Days(calendar)[k]) == 0
  {
    CountZero(Days(calendar), Active);
    CountWhere(Days(calendar), Active)
  }

  /** `avgPerAthlete`: sessions per athlete in tenths, 0 when either total is missing or 0. */
  function AvgPerAthlete(summary: Option<Summary>): (tenths: int)
    ensures tenths >= 0
    ensures summary.None? || summary.value.totalAthletes.GetOr(0) == 0 || summary.value.totalSessions.GetOr(0) == 0 ==> tenths == 0
    ensures summary.Some? && summary.value.totalAthletes.GetOr(0) > 0 ==>
              tenths as real - 0.5 <= 10.0 * (summary.value.totalSessions.GetOr(0) as real / summary.value.totalAthletes.GetOr(0) as real) < tenths as real + 0.5
  {
    if summary.None? then 0
    else
      var athletes := summary.value.totalAthletes.GetOr(0);
      var sessions := summary.value.totalSessions.GetOr(0);
      if athletes == 0 || sessions == 0 then 0 else Tenths(sessions as real / athletes as real)
  }

  datatype Totals = Totals(total: nat, active: nat, inactive: nat)

  /** The summary row: each total, 0 when missing. */
  function SummaryTotals(summary: Option<Summary>): (t: Totals)
    ensures summary.None? ==> t == Totals(0, 0, 0)
  {
    if summary.None? then Totals(0, 0, 0)
    else Totals(summary.value.totalSessions.GetOr(0), summary.value.activeAthletes.GetOr(0), summary.value.inactiveAthletes.GetOr(0))
  }
}
