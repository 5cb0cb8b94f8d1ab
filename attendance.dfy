/**
 * The attendance page: the streak of consecutive active days counted back from today,
 * the analytics shown in the KPI cards, and the selected date that opens the date dialog.
 * The current moment is a day number `today`; `isoDate` gives the `YYYY-MM-DD` UTC date
 * string of a day number (`toISOString().split("T")[0]`).
 */
module AttendancePage {
  import opened Wrappers
  import opened Numeric
  import opened Seqs
  import opened AttendanceReport
  import Leaderboard
  import AttendanceCharts
  import SessionOverview

  /** How many days back the streak looks. */
  const StreakWindow: nat := 90

  /** The dates of the calendar days with sessions (`filter(d => d.count > 0).map(d => d.date)`). */
  function ActiveDates(calendar: Option<seq<CalendarDay>>): (dates: seq<Option<string>>)
    ensures |dates| <= |calendar.GetOr([])|
  {
    var active := Filter(calendar.GetOr([]), SessionOverview.Active);
    seq(|active|, k requires 0 <= k < |active| => active[k].date)
  }

  /** For each of the 90 days back from today (today first), whether it is an active date. */
  function Hits(dates: seq<Option<string>>, today: int, isoDate: int -> string): (h: seq<bool>)
    ensures |h| == StreakWindow
  {
    seq(StreakWindow, i requires 0 <= i < StreakWindow => Some(isoDate(today - i)) in dates)
  }

  /** The number of leading entries equal to `b`. */
  function RunLength(h: seq<bool>, b: bool): (n: nat)
    ensures n <= |h|
  {
    if h == [] || h[0] != b then 0 else 1 + RunLength(h[1..], b)
  }

  /** A run is measured by where it ends: `n` leading entries equal to `b`, then the end or another value. */
  lemma {:induction false} RunLengthIs(h: seq<bool>, b: bool, n: nat)
    requires n <= |h|
    requires forall k :: 0 <= k < n ==> h[k] == b
    requires n == |h| || h[n] != b
    ensures RunLength(h, b) == n
  {
    if n > 0 {
      RunLengthIs(h[1..], b, n - 1);
    }
  }

  /** The streak: skip the days without sessions up to the first active one, then count active days until a gap. */
  function StreakOf(h: seq<bool>): (n: nat)
    ensures n <= |h|
  {
    var lead := RunLength(h, false);
    RunLength(h[lead..], true)
  }

  /** The streak is 0 exactly when no day of the window is active. */
  lemma StreakZero(h: seq<bool>)
    ensures StreakOf(h) == 0 <==> forall k :: 0 <= k < |h| ==> !h[k]
  {
    var lead := RunLength(h, false);
    if forall k :: 0 <= k < |h| ==> !h[k] {
      RunLengthIs(h, false, |h|);
    } else {
      var j :| 0 <= j < |h| && h[j];
      StreakSkipsLead(h, lead);
      assert lead <= j;
      assert h[lead..][0];
    }
  }

  lemma {:induction false} StreakSkipsLead(h: seq<bool>, lead: nat)
    requires lead == RunLength(h, false)
    ensures forall k :: 0 <= k < lead ==> !h[k]
    ensures lead < |h| ==> h[lead]
  {
    if h != [] && !h[0] {
      StreakSkipsLead(h[1..], lead - 1);
    }
  }

  /** A run of active days from the first active day up to a gap (or the window's end) is the streak. */
  lemma StreakOfRun(h: seq<bool>, lead: nat, end: nat)
    requires lead < end <= |h|
    requires forall k :: 0 <= k < lead ==> !h[k]
    requires forall k :: lead <= k < end ==> h[k]
    requires end == |h| || !h[end]
    ensures StreakOf(h) == end - lead
  {
    RunLengthIs(h, false, lead);
    RunLengthIs(h[lead..], true, end - lead);
  }

  /** `streak`: the loop over the last 90 days that stops at the first gap after an active day. */
  method Streak(calendar: Option<seq<CalendarDay>>, today: int, isoDate: int -> string) returns (count: nat)
    ensures count == StreakOf(Hits(ActiveDates(calendar), today, isoDate))
    ensures count <= StreakWindow
  {
    var dates := ActiveDates(calendar);
    ghost var h := Hits(dates, today, isoDate);
    if calendar.None? || |calendar.value| == 0 || |dates| == 0 {
      StreakZero(h);
      return 0;
    }
    count := 0;
    var i := 0;
    while i < StreakWindow
      invariant 0 <= i <= StreakWindow
      invariant count == 0 ==> forall k :: 0 <= k < i ==> !h[k]
      invariant count > 0 ==> count <= i && (forall k :: 0 <= k < i - count ==> !h[k]) &&
                              (forall k :: i - count <= k < i ==> h[k])
    {
      var str := isoDate(today - i);
      if Some(str) in dates {
        count := count + 1;
      } else if count > 0 {
        StreakOfRun(h, i - count, i);
        return;
      }
      i := i + 1;
    }
    if count == 0 {
      StreakZero(h);
    } else {
      StreakOfRun(h, i - count, i);
    }
  }

  datatype Analytics = Analytics(avgCompletion: int, highRisk: nat)

  /** `toFixed(0)` of a number: the nearest whole number, halves away from zero. */
  function ToFixed0(x: real): (n: int)
    ensures x >= 0.0 ==> n == Round(x)
    ensures x >= 0.0 ==> n as real - 0.5 <= x < n as real + 0.5
    ensures x < 0.0 ==> n as real - 0.5 < x <= n as real + 0.5
  {
    if x >= 0.0 then Round(x) else -Round(-x)
  }

  predicate Lagging(a: ReportAthlete) {
    Rate(a) < 50.0
  }

  /** `analytics`: none without a report; the rounded mean completion rate and the athletes below 50%. */
  function AnalyticsOf(report: Option<Report>): (r: Option<Analytics>)
    ensures r.None? <==> report.None?
    ensures r.Some? ==> r.value.highRisk <= |report.value.athletes.GetOr([])|
    ensures r.Some? && report.value.athletes.GetOr([]) == [] ==> r.value == Analytics(0, 0)
    ensures r.Some? && report.value.athletes.GetOr([]) != [] ==>
              var athletes := report.value.athletes.GetOr([]);
              var mean := Leaderboard.Sum(Leaderboard.Rates(athletes)) / |athletes| as real;
              (mean >= 0.0 ==> r.value.avgCompletion as real - 0.5 <= mean < r.value.avgCompletion as real + 0.5) &&
              (mean < 0.0 ==> r.value.avgCompletion as real - 0.5 < mean <= r.value.avgCompletion as real + 0.5)
  {
    if report.None? then None
    else
      var athletes := report.value.athletes.GetOr([]);
      var rates := Leaderboard.Rates(athletes);
      var avg := if |athletes| > 0 then ToFixed0(Leaderboard.Sum(rates) / |athletes| as real) else 0;
      Some(Analytics(avg, CountWhere(athletes, Lagging)))
  }

  /** An athlete below 50% is exactly one in the "Below 50%" band. */
  lemma {:induction false} LaggingIsNeedsWork(athletes: seq<ReportAthlete>)
    ensures CountWhere(athletes, Lagging) == CountWhere(athletes, AttendanceCharts.IsNeedsWork)
  {
    if athletes != [] {
      LaggingIsNeedsWork(athletes[1..]);
    }
  }

  /** The KPI's high-risk count is the number of athletes below 50%: the "Below 50%" band of the completion chart. */
  lemma HighRiskIsNeedsWork(report: Report)
    ensures AnalyticsOf(Some(report)).value.highRisk == CountWhere(report.athletes.GetOr([]), AttendanceCharts.IsNeedsWork)
  {
    LaggingIsNeedsWork(report.athletes.GetOr([]));
  }

  /** With rates between 0 and 100, the KPI mean is a percentage and equals the leaderboard's mean. */
  lemma AnalyticsMatchesLeaderboard(report: Report)
    requires forall k :: 0 <= k < |report.athletes.GetOr([])| ==> 0.0 <= Rate(report.athletes.GetOr([])[k]) <= 100.0
    ensures var a := AnalyticsOf(Some(report)).value;
            0 <= a.avgCompletion <= 100 &&
            a.avgCompletion == Leaderboard.SummaryStats(report.athletes).avg
  {
    var athletes := report.athletes.GetOr([]);
    if athletes != [] {
      var rates := Leaderboard.Rates(athletes);
      var mean := Leaderboard.Sum(rates) / |athletes| as real;
      Leaderboard.MeanWithin(rates, 0.0, 100.0);
      RoundBetween(mean, 0, 100);
    }
  }

  /** The page gives the overview card no summary, so its per-athlete average and totals are 0. */
  function OverviewSummary(report: Option<Report>): (summary: Option<Summary>)
    ensures SessionOverview.AvgPerAthlete(summary) == 0
    ensures SessionOverview.SummaryTotals(summary) == SessionOverview.Totals(0, 0, 0)
  {
    None
  }

  /**
   * The page's date state: the selected date (set by a heatmap click, cleared by closing the
   * dialog), the detail fetched for it and whether that fetch is running. `Detail` is the
   * backend's payload, which the page passes on unread.
   */
  class AttendanceView<Detail> {
    const hasToken: bool
    var selectedDate: Option<string>
    var dateDetail: Option<Detail>
    var dateLoading: bool

    constructor(hasToken: bool)
      ensures this.hasToken == hasToken
      ensures selectedDate == None && dateDetail == None && !dateLoading
    {
      this.hasToken := hasToken;
      selectedDate := None;
      dateDetail := None;
      dateLoading := false;
    }

    /** `isOpen={!!selectedDate}`. */
    predicate DialogOpen()
      reads this
    {
      Present(selectedDate)
    }

    /** The heatmap's `onDateClick`: the date becomes the selection. */
    method SelectDate(date: string)
      modifies this
      ensures selectedDate == Some(date)
      ensures dateDetail == old(dateDetail) && dateLoading == old(dateLoading)
    {
      selectedDate := Some(date);
    }

    /** `onClose`: the selection is cleared. */
    method CloseDialog()
      modifies this
      ensures selectedDate == None && !DialogOpen()
      ensures dateDetail == old(dateDetail) && dateLoading == old(dateLoading)
    {
      selectedDate := None;
    }

    /**
     * The effect on the selected date: without a token or a selection the detail is cleared
     * and nothing is asked; otherwise loading starts and the date is returned as the request.
     */
    method DateEffect() returns (request: Option<string>)
      modifies this
      ensures selectedDate == old(selectedDate)
      ensures !hasToken || !Present(selectedDate) ==>
                request == None && dateDetail == None && dateLoading == old(dateLoading)
      ensures hasToken && Present(selectedDate) ==>
                request == selectedDate && dateLoading && dateDetail == old(dateDetail)
    {
      if !hasToken || !Present(selectedDate) {
        dateDetail := None;
        return None;
      }
      dateLoading := true;
      request := selectedDate;
    }

    /** The fetch ends: a detail that arrived replaces the old one, a failure keeps it; loading stops. */
    method DateFetched(outcome: Option<Detail>)
      modifies this
      ensures dateDetail == (if outcome.Some? then outcome else old(dateDetail))
      ensures !dateLoading && selectedDate == old(selectedDate)
    {
      if outcome.Some? {
        dateDetail := outcome;
      }
      dateLoading := false;
    }
  }

  /** Closing the dialog and running the effect leaves no date detail behind. */
  method CloseClearsDetail<Detail>(view: AttendanceView<Detail>)
    modifies view
    ensures !view.DialogOpen() && view.dateDetail == None
  {
    view.CloseDialog();
    var request := view.DateEffect();
    assert request == None;
  }
}
