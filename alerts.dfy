/**
 * The execution alerts card: an inactivity alert per athlete with sessions but none on
 * the last seven calendar days, a low-completion alert per athlete with sessions below
 * 50%, one summary of the top performers, in that order, at most six in all.
 */
module ExecutionAlerts {
  import opened Wrappers
  import opened Seqs
  import opened Sorting
  import opened AttendanceReport

  /** An alert; the message text is built from these fields. */
  datatype Alert = NeedsAttention(name: string) | LowCompletion(name: string, rate: Option<real>) | TopPerformersSummary(count: nat)

  /** `calendar?.slice(-7).map(c => c.date) || []`: the dates of the last seven calendar entries. */
  function RecentDates(calendar: Option<seq<CalendarDay>>): (r: seq<Option<string>>)
    ensures calendar.None? ==> r == []
    ensures calendar.Some? ==> |r| == if |calendar.value| <= 7 then |calendar.value| else 7
    ensures calendar.Some? ==> forall k :: 0 <= k < |r| ==> r[k] == calendar.value[|calendar.value| - |r| + k].date
  {
    if calendar.None? then []
    else
      var days := calendar.value;
      var start := if |days| <= 7 then 0 else |days| - 7;
      seq(|days| - start, k requires 0 <= k < |days| - start => days[start + k].date)
  }

  /** `a.sessionDates?.some(d => recentDates.includes(d))`: false without session dates. */
  predicate HasRecentSession(a: ReportAthlete, recent: seq<Option<string>>) {
    a.sessionDates.Some? && exists k :: 0 <= k < |a.sessionDates.value| && Some(a.sessionDates.value[k]) in recent
  }

  predicate Inactive(a: ReportAthlete, recent: seq<Option<string>>) {
    !HasRecentSession(a, recent) && HasSessions(a)
  }

  predicate LowCompleting(a: ReportAthlete) {
    Rate(a) < 50.0 && HasSessions(a)
  }

  predicate TopPerformer(a: ReportAthlete) {
    Rate(a) >= 90.0 && a.totalSessions.Some? && a.totalSessions.value >= 5
  }

  /** `a.name || 'Athlete'`. */
  function AlertName(a: ReportAthlete): string {
    if Present(a.name) then a.name.value else "Athlete"
  }

  /** The inactivity alerts, one per inactive athlete, in list order. */
  function InactivityAlerts(athletes: seq<ReportAthlete>, recent: seq<Option<string>>): (r: seq<Alert>)
    ensures forall k :: 0 <= k < |r| ==> r[k].NeedsAttention?
  {
    if athletes == [] then []
    else
      var a := athletes[|athletes| - 1];
      InactivityAlerts(athletes[..|athletes| - 1], recent) + (if Inactive(a, recent) then [NeedsAttention(AlertName(a))] else [])
  }

  /** The low-completion alerts, one per athlete with sessions below 50%, in list order. */
  function LowCompletionAlerts(athletes: seq<ReportAthlete>): (r: seq<Alert>)
    ensures forall k :: 0 <= k < |r| ==> r[k].LowCompletion?
  {
    if athletes == [] then []
    else
      var a := athletes[|athletes| - 1];
      LowCompletionAlerts(athletes[..|athletes| - 1]) + (if LowCompleting(a) then [LowCompletion(AlertName(a), a.avgCompletionRate)] else [])
  }

  /** The single summary of the top performers, when there is one. */
  function SummaryAlert(athletes: seq<ReportAthlete>): seq<Alert> {
    var top := CountWhere(athletes, TopPerformer);
    if top > 0 then [TopPerformersSummary(top)] else []
  }

  function KindRank(a: Alert): nat {
    match a
    case NeedsAttention(_) => 0
    case LowCompletion(_, _) => 1
    case TopPerformersSummary(_) => 2
  }

  /** Every alert before the cap. */
  function AllAlerts(athletes: seq<ReportAthlete>, calendar: Option<seq<CalendarDay>>): seq<Alert> {
    InactivityAlerts(athletes, RecentDates(calendar)) + LowCompletionAlerts(athletes) + SummaryAlert(athletes)
  }

  /** The alerts of `athletes` with one more athlete appended to it. */
  lemma AlertsAppend(athletes: seq<ReportAthlete>, a: ReportAthlete, recent: seq<Option<string>>)
    ensures InactivityAlerts(athletes + [a], recent) ==
              InactivityAlerts(athletes, recent) + (if Inactive(a, recent) then [NeedsAttention(AlertName(a))] else [])
    ensures LowCompletionAlerts(athletes + [a]) ==
              LowCompletionAlerts(athletes) + (if LowCompleting(a) then [LowCompletion(AlertName(a), a.avgCompletionRate)] else [])
  {
    assert (athletes + [a])[..|athletes|] == athletes;
  }

  /** `alerts`: the two `forEach` loops that push the per-athlete alerts, the summary, and the cap of six. */
  method Alerts(athletes: Option<seq<ReportAthlete>>, calendar: Option<seq<CalendarDay>>) returns (alerts: seq<Alert>)
    ensures alerts == Take(AllAlerts(athletes.GetOr([]), calendar), 6)
  {
    var list := athletes.GetOr([]);
    var recent := RecentDates(calendar);
    var alertList := [];
    var i := 0;
    while i < |list|
      invariant 0 <= i <= |list|
      invariant alertList == InactivityAlerts(list[..i], recent)
    {
      var a := list[i];
      assert list[..i + 1] == list[..i] + [a];
      AlertsAppend(list[..i], a, recent);
      if Inactive(a, recent) {
        alertList := alertList + [NeedsAttention(AlertName(a))];
      }
      i := i + 1;
    }
    assert list[..i] == list;
    var inactivity := alertList;
    i := 0;
    while i < |list|
      invariant 0 <= i <= |list|
      invariant alertList == inactivity + LowCompletionAlerts(list[..i])
    {
      var a := list[i];
      assert list[..i + 1] == list[..i] + [a];
      AlertsAppend(list[..i], a, recent);
      if LowCompleting(a) {
        alertList := alertList + [LowCompletion(AlertName(a), a.avgCompletionRate)];
      }
      i := i + 1;
    }
    assert list[..i] == list;
    var topPerformers := Filter(list, TopPerformer);
    CountIsFilterLength(list, TopPerformer);
    if |topPerformers| > 0 {
      alertList := alertList + [TopPerformersSummary(|topPerformers|)];
    }
    assert alertList == AllAlerts(list, calendar);
    alerts := Take(alertList, 6);
  }

  /** Inactivity alerts come first, then low-completion alerts, then the summary, which is the only one of its kind. */
  lemma AlertsOrdered(athletes: seq<ReportAthlete>, calendar: Option<seq<CalendarDay>>)
    ensures var all := AllAlerts(athletes, calendar);
            (forall i, j :: 0 <= i < j < |all| ==> KindRank(all[i]) <= KindRank(all[j])) &&
            (forall i :: 0 <= i < |all| - 1 ==> !all[i].TopPerformersSummary?)
  {
  }

  /** The number of inactivity alerts is the number of inactive athletes. */
  lemma {:induction false} InactivityAlertsCount(athletes: seq<ReportAthlete>, recent: seq<Option<string>>)
    ensures |InactivityAlerts(athletes, recent)| == CountWhere(athletes, a => Inactive(a, recent))
  {
    if athletes != [] {
      var init := athletes[..|athletes| - 1];
      InactivityAlertsCount(init, recent);
      assert athletes == init + [athletes[|athletes| - 1]];
      CountAppend(init, athletes[|athletes| - 1], a => Inactive(a, recent));
    }
  }

  /** The number of low-completion alerts is the number of athletes with sessions below 50%. */
  lemma {:induction false} LowCompletionAlertsCount(athletes: seq<ReportAthlete>)
    ensures |LowCompletionAlerts(athletes)| == CountWhere(athletes, LowCompleting)
  {
    if athletes != [] {
      var init := athletes[..|athletes| - 1];
      LowCompletionAlertsCount(init);
      assert athletes == init + [athletes[|athletes| - 1]];
      CountAppend(init, athletes[|athletes| - 1], LowCompleting);
    }
  }

  /** Athletes without sessions raise no alert at all. */
  lemma NoSessionsNoAlerts(athletes: seq<ReportAthlete>, calendar: Option<seq<CalendarDay>>)
    requires forall k :: 0 <= k < |athletes| ==> !HasSessions(athletes[k])
    ensures AllAlerts(athletes, calendar) == []
  {
    var recent := RecentDates(calendar);
    InactivityAlertsCount(athletes, recent);
    LowCompletionAlertsCount(athletes);
    CountZero(athletes, a => Inactive(a, recent));
    CountZero(athletes, LowCompleting);
    CountZero(athletes, TopPerformer);
  }
}
